/** Properties of `Text` that relate several calls: what the zero value shows, which box each
    view depends on, what a reparse keeps, and how copies behave when the storage they share is
    written or replaced. */
module SecretProperties {
  import opened Secret

  /** A zero `Text` shows the default hint and reveals the empty string, without failing. */
  lemma ZeroValueDefaults(t: Text)
    requires t.v == null && t.r == null
    ensures t.String() == FiveStar && t.Value() == []
  {
  }

  /** Writing the secret's box never changes what `String` shows. */
  twostate lemma StringIgnoresSecret(t: Text)
    requires unchanged(t)
    requires t.r != null ==> unchanged(t.r)
    ensures t.String() == old(t.String())
  {
  }

  /** Writing the hint's box never changes what `Value` reveals. */
  twostate lemma ValueIgnoresHint(t: Text)
    requires unchanged(t)
    requires t.v != null ==> unchanged(t.v)
    ensures t.Value() == old(t.Value())
  {
  }

  /** `Equals` is an equivalence on Texts with a secret, whatever their hints. */
  lemma EqualsIsEquivalence(a: Text, b: Text, c: Text)
    requires a.v != null && b.v != null && c.v != null
    ensures a.Equals(a)
    ensures a.Equals(b) ==> b.Equals(a)
    ensures a.Equals(b) && b.Equals(c) ==> a.Equals(c)
  {
  }

  /** Two Texts built from the same secret are equal however their hints were set, and two
      built from different secrets are not. */
  method EqualsIgnoresHints(x: GoString, y: GoString) returns (eq: bool, ne: bool)
    requires x != y
    ensures eq && !ne
  {
    var a := new Text.New(x);
    var a2 := a.WithRedact(FiveX);
    var b := new Text.New(x);
    var b2 := b.WithRedact(Redacted);
    eq := a2.Equals(b2);
    var c := new Text.New(y);
    ne := a.Equals(c);
  }

  /** `WithRedact` as written: the hint written into the copy's box shows through the receiver
      too, which no longer renders the default hint `New` gave it. */
  method WithRedactChangesReceiver(secret: GoString) returns (t: Text, t2: Text)
    ensures t2.String() == FiveX
    ensures t.String() == FiveX && t.String() != FiveStar
    ensures t.Value() == secret && t2.Value() == secret
  {
    HintConstants();
    t := new Text.New(secret);
    t2 := t.WithRedact(FiveX);
  }

  /** The corrected `WithRedactFresh`: the copy shows the new hint, the receiver keeps its own. */
  method WithRedactFreshKeepsReceiver(secret: GoString) returns (t: Text, t2: Text)
    ensures t2.String() == FiveX
    ensures t.String() == FiveStar
    ensures t.Value() == secret && t2.Value() == secret
  {
    t := new Text.New(secret);
    t2 := t.WithRedactFresh(FiveX);
  }

  /** A copy taken before `UnmarshalText` keeps revealing and rendering what it held, and the
      receiver's two pointers no longer match the copy's. */
  method UnmarshalKeepsEarlierCopies(t: Text, b: seq<byte>) returns (c: Text)
    modifies t
    ensures fresh(c)
    ensures c.Value() == old(t.Value()) && c.String() == old(t.String())
    ensures t.Value() == b && t.String() == old(t.String())
    ensures t.v != c.v && t.r != c.r
  {
    c := new Text.Copy(t);
    var _ := t.UnmarshalText(b);
  }

  /** A Text given the `Redacted` hint and then reparsed keeps that hint and takes the new
      secret. */
  method ReparseKeepsHint(a: GoString, b: GoString) returns (t: Text)
    ensures t.String() == Redacted
    ensures t.Value() == b
  {
    var n := new Text.New(a);
    t := n.WithRedact(Redacted);
    var _ := t.UnmarshalText(b);
  }

  /** Reparsing a zero Text gives it the default hint. */
  method ReparseZeroValue(b: GoString) returns (t: Text)
    ensures t.String() == FiveStar
    ensures t.Value() == b
    ensures t.Valid()
  {
    t := new Text.Zero();
    var _ := t.UnmarshalText(b);
  }

  /** Marshalling is lossy by design: reparsing a Text's own marshalled text makes its hint its
      secret. */
  method ReparseOwnText(t: Text)
    requires t.r != null
    modifies t
    ensures t.Value() == old(t.String())
    ensures t.String() == old(t.String())
  {
    var out := t.MarshalText();
    var _ := t.UnmarshalText(out.0);
  }

  /** A zero Text renders the default hint but has no hint box, which `MarshalText` dereferences
      without a check; the guarded variant marshals it to the default hint. */
  method ZeroValueMarshalGap() returns (t: Text)
    ensures t.r == null
    ensures t.String() == FiveStar
    ensures t.MarshalTextGuarded() == (FiveStar, Nil)
  {
    t := new Text.Zero();
  }

  /** A zero Text reveals "" but has no value box, which `Equals` dereferences without a check;
      the guarded variant finds it equal to a Text holding "". */
  method ZeroValueEqualsGap() returns (t: Text, e: Text)
    ensures t.v == null && t.Value() == []
    ensures e.v != null && e.Value() == []
    ensures t.EqualsGuarded(e) && e.EqualsGuarded(t)
  {
    t := new Text.Zero();
    e := new Text.New([]);
  }
}
