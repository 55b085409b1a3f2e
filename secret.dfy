/** A model of package `secret`: the guarded value `Text`, which holds a secret string and a
    redact hint, each behind its own pointer, and only ever shows the hint when it is printed
    or marshalled.

    Go strings are immutable byte sequences, so a Go `string` is a `GoString` (a `seq<byte>`)
    and the conversions `[]byte(s)` and `string(b)` are the identity on it. A Go `*string` is a
    `Box` reference (`Box?` where it may be nil), and a variable of type `Text` is a `Text`
    object: assigning one `Text` to another (`tx2 := tx`, or passing it to a value receiver)
    copies the two pointers, which the constructor `Copy` models.
 */
module Secret {

  newtype byte = x: int | 0 <= x < 256

  type GoString = seq<byte>

  predicate IsAscii(s: string) {
    forall i :: 0 <= i < |s| ==> s[i] as int < 128
  }

  /** The bytes of a Go string literal written in ASCII: one byte per character, with the
      character's code. */
  function Ascii(s: string): (b: GoString)
    requires IsAscii(s)
    ensures |b| == |s|
    ensures forall i :: 0 <= i < |s| ==> b[i] as int == s[i] as int
  {
    if s == [] then [] else [s[0] as int as byte] + Ascii(s[1..])
  }

  /** The three hints the package offers; `FiveStar` is the default that `New` sets. */
  const FiveX: GoString := Ascii("XXXXX")
  const FiveStar: GoString := Ascii("*****")
  const Redacted: GoString := Ascii("[REDACTED]")

  /** A hint that masks with five copies of one symbol. */
  predicate IsMask(h: GoString, c: byte) {
    |h| == 5 && forall i :: 0 <= i < |h| ==> h[i] == c
  }

  /** The three hints are what their names say, and no two of them are alike. */
  lemma HintConstants()
    ensures IsMask(FiveStar, '*' as int as byte) && IsMask(FiveX, 'X' as int as byte)
    ensures Redacted == [91, 82, 69, 68, 65, 67, 84, 69, 68, 93]  // the bytes of "[REDACTED]"
    ensures FiveStar != FiveX && FiveStar != Redacted && FiveX != Redacted
  {
  }

  /** Go's `error`: `Nil` is the nil error, `Failure` stands for any non-nil error value. The
      hooks of this package only ever return `Nil`. */
  datatype Error = Nil | Failure(msg: string)

  /** The storage a Go `*string` points to. `new(string)` allocates one holding "". */
  class Box {
    var s: GoString

    constructor ()
      ensures s == []
    {
      s := [];
    }
  }

  class Text {
    /** The secret value. */
    var v: Box?
    /** The redact hint used in place of the secret. */
    var r: Box?

    /** What every Text built by this package satisfies: the secret and the hint never share
        a box, so writing one never changes the other. */
    predicate Valid()
      reads this
    {
      v != null ==> v != r
    }

    /** The zero value `Text{}`, never built by `New`. */
    constructor Zero()
      ensures v == null && r == null
      ensures Valid()
    {
      v, r := null, null;
    }

    /** Go's struct assignment: the copy holds the same two pointers as `t`. */
    constructor Copy(t: Text)
      ensures v == t.v && r == t.r
      ensures t.Valid() ==> Valid()
      ensures Value() == t.Value() && String() == t.String()
    {
      v, r := t.v, t.r;
    }

    /** `New`: two newly allocated, distinct boxes, holding the secret and `FiveStar`. */
    constructor New(secret: GoString)
      ensures v != null && r != null && fresh(v) && fresh(r)
      ensures Valid()
      ensures Value() == secret
      ensures String() == FiveStar
    {
      var pv := new Box();
      var pr := new Box();
      pv.s := secret;
      pr.s := FiveStar;
      v, r := pv, pr;
    }

    /** `String`: the hint, or `FiveStar` when there is no hint box. Reads nothing of the
        secret. */
    function String(): (h: GoString)
      reads this, r
      ensures r == null ==> h == FiveStar
      ensures r != null ==> h == r.s
    {
      if r == null then FiveStar else r.s
    }

    /** `Value`: the secret, or "" when there is no value box. Reads nothing of the hint. */
    function Value(): (p: GoString)
      reads this, v
      ensures v == null ==> p == []
      ensures v != null ==> p == v.s
    {
      if v == null then [] else v.s
    }

    /** `MarshalText`: exactly the bytes `String` shows, never the secret, and no error. The
        hint pointer is dereferenced without a nil check, so the zero value panics. */
    function MarshalText(): (res: (seq<byte>, Error))
      requires r != null
      reads this, r
      ensures res.0 == String()
      ensures res.1 == Nil
    {
      (r.s, Nil)
    }

    /** `MarshalText` with the nil check `String` has: a zero Text marshals to the default hint
        instead of panicking. Wherever `MarshalText` is defined, the two agree. */
    function MarshalTextGuarded(): (res: (seq<byte>, Error))
      reads this, r
      ensures res.0 == String()
      ensures res.1 == Nil
      ensures r != null ==> res == MarshalText()
    {
      if r == null then (FiveStar, Nil) else (r.s, Nil)
    }

    /** `Equals`: whether the two secrets are equal; the hints play no part. Both value
        pointers are dereferenced without a nil check. */
    function Equals(s2: Text): (eq: bool)
      requires v != null && s2.v != null
      reads this, v, s2, s2.v
      ensures eq <==> Value() == s2.Value()
    {
      v.s == s2.v.s
    }

    /** `Equals` with the nil check `Value` has: a Text with no value box counts as holding "".
        Wherever `Equals` is defined, the two agree. */
    function EqualsGuarded(s2: Text): (eq: bool)
      reads this, v, s2, s2.v
      ensures eq <==> Value() == s2.Value()
      ensures v != null && s2.v != null ==> eq == Equals(s2)
    {
      if v == null then s2.v == null || s2.v.s == []
      else if s2.v == null then v.s == []
      else v.s == s2.v.s
    }

    /** `WithRedact`, as written: a copy sharing both boxes with the receiver, whose hint box is
        then overwritten. Since the box is shared, the receiver's own hint becomes `h` too. */
    method WithRedact(h: GoString) returns (tx2: Text)
      requires r != null
      modifies r
      ensures fresh(tx2)
      ensures tx2.v == v && tx2.r == r
      ensures tx2.String() == h && String() == h
      ensures Valid() ==> tx2.Value() == old(Value()) && Value() == old(Value())
      ensures Valid() ==> tx2.Valid()
    {
      tx2 := new Text.Copy(this);
      tx2.r.s := h;
    }

    /** `WithRedact` as its documentation describes it: a copy with hint `h` in a new box,
        leaving the receiver and every box already allocated untouched. */
    method WithRedactFresh(h: GoString) returns (tx2: Text)
      ensures fresh(tx2) && tx2.r != null && fresh(tx2.r)
      ensures tx2.v == v
      ensures tx2.String() == h && tx2.Value() == Value()
      ensures Valid() ==> tx2.Valid()
    {
      var hint := new Box();
      hint.s := h;
      tx2 := new Text.Copy(this);
      tx2.r := hint;
    }

    /** `UnmarshalText`: the receiver is overwritten with a Text built from new storage, whose
        secret is `b` and whose hint is the old hint (`FiveStar` when there was no hint box).
        Only the receiver's own two fields change: no box allocated before the call is
        written, so copies taken earlier keep their secret and hint. */
    method UnmarshalText(b: seq<byte>) returns (err: Error)
      modifies this
      ensures v != null && r != null && fresh(v) && fresh(r)
      ensures Valid()
      ensures Value() == b
      ensures String() == old(String())
      ensures err == Nil
    {
      var s := b;
      var t: Text;
      if r != null {
        var n := new Text.New(s);
        t := n.WithRedact(r.s);
      } else {
        t := new Text.New(s);
      }
      v, r := t.v, t.r;
      err := Nil;
    }
  }
}
