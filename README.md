# secret: a verified model of the guarded `Text` value

Package `secret` guards a secret string so that it does not leak into logs or serialized
output. A `Text` has two pointers: `v` holds the secret and `r` holds a redact hint.
Printing (`String`) and text marshalling (`MarshalText`) show only the hint. The secret comes
out only through the explicit `Value` accessor. `UnmarshalText` rebuilds the receiver from new
storage and keeps the old hint. `Equals` compares secrets and ignores hints.

The model is written in Dafny:

- `secret.dfy` (module `Secret`) models `secret.go`. A Go `string` is a byte sequence
  (`GoString`), so `[]byte(s)` and `string(b)` are the identity. A Go `*string` is a
  reference to a `Box`, and nil is `null`. A `Text` variable is a `Text` object with two
  `Box?` fields. Go's struct assignment is the `Copy` constructor, which copies both pointers.
  The zero value is the `Zero` constructor.
- `String`, `Value`, `MarshalText` and `Equals` are functions whose `reads` clauses name the
  boxes they look at. `String` and `MarshalText` do not read the secret's box, and `Value` does
  not read the hint's box.
- `New`, `WithRedact` and `UnmarshalText` allocate and write boxes. They are a constructor and
  methods whose `fresh` and `modifies` clauses say what they allocate and what they may write.
  `UnmarshalText` writes only the receiver's own two fields and no existing box, so a copy taken
  before the call keeps its values.
- `properties.dfy` (module `SecretProperties`) holds the lemmas and small client programs that
  relate several calls.

Where a Go nil pointer is dereferenced without a check (`MarshalText`'s hint,
`Equals`'s two secrets, `WithRedact`'s hint), Go panics. The model states that pointer as a
`requires`. A nil `*Text` receiver of `Equals` or `UnmarshalText` panics too. A Dafny receiver
is never null, so that case does not arise in the model.

## Model

| member | source | states |
|---|---|---|
| `Secret.Ascii` | secret.go:30-34 | an ASCII string literal becomes one byte per character, each holding that character's code |
| `Secret.HintConstants` | secret.go:30-34 | `FiveStar` is five `*`, `FiveX` is five `X`, `Redacted` is exactly the bytes of `[REDACTED]`, and the three differ |
| `Secret.Text.Zero` | secret.go:9-14 | the zero `Text` has both pointers nil and satisfies the no-shared-box invariant |
| `Secret.Text.Copy` | secret.go:38-39 | a struct copy holds the same two pointers, so it reveals and renders like the original |
| `Secret.Text.New` | secret.go:16-27 | two freshly allocated, distinct boxes; `Value()` is the secret and `String()` is `FiveStar` |
| `Secret.Box.constructor` | secret.go:19-20 | `new(string)`: a newly allocated box holding the empty string |
| `Secret.Text.String` | secret.go:44-51 | the hint box's contents, or `FiveStar` when there is no hint box (the zero value); reads only the Text and its hint box |
| `Secret.Text.Value` | secret.go:53-59 | the value box's contents, or "" when there is no value box (the zero value); reads only the Text and its value box |
| `Secret.Text.MarshalText` | secret.go:61-65 | needs a hint box; returns exactly the bytes `String()` shows and a nil error; for a valid Text its frame excludes the secret's box |
| `Secret.Text.MarshalTextGuarded` | secret.go:61-65 | the nil-checked variant: for every Text, the zero value included, returns the bytes `String()` shows and a nil error, and agrees with `MarshalText` wherever that is defined |
| `Secret.Text.Equals` | secret.go:81-84 | needs both secret boxes; true iff the two `Value()`s are equal, whatever the hints |
| `Secret.Text.EqualsGuarded` | secret.go:81-84 | the nil-checked variant: for every pair of Texts, true iff the two `Value()`s are equal, and agrees with `Equals` wherever that is defined |
| `Secret.Text.WithRedact` | secret.go:36-42 | needs a hint box; the result shares both boxes with the receiver, and both it and the receiver now render `h`; for a valid Text the secret is unchanged |
| `Secret.Text.WithRedactFresh` | secret.go:36-37 | the documented behaviour: a copy with the same secret whose hint `h` is in a new box; nothing that existed before is written |
| `Secret.Text.UnmarshalText` | secret.go:67-79 | both fields are rebound to fresh boxes; `Value()` is the input, `String()` is the hint from before the call (`FiveStar` if there was none), the error is nil, and no box that existed before is written |
| `SecretProperties.ZeroValueDefaults` | secret.go:46-59 | a zero `Text` renders `FiveStar` and reveals the empty string |
| `SecretProperties.StringIgnoresSecret` | secret.go:44-51 | whatever happens to the secret's box, `String()` stays the same as long as the Text and its hint box are unchanged |
| `SecretProperties.ValueIgnoresHint` | secret.go:53-59 | whatever happens to the hint's box, `Value()` stays the same as long as the Text and its secret box are unchanged |
| `SecretProperties.EqualsIsEquivalence` | secret.go:81-84 | `Equals` is reflexive, symmetric and transitive on Texts that have a secret |
| `SecretProperties.EqualsIgnoresHints` | secret.go:81-84 | two Texts built from the same secret are equal after being given different hints; Texts built from different secrets are not equal |
| `SecretProperties.WithRedactChangesReceiver` | secret.go:36-42 | after `t.WithRedact(FiveX)`, `t` itself renders `FiveX` and no longer `FiveStar` |
| `SecretProperties.WithRedactFreshKeepsReceiver` | secret.go:36-37 | after `t.WithRedactFresh(FiveX)`, the copy renders `FiveX` while `t` still renders `FiveStar` |
| `SecretProperties.UnmarshalKeepsEarlierCopies` | secret.go:69-79 | a copy taken before `UnmarshalText` still reveals and renders its old values, and both of the receiver's pointers now differ from the copy's |
| `SecretProperties.ReparseKeepsHint` | secret.go:72-74 | a Text given the `Redacted` hint and then unmarshalled still renders `Redacted` and reveals the new input |
| `SecretProperties.ReparseZeroValue` | secret.go:75-77 | unmarshalling into a zero Text gives it the `FiveStar` hint and the input as secret |
| `SecretProperties.ZeroValueMarshalGap` | secret.go:46-51 | a zero Text renders `FiveStar` yet has no hint box, so it is outside `MarshalText`'s domain; the guarded variant marshals it to `FiveStar` |
| `SecretProperties.ZeroValueEqualsGap` | secret.go:54-59 | a zero Text reveals "" yet has no value box, so it is outside `Equals`' domain; the guarded variant finds it equal to a Text holding "" |
| `SecretProperties.ReparseOwnText` | secret.go:63-79 | unmarshalling a Text's own marshalled text makes its old hint its secret and keeps the hint, so the secret is not recovered |

## Left out

- The `fmt` and `encoding/json` dispatch is not modelled. This covers how `%v`, `json.Marshal` and `json.Unmarshal` find `String`, `MarshalText` and `UnmarshalText`, and how JSON quotes strings. That code lives in Go's standard library. Only the hooks' own bodies are modelled.
- The tests use `Secret`, `NewText`, a variadic `New` with options, `FiveXs` and `CustomRedact`, and they unmarshal JSON into a `Text`. `secret.go` defines none of these names and no `MarshalJSON` or `UnmarshalJSON` hooks, so the model has none of them. The tests' printed hints (`*****`, `[REDACTED]`, `XXXXX`) agree with the constants in `HintConstants`.
- `Secret.Text.MarshalText`, `Secret.Text.Equals` and `Secret.Text.WithRedact` require the pointers they dereference to be non-nil. Go would panic on a nil pointer there, and the model does not include the panic.
- `Secret.Text.Equals` and `Secret.Text.UnmarshalText` have a pointer receiver `*Text`, which Go allows to be nil. Both then panic: `Equals` reads `s.v` and `UnmarshalText` reads `tx.r`. A Dafny receiver is never null, so a nil receiver is not modelled.
- `Secret.Text.MarshalText` returns a byte sequence value. Go returns a newly allocated slice that the caller may change later, and the model does not capture that.
- Garbage collection and concurrency are not modelled. The package has no concurrency.

## Findings

| source | as written | input that shows it | evidently intended | confidence | as-written member | corrected member |
|---|---|---|---|---|---|---|
| secret.go:36-42 | `WithRedact` copies the struct and then writes `h` through the copied hint pointer. That pointer is the receiver's own hint box, so the receiver and every other copy sharing that box take the hint `h`. | `t := New("p"); t.WithRedact(FiveX)`: afterwards `t.String()` is `XXXXX`, not `*****` | "returns a copy of Text but with r as the redact string": only the copy takes the new hint | medium (the doc comment says "copy"); not executed | `Secret.Text.WithRedact`, exhibited by `SecretProperties.WithRedactChangesReceiver` | `Secret.Text.WithRedactFresh`, proved by `SecretProperties.WithRedactFreshKeepsReceiver` |
| secret.go:63-65 | `MarshalText` dereferences the hint pointer without the nil check that `String` (secret.go:47-49) makes, so a zero Text panics when marshalled even though it prints as `*****`. | `var t Text; t.MarshalText()` | marshal what `String` shows, `*****` for the zero value | low (zero values are supported by `String` and `Value`); not executed | `Secret.Text.MarshalText`, exhibited by `SecretProperties.ZeroValueMarshalGap` | `Secret.Text.MarshalTextGuarded` |
| secret.go:82-84 | `Equals` dereferences both value pointers without the nil check that `Value` (secret.go:55-57) makes, so comparing with a zero Text panics even though its `Value()` is "". | `var z Text; t := New(""); t.Equals(z)` | compare what `Value` reveals, "" for the zero value | low (zero values are supported by `Value`); not executed | `Secret.Text.Equals`, exhibited by `SecretProperties.ZeroValueEqualsGap` | `Secret.Text.EqualsGuarded` |

No other member calls `MarshalText` on a zero Text or `Equals` on one, so the guarded variants
change nothing elsewhere in the model. `UnmarshalText` still calls the as-written `WithRedact`, as `secret.go` does. It calls it on a
`Text` that `New` has just allocated, and no other Text holds that `Text`'s boxes. So the
as-written and corrected versions give `UnmarshalText` the same result, and its contract
holds with either one.
