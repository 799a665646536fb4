/** ECMAScript strings: sequences of UTF-16 code units, compared and measured the way the source does. */
module CodeUnits {

  type CodeUnit = u: int | 0 <= u < 0x1_0000
  type Text = seq<CodeUnit>

  const QUOTE: CodeUnit := 0x22
  const COMMA: CodeUnit := 0x2C
  const MINUS: CodeUnit := 0x2D
  const ZERO: CodeUnit := 0x30
  const COLON: CodeUnit := 0x3A
  const OPEN_BRACKET: CodeUnit := 0x5B
  const BACKSLASH: CodeUnit := 0x5C
  const CLOSE_BRACKET: CodeUnit := 0x5D
  const OPEN_BRACE: CodeUnit := 0x7B
  const CLOSE_BRACE: CodeUnit := 0x7D

  /** The code units of an ASCII literal. */
  function Ascii(s: string): (t: Text)
    requires forall i | 0 <= i < |s| :: s[i] < 128 as char
  {
    seq(|s|, i requires 0 <= i < |s| => s[i] as int)
  }

  predicate IsHighSurrogate(u: CodeUnit) {
    0xD800 <= u < 0xDC00
  }

  predicate IsLowSurrogate(u: CodeUnit) {
    0xDC00 <= u < 0xE000
  }

  /** The order of `Array.prototype.sort` on strings: by code unit, a proper prefix first. */
  predicate Below(a: Text, b: Text) {
    b != [] && (a == [] || a[0] < b[0] || (a[0] == b[0] && Below(a[1..], b[1..])))
  }

  lemma {:induction false} BelowIsTotal(a: Text, b: Text)
    ensures Below(a, b) || a == b || Below(b, a)
  {
    if a != [] && b != [] && a[0] == b[0] {
      BelowIsTotal(a[1..], b[1..]);
      if a[1..] == b[1..] {
        assert a == [a[0]] + a[1..] && b == [b[0]] + b[1..];
      }
    }
  }

  lemma {:induction false} BelowIsTransitive(a: Text, b: Text, c: Text)
    requires Below(a, b) && Below(b, c)
    ensures Below(a, c)
  {
    if a != [] && a[0] == b[0] == c[0] {
      BelowIsTransitive(a[1..], b[1..], c[1..]);
    }
  }

  lemma {:induction false} BelowIsIrreflexive(a: Text)
    ensures !Below(a, a)
  {
    if a != [] {
      BelowIsIrreflexive(a[1..]);
    }
  }

  /** `Buffer.byteLength`: UTF-8 length, a lone surrogate counting as the replacement character. */
  function ByteLength(t: Text): nat {
    if t == [] then 0
    else if t[0] < 0x80 then 1 + ByteLength(t[1..])
    else if t[0] < 0x800 then 2 + ByteLength(t[1..])
    else if |t| > 1 && IsHighSurrogate(t[0]) && IsLowSurrogate(t[1]) then 4 + ByteLength(t[2..])
    else 3 + ByteLength(t[1..])
  }
}
