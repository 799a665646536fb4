/** JSON values, how a document decodes to one, and the canonical printer with keys sorted by code unit. */
module JsonValues {
  import opened CodeUnits
  import opened JsonGrammar
  import opened Wrappers

  datatype Keyed<T> = Keyed(key: Text, value: T)

  /** A plain value; an object is its own-key order, so two orders of the same fields are different values here. */
  datatype Json =
    | Null
    | Bool(b: bool)
    | Num(n: int)
    | Str(text: Text)
    | Arr(items: seq<Json>)
    | Obj(fields: seq<Keyed<Json>>)

  // ---------------------------------------------------------------------------------- decoding

  function HexValue(u: CodeUnit): (v: nat)
    requires IsHex(u)
    ensures v < 16
  {
    if u <= 0x39 then u - 0x30 else if u <= 0x46 then u - 0x37 else u - 0x57
  }

  function CharValue(c: StringChar): CodeUnit {
    match c
    case Plain(u) => u
    case Short(letter) => if ShortValue(letter).Some? then ShortValue(letter).value else letter
    case Escaped(a, b, c, d) =>
      if IsHex(a) && IsHex(b) && IsHex(c) && IsHex(d)
      then 4096 * HexValue(a) + 256 * HexValue(b) + 16 * HexValue(c) + HexValue(d)
      else 0
  }

  function Decode(cs: seq<StringChar>): (t: Text)
    ensures |t| == |cs|
  {
    seq(|cs|, i requires 0 <= i < |cs| => CharValue(cs[i]))
  }

  function KeyOf(m: Member): Text {
    Decode(m.key)
  }

  function NaturalValue(digits: Text): nat {
    if digits == [] then 0
    else
      var last := digits[|digits| - 1];
      10 * NaturalValue(digits[..|digits| - 1]) + (if IsDigit(last) then last - ZERO else 0)
  }

  function IntegerValue(literal: Text): int {
    if literal != [] && literal[0] == MINUS then 0 - NaturalValue(literal[1..]) else NaturalValue(literal)
  }

  /** The value `JSON.parse` builds; the fields are in text order. */
  function ValueOf(doc: Document): Json {
    match doc
    case NullDoc => Null
    case BoolDoc(b) => Bool(b)
    case NumberDoc(literal) => Num(IntegerValue(literal))
    case StringDoc(chars) => Str(Decode(chars))
    case ArrayDoc(_, items) => Arr(seq(|items|, i requires 0 <= i < |items| => ValueOf(items[i].value)))
    case ObjectDoc(_, members) =>
      Obj(seq(|members|, i requires 0 <= i < |members| => Keyed(KeyOf(members[i]), ValueOf(members[i].item.value))))
  }
}
