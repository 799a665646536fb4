/**
 The grammar of JSON texts (RFC 8259, sections 2 to 7) as concrete documents that print to text, and the
 recursive-descent reader behind `JSON.parse`. The reader is sound and complete for the grammar: it accepts
 exactly the prints of well-formed documents and gives the document back. Number literals are integers.
 */
module JsonGrammar {
  import opened CodeUnits
  import opened Wrappers

  /** What a reader leaves: the thing read and the text after it. */
  datatype Reading<+T> = NoReading | Read(value: T, rest: Text)

  // ---------------------------------------------------------------------------------- documents

  /** One character of a string literal: itself, a two-character escape, or `\u` and four digits. */
  datatype StringChar = Plain(unit: CodeUnit) | Short(letter: CodeUnit) | Escaped(a: CodeUnit, b: CodeUnit, c: CodeUnit, d: CodeUnit)

  /** A document keeps every choice the text makes, so that printing it gives back the same text. */
  datatype Document =
    | NullDoc
    | BoolDoc(b: bool)
    | NumberDoc(literal: Text)
    | StringDoc(chars: seq<StringChar>)
    | ArrayDoc(gap: Text, items: seq<Item>)
    | ObjectDoc(gap: Text, members: seq<Member>)

  datatype Item = Item(before: Text, value: Document, after: Text)
  datatype Member = Member(beforeKey: Text, key: seq<StringChar>, afterKey: Text, item: Item)

  predicate IsSpace(u: CodeUnit) {
    u == 9 || u == 10 || u == 13 || u == 32
  }

  predicate AllSpace(s: Text) {
    forall i | 0 <= i < |s| :: IsSpace(s[i])
  }

  predicate IsHex(u: CodeUnit) {
    0x30 <= u <= 0x39 || 0x41 <= u <= 0x46 || 0x61 <= u <= 0x66
  }

  predicate IsDigit(u: CodeUnit) {
    0x30 <= u <= 0x39
  }

  /** The letters after a backslash other than `u`, with what each stands for. */
  function ShortValue(letter: CodeUnit): Option<CodeUnit> {
    if letter == QUOTE || letter == BACKSLASH || letter == 0x2F then Some(letter)
    else if letter == 0x62 then Some(8)
    else if letter == 0x66 then Some(12)
    else if letter == 0x6E then Some(10)
    else if letter == 0x72 then Some(13)
    else if letter == 0x74 then Some(9)
    else None
  }

  predicate GoodChar(c: StringChar) {
    match c
    case Plain(u) => u >= 0x20 && u != QUOTE && u != BACKSLASH
    case Short(letter) => ShortValue(letter).Some?
    case Escaped(a, b, c, d) => IsHex(a) && IsHex(b) && IsHex(c) && IsHex(d)
  }

  predicate GoodChars(cs: seq<StringChar>) {
    forall i | 0 <= i < |cs| :: GoodChar(cs[i])
  }

  predicate AllDigits(s: Text) {
    s == [] || (IsDigit(s[0]) && AllDigits(s[1..]))
  }

  lemma {:induction false} AllDigitsAt(s: Text)
    ensures AllDigits(s) == forall i | 0 <= i < |s| :: IsDigit(s[i])
  {
    if s != [] {
      AllDigitsAt(s[1..]);
      assert forall i | 1 <= i < |s| :: s[i] == s[1..][i - 1];
      assert forall i | 0 <= i < |s[1..]| :: s[1..][i] == s[i + 1];
    }
  }

  /** A natural number literal: zero, or digits that do not start with zero. */
  predicate IsNaturalLiteral(s: Text) {
    s != [] && AllDigits(s) && (s[0] == ZERO ==> |s| == 1)
  }

  predicate IsIntegerLiteral(s: Text) {
    IsNaturalLiteral(s) || (s != [] && s[0] == MINUS && IsNaturalLiteral(s[1..]))
  }

  predicate GoodDocument(doc: Document) {
    match doc
    case NullDoc => true
    case BoolDoc(_) => true
    case NumberDoc(literal) => IsIntegerLiteral(literal)
    case StringDoc(chars) => GoodChars(chars)
    case ArrayDoc(gap, items) => AllSpace(gap) && (items != [] ==> gap == []) && GoodItems(items)
    case ObjectDoc(gap, members) => AllSpace(gap) && (members != [] ==> gap == []) && GoodMembers(members)
  }

  predicate GoodItem(item: Item) {
    AllSpace(item.before) && GoodDocument(item.value) && AllSpace(item.after)
  }

  predicate GoodItems(items: seq<Item>) {
    items == [] || (GoodItem(items[0]) && GoodItems(items[1..]))
  }

  predicate GoodMember(m: Member) {
    AllSpace(m.beforeKey) && GoodChars(m.key) && AllSpace(m.afterKey) && GoodItem(m.item)
  }

  predicate GoodMembers(members: seq<Member>) {
    members == [] || (GoodMember(members[0]) && GoodMembers(members[1..]))
  }

  // ---------------------------------------------------------------------------------- printing

  const NULL_TEXT: Text := [0x6E, 0x75, 0x6C, 0x6C]
  const TRUE_TEXT: Text := [0x74, 0x72, 0x75, 0x65]
  const FALSE_TEXT: Text := [0x66, 0x61, 0x6C, 0x73, 0x65]

  function CharText(c: StringChar): Text {
    match c
    case Plain(u) => [u]
    case Short(letter) => [BACKSLASH, letter]
    case Escaped(a, b, c, d) => [BACKSLASH, 0x75, a, b, c, d]
  }

  function CharsText(cs: seq<StringChar>): Text {
    if cs == [] then [] else CharText(cs[0]) + CharsText(cs[1..])
  }

  function StringText(cs: seq<StringChar>): Text {
    [QUOTE] + CharsText(cs) + [QUOTE]
  }

  function DocumentText(doc: Document): Text {
    match doc
    case NullDoc => NULL_TEXT
    case BoolDoc(b) => if b then TRUE_TEXT else FALSE_TEXT
    case NumberDoc(literal) => literal
    case StringDoc(chars) => StringText(chars)
    case ArrayDoc(gap, items) => [OPEN_BRACKET] + gap + ItemsText(items) + [CLOSE_BRACKET]
    case ObjectDoc(gap, members) => [OPEN_BRACE] + gap + MembersText(members) + [CLOSE_BRACE]
  }

  function ItemText(item: Item): Text {
    item.before + DocumentText(item.value) + item.after
  }

  function ItemsText(items: seq<Item>): Text {
    if items == [] then []
    else if |items| == 1 then ItemText(items[0])
    else ItemText(items[0]) + [COMMA] + ItemsText(items[1..])
  }

  function MemberText(m: Member): Text {
    m.beforeKey + StringText(m.key) + m.afterKey + [COLON] + ItemText(m.item)
  }

  function MembersText(members: seq<Member>): Text {
    if members == [] then []
    else if |members| == 1 then MemberText(members[0])
    else MemberText(members[0]) + [COMMA] + MembersText(members[1..])
  }

  // ---------------------------------------------------------------------------------- reading

  function SkipSpace(s: Text): (rest: Text)
    ensures |rest| <= |s|
  {
    if s != [] && IsSpace(s[0]) then SkipSpace(s[1..]) else s
  }

  function LeadingSpace(s: Text): Text {
    s[..|s| - |SkipSpace(s)|]
  }

  lemma {:induction false} SkipSpaceSplits(s: Text)
    ensures AllSpace(LeadingSpace(s)) && s == LeadingSpace(s) + SkipSpace(s)
    ensures SkipSpace(s) != [] ==> !IsSpace(SkipSpace(s)[0])
  {
    if s != [] && IsSpace(s[0]) {
      SkipSpaceSplits(s[1..]);
      assert s == [s[0]] + s[1..];
      assert LeadingSpace(s) == [s[0]] + LeadingSpace(s[1..]);
    }
  }

  /** The characters that end a bare literal such as `true` or `-12`. */
  predicate EndsLiteral(u: CodeUnit) {
    IsSpace(u) || u == COMMA || u == CLOSE_BRACE || u == CLOSE_BRACKET
  }

  predicate AtBoundary(s: Text) {
    s == [] || EndsLiteral(s[0])
  }

  /** The longest prefix without a character that ends a literal. */
  function Literal(s: Text): (literal: Text)
    ensures |literal| <= |s|
  {
    if AtBoundary(s) then [] else [s[0]] + Literal(s[1..])
  }

  lemma {:induction false} LiteralSplits(s: Text)
    ensures s == Literal(s) + s[|Literal(s)|..] && AtBoundary(s[|Literal(s)|..])
    ensures forall i | 0 <= i < |Literal(s)| :: !EndsLiteral(Literal(s)[i])
  {
    if !AtBoundary(s) {
      LiteralSplits(s[1..]);
      assert s == [s[0]] + s[1..];
      assert s[|Literal(s)|..] == s[1..][|Literal(s[1..])|..];
    }
  }

  function ReadChar(s: Text): (r: Reading<StringChar>)
    ensures r.Read? ==> |r.rest| < |s|
  {
    if s == [] || s[0] == QUOTE || s[0] < 0x20 then NoReading
    else if s[0] != BACKSLASH then Read(Plain(s[0]), s[1..])
    else if |s| >= 2 && ShortValue(s[1]).Some? then Read(Short(s[1]), s[2..])
    else if |s| >= 6 && s[1] == 0x75 && IsHex(s[2]) && IsHex(s[3]) && IsHex(s[4]) && IsHex(s[5]) then
      Read(Escaped(s[2], s[3], s[4], s[5]), s[6..])
    else NoReading
  }

  /** The rest of a string literal after its opening quote. */
  function ReadChars(s: Text): (r: Reading<seq<StringChar>>)
    ensures r.Read? ==> |r.rest| < |s|
    decreases |s|
  {
    if s != [] && s[0] == QUOTE then Read([], s[1..])
    else
      match ReadChar(s)
      case NoReading => NoReading
      case Read(c, rest) =>
        match ReadChars(rest)
        case NoReading => NoReading
        case Read(cs, rest') => Read([c] + cs, rest')
  }

  function ReadString(s: Text): (r: Reading<seq<StringChar>>)
    ensures r.Read? ==> |r.rest| < |s|
  {
    if s != [] && s[0] == QUOTE then ReadChars(s[1..]) else NoReading
  }

  function ReadLiteral(s: Text): (r: Reading<Document>)
    ensures r.Read? ==> |r.rest| < |s|
  {
    var literal := Literal(s);
    var rest := s[|literal|..];
    if literal == NULL_TEXT then Read(NullDoc, rest)
    else if literal == TRUE_TEXT then Read(BoolDoc(true), rest)
    else if literal == FALSE_TEXT then Read(BoolDoc(false), rest)
    else if IsIntegerLiteral(literal) then Read(NumberDoc(literal), rest)
    else NoReading
  }

  function ReadDocument(s: Text): (r: Reading<Document>)
    ensures r.Read? ==> |r.rest| < |s|
    decreases |s|, 0
  {
    if s == [] then NoReading
    else if s[0] == QUOTE then
      match ReadString(s)
      case NoReading => NoReading
      case Read(chars, rest) => Read(StringDoc(chars), rest)
    else if s[0] == OPEN_BRACKET then
      var inner := SkipSpace(s[1..]);
      if inner != [] && inner[0] == CLOSE_BRACKET then Read(ArrayDoc(LeadingSpace(s[1..]), []), inner[1..])
      else
        match ReadItems(s[1..])
        case NoReading => NoReading
        case Read(items, rest) => Read(ArrayDoc([], items), rest)
    else if s[0] == OPEN_BRACE then
      var inner := SkipSpace(s[1..]);
      if inner != [] && inner[0] == CLOSE_BRACE then Read(ObjectDoc(LeadingSpace(s[1..]), []), inner[1..])
      else
        match ReadMembers(s[1..])
        case NoReading => NoReading
        case Read(members, rest) => Read(ObjectDoc([], members), rest)
    else ReadLiteral(s)
  }

  /** A document with the space around it. */
  function ReadItem(s: Text): (r: Reading<Item>)
    ensures r.Read? ==> |r.rest| < |s|
    decreases |s|, 1
  {
    match ReadDocument(SkipSpace(s))
    case NoReading => NoReading
    case Read(doc, rest) => Read(Item(LeadingSpace(s), doc, LeadingSpace(rest)), SkipSpace(rest))
  }

  /** The items of a non-empty array and its closing bracket. */
  function ReadItems(s: Text): (r: Reading<seq<Item>>)
    ensures r.Read? ==> |r.rest| < |s| && r.value != []
    decreases |s|, 2
  {
    match ReadItem(s)
    case NoReading => NoReading
    case Read(item, rest) =>
      if rest == [] then NoReading
      else if rest[0] == CLOSE_BRACKET then Read([item], rest[1..])
      else if rest[0] != COMMA then NoReading
      else
        match ReadItems(rest[1..])
        case NoReading => NoReading
        case Read(items, rest') => Read([item] + items, rest')
  }

  function ReadMember(s: Text): (r: Reading<Member>)
    ensures r.Read? ==> |r.rest| < |s|
    decreases |s|, 2
  {
    match ReadString(SkipSpace(s))
    case NoReading => NoReading
    case Read(key, rest) =>
      var colon := SkipSpace(rest);
      if colon == [] || colon[0] != COLON then NoReading
      else
        match ReadItem(colon[1..])
        case NoReading => NoReading
        case Read(item, rest') => Read(Member(LeadingSpace(s), key, LeadingSpace(rest), item), rest')
  }

  function ReadMembers(s: Text): (r: Reading<seq<Member>>)
    ensures r.Read? ==> |r.rest| < |s| && r.value != []
    decreases |s|, 3
  {
    match ReadMember(s)
    case NoReading => NoReading
    case Read(m, rest) =>
      if rest == [] then NoReading
      else if rest[0] == CLOSE_BRACE then Read([m], rest[1..])
      else if rest[0] != COMMA then NoReading
      else
        match ReadMembers(rest[1..])
        case NoReading => NoReading
        case Read(members, rest') => Read([m] + members, rest')
  }

  /** `JSON.parse` as a reader of concrete documents: the whole text, with space around the value. */
  function ReadText(text: Text): (r: Option<Item>) {
    match ReadItem(text)
    case NoReading => None
    case Read(item, rest) => if rest == [] then Some(item) else None
  }

  // ---------------------------------------------------------------------------------- soundness

  /** Text that splits at a separator, whose second part splits again, splits at the second place. */
  lemma Regroup(s: Text, a: Text, rest: Text, mid: Text, b: Text, tail: Text)
    requires s == a + rest && rest == mid + b + tail
    ensures s == (a + mid + b) + tail
  {
  }

  lemma SplitAtHead(rest: Text, b: Text, tail: Text)
    requires rest != [] && rest[1..] == b + tail
    ensures rest == [rest[0]] + b + tail
  {
    assert rest == [rest[0]] + rest[1..];
  }

  lemma FirstItem(s: Text, item: Item, rest: Text, items: seq<Item>, tail: Text)
    requires GoodItem(item) && GoodItems(items) && items != []
    requires s == ItemText(item) + rest && rest != [] && rest[0] == COMMA
    requires rest[1..] == ItemsText(items) + [CLOSE_BRACKET] + tail
    ensures GoodItems([item] + items) && s == ItemsText([item] + items) + [CLOSE_BRACKET] + tail
  {
    assert ([item] + items)[1..] == items;
    SplitAtHead(rest, ItemsText(items), [CLOSE_BRACKET] + tail);
    Regroup(s, ItemText(item), rest, [COMMA], ItemsText(items), [CLOSE_BRACKET] + tail);
  }

  lemma LastItem(s: Text, item: Item, rest: Text)
    requires GoodItem(item) && s == ItemText(item) + rest && rest != [] && rest[0] == CLOSE_BRACKET
    ensures GoodItems([item]) && s == ItemsText([item]) + [CLOSE_BRACKET] + rest[1..]
  {
    assert rest == [CLOSE_BRACKET] + rest[1..];
  }

  lemma FirstMember(s: Text, m: Member, rest: Text, members: seq<Member>, tail: Text)
    requires GoodMember(m) && GoodMembers(members) && members != []
    requires s == MemberText(m) + rest && rest != [] && rest[0] == COMMA
    requires rest[1..] == MembersText(members) + [CLOSE_BRACE] + tail
    ensures GoodMembers([m] + members) && s == MembersText([m] + members) + [CLOSE_BRACE] + tail
  {
    assert ([m] + members)[1..] == members;
    SplitAtHead(rest, MembersText(members), [CLOSE_BRACE] + tail);
    Regroup(s, MemberText(m), rest, [COMMA], MembersText(members), [CLOSE_BRACE] + tail);
  }

  lemma LastMember(s: Text, m: Member, rest: Text)
    requires GoodMember(m) && s == MemberText(m) + rest && rest != [] && rest[0] == CLOSE_BRACE
    ensures GoodMembers([m]) && s == MembersText([m]) + [CLOSE_BRACE] + rest[1..]
  {
    assert rest == [CLOSE_BRACE] + rest[1..];
  }

  lemma WholeMember(s: Text, before: Text, key: seq<StringChar>, after: Text, colon: Text, item: Item, tail: Text)
    requires AllSpace(before) && GoodChars(key) && AllSpace(after) && GoodItem(item)
    requires colon != [] && colon[0] == COLON && colon[1..] == ItemText(item) + tail
    requires s == before + (StringText(key) + (after + colon))
    ensures GoodMember(Member(before, key, after, item)) && s == MemberText(Member(before, key, after, item)) + tail
  {
    SplitAtHead(colon, ItemText(item), tail);
    Regroup(s, before, StringText(key) + (after + colon), StringText(key), after, colon);
    Regroup(s, before + StringText(key) + after, colon, [COLON], ItemText(item), tail);
  }

  /** An array or object whose body is `inside` and whose bracket closes right after it. */
  lemma WholeBody(s: Text, inside: Text, close: CodeUnit, tail: Text)
    requires s != [] && s[1..] == inside + [close] + tail
    ensures s == ([s[0]] + [] + inside + [close]) + tail
    ensures s == ([s[0]] + inside + [] + [close]) + tail
  {
    assert s == [s[0]] + s[1..];
    assert [s[0]] + [] == [s[0]] && [s[0]] + inside + [] == [s[0]] + inside;
  }

  lemma ReadCharSound(s: Text)
    ensures ReadChar(s).Read? ==> GoodChar(ReadChar(s).value) && s == CharText(ReadChar(s).value) + ReadChar(s).rest
  {
  }

  lemma {:induction false} ReadCharsSound(s: Text)
    ensures ReadChars(s).Read? ==>
      GoodChars(ReadChars(s).value) && s == CharsText(ReadChars(s).value) + [QUOTE] + ReadChars(s).rest
    decreases |s|
  {
    if (s == [] || s[0] != QUOTE) && ReadChar(s).Read? {
      var c, rest := ReadChar(s).value, ReadChar(s).rest;
      ReadCharSound(s);
      ReadCharsSound(rest);
      if ReadChars(rest).Read? {
        var cs := ReadChars(rest).value;
        assert ([c] + cs)[1..] == cs;
        assert CharsText([c] + cs) == CharText(c) + CharsText(cs);
      }
    }
  }

  lemma ReadStringSound(s: Text)
    ensures ReadString(s).Read? ==>
      GoodChars(ReadString(s).value) && s == StringText(ReadString(s).value) + ReadString(s).rest
  {
    if s != [] && s[0] == QUOTE {
      ReadCharsSound(s[1..]);
      assert s == [QUOTE] + s[1..];
    }
  }

  /** Whatever `JSON.parse` reads is a well-formed document, and it is exactly the text that was read. */
  lemma {:induction false} ReadDocumentSound(s: Text)
    ensures ReadDocument(s).Read? ==>
      GoodDocument(ReadDocument(s).value) && s == DocumentText(ReadDocument(s).value) + ReadDocument(s).rest
    decreases |s|, 1
  {
    if ReadDocument(s).NoReading? {
    } else if s[0] == QUOTE {
      ReadStringSound(s);
    } else if s[0] == OPEN_BRACKET {
      ReadArraySound(s);
    } else if s[0] == OPEN_BRACE {
      ReadObjectSound(s);
    } else {
      ReadLiteralSound(s);
    }
  }

  lemma {:induction false} ReadArraySound(s: Text)
    requires s != [] && s[0] == OPEN_BRACKET && ReadDocument(s).Read?
    ensures GoodDocument(ReadDocument(s).value)
    ensures s == DocumentText(ReadDocument(s).value) + ReadDocument(s).rest
    decreases |s|, 0
  {
    var inner := SkipSpace(s[1..]);
    SkipSpaceSplits(s[1..]);
    if inner != [] && inner[0] == CLOSE_BRACKET {
      assert inner == [CLOSE_BRACKET] + inner[1..];
      WholeBody(s, LeadingSpace(s[1..]), CLOSE_BRACKET, inner[1..]);
    } else {
      ReadItemsSound(s[1..]);
      WholeBody(s, ItemsText(ReadItems(s[1..]).value), CLOSE_BRACKET, ReadItems(s[1..]).rest);
    }
  }

  lemma {:induction false} ReadObjectSound(s: Text)
    requires s != [] && s[0] == OPEN_BRACE && ReadDocument(s).Read?
    ensures GoodDocument(ReadDocument(s).value)
    ensures s == DocumentText(ReadDocument(s).value) + ReadDocument(s).rest
    decreases |s|, 0
  {
    var inner := SkipSpace(s[1..]);
    SkipSpaceSplits(s[1..]);
    if inner != [] && inner[0] == CLOSE_BRACE {
      assert inner == [CLOSE_BRACE] + inner[1..];
      WholeBody(s, LeadingSpace(s[1..]), CLOSE_BRACE, inner[1..]);
    } else {
      ReadMembersSound(s[1..]);
      WholeBody(s, MembersText(ReadMembers(s[1..]).value), CLOSE_BRACE, ReadMembers(s[1..]).rest);
    }
  }

  lemma ReadLiteralSound(s: Text)
    ensures ReadLiteral(s).Read? ==>
      GoodDocument(ReadLiteral(s).value) && s == DocumentText(ReadLiteral(s).value) + ReadLiteral(s).rest
  {
    LiteralSplits(s);
  }

  lemma {:induction false} ReadItemSound(s: Text)
    ensures ReadItem(s).Read? ==> GoodItem(ReadItem(s).value) && s == ItemText(ReadItem(s).value) + ReadItem(s).rest
    decreases |s|, 2
  {
    ReadDocumentSound(SkipSpace(s));
    var r := ReadDocument(SkipSpace(s));
    SkipSpaceSplits(s);
    if r.Read? {
      SkipSpaceSplits(r.rest);
      Regroup(s, LeadingSpace(s), SkipSpace(s), DocumentText(r.value), LeadingSpace(r.rest), SkipSpace(r.rest));
    }
  }

  lemma {:induction false} ReadItemsSound(s: Text)
    ensures ReadItems(s).Read? ==>
      GoodItems(ReadItems(s).value) && s == ItemsText(ReadItems(s).value) + [CLOSE_BRACKET] + ReadItems(s).rest
    decreases |s|, 3
  {
    if ReadItems(s).Read? {
      ReadItemSound(s);
      var item, rest := ReadItem(s).value, ReadItem(s).rest;
      if rest[0] == COMMA {
        ReadItemsSound(rest[1..]);
        FirstItem(s, item, rest, ReadItems(rest[1..]).value, ReadItems(rest[1..]).rest);
      } else {
        LastItem(s, item, rest);
      }
    }
  }

  lemma {:induction false} ReadMemberSound(s: Text)
    ensures ReadMember(s).Read? ==>
      GoodMember(ReadMember(s).value) && s == MemberText(ReadMember(s).value) + ReadMember(s).rest
    decreases |s|, 3
  {
    if ReadMember(s).Read? {
      var key := ReadString(SkipSpace(s));
      var colon := SkipSpace(key.rest);
      SkipSpaceSplits(s);
      SkipSpaceSplits(key.rest);
      ReadStringSound(SkipSpace(s));
      ReadItemSound(colon[1..]);
      WholeMember(s, LeadingSpace(s), key.value, LeadingSpace(key.rest), colon, ReadItem(colon[1..]).value, ReadItem(colon[1..]).rest);
    }
  }

  lemma {:induction false} ReadMembersSound(s: Text)
    ensures ReadMembers(s).Read? ==>
      GoodMembers(ReadMembers(s).value) && s == MembersText(ReadMembers(s).value) + [CLOSE_BRACE] + ReadMembers(s).rest
    decreases |s|, 4
  {
    if ReadMembers(s).Read? {
      ReadMemberSound(s);
      var m, rest := ReadMember(s).value, ReadMember(s).rest;
      if rest[0] == COMMA {
        ReadMembersSound(rest[1..]);
        FirstMember(s, m, rest, ReadMembers(rest[1..]).value, ReadMembers(rest[1..]).rest);
      } else {
        LastMember(s, m, rest);
      }
    }
  }

  // ---------------------------------------------------------------------------------- completeness

  lemma {:induction false} SkipSpaceOver(space: Text, t: Text)
    requires AllSpace(space) && (t == [] || !IsSpace(t[0]))
    ensures SkipSpace(space + t) == t && LeadingSpace(space + t) == space
  {
    if space == [] {
      assert space + t == t;
    } else {
      assert (space + t)[1..] == space[1..] + t;
      SkipSpaceOver(space[1..], t);
    }
    assert (space + t)[..|space|] == space;
  }

  lemma {:induction false} LiteralOver(literal: Text, tail: Text)
    requires forall i | 0 <= i < |literal| :: !EndsLiteral(literal[i])
    requires AtBoundary(tail)
    ensures Literal(literal + tail) == literal
  {
    if literal == [] {
      assert literal + tail == tail;
    } else {
      assert (literal + tail)[1..] == literal[1..] + tail;
      LiteralOver(literal[1..], tail);
    }
  }

  lemma ReadCharComplete(c: StringChar, tail: Text)
    requires GoodChar(c)
    ensures CharText(c)[0] != QUOTE && ReadChar(CharText(c) + tail) == Read(c, tail)
  {
    var s := CharText(c) + tail;
    assert s[|CharText(c)|..] == tail;
  }

  lemma {:induction false} ReadCharsComplete(cs: seq<StringChar>, tail: Text)
    requires GoodChars(cs)
    ensures ReadChars(CharsText(cs) + [QUOTE] + tail) == Read(cs, tail)
  {
    var s := CharsText(cs) + [QUOTE] + tail;
    if cs == [] {
      assert s[1..] == tail;
    } else {
      var more := CharsText(cs[1..]) + [QUOTE] + tail;
      assert s == CharText(cs[0]) + more;
      ReadCharComplete(cs[0], more);
      ReadCharsComplete(cs[1..], tail);
      assert [cs[0]] + cs[1..] == cs;
    }
  }

  lemma ReadStringComplete(cs: seq<StringChar>, tail: Text)
    requires GoodChars(cs)
    ensures ReadString(StringText(cs) + tail) == Read(cs, tail)
  {
    ReadCharsComplete(cs, tail);
    assert (StringText(cs) + tail)[1..] == CharsText(cs) + [QUOTE] + tail;
  }

  lemma ReadLiteralComplete(doc: Document, tail: Text)
    requires doc.NullDoc? || doc.BoolDoc? || doc.NumberDoc?
    requires GoodDocument(doc) && AtBoundary(tail)
    ensures ReadDocument(DocumentText(doc) + tail) == Read(doc, tail)
  {
    var literal := DocumentText(doc);
    AllDigitsAt(literal);
    if literal != [] {
      AllDigitsAt(literal[1..]);
    }
    assert forall i | 1 <= i < |literal| :: literal[i] == literal[1..][i - 1];
    LiteralOver(literal, tail);
    assert (literal + tail)[|literal|..] == tail;
    assert (literal + tail)[0] == literal[0];
    assert literal[0] != QUOTE && literal[0] != OPEN_BRACKET && literal[0] != OPEN_BRACE;
    assert ReadLiteral(literal + tail) == Read(doc, tail);
  }

  /** A document's text starts with something other than space, a comma or a closing bracket. */
  lemma DocumentStarts(doc: Document)
    requires GoodDocument(doc)
    ensures DocumentText(doc) != [] && !EndsLiteral(DocumentText(doc)[0])
  {
  }

  lemma ItemStarts(item: Item, tail: Text)
    requires GoodItem(item)
    ensures var s := SkipSpace(ItemText(item) + tail); s != [] && s[0] != CLOSE_BRACKET
  {
    DocumentStarts(item.value);
    var t := DocumentText(item.value) + item.after + tail;
    assert ItemText(item) + tail == item.before + t;
    SkipSpaceOver(item.before, t);
  }

  lemma Assoc(a: Text, b: Text, c: Text)
    ensures (a + b) + c == a + (b + c)
  {
  }

  /** Every well-formed document is read back from its own text, whatever follows it. */
  lemma {:induction false} ReadDocumentComplete(doc: Document, tail: Text)
    requires GoodDocument(doc) && AtBoundary(tail)
    ensures ReadDocument(DocumentText(doc) + tail) == Read(doc, tail)
    decreases doc, 0
  {
    if doc.StringDoc? {
      ReadStringComplete(doc.chars, tail);
    } else if doc.ArrayDoc? && doc.items != [] {
      ReadItemsComplete(doc.items, tail);
      ArrayRead(doc.items, tail);
    } else if doc.ObjectDoc? && doc.members != [] {
      ReadMembersComplete(doc.members, tail);
      ObjectRead(doc.members, tail);
    } else if doc.ArrayDoc? || doc.ObjectDoc? {
      EmptyRead(doc, tail);
    } else {
      ReadLiteralComplete(doc, tail);
    }
  }

  lemma EmptyRead(doc: Document, tail: Text)
    requires GoodDocument(doc)
    requires (doc.ArrayDoc? && doc.items == []) || (doc.ObjectDoc? && doc.members == [])
    ensures ReadDocument(DocumentText(doc) + tail) == Read(doc, tail)
  {
    if doc.ArrayDoc? {
      BodyText(OPEN_BRACKET, doc.gap, [], CLOSE_BRACKET, tail);
      ReadEmpty(doc.gap, CLOSE_BRACKET, tail);
    } else {
      BodyText(OPEN_BRACE, doc.gap, [], CLOSE_BRACE, tail);
      ReadEmpty(doc.gap, CLOSE_BRACE, tail);
    }
  }

  lemma BodyText(open: CodeUnit, gap: Text, inside: Text, close: CodeUnit, tail: Text)
    ensures ([open] + gap + inside + [close]) + tail == [open] + (gap + inside + [close] + tail)
    ensures [open] + [] == [open] && gap + [] == gap && [] + inside == inside
    ensures (gap + inside + [close] + tail) == (gap + inside) + ([close] + tail)
  {
  }

  lemma ArrayRead(items: seq<Item>, tail: Text)
    requires GoodItems(items) && items != []
    requires ReadItems(ItemsText(items) + [CLOSE_BRACKET] + tail) == Read(items, tail)
    ensures ReadDocument(DocumentText(ArrayDoc([], items)) + tail) == Read(ArrayDoc([], items), tail)
  {
    BodyText(OPEN_BRACKET, [], ItemsText(items), CLOSE_BRACKET, tail);
    ItemsStart(items, [CLOSE_BRACKET] + tail);
  }

  lemma ObjectRead(members: seq<Member>, tail: Text)
    requires GoodMembers(members) && members != []
    requires ReadMembers(MembersText(members) + [CLOSE_BRACE] + tail) == Read(members, tail)
    ensures ReadDocument(DocumentText(ObjectDoc([], members)) + tail) == Read(ObjectDoc([], members), tail)
  {
    BodyText(OPEN_BRACE, [], MembersText(members), CLOSE_BRACE, tail);
    MembersStart(members, [CLOSE_BRACE] + tail);
  }

  lemma ReadEmpty(gap: Text, close: CodeUnit, tail: Text)
    requires AllSpace(gap) && !IsSpace(close)
    ensures var s := gap + [close] + tail; SkipSpace(s) == [close] + tail && LeadingSpace(s) == gap
  {
    assert gap + [close] + tail == gap + ([close] + tail);
    SkipSpaceOver(gap, [close] + tail);
  }

  lemma ItemsStart(items: seq<Item>, tail: Text)
    requires GoodItems(items) && items != []
    ensures var s := SkipSpace(ItemsText(items) + tail); s != [] && s[0] != CLOSE_BRACKET
  {
    if |items| == 1 {
      ItemStarts(items[0], tail);
    } else {
      Assoc(ItemText(items[0]), [COMMA], ItemsText(items[1..]));
      Assoc(ItemText(items[0]), [COMMA] + ItemsText(items[1..]), tail);
      ItemStarts(items[0], [COMMA] + ItemsText(items[1..]) + tail);
    }
  }

  /** A member's text followed by more: the space before the key, then the key, then the rest. */
  lemma MemberSplit(m: Member, tail: Text)
    ensures MemberText(m) + tail
         == m.beforeKey + (StringText(m.key) + (m.afterKey + ([COLON] + (ItemText(m.item) + tail))))
  {
    Assoc(m.beforeKey + StringText(m.key) + m.afterKey + [COLON], ItemText(m.item), tail);
    Assoc(m.beforeKey + StringText(m.key) + m.afterKey, [COLON], ItemText(m.item) + tail);
    Assoc(m.beforeKey + StringText(m.key), m.afterKey, [COLON] + (ItemText(m.item) + tail));
    Assoc(m.beforeKey, StringText(m.key), m.afterKey + ([COLON] + (ItemText(m.item) + tail)));
  }

  lemma MembersStart(members: seq<Member>, tail: Text)
    requires GoodMembers(members) && members != []
    ensures var s := SkipSpace(MembersText(members) + tail); s != [] && s[0] != CLOSE_BRACE
  {
    var m := members[0];
    var more := if |members| == 1 then tail else [COMMA] + MembersText(members[1..]) + tail;
    if |members| > 1 {
      Assoc(MemberText(m), [COMMA], MembersText(members[1..]));
      Assoc(MemberText(m), [COMMA] + MembersText(members[1..]), tail);
    }
    assert MembersText(members) + tail == MemberText(m) + more;
    MemberSplit(m, more);
    SkipSpaceOver(m.beforeKey, StringText(m.key) + (m.afterKey + ([COLON] + (ItemText(m.item) + more))));
  }

  lemma {:induction false} ReadItemComplete(item: Item, tail: Text)
    requires GoodItem(item) && (tail == [] || (EndsLiteral(tail[0]) && !IsSpace(tail[0])))
    ensures ReadItem(ItemText(item) + tail) == Read(item, tail)
    decreases item, 1
  {
    var inner := DocumentText(item.value) + (item.after + tail);
    assert ItemText(item) + tail == item.before + inner;
    DocumentStarts(item.value);
    SkipSpaceOver(item.before, inner);
    SkipSpaceOver(item.after, tail);
    assert item.after == [] ==> item.after + tail == tail;
    ReadDocumentComplete(item.value, item.after + tail);
  }

  lemma {:induction false} ReadItemsComplete(items: seq<Item>, tail: Text)
    requires GoodItems(items) && items != []
    ensures ReadItems(ItemsText(items) + [CLOSE_BRACKET] + tail) == Read(items, tail)
    decreases items, 2
  {
    var s := ItemsText(items) + [CLOSE_BRACKET] + tail;
    if |items| == 1 {
      ReadItemComplete(items[0], [CLOSE_BRACKET] + tail);
      Assoc(ItemText(items[0]), [CLOSE_BRACKET], tail);
      ItemsStep(s, items, [CLOSE_BRACKET] + tail, tail);
    } else {
      var more := ItemsText(items[1..]) + [CLOSE_BRACKET] + tail;
      ReadItemComplete(items[0], [COMMA] + more);
      ReadItemsComplete(items[1..], tail);
      SeparatedText(ItemText(items[0]), ItemsText(items[1..]), CLOSE_BRACKET, tail);
      ItemsStep(s, items, [COMMA] + more, tail);
    }
  }

  lemma ItemsStep(s: Text, items: seq<Item>, more: Text, tail: Text)
    requires items != [] && more != [] && ReadItem(s) == Read(items[0], more)
    requires |items| == 1 ==> more[0] == CLOSE_BRACKET && more[1..] == tail
    requires |items| > 1 ==> more[0] == COMMA && ReadItems(more[1..]) == Read(items[1..], tail)
    ensures ReadItems(s) == Read(items, tail)
  {
    if |items| == 1 {
      assert items == [items[0]];
    } else {
      assert items == [items[0]] + items[1..];
    }
  }

  lemma SeparatedText(first: Text, others: Text, close: CodeUnit, tail: Text)
    ensures (first + [COMMA] + others) + [close] + tail == first + ([COMMA] + (others + [close] + tail))
    ensures ([COMMA] + (others + [close] + tail))[1..] == others + [close] + tail
  {
  }

  lemma {:induction false} ReadMemberComplete(m: Member, tail: Text)
    requires GoodMember(m) && (tail == [] || (EndsLiteral(tail[0]) && !IsSpace(tail[0])))
    ensures ReadMember(MemberText(m) + tail) == Read(m, tail)
    decreases m, 2
  {
    var inner := ItemText(m.item) + tail;
    var keyed := StringText(m.key) + (m.afterKey + ([COLON] + inner));
    ReadItemComplete(m.item, tail);
    MemberSplit(m, tail);
    SkipSpaceOver(m.beforeKey, keyed);
    ReadStringComplete(m.key, m.afterKey + ([COLON] + inner));
    MemberStep(m.beforeKey + keyed, m, inner, tail);
  }

  lemma MemberStep(s: Text, m: Member, inner: Text, tail: Text)
    requires LeadingSpace(s) == m.beforeKey && AllSpace(m.afterKey)
    requires ReadString(SkipSpace(s)) == Read(m.key, m.afterKey + ([COLON] + inner))
    requires ReadItem(inner) == Read(m.item, tail)
    ensures ReadMember(s) == Read(m, tail)
  {
    SkipSpaceOver(m.afterKey, [COLON] + inner);
    assert ([COLON] + inner)[1..] == inner;
  }

  lemma {:induction false} ReadMembersComplete(members: seq<Member>, tail: Text)
    requires GoodMembers(members) && members != []
    ensures ReadMembers(MembersText(members) + [CLOSE_BRACE] + tail) == Read(members, tail)
    decreases members, 3
  {
    var s := MembersText(members) + [CLOSE_BRACE] + tail;
    if |members| == 1 {
      ReadMemberComplete(members[0], [CLOSE_BRACE] + tail);
      Assoc(MemberText(members[0]), [CLOSE_BRACE], tail);
      MembersStep(s, members, [CLOSE_BRACE] + tail, tail);
    } else {
      var more := MembersText(members[1..]) + [CLOSE_BRACE] + tail;
      ReadMemberComplete(members[0], [COMMA] + more);
      ReadMembersComplete(members[1..], tail);
      SeparatedText(MemberText(members[0]), MembersText(members[1..]), CLOSE_BRACE, tail);
      MembersStep(s, members, [COMMA] + more, tail);
    }
  }

  lemma MembersStep(s: Text, members: seq<Member>, more: Text, tail: Text)
    requires members != [] && more != [] && ReadMember(s) == Read(members[0], more)
    requires |members| == 1 ==> more[0] == CLOSE_BRACE && more[1..] == tail
    requires |members| > 1 ==> more[0] == COMMA && ReadMembers(more[1..]) == Read(members[1..], tail)
    ensures ReadMembers(s) == Read(members, tail)
  {
    if |members| == 1 {
      assert members == [members[0]];
    } else {
      assert members == [members[0]] + members[1..];
    }
  }

  /** `JSON.parse` accepts exactly the texts of the grammar, and reads each one in only one way. */
  lemma ReadTextExact(text: Text, item: Item)
    ensures ReadText(text) == Some(item) <==> GoodItem(item) && text == ItemText(item)
  {
    ReadItemSound(text);
    assert text + [] == text && ItemText(item) + [] == ItemText(item);
    if GoodItem(item) && text == ItemText(item) {
      ReadItemComplete(item, []);
    }
  }
}
