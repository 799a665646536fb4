/**
 The canonical printer. Its text is the compact document of the value with every object's keys sorted, so parsing
 gives the value back with sorted keys, and two values print alike exactly when they differ in key order only.
 */
module JsonCanonical {
  import opened CodeUnits
  import opened JsonGrammar
  import opened JsonScanner
  import opened JsonValues
  import opened KeyOrder
  import opened Wrappers

  // ---------------------------------------------------------------------------------- printing

  function HexDigit(n: nat): CodeUnit
    requires n < 16
  {
    if n < 10 then 0x30 + n else 0x57 + n
  }

  function QuoteUnit(u: CodeUnit): StringChar {
    if u == QUOTE || u == BACKSLASH then Short(u)
    else if u == 8 then Short(0x62)
    else if u == 9 then Short(0x74)
    else if u == 10 then Short(0x6E)
    else if u == 12 then Short(0x66)
    else if u == 13 then Short(0x72)
    else if u < 0x20 || IsHighSurrogate(u) || IsLowSurrogate(u) then
      Escaped(HexDigit(u / 4096), HexDigit(u / 256 % 16), HexDigit(u / 16 % 16), HexDigit(u % 16))
    else Plain(u)
  }

  /** `JSON.stringify` on a string: short escapes, control characters and lone surrogates escaped. */
  function QuoteChars(t: Text): seq<StringChar> {
    if t == [] then []
    else if |t| > 1 && IsHighSurrogate(t[0]) && IsLowSurrogate(t[1]) then [Plain(t[0]), Plain(t[1])] + QuoteChars(t[2..])
    else [QuoteUnit(t[0])] + QuoteChars(t[1..])
  }

  function Quote(t: Text): Text {
    StringText(QuoteChars(t))
  }

  function NaturalText(n: nat): Text {
    if n < 10 then [ZERO + n] else NaturalText(n / 10) + [ZERO + n % 10]
  }

  function IntegerText(n: int): Text {
    if n < 0 then [MINUS] + NaturalText(0 - n) else NaturalText(n)
  }

  /** `join(',')`. */
  function Commas(texts: seq<Text>): Text {
    if texts == [] then [] else if |texts| == 1 then texts[0] else texts[0] + [COMMA] + Commas(texts[1..])
  }

  function FieldTexts(fields: seq<Keyed<Text>>): (texts: seq<Text>)
    ensures |texts| == |fields|
  {
    seq(|fields|, i requires 0 <= i < |fields| => Quote(fields[i].key) + [COLON] + fields[i].value)
  }

  /** `canonicalJson`. */
  function Canonical(v: Json): Text {
    match v
    case Null => NULL_TEXT
    case Bool(b) => if b then TRUE_TEXT else FALSE_TEXT
    case Num(n) => IntegerText(n)
    case Str(t) => Quote(t)
    case Arr(items) =>
      [OPEN_BRACKET] + Commas(seq(|items|, i requires 0 <= i < |items| => Canonical(items[i]))) + [CLOSE_BRACKET]
    case Obj(fields) =>
      var printed := seq(|fields|, i requires 0 <= i < |fields| => Keyed(fields[i].key, Canonical(fields[i].value)));
      [OPEN_BRACE] + Commas(FieldTexts(Sorted(printed))) + [CLOSE_BRACE]
  }

  // ---------------------------------------------------------------------------------- the sorted value and its document

  /** The same value with the keys of every object in code unit order. */
  function Normal(v: Json): Json {
    match v
    case Arr(items) => Arr(seq(|items|, i requires 0 <= i < |items| => Normal(items[i])))
    case Obj(fields) => Obj(Sorted(NormalFields(fields)))
    case _ => v
  }

  function NormalFields(fields: seq<Keyed<Json>>): (r: seq<Keyed<Json>>)
    ensures |r| == |fields|
  {
    seq(|fields|, i requires 0 <= i < |fields| => Keyed(fields[i].key, Normal(fields[i].value)))
  }

  /** The document without optional space that spells a value in its own key order. */
  function DocumentOf(v: Json): Document {
    match v
    case Null => NullDoc
    case Bool(b) => BoolDoc(b)
    case Num(n) => NumberDoc(IntegerText(n))
    case Str(t) => StringDoc(QuoteChars(t))
    case Arr(items) => ArrayDoc([], seq(|items|, i requires 0 <= i < |items| => Item([], DocumentOf(items[i]), [])))
    case Obj(fields) =>
      ObjectDoc([], seq(|fields|, i requires 0 <= i < |fields| =>
        Member([], QuoteChars(fields[i].key), [], Item([], DocumentOf(fields[i].value), []))))
  }

  lemma HexDigitValue(n: nat)
    requires n < 16
    ensures IsHex(HexDigit(n)) && HexValue(HexDigit(n)) == n
  {
  }

  lemma HexDigitsOf(u: CodeUnit)
    ensures u == 4096 * (u / 4096) + 256 * (u / 256 % 16) + 16 * (u / 16 % 16) + u % 16
  {
    var a, b := u / 16, u / 256;
    assert b == a / 16 && u / 4096 == b / 16;
    assert u == 16 * a + u % 16 && a == 16 * b + a % 16 && b == 16 * (b / 16) + b % 16;
  }

  lemma QuoteUnitDecodes(u: CodeUnit)
    ensures GoodChar(QuoteUnit(u)) && CharValue(QuoteUnit(u)) == u
  {
    if QuoteUnit(u).Escaped? {
      HexDigitValue(u / 4096);
      HexDigitValue(u / 256 % 16);
      HexDigitValue(u / 16 % 16);
      HexDigitValue(u % 16);
      HexDigitsOf(u);
    }
  }

  /** Quoting then decoding gives the string back, lone surrogates included. */
  lemma {:induction false} QuoteDecodes(t: Text)
    ensures GoodChars(QuoteChars(t)) && Decode(QuoteChars(t)) == t
  {
    if t == [] {
    } else if |t| > 1 && IsHighSurrogate(t[0]) && IsLowSurrogate(t[1]) {
      QuoteDecodes(t[2..]);
      assert t == [t[0], t[1]] + t[2..];
      DecodeAppend([Plain(t[0]), Plain(t[1])], QuoteChars(t[2..]));
    } else {
      QuoteDecodes(t[1..]);
      QuoteUnitDecodes(t[0]);
      assert t == [t[0]] + t[1..];
      DecodeAppend([QuoteUnit(t[0])], QuoteChars(t[1..]));
    }
  }

  lemma DecodeAppend(a: seq<StringChar>, b: seq<StringChar>)
    ensures Decode(a + b) == Decode(a) + Decode(b)
  {
  }

  lemma {:induction false} NaturalTextReads(n: nat)
    ensures IsNaturalLiteral(NaturalText(n)) && NaturalValue(NaturalText(n)) == n
    ensures NaturalText(n)[0] == ZERO ==> n == 0
  {
    var t := NaturalText(n);
    if n < 10 {
      assert t[..0] == [] && t[1..] == [];
      assert AllDigits(t[1..]);
    } else {
      NaturalTextReads(n / 10);
      AllDigitsAt(NaturalText(n / 10));
      AllDigitsAt(t);
      assert t[..|t| - 1] == NaturalText(n / 10);
    }
  }

  lemma IntegerTextReads(n: int)
    ensures IsIntegerLiteral(IntegerText(n)) && IntegerValue(IntegerText(n)) == n
  {
    NaturalTextReads(if n < 0 then 0 - n else n);
    if n < 0 {
      assert IntegerText(n)[1..] == NaturalText(0 - n);
    } else {
      AllDigitsAt(NaturalText(n));
    }
  }

  lemma {:induction false} GoodItemsAt(items: seq<Item>)
    ensures GoodItems(items) == forall i | 0 <= i < |items| :: GoodItem(items[i])
  {
    if items != [] {
      GoodItemsAt(items[1..]);
      assert forall i | 1 <= i < |items| :: items[i] == items[1..][i - 1];
      assert forall i | 0 <= i < |items[1..]| :: items[1..][i] == items[i + 1];
    }
  }

  lemma {:induction false} GoodMembersAt(members: seq<Member>)
    ensures GoodMembers(members) == forall i | 0 <= i < |members| :: GoodMember(members[i])
  {
    if members != [] {
      GoodMembersAt(members[1..]);
      assert forall i | 1 <= i < |members| :: members[i] == members[1..][i - 1];
      assert forall i | 0 <= i < |members[1..]| :: members[1..][i] == members[i + 1];
    }
  }

  /** The document of a value is well formed and decodes to the value. */
  lemma {:induction false} DocumentOfReads(v: Json)
    ensures GoodDocument(DocumentOf(v)) && ValueOf(DocumentOf(v)) == v
  {
    match v
    case Num(n) => IntegerTextReads(n);
    case Str(t) => QuoteDecodes(t);
    case Arr(items) =>
      var docs := DocumentOf(v).items;
      forall i | 0 <= i < |items| ensures GoodItem(docs[i]) && ValueOf(docs[i].value) == items[i] {
        DocumentOfReads(items[i]);
      }
      GoodItemsAt(docs);
      assert ValueOf(DocumentOf(v)).items == items;
    case Obj(fields) =>
      var docs := DocumentOf(v).members;
      forall i | 0 <= i < |fields|
        ensures GoodMember(docs[i]) && KeyOf(docs[i]) == fields[i].key && ValueOf(docs[i].item.value) == fields[i].value
      {
        DocumentOfReads(fields[i].value);
        QuoteDecodes(fields[i].key);
      }
      GoodMembersAt(docs);
      assert ValueOf(DocumentOf(v)).fields == fields;
    case _ =>
  }

  lemma {:induction false} CommasOfItems(texts: seq<Text>, items: seq<Item>)
    requires |texts| == |items| && forall i | 0 <= i < |items| :: texts[i] == ItemText(items[i])
    ensures Commas(texts) == ItemsText(items)
  {
    if |items| > 1 {
      CommasOfItems(texts[1..], items[1..]);
    }
  }

  lemma {:induction false} CommasOfMembers(texts: seq<Text>, members: seq<Member>)
    requires |texts| == |members| && forall i | 0 <= i < |members| :: texts[i] == MemberText(members[i])
    ensures Commas(texts) == MembersText(members)
  {
    if |members| > 1 {
      CommasOfMembers(texts[1..], members[1..]);
    }
  }

  lemma CompactItem(doc: Document)
    ensures ItemText(Item([], doc, [])) == DocumentText(doc)
  {
  }

  lemma CompactMember(key: seq<StringChar>, doc: Document)
    ensures MemberText(Member([], key, [], Item([], doc, []))) == StringText(key) + [COLON] + DocumentText(doc)
  {
    CompactItem(doc);
    assert [] + StringText(key) + [] == StringText(key);
  }

  /** `canonicalJson` prints the document of the sorted value. */
  lemma {:induction false} CanonicalPrintsNormal(v: Json)
    ensures Canonical(v) == DocumentText(DocumentOf(Normal(v)))
  {
    match v
    case Arr(items) => CanonicalPrintsArray(items);
    case Obj(fields) => CanonicalPrintsObject(fields);
    case _ =>
  }

  lemma {:induction false} CanonicalPrintsArray(items: seq<Json>)
    ensures Canonical(Arr(items)) == DocumentText(DocumentOf(Normal(Arr(items))))
    decreases items, 0
  {
    var texts := seq(|items|, i requires 0 <= i < |items| => Canonical(items[i]));
    var docs := DocumentOf(Normal(Arr(items))).items;
    forall i | 0 <= i < |items| ensures texts[i] == ItemText(docs[i]) {
      CanonicalPrintsNormal(items[i]);
      CompactItem(docs[i].value);
    }
    CommasOfItems(texts, docs);
    assert [OPEN_BRACKET] + [] == [OPEN_BRACKET];
  }

  function PrintNormal(w: Json): Text {
    DocumentText(DocumentOf(w))
  }

  lemma {:induction false} CanonicalPrintsObject(fields: seq<Keyed<Json>>)
    ensures Canonical(Obj(fields)) == DocumentText(DocumentOf(Normal(Obj(fields))))
    decreases fields, 0
  {
    var printed := seq(|fields|, i requires 0 <= i < |fields| => Keyed(fields[i].key, Canonical(fields[i].value)));
    forall i | 0 <= i < |fields|
      ensures printed[i] == Keyed(NormalFields(fields)[i].key, PrintNormal(NormalFields(fields)[i].value))
    {
      CanonicalPrintsNormal(fields[i].value);
    }
    SortedMaps(NormalFields(fields), printed, PrintNormal);
    PrintedMembers(Sorted(NormalFields(fields)), Sorted(printed));
    assert [OPEN_BRACE] + [] == [OPEN_BRACE];
  }

  lemma PrintedMembers(fields: seq<Keyed<Json>>, printed: seq<Keyed<Text>>)
    requires Mapped(fields, printed, PrintNormal)
    ensures Commas(FieldTexts(printed)) == MembersText(DocumentOf(Obj(fields)).members)
  {
    var members := DocumentOf(Obj(fields)).members;
    forall i | 0 <= i < |fields| ensures FieldTexts(printed)[i] == MemberText(members[i]) {
      CompactMember(QuoteChars(fields[i].key), DocumentOf(fields[i].value));
    }
    CommasOfMembers(FieldTexts(printed), members);
  }

  // ---------------------------------------------------------------------------------- bounds

  ghost predicate PlainValue(v: Json) {
    match v
    case Arr(items) => forall i | 0 <= i < |items| :: PlainValue(items[i])
    case Obj(fields) => DistinctKeys(fields) && forall i | 0 <= i < |fields| :: PlainValue(fields[i].value)
    case _ => true
  }

  ghost predicate SafeValue(v: Json) {
    match v
    case Arr(items) => forall i | 0 <= i < |items| :: SafeValue(items[i])
    case Obj(fields) => forall i | 0 <= i < |fields| :: !UnsafeKey(fields[i].key) && SafeValue(fields[i].value)
    case _ => true
  }

  function ValueNodes(v: Json): nat {
    match v
    case Arr(items) => 1 + ListNodes(items)
    case Obj(fields) => 1 + FieldNodes(fields)
    case _ => 1
  }

  function ListNodes(items: seq<Json>): nat {
    if items == [] then 0 else ValueNodes(items[0]) + ListNodes(items[1..])
  }

  function FieldNodes(fields: seq<Keyed<Json>>): nat {
    if fields == [] then 0 else ValueNodes(fields[0].value) + FieldNodes(fields[1..])
  }

  /** Brackets around the deepest value are at most `depth`. */
  predicate Within(v: Json, depth: int) {
    depth >= 0 &&
    match v
    case Arr(items) => forall i | 0 <= i < |items| :: Within(items[i], depth - 1)
    case Obj(fields) => forall i | 0 <= i < |fields| :: Within(fields[i].value, depth - 1)
    case _ => true
  }

  lemma {:induction false} ItemsHeightWithin(items: seq<Item>, depth: nat)
    ensures ItemsHeight(items) <= depth <==> forall i | 0 <= i < |items| :: Height(items[i].value) <= depth
  {
    if items != [] {
      ItemsHeightWithin(items[1..], depth);
      assert forall i | 1 <= i < |items| :: items[i] == items[1..][i - 1];
      assert forall i | 0 <= i < |items[1..]| :: items[1..][i] == items[i + 1];
    }
  }

  lemma {:induction false} MembersHeightWithin(members: seq<Member>, depth: nat)
    ensures MembersHeight(members) <= depth <==> forall i | 0 <= i < |members| :: Height(members[i].item.value) <= depth
  {
    if members != [] {
      MembersHeightWithin(members[1..], depth);
      assert forall i | 1 <= i < |members| :: members[i] == members[1..][i - 1];
      assert forall i | 0 <= i < |members[1..]| :: members[1..][i] == members[i + 1];
    }
  }

  lemma {:induction false} DocumentHeight(v: Json, depth: nat)
    ensures Height(DocumentOf(v)) <= depth <==> Within(v, depth)
    decreases v
  {
    match v
    case Arr(items) =>
      var docs := DocumentOf(v).items;
      if items != [] && depth > 0 {
        forall i | 0 <= i < |items| ensures Height(docs[i].value) <= depth - 1 <==> Within(items[i], depth - 1) {
          DocumentHeight(items[i], depth - 1);
        }
        ItemsHeightWithin(docs, depth - 1);
        assert Within(v, depth) ==> forall i | 0 <= i < |docs| :: Within(items[i], depth - 1);
      } else if items != [] {
        assert !Within(items[0], -1);
      }
    case Obj(fields) =>
      var docs := DocumentOf(v).members;
      if fields != [] && depth > 0 {
        forall i | 0 <= i < |fields|
          ensures Height(docs[i].item.value) <= depth - 1 <==> Within(fields[i].value, depth - 1)
        {
          DocumentHeight(fields[i].value, depth - 1);
        }
        MembersHeightWithin(docs, depth - 1);
        assert Within(v, depth) ==> forall i | 0 <= i < |docs| :: Within(fields[i].value, depth - 1);
      } else if fields != [] {
        assert !Within(fields[0].value, -1);
      }
    case _ =>
  }

  lemma {:induction false} DocumentNodes(v: Json)
    ensures Nodes(DocumentOf(v)) == ValueNodes(v)
  {
    match v
    case Arr(items) => DocumentItemsNodes(items, DocumentOf(v).items);
    case Obj(fields) => DocumentMembersNodes(fields, DocumentOf(v).members);
    case _ =>
  }

  lemma {:induction false} DocumentItemsNodes(items: seq<Json>, docs: seq<Item>)
    requires |items| == |docs| && forall i | 0 <= i < |items| :: docs[i].value == DocumentOf(items[i])
    ensures ItemsNodes(docs) == ListNodes(items)
    decreases items, 0
  {
    if items != [] {
      DocumentNodes(items[0]);
      DocumentItemsNodes(items[1..], docs[1..]);
    }
  }

  lemma {:induction false} DocumentMembersNodes(fields: seq<Keyed<Json>>, docs: seq<Member>)
    requires |fields| == |docs| && forall i | 0 <= i < |fields| :: docs[i].item.value == DocumentOf(fields[i].value)
    ensures MembersNodes(docs) == FieldNodes(fields)
    decreases fields, 0
  {
    if fields != [] {
      DocumentNodes(fields[0].value);
      DocumentMembersNodes(fields[1..], docs[1..]);
    }
  }

  lemma {:induction false} DocumentKeys(v: Json)
    ensures SafeKeys(DocumentOf(v)) <==> PlainValue(v) && SafeValue(v)
  {
    match v
    case Arr(items) =>
      var docs := DocumentOf(v).items;
      forall i | 0 <= i < |items| ensures SafeKeys(docs[i].value) <==> PlainValue(items[i]) && SafeValue(items[i]) {
        DocumentKeys(items[i]);
      }
    case Obj(fields) =>
      var docs := DocumentOf(v).members;
      forall i | 0 <= i < |fields|
        ensures KeyOf(docs[i]) == fields[i].key
        ensures SafeKeys(docs[i].item.value) <==> PlainValue(fields[i].value) && SafeValue(fields[i].value)
      {
        QuoteDecodes(fields[i].key);
        DocumentKeys(fields[i].value);
      }
    case _ =>
  }

  // ---------------------------------------------------------------------------------- sorting keeps the bounds

  ghost predicate SameEntries<T>(s: seq<Keyed<T>>, t: seq<Keyed<T>>) {
    && |s| == |t|
    && (forall i | 0 <= i < |t| :: t[i] in s)
    && (forall i | 0 <= i < |s| :: s[i] in t)
  }

  lemma SortedSameEntries<T>(s: seq<Keyed<T>>)
    ensures SameEntries(s, Sorted(s))
  {
    SortedKeepsEntries(s);
    assert |s| == |multiset(s)| == |multiset(Sorted(s))| == |Sorted(s)|;
    forall i | 0 <= i < |s| ensures s[i] in Sorted(s) {
      InEntries(s, s[i]);
      InEntries(Sorted(s), s[i]);
    }
    forall i | 0 <= i < |s| ensures Sorted(s)[i] in s {
      InEntries(s, Sorted(s)[i]);
      InEntries(Sorted(s), Sorted(s)[i]);
    }
  }

  lemma {:induction false} SortedDistinct<T>(s: seq<Keyed<T>>)
    ensures DistinctKeys(s) <==> DistinctKeys(Sorted(s))
  {
    if DistinctKeys(s) {
      SortedIncreases(s);
      forall i, j | 0 <= i < j < |Sorted(s)| ensures Sorted(s)[i].key != Sorted(s)[j].key {
        BelowIsIrreflexive(Sorted(s)[i].key);
      }
    } else {
      var i, j :| 0 <= i < j < |s| && s[i].key == s[j].key;
      SortedKeepsEntries(s);
      RepeatedKey(s, Sorted(s), i, j);
    }
  }

  lemma RepeatedKey<T>(s: seq<Keyed<T>>, t: seq<Keyed<T>>, i: nat, j: nat)
    requires i < j < |s| && s[i].key == s[j].key && multiset(s) == multiset(t)
    ensures !DistinctKeys(t)
  {
    InEntries(s, s[i]);
    InEntries(s, s[j]);
    InEntries(t, s[i]);
    InEntries(t, s[j]);
    var a :| 0 <= a < |t| && t[a] == s[i];
    if s[i] != s[j] {
      var b :| 0 <= b < |t| && t[b] == s[j];
      assert a != b;
    } else {
      EqualPairCounts(s, i, j);
      CountedTwice(t, a);
    }
  }

  lemma EqualPairCounts<T>(s: seq<T>, i: nat, j: nat)
    requires i < j < |s| && s[i] == s[j]
    ensures multiset(s)[s[i]] >= 2
  {
    assert s == s[..j] + ([s[j]] + s[j + 1..]);
    assert s[i] == s[..j][i];
    assert s[i] in multiset(s[..j]);
  }

  lemma CountedTwice<T>(t: seq<Keyed<T>>, a: nat)
    requires a < |t| && multiset(t)[t[a]] >= 2
    ensures !DistinctKeys(t)
  {
    var others := t[..a] + t[a + 1..];
    assert t == t[..a] + [t[a]] + t[a + 1..];
    assert multiset(t) == multiset(others) + multiset{t[a]};
    InEntries(others, t[a]);
    var c :| 0 <= c < |others| && others[c] == t[a];
    var b := if c < a then c else c + 1;
    assert t[b] == t[a] && b != a;
  }

  lemma {:induction false} InsertNodes(x: Keyed<Json>, s: seq<Keyed<Json>>)
    ensures FieldNodes(Insert(x, s)) == ValueNodes(x.value) + FieldNodes(s)
  {
    if s != [] && Below(s[0].key, x.key) {
      InsertNodes(x, s[1..]);
      assert ([s[0]] + Insert(x, s[1..]))[1..] == Insert(x, s[1..]);
    } else {
      assert ([x] + s)[1..] == s;
    }
  }

  lemma {:induction false} SortedNodes(s: seq<Keyed<Json>>)
    ensures FieldNodes(Sorted(s)) == FieldNodes(s)
  {
    if s != [] {
      SortedNodes(s[1..]);
      InsertNodes(s[0], Sorted(s[1..]));
    }
  }

  lemma {:induction false} NormalNodes(v: Json)
    ensures ValueNodes(Normal(v)) == ValueNodes(v)
  {
    match v
    case Arr(items) => NormalListNodes(items, Normal(v).items);
    case Obj(fields) =>
      SortedNodes(NormalFields(fields));
      NormalFieldNodes(fields, NormalFields(fields));
    case _ =>
  }

  lemma {:induction false} NormalListNodes(items: seq<Json>, sorted: seq<Json>)
    requires |items| == |sorted| && forall i | 0 <= i < |items| :: sorted[i] == Normal(items[i])
    ensures ListNodes(sorted) == ListNodes(items)
    decreases items, 0
  {
    if items != [] {
      NormalNodes(items[0]);
      NormalListNodes(items[1..], sorted[1..]);
    }
  }

  lemma {:induction false} NormalFieldNodes(fields: seq<Keyed<Json>>, sorted: seq<Keyed<Json>>)
    requires |fields| == |sorted| && forall i | 0 <= i < |fields| :: sorted[i].value == Normal(fields[i].value)
    ensures FieldNodes(sorted) == FieldNodes(fields)
    decreases fields, 0
  {
    if fields != [] {
      NormalNodes(fields[0].value);
      NormalFieldNodes(fields[1..], sorted[1..]);
    }
  }

  lemma {:induction false} NormalWithin(v: Json, depth: int)
    ensures Within(Normal(v), depth) <==> Within(v, depth)
    decreases v
  {
    match v
    case Arr(items) =>
      forall i | 0 <= i < |items| ensures Within(Normal(v).items[i], depth - 1) <==> Within(items[i], depth - 1) {
        NormalWithin(items[i], depth - 1);
      }
    case Obj(fields) =>
      var s := NormalFields(fields);
      forall i | 0 <= i < |s| ensures Within(s[i].value, depth - 1) <==> Within(fields[i].value, depth - 1) {
        NormalWithin(fields[i].value, depth - 1);
      }
      SortedSameEntries(s);
    case _ =>
  }

  lemma {:induction false} NormalPlain(v: Json)
    ensures PlainValue(Normal(v)) <==> PlainValue(v)
  {
    match v
    case Arr(items) =>
      forall i | 0 <= i < |items| ensures PlainValue(Normal(v).items[i]) <==> PlainValue(items[i]) {
        NormalPlain(items[i]);
      }
    case Obj(fields) =>
      var s := NormalFields(fields);
      forall i | 0 <= i < |s| ensures PlainValue(s[i].value) <==> PlainValue(fields[i].value) {
        NormalPlain(fields[i].value);
      }
      SortedSameEntries(s);
      SortedDistinct(s);
      assert DistinctKeys(s) <==> DistinctKeys(fields);
    case _ =>
  }

  lemma {:induction false} NormalSafe(v: Json)
    ensures SafeValue(Normal(v)) <==> SafeValue(v)
  {
    match v
    case Arr(items) =>
      forall i | 0 <= i < |items| ensures SafeValue(Normal(v).items[i]) <==> SafeValue(items[i]) {
        NormalSafe(items[i]);
      }
    case Obj(fields) =>
      var s := NormalFields(fields);
      forall i | 0 <= i < |s| ensures SafeValue(s[i].value) <==> SafeValue(fields[i].value) {
        NormalSafe(fields[i].value);
      }
      SortedSameEntries(s);
    case _ =>
  }

  // ---------------------------------------------------------------------------------- main results

  /** The bounds `assertBoundedNativeEvidence` puts on the shape of a value. */
  ghost predicate BoundedShape(v: Json) {
    PlainValue(v) && SafeValue(v) && Within(v, MAX_DEPTH) && ValueNodes(v) <= MAX_NODES
  }

  /** Printing and parsing: a bounded value comes back with its keys sorted, and nothing else is accepted. */
  lemma RoundTrip(v: Json)
    ensures ParseNative(Canonical(v)) == if BoundedShape(v) then Ok(Normal(v)) else Err(InvalidInput)
  {
    var w := Normal(v);
    var item := Item([], DocumentOf(w), []);
    CanonicalPrintsNormal(v);
    CompactItem(DocumentOf(w));
    DocumentOfReads(w);
    ReadTextExact(Canonical(v), item);
    DocumentHeight(w, MAX_DEPTH);
    DocumentNodes(w);
    DocumentKeys(w);
    NormalWithin(v, MAX_DEPTH);
    NormalNodes(v);
    NormalPlain(v);
    NormalSafe(v);
    ParseNativeExact(Canonical(v), Normal(v));
    assert Strict(item.value) <==> BoundedShape(v);
    if !BoundedShape(v) && ParseNative(Canonical(v)).Ok? {
      ParseNativeExact(Canonical(v), ParseNative(Canonical(v)).value);
      var other :| GoodItem(other) && Canonical(v) == ItemText(other) && Strict(other.value);
      ReadTextExact(Canonical(v), other);
    }
  }

  /** The printer is injective up to key order, bounds or no bounds. */
  lemma CanonicalInjective(v: Json, w: Json)
    ensures Canonical(v) == Canonical(w) <==> Normal(v) == Normal(w)
  {
    CanonicalPrintsNormal(v);
    CanonicalPrintsNormal(w);
    if Canonical(v) == Canonical(w) {
      var a, b := Item([], DocumentOf(Normal(v)), []), Item([], DocumentOf(Normal(w)), []);
      CompactItem(a.value);
      CompactItem(b.value);
      DocumentOfReads(Normal(v));
      DocumentOfReads(Normal(w));
      ReadTextExact(Canonical(v), a);
      ReadTextExact(Canonical(v), b);
    }
  }

  /** Two values that differ only in the order of their objects' keys. */
  ghost predicate SameValue(v: Json, w: Json) {
    match v
    case Arr(items) =>
      w.Arr? && |items| == |w.items| && forall i | 0 <= i < |items| :: SameValue(items[i], w.items[i])
    case Obj(fields) =>
      w.Obj? && |fields| == |w.fields| && forall i | 0 <= i < |fields| :: HasField(fields[i], w.fields)
    case _ => v == w
  }

  ghost predicate HasField(x: Keyed<Json>, g: seq<Keyed<Json>>) {
    exists j :: 0 <= j < |g| && g[j].key == x.key && SameValue(x.value, g[j].value)
  }

  /** Sorting the keys decides that relation, so `canonicalJson` prints alike exactly the values that are the same. */
  lemma {:induction false} NormalDecidesSameValue(v: Json, w: Json)
    requires PlainValue(v) && PlainValue(w)
    ensures Normal(v) == Normal(w) <==> SameValue(v, w)
  {
    match v
    case Arr(items) =>
      if w.Arr? && |items| == |w.items| {
        forall i | 0 <= i < |items| ensures Normal(items[i]) == Normal(w.items[i]) <==> SameValue(items[i], w.items[i]) {
          NormalDecidesSameValue(items[i], w.items[i]);
        }
        if Normal(v) == Normal(w) {
          forall i | 0 <= i < |items| ensures SameValue(items[i], w.items[i]) {
            assert Normal(v).items[i] == Normal(w).items[i];
          }
        }
      } else if w.Arr? {
        assert |Normal(v).items| != |Normal(w).items|;
      }
    case Obj(fields) =>
      if w.Obj? {
        SortedSameEntries(NormalFields(fields));
        SortedSameEntries(NormalFields(w.fields));
        forall i, j | 0 <= i < |fields| && 0 <= j < |w.fields|
          ensures Normal(fields[i].value) == Normal(w.fields[j].value) <==> SameValue(fields[i].value, w.fields[j].value)
        {
          NormalDecidesSameValue(fields[i].value, w.fields[j].value);
        }
        SameFields(fields, w.fields);
      }
    case _ =>
  }

  lemma SameFields(f: seq<Keyed<Json>>, g: seq<Keyed<Json>>)
    requires DistinctKeys(f) && DistinctKeys(g)
    requires forall i, j | 0 <= i < |f| && 0 <= j < |g| ::
      Normal(f[i].value) == Normal(g[j].value) <==> SameValue(f[i].value, g[j].value)
    ensures Normal(Obj(f)) == Normal(Obj(g)) <==> SameValue(Obj(f), Obj(g))
  {
    var a, b := NormalFields(f), NormalFields(g);
    SortedSameEntries(a);
    SortedSameEntries(b);
    forall i | 0 <= i < |f| ensures HasField(f[i], g) <==> a[i] in b {
      FieldInEntries(f[i], g);
    }
    if Sorted(a) == Sorted(b) {
      forall i | 0 <= i < |a| ensures a[i] in b {
        assert a[i] in Sorted(b);
      }
    } else if |f| == |g| && forall i | 0 <= i < |f| :: a[i] in b {
      SameEntriesSort(a, b);
    }
  }

  lemma FieldInEntries(x: Keyed<Json>, g: seq<Keyed<Json>>)
    requires forall j | 0 <= j < |g| :: Normal(x.value) == Normal(g[j].value) <==> SameValue(x.value, g[j].value)
    ensures HasField(x, g) <==> Keyed(x.key, Normal(x.value)) in NormalFields(g)
  {
    var b := NormalFields(g);
    if Keyed(x.key, Normal(x.value)) in b {
      var j :| 0 <= j < |b| && b[j] == Keyed(x.key, Normal(x.value));
      assert g[j].key == x.key && SameValue(x.value, g[j].value);
    }
    if HasField(x, g) {
      var j :| 0 <= j < |g| && g[j].key == x.key && SameValue(x.value, g[j].value);
      assert b[j] == Keyed(x.key, Normal(x.value));
    }
  }

  lemma SameEntriesSort(a: seq<Keyed<Json>>, b: seq<Keyed<Json>>)
    requires DistinctKeys(a) && DistinctKeys(b) && |a| == |b| && forall i | 0 <= i < |a| :: a[i] in b
    ensures Sorted(a) == Sorted(b)
  {
    DistinctOnce(a);
    forall x ensures multiset(a)[x] <= multiset(b)[x] {
      if x in multiset(a) {
        InEntries(a, x);
        InEntries(b, x);
      }
    }
    assert multiset(a) <= multiset(b);
    var extra := multiset(b) - multiset(a);
    assert multiset(b) == multiset(a) + extra;
    assert |extra| == 0;
    assert multiset(a) == multiset(b);
    SortedKeepsEntries(a);
    SortedKeepsEntries(b);
    SortedIncreases(a);
    SortedIncreases(b);
    IncreasingIsUnique(Sorted(a), Sorted(b));
  }

  lemma {:induction false} DistinctOnce(s: seq<Keyed<Json>>)
    requires DistinctKeys(s)
    ensures forall x :: multiset(s)[x] <= 1
  {
    if s != [] {
      DistinctOnce(s[1..]);
      assert s == [s[0]] + s[1..];
      InEntries(s[1..], s[0]);
      assert forall j | 0 <= j < |s[1..]| :: s[1..][j] == s[j + 1];
    }
  }
}
