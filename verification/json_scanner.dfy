/**
 `parseNativeJson`: a strict scan that rejects duplicate or unsafe decoded keys, deep nesting and large inputs,
 followed by `JSON.parse`. The scan works on characters and is looser than the grammar, so the two are related
 here: on a text of the grammar the scan accepts exactly the strict documents.
 */
module JsonScanner {
  import opened CodeUnits
  import opened JsonGrammar
  import opened JsonValues
  import opened Wrappers

  const MAX_DEPTH := 16
  const MAX_NODES := 50_000

  // ---------------------------------------------------------------------------------- strict documents

  const PROTO: Text := Ascii("__proto__")
  const CONSTRUCTOR: Text := Ascii("constructor")
  const PROTOTYPE: Text := Ascii("prototype")

  predicate UnsafeKey(key: Text) {
    key == PROTO || key == CONSTRUCTOR || key == PROTOTYPE
  }

  function Max(a: nat, b: nat): nat {
    if a < b then b else a
  }

  /** How many brackets enclose the deepest value. */
  function Height(doc: Document): nat {
    match doc
    case ArrayDoc(_, items) => if items == [] then 0 else 1 + ItemsHeight(items)
    case ObjectDoc(_, members) => if members == [] then 0 else 1 + MembersHeight(members)
    case _ => 0
  }

  function ItemsHeight(items: seq<Item>): nat {
    if items == [] then 0 else Max(Height(items[0].value), ItemsHeight(items[1..]))
  }

  function MembersHeight(members: seq<Member>): nat {
    if members == [] then 0 else Max(Height(members[0].item.value), MembersHeight(members[1..]))
  }

  /** How many values the document holds, itself included. */
  function Nodes(doc: Document): nat {
    match doc
    case ArrayDoc(_, items) => 1 + ItemsNodes(items)
    case ObjectDoc(_, members) => 1 + MembersNodes(members)
    case _ => 1
  }

  function ItemsNodes(items: seq<Item>): nat {
    if items == [] then 0 else Nodes(items[0].value) + ItemsNodes(items[1..])
  }

  function MembersNodes(members: seq<Member>): nat {
    if members == [] then 0 else Nodes(members[0].item.value) + MembersNodes(members[1..])
  }

  /** No object at any depth repeats a decoded key or uses an unsafe one. */
  predicate SafeKeys(doc: Document) {
    match doc
    case ArrayDoc(_, items) => forall i | 0 <= i < |items| :: SafeKeys(items[i].value)
    case ObjectDoc(_, members) =>
      && (forall i | 0 <= i < |members| :: !UnsafeKey(KeyOf(members[i])) && SafeKeys(members[i].item.value))
      && (forall i, j | 0 <= i < j < |members| :: KeyOf(members[i]) != KeyOf(members[j]))
    case _ => true
  }

  predicate Strict(doc: Document) {
    Height(doc) <= MAX_DEPTH && Nodes(doc) <= MAX_NODES && SafeKeys(doc)
  }

  // ---------------------------------------------------------------------------------- the scan

  /** Just past the closing quote, skipping every character after a backslash. */
  function CloseAt(s: Text): (k: Option<nat>)
    ensures k.Some? ==> 0 < k.value <= |s|
  {
    if s == [] then None
    else if s[0] == QUOTE then Some(1)
    else
      var step := if s[0] == BACKSLASH then 2 else 1;
      if step > |s| then None
      else
        match CloseAt(s[step..])
        case None => None
        case Some(k) => Some(k + step)
  }

  /** The scanner's string: find the closing quote, then let `JSON.parse` decode the slice. */
  function ScanString(s: Text): (r: Reading<Text>)
    ensures r.Read? ==> |r.rest| < |s|
  {
    if s == [] || s[0] != QUOTE then NoReading
    else
      match CloseAt(s[1..])
      case None => NoReading
      case Some(k) =>
        match ReadText(s[..k + 1])
        case None => NoReading
        case Some(item) => if item.value.StringDoc? then Read(Decode(item.value.chars), s[k + 1..]) else NoReading
  }

  datatype Scan = Rejected | Scanned(rest: Text, nodes: nat)

  function ScanValue(s: Text, nodes: nat, depth: nat): (r: Scan)
    ensures r.Scanned? ==> |r.rest| < |s|
    decreases |s|, 1
  {
    var t := SkipSpace(s);
    if depth > MAX_DEPTH || nodes + 1 > MAX_NODES || t == [] then Rejected
    else if t[0] == QUOTE then
      match ScanString(t)
      case NoReading => Rejected
      case Read(_, rest) => Scanned(rest, nodes + 1)
    else if t[0] == OPEN_BRACKET || t[0] == OPEN_BRACE then ScanBracket(t, nodes + 1, depth)
    else
      var literal := Literal(t);
      if literal == [] then Rejected else Scanned(t[|literal|..], nodes + 1)
  }

  /** An array or an object, its value already counted. */
  function ScanBracket(t: Text, nodes: nat, depth: nat): (r: Scan)
    requires t != []
    ensures r.Scanned? ==> |r.rest| < |t|
    decreases |t|, 0
  {
    var keyed := t[0] == OPEN_BRACE;
    var inner := SkipSpace(t[1..]);
    if inner != [] && inner[0] == (if keyed then CLOSE_BRACE else CLOSE_BRACKET) then Scanned(inner[1..], nodes)
    else ScanEntries(keyed, t[1..], {}, nodes, depth)
  }

  function ScanEntries(keyed: bool, s: Text, keys: set<Text>, nodes: nat, depth: nat): (r: Scan)
    ensures r.Scanned? ==> |r.rest| < |s|
    decreases |s|, 4
  {
    if keyed then ScanMembers(s, keys, nodes, depth) else ScanItems(s, nodes, depth)
  }

  /** An entry of an array and the space after it. */
  function ScanItem(s: Text, nodes: nat, depth: nat): (r: Scan)
    ensures r.Scanned? ==> |r.rest| < |s|
    decreases |s|, 2
  {
    match ScanValue(s, nodes, depth + 1)
    case Rejected => Rejected
    case Scanned(after, n) => Scanned(SkipSpace(after), n)
  }

  function ScanItems(s: Text, nodes: nat, depth: nat): (r: Scan)
    ensures r.Scanned? ==> |r.rest| < |s|
    decreases |s|, 3
  {
    match ScanItem(s, nodes, depth)
    case Rejected => Rejected
    case Scanned(rest, n) =>
      if rest == [] then Rejected
      else if rest[0] == CLOSE_BRACKET then Scanned(rest[1..], n)
      else if rest[0] != COMMA then Rejected
      else ScanItems(rest[1..], n, depth)
  }

  datatype MemberScan = BadMember | MemberScanned(key: Text, rest: Text, nodes: nat)

  /** A key that is new, safe and followed by its colon; the rest starts after the colon. */
  function ScanKey(s: Text, keys: set<Text>): (r: Reading<Text>)
    ensures r.Read? ==> |r.rest| < |s|
  {
    match ScanString(SkipSpace(s))
    case NoReading => NoReading
    case Read(key, afterKey) =>
      var colon := SkipSpace(afterKey);
      if key in keys || UnsafeKey(key) || colon == [] || colon[0] != COLON then NoReading else Read(key, colon[1..])
  }

  function ScanMember(s: Text, keys: set<Text>, nodes: nat, depth: nat): (r: MemberScan)
    ensures r.MemberScanned? ==> |r.rest| < |s|
    decreases |s|, 2
  {
    match ScanKey(s, keys)
    case NoReading => BadMember
    case Read(key, inner) =>
      match ScanValue(inner, nodes, depth + 1)
      case Rejected => BadMember
      case Scanned(after, n) => MemberScanned(key, SkipSpace(after), n)
  }

  function ScanMembers(s: Text, keys: set<Text>, nodes: nat, depth: nat): (r: Scan)
    ensures r.Scanned? ==> |r.rest| < |s|
    decreases |s|, 3
  {
    match ScanMember(s, keys, nodes, depth)
    case BadMember => Rejected
    case MemberScanned(key, rest, n) =>
      if rest == [] then Rejected
      else if rest[0] == CLOSE_BRACE then Scanned(rest[1..], n)
      else if rest[0] != COMMA then Rejected
      else ScanMembers(rest[1..], keys + {key}, n, depth)
  }

  datatype InputError = InvalidInput

  /** `parseNativeJson`. */
  function ParseNative(text: Text): Result<Json, InputError> {
    match ScanValue(text, 0, 0)
    case Rejected => Err(InvalidInput)
    case Scanned(rest, _) =>
      if SkipSpace(rest) != [] then Err(InvalidInput)
      else
        match ReadText(text)
        case None => Err(InvalidInput)
        case Some(item) => Ok(ValueOf(item.value))
  }

  // ---------------------------------------------------------------------------------- agreement

  lemma {:induction false} SkipSpaceTwice(s: Text)
    ensures SkipSpace(SkipSpace(s)) == SkipSpace(s)
  {
    if s != [] && IsSpace(s[0]) {
      SkipSpaceTwice(s[1..]);
    }
  }

  lemma {:induction false} CloseAtFindsEnd(cs: seq<StringChar>, tail: Text)
    requires GoodChars(cs)
    ensures CloseAt(CharsText(cs) + ([QUOTE] + tail)) == Some(|CharsText(cs)| + 1)
  {
    if cs == [] {
      assert CharsText(cs) + ([QUOTE] + tail) == [QUOTE] + tail;
    } else {
      var more := CharsText(cs[1..]) + ([QUOTE] + tail);
      Assoc(CharText(cs[0]), CharsText(cs[1..]), [QUOTE] + tail);
      CloseAtFindsEnd(cs[1..], tail);
      CloseAtSkipsChar(cs[0], more);
    }
  }

  lemma CloseAtSkipsChar(c: StringChar, more: Text)
    requires GoodChar(c)
    ensures CloseAt(CharText(c) + more) == AddTo(CloseAt(more), |CharText(c)|)
  {
    match c
    case Plain(u) => CloseAtSkipsPlain([u], more);
    case Short(letter) => assert (CharText(c) + more)[2..] == more;
    case Escaped(a, b, c', d) =>
      assert (CharText(c) + more)[2..] == [a, b, c', d] + more;
      CloseAtSkipsPlain([a, b, c', d], more);
  }

  function AddTo(k: Option<nat>, n: nat): Option<nat> {
    match k case None => None case Some(m) => Some(m + n)
  }

  lemma {:induction false} CloseAtSkipsPlain(plain: Text, more: Text)
    requires forall i | 0 <= i < |plain| :: plain[i] != QUOTE && plain[i] != BACKSLASH
    ensures CloseAt(plain + more) == AddTo(CloseAt(more), |plain|)
  {
    if plain == [] {
      assert plain + more == more;
    } else {
      assert (plain + more)[1..] == plain[1..] + more;
      CloseAtSkipsPlain(plain[1..], more);
    }
  }

  /** Decoding the slice up to the closing quote reads the same string as reading it in place. */
  lemma ScanStringAgrees(s: Text)
    ensures ReadString(s).Read? == ScanString(s).Read?
    ensures ReadString(s).Read? ==> ScanString(s) == Read(Decode(ReadString(s).value), ReadString(s).rest)
  {
    if ReadString(s).Read? {
      ReadStringScans(s);
    } else if ScanString(s).Read? {
      ScanStringReads(s);
    }
  }

  lemma ReadStringScans(s: Text)
    requires ReadString(s).Read?
    ensures ScanString(s) == Read(Decode(ReadString(s).value), ReadString(s).rest)
  {
    var cs, rest := ReadString(s).value, ReadString(s).rest;
    ReadStringSound(s);
    SliceScans(s, cs, rest);
  }

  lemma SliceScans(s: Text, cs: seq<StringChar>, rest: Text)
    requires GoodChars(cs) && s == StringText(cs) + rest
    ensures ScanString(s) == Read(Decode(cs), rest)
  {
    var k := |CharsText(cs)| + 1;
    assert s[1..] == CharsText(cs) + ([QUOTE] + rest);
    CloseAtFindsEnd(cs, rest);
    assert s[..k + 1] == StringText(cs) && s[k + 1..] == rest;
    var item := Item([], StringDoc(cs), []);
    assert ItemText(item) == StringText(cs);
    ReadTextExact(s[..k + 1], item);
  }

  lemma ScanStringReads(s: Text)
    requires ScanString(s).Read?
    ensures ReadString(s).Read?
  {
    var k := CloseAt(s[1..]).value;
    var slice := s[..k + 1];
    var item := ReadText(slice).value;
    ReadTextExact(slice, item);
    CloseAtIsQuote(s[1..]);
    assert item.before == [] && item.after == [];
    assert slice == StringText(item.value.chars);
    assert s == slice + s[k + 1..];
    ReadStringComplete(item.value.chars, s[k + 1..]);
  }

  lemma {:induction false} CloseAtIsQuote(s: Text)
    requires CloseAt(s).Some?
    ensures s[CloseAt(s).value - 1] == QUOTE
  {
    if s[0] != QUOTE {
      CloseAtIsQuote(s[if s[0] == BACKSLASH then 2 else 1..]);
    }
  }

  /** What the scan says about a document it meets with `nodes` values counted and `depth` brackets open. */
  predicate Fits(doc: Document, nodes: nat, depth: nat) {
    depth + Height(doc) <= MAX_DEPTH && nodes + Nodes(doc) <= MAX_NODES && SafeKeys(doc)
  }

  predicate ItemsFit(items: seq<Item>, nodes: nat, depth: nat) {
    if items == [] then depth + 1 <= MAX_DEPTH && nodes <= MAX_NODES
    else Fits(items[0].value, nodes, depth + 1) && ItemsFit(items[1..], nodes + Nodes(items[0].value), depth)
  }

  predicate MemberFits(m: Member, keys: set<Text>, nodes: nat, depth: nat) {
    !UnsafeKey(KeyOf(m)) && KeyOf(m) !in keys && Fits(m.item.value, nodes, depth + 1)
  }

  predicate MembersFit(members: seq<Member>, keys: set<Text>, nodes: nat, depth: nat) {
    if members == [] then depth + 1 <= MAX_DEPTH && nodes <= MAX_NODES
    else
      && MemberFits(members[0], keys, nodes, depth)
      && MembersFit(members[1..], keys + {KeyOf(members[0])}, nodes + Nodes(members[0].item.value), depth)
  }

  lemma {:induction false} ItemsFitMeans(items: seq<Item>, nodes: nat, depth: nat)
    ensures ItemsFit(items, nodes, depth) ==
            (&& depth + 1 + ItemsHeight(items) <= MAX_DEPTH
             && nodes + ItemsNodes(items) <= MAX_NODES
             && forall i | 0 <= i < |items| :: SafeKeys(items[i].value))
  {
    if items != [] {
      var others := items[1..];
      ItemsFitMeans(others, nodes + Nodes(items[0].value), depth);
      assert forall i | 0 <= i < |others| :: others[i] == items[i + 1];
      assert forall i | 1 <= i < |items| :: items[i] == others[i - 1];
    }
  }

  lemma {:induction false} MembersFitMeans(members: seq<Member>, keys: set<Text>, nodes: nat, depth: nat)
    ensures MembersFit(members, keys, nodes, depth) ==
            (&& depth + 1 + MembersHeight(members) <= MAX_DEPTH
             && nodes + MembersNodes(members) <= MAX_NODES
             && (forall i | 0 <= i < |members| :: !UnsafeKey(KeyOf(members[i])) && SafeKeys(members[i].item.value))
             && (forall i | 0 <= i < |members| :: KeyOf(members[i]) !in keys)
             && (forall i, j | 0 <= i < j < |members| :: KeyOf(members[i]) != KeyOf(members[j])))
  {
    if members != [] {
      var others := members[1..];
      MembersFitMeans(others, keys + {KeyOf(members[0])}, nodes + Nodes(members[0].item.value), depth);
      assert forall i | 0 <= i < |others| :: others[i] == members[i + 1];
      assert forall i | 1 <= i < |members| :: members[i] == others[i - 1];
    }
  }

  /** On a text the grammar reads, the scan consumes the same text and accepts exactly the fitting documents. */
  lemma {:induction false} ScanValueAgrees(s: Text, nodes: nat, depth: nat)
    requires ReadDocument(SkipSpace(s)).Read?
    ensures ScanValue(s, nodes, depth) == Expected(ReadDocument(SkipSpace(s)), nodes, depth)
    decreases |s|, 1
  {
    var t := SkipSpace(s);
    if depth > MAX_DEPTH || nodes + 1 > MAX_NODES {
      assert Nodes(ReadDocument(t).value) >= 1;
    } else if t[0] == QUOTE {
      ScanStringAgrees(t);
    } else if t[0] == OPEN_BRACKET {
      ScanArrayAgrees(t, nodes, depth);
    } else if t[0] == OPEN_BRACE {
      ScanObjectAgrees(t, nodes, depth);
    } else {
      assert Literal(t) != [];
    }
  }

  function Expected(r: Reading<Document>, nodes: nat, depth: nat): Scan
    requires r.Read?
  {
    if Fits(r.value, nodes, depth) then Scanned(r.rest, nodes + Nodes(r.value)) else Rejected
  }

  lemma {:induction false} ScanArrayAgrees(t: Text, nodes: nat, depth: nat)
    requires t != [] && t[0] == OPEN_BRACKET && ReadDocument(t).Read?
    requires depth <= MAX_DEPTH && nodes + 1 <= MAX_NODES
    ensures ScanBracket(t, nodes + 1, depth) == Expected(ReadDocument(t), nodes, depth)
    decreases |t|, 0
  {
    var doc := ReadDocument(t).value;
    var inner := SkipSpace(t[1..]);
    if inner != [] && inner[0] == CLOSE_BRACKET {
      assert doc.items == [] && Nodes(doc) == 1 && SafeKeys(doc);
    } else {
      ScanItemsAgrees(t[1..], nodes + 1, depth);
      assert doc.items == ReadItems(t[1..]).value && ReadDocument(t).rest == ReadItems(t[1..]).rest;
      ArrayFits(doc, nodes, depth);
    }
  }

  lemma ArrayFits(doc: Document, nodes: nat, depth: nat)
    requires doc.ArrayDoc? && doc.items != []
    ensures Fits(doc, nodes, depth) == ItemsFit(doc.items, nodes + 1, depth)
  {
    ItemsFitMeans(doc.items, nodes + 1, depth);
  }

  lemma ObjectFits(doc: Document, nodes: nat, depth: nat)
    requires doc.ObjectDoc? && doc.members != []
    ensures Fits(doc, nodes, depth) == MembersFit(doc.members, {}, nodes + 1, depth)
  {
    MembersFitMeans(doc.members, {}, nodes + 1, depth);
  }

  lemma {:induction false} ScanObjectAgrees(t: Text, nodes: nat, depth: nat)
    requires t != [] && t[0] == OPEN_BRACE && ReadDocument(t).Read?
    requires depth <= MAX_DEPTH && nodes + 1 <= MAX_NODES
    ensures ScanBracket(t, nodes + 1, depth) == Expected(ReadDocument(t), nodes, depth)
    decreases |t|, 0
  {
    var doc := ReadDocument(t).value;
    var inner := SkipSpace(t[1..]);
    if inner != [] && inner[0] == CLOSE_BRACE {
      assert doc.members == [] && Nodes(doc) == 1 && SafeKeys(doc);
    } else {
      ScanMembersAgrees(t[1..], {}, nodes + 1, depth);
      assert doc.members == ReadMembers(t[1..]).value && ReadDocument(t).rest == ReadMembers(t[1..]).rest;
      ObjectFits(doc, nodes, depth);
    }
  }

  lemma {:induction false} ScanItemAgrees(s: Text, nodes: nat, depth: nat)
    requires ReadItem(s).Read?
    ensures ScanItem(s, nodes, depth) == ExpectedItem(ReadItem(s), nodes, depth)
    decreases |s|, 2
  {
    assert ReadDocument(SkipSpace(s)).Read?;
    ScanValueAgrees(s, nodes, depth + 1);
  }

  function ExpectedItem(r: Reading<Item>, nodes: nat, depth: nat): Scan
    requires r.Read?
  {
    if Fits(r.value.value, nodes, depth + 1) then Scanned(r.rest, nodes + Nodes(r.value.value)) else Rejected
  }

  function ExpectedItems(r: Reading<seq<Item>>, nodes: nat, depth: nat): Scan
    requires r.Read?
  {
    if ItemsFit(r.value, nodes, depth) then Scanned(r.rest, nodes + ItemsNodes(r.value)) else Rejected
  }

  lemma {:induction false} ScanItemsAgrees(s: Text, nodes: nat, depth: nat)
    requires ReadItems(s).Read?
    ensures ScanItems(s, nodes, depth) == ExpectedItems(ReadItems(s), nodes, depth)
    decreases |s|, 3
  {
    FirstItemRead(s);
    var item, rest := ReadItem(s).value, ReadItem(s).rest;
    ScanItemAgrees(s, nodes, depth);
    if rest[0] == COMMA {
      var n := nodes + Nodes(item.value);
      ScanItemsAgrees(rest[1..], n, depth);
      FirstItemExpected(item, ReadItems(rest[1..]), nodes, depth);
      FirstItemScanned(s, item, rest, nodes, depth);
    } else {
      OnlyItemExpected(item, rest[1..], nodes, depth);
      FirstItemScanned(s, item, rest, nodes, depth);
    }
  }

  lemma FirstItemRead(s: Text)
    requires ReadItems(s).Read?
    ensures ReadItem(s).Read? && ReadItem(s).rest != []
    ensures var item, rest := ReadItem(s).value, ReadItem(s).rest;
      if rest[0] == COMMA
      then ReadItems(rest[1..]).Read? && ReadItems(s) == Read([item] + ReadItems(rest[1..]).value, ReadItems(rest[1..]).rest)
      else rest[0] == CLOSE_BRACKET && ReadItems(s) == Read([item], rest[1..])
  {
  }

  lemma FirstItemExpected(item: Item, others: Reading<seq<Item>>, nodes: nat, depth: nat)
    requires others.Read?
    ensures ExpectedItems(Read([item] + others.value, others.rest), nodes, depth)
         == if Fits(item.value, nodes, depth + 1) then ExpectedItems(others, nodes + Nodes(item.value), depth) else Rejected
  {
    assert ([item] + others.value)[1..] == others.value;
  }

  lemma OnlyItemExpected(item: Item, rest: Text, nodes: nat, depth: nat)
    ensures ExpectedItems(Read([item], rest), nodes, depth)
         == if Fits(item.value, nodes, depth + 1) then Scanned(rest, nodes + Nodes(item.value)) else Rejected
  {
    FirstItemExpected(item, Read([], rest), nodes, depth);
    assert [item] + [] == [item];
  }

  lemma FirstItemScanned(s: Text, item: Item, rest: Text, nodes: nat, depth: nat)
    requires rest != [] && (rest[0] == COMMA || rest[0] == CLOSE_BRACKET)
    requires ScanItem(s, nodes, depth) == ExpectedItem(Read(item, rest), nodes, depth)
    ensures ScanItems(s, nodes, depth)
         == if !Fits(item.value, nodes, depth + 1) then Rejected
            else if rest[0] == COMMA then ScanItems(rest[1..], nodes + Nodes(item.value), depth)
            else Scanned(rest[1..], nodes + Nodes(item.value))
  {
  }

  lemma {:induction false} ScanMemberAgrees(s: Text, keys: set<Text>, nodes: nat, depth: nat)
    requires ReadMember(s).Read?
    ensures ScanMember(s, keys, nodes, depth)
         == ExpectedMember(ReadMember(s).value, ReadMember(s).rest, keys, nodes, depth)
    decreases |s|, 2
  {
    var key := ReadString(SkipSpace(s));
    assert key.Read?;
    var colon := SkipSpace(key.rest);
    assert colon != [] && colon[0] == COLON;
    assert ReadItem(colon[1..]) == Read(ReadMember(s).value.item, ReadMember(s).rest);
    ScanStringAgrees(SkipSpace(s));
    ScanValueAgrees(colon[1..], nodes, depth + 1);
  }

  function ExpectedMembers(r: Reading<seq<Member>>, keys: set<Text>, nodes: nat, depth: nat): Scan
    requires r.Read?
  {
    if MembersFit(r.value, keys, nodes, depth) then Scanned(r.rest, nodes + MembersNodes(r.value)) else Rejected
  }

  function ExpectedMember(m: Member, rest: Text, keys: set<Text>, nodes: nat, depth: nat): MemberScan {
    if MemberFits(m, keys, nodes, depth) then MemberScanned(KeyOf(m), rest, nodes + Nodes(m.item.value)) else BadMember
  }

  lemma {:induction false} ScanMembersAgrees(s: Text, keys: set<Text>, nodes: nat, depth: nat)
    requires ReadMembers(s).Read?
    ensures ScanMembers(s, keys, nodes, depth) == ExpectedMembers(ReadMembers(s), keys, nodes, depth)
    decreases |s|, 3
  {
    FirstMemberRead(s);
    var m, rest := ReadMember(s).value, ReadMember(s).rest;
    ScanMemberAgrees(s, keys, nodes, depth);
    var others := Read([], []);
    if rest[0] == COMMA {
      others := ReadMembers(rest[1..]);
      ScanMembersAgrees(rest[1..], keys + {KeyOf(m)}, nodes + Nodes(m.item.value), depth);
    }
    MembersScanned(s, m, rest, others, keys, nodes, depth);
  }

  lemma MembersScanned(s: Text, m: Member, rest: Text, others: Reading<seq<Member>>, keys: set<Text>, nodes: nat, depth: nat)
    requires rest != [] && (rest[0] == COMMA || rest[0] == CLOSE_BRACE) && others.Read?
    requires ScanMember(s, keys, nodes, depth) == ExpectedMember(m, rest, keys, nodes, depth)
    requires rest[0] == COMMA ==>
      ScanMembers(rest[1..], keys + {KeyOf(m)}, nodes + Nodes(m.item.value), depth)
      == ExpectedMembers(others, keys + {KeyOf(m)}, nodes + Nodes(m.item.value), depth)
    ensures ScanMembers(s, keys, nodes, depth)
         == ExpectedMembers(if rest[0] == COMMA then Read([m] + others.value, others.rest) else Read([m], rest[1..]), keys, nodes, depth)
  {
    FirstMemberExpected(m, others, keys, nodes, depth);
    OnlyMemberExpected(m, rest[1..], keys, nodes, depth);
    FirstMemberScanned(s, m, rest, keys, nodes, depth);
  }

  lemma FirstMemberRead(s: Text)
    requires ReadMembers(s).Read?
    ensures ReadMember(s).Read? && ReadMember(s).rest != []
    ensures var m, rest := ReadMember(s).value, ReadMember(s).rest;
      if rest[0] == COMMA
      then ReadMembers(rest[1..]).Read? && ReadMembers(s) == Read([m] + ReadMembers(rest[1..]).value, ReadMembers(rest[1..]).rest)
      else rest[0] == CLOSE_BRACE && ReadMembers(s) == Read([m], rest[1..])
  {
  }

  lemma FirstMemberExpected(m: Member, others: Reading<seq<Member>>, keys: set<Text>, nodes: nat, depth: nat)
    requires others.Read?
    ensures ExpectedMembers(Read([m] + others.value, others.rest), keys, nodes, depth)
         == if MemberFits(m, keys, nodes, depth)
            then ExpectedMembers(others, keys + {KeyOf(m)}, nodes + Nodes(m.item.value), depth) else Rejected
  {
    assert ([m] + others.value)[1..] == others.value;
  }

  lemma OnlyMemberExpected(m: Member, rest: Text, keys: set<Text>, nodes: nat, depth: nat)
    ensures ExpectedMembers(Read([m], rest), keys, nodes, depth)
         == if MemberFits(m, keys, nodes, depth) then Scanned(rest, nodes + Nodes(m.item.value)) else Rejected
  {
    FirstMemberExpected(m, Read([], rest), keys, nodes, depth);
    assert [m] + [] == [m];
  }

  lemma FirstMemberScanned(s: Text, m: Member, rest: Text, keys: set<Text>, nodes: nat, depth: nat)
    requires rest != [] && (rest[0] == COMMA || rest[0] == CLOSE_BRACE)
    requires ScanMember(s, keys, nodes, depth) == ExpectedMember(m, rest, keys, nodes, depth)
    ensures ScanMembers(s, keys, nodes, depth)
         == if !MemberFits(m, keys, nodes, depth) then Rejected
            else if rest[0] == COMMA then ScanMembers(rest[1..], keys + {KeyOf(m)}, nodes + Nodes(m.item.value), depth)
            else Scanned(rest[1..], nodes + Nodes(m.item.value))
  {
  }

  /** `parseNativeJson` accepts exactly the texts of strict documents, and answers the value of the document. */
  lemma ParseNativeExact(text: Text, v: Json)
    ensures ParseNative(text) == Ok(v)
       <==> exists item :: GoodItem(item) && text == ItemText(item) && Strict(item.value) && v == ValueOf(item.value)
  {
    if ParseNative(text) == Ok(v) {
      var item := ReadText(text).value;
      ReadTextExact(text, item);
      ScanValueAgrees(text, 0, 0);
      assert GoodItem(item) && text == ItemText(item) && Strict(item.value) && v == ValueOf(item.value);
    }
    if item :| GoodItem(item) && text == ItemText(item) && Strict(item.value) && v == ValueOf(item.value) {
      ReadTextExact(text, item);
      ScanValueAgrees(text, 0, 0);
    }
  }
}
