/**
 The admission observer: it counts what a turn says without keeping it, and recognises one fixed claim however its text
 is cut into deltas. Whatever it reports passes the offline check of admission observations.
 */
module AdmissionObservers {
  import opened Wrappers

  // ---------------------------------------------------------------------------------- the claim as a language

  const CLAIM_PARTS: seq<string> := ["{", "\"admitted\"", ":", "true", "}"]

  predicate Blank(c: char) {
    c == ' ' || c == '\t' || c == '\r' || c == '\n'
  }

  predicate AllBlank(s: string) {
    forall i | 0 <= i < |s| :: Blank(s[i])
  }

  /** The parts with a gap before each and one at the end. */
  function Weave(gaps: seq<string>, parts: seq<string>): string
    requires |gaps| == |parts| + 1
  {
    if parts == [] then gaps[0] else gaps[0] + parts[0] + Weave(gaps[1..], parts[1..])
  }

  ghost predicate Woven(s: string, parts: seq<string>, gaps: seq<string>) {
    |gaps| == |parts| + 1 && (forall i | 0 <= i < |gaps| :: AllBlank(gaps[i])) && s == Weave(gaps, parts)
  }

  /** The text is the claim, with blanks around its tokens. */
  ghost predicate IsClaim(s: string) {
    exists gaps :: Woven(s, CLAIM_PARTS, gaps)
  }

  // ---------------------------------------------------------------------------------- the matcher

  /** The part being matched, how much of it was seen, and whether everything matched so far. */
  datatype Matcher = Matcher(part: nat, offset: nat, matches: bool)

  const START := Matcher(0, 0, true)

  function MatchChar(m: Matcher, c: char): Matcher {
    if !m.matches || (m.offset == 0 && Blank(c)) then m
    else if m.part >= |CLAIM_PARTS| || m.offset >= |CLAIM_PARTS[m.part]| || CLAIM_PARTS[m.part][m.offset] != c then m.(matches := false)
    else if m.offset + 1 == |CLAIM_PARTS[m.part]| then Matcher(m.part + 1, 0, true)
    else m.(offset := m.offset + 1)
  }

  function MatchText(m: Matcher, s: string): Matcher {
    if s == "" then m else MatchChar(MatchText(m, s[..|s| - 1]), s[|s| - 1])
  }

  predicate Claims(m: Matcher) {
    m.matches && m.part == |CLAIM_PARTS|
  }

  /** Where the text is cut makes no difference. */
  lemma {:induction false} MatchInPieces(m: Matcher, s: string, t: string)
    ensures MatchText(MatchText(m, s), t) == MatchText(m, s + t)
  {
    if t == "" {
      assert s + t == s;
    } else {
      MatchInPieces(m, s, t[..|t| - 1]);
      assert (s + t)[..|s + t| - 1] == s + t[..|t| - 1];
    }
  }

  lemma MatchFirst(m: Matcher, s: string)
    requires s != ""
    ensures MatchText(m, s) == MatchText(MatchChar(m, s[0]), s[1..])
  {
    MatchInPieces(m, s[..1], s[1..]);
    assert s[..1] + s[1..] == s;
    assert s[..1][..0] == "";
  }

  lemma {:induction false} FailedStaysFailed(m: Matcher, s: string)
    requires !m.matches
    ensures MatchText(m, s) == m
  {
    if s != "" {
      FailedStaysFailed(m, s[..|s| - 1]);
    }
  }

  // ---------------------------------------------------------------------------------- one character at a time

  /** A part never starts with a blank, and none is empty. */
  predicate Tokens(parts: seq<string>) {
    forall i | 0 <= i < |parts| :: parts[i] != "" && !Blank(parts[i][0])
  }

  lemma WeaveHead(gaps: seq<string>, parts: seq<string>)
    requires |gaps| == |parts| + 1 && parts != []
    ensures Weave(gaps, parts) == gaps[0] + (parts[0] + Weave(gaps[1..], parts[1..]))
  {
  }

  ghost predicate SomeGaps(s: string, parts: seq<string>) {
    exists gaps :: Woven(s, parts, gaps)
  }

  /** With no gap before its first part, the text starts with that part and goes on with the others. */
  ghost predicate StartsWith(s: string, part: string, parts: seq<string>) {
    part <= s && SomeGaps(s[|part|..], parts)
  }

  lemma NoGapFirst(s: string, part: string, parts: seq<string>)
    ensures (exists gaps :: Woven(s, [part] + parts, gaps) && gaps[0] == "") <==> StartsWith(s, part, parts)
  {
    var all := [part] + parts;
    assert all[1..] == parts;
    if gaps :| Woven(s, all, gaps) && gaps[0] == "" {
      WeaveHead(gaps, all);
      assert s == part + Weave(gaps[1..], parts);
      assert Woven(s[|part|..], parts, gaps[1..]);
    }
    if StartsWith(s, part, parts) {
      var tail :| Woven(s[|part|..], parts, tail);
      var gaps := [""] + tail;
      WeaveHead(gaps, all);
      assert gaps[1..] == tail;
      assert s == part + s[|part|..];
      assert Woven(s, all, gaps);
    }
  }

  /** A text starts with its first gap, or with its first part when that gap is empty. */
  lemma FirstCharacter(s: string, parts: seq<string>, gaps: seq<string>)
    requires s != "" && Tokens(parts) && Woven(s, parts, gaps)
    ensures if Blank(s[0]) then gaps[0] != "" else gaps[0] == "" && parts != [] && parts[0][0] == s[0]
  {
    if parts != [] { WeaveHead(gaps, parts); }
    if gaps[0] != "" {
      assert s[0] == gaps[0][0];
    } else {
      assert s[0] == parts[0][0];
    }
  }

  /** A leading blank belongs to the first gap. */
  lemma BlankDropped(c: char, s: string, parts: seq<string>, gaps: seq<string>)
    requires Blank(c) && Tokens(parts) && Woven([c] + s, parts, gaps)
    ensures SomeGaps(s, parts)
  {
    var t := [c] + s;
    FirstCharacter(t, parts, gaps);
    if parts != [] { WeaveHead(gaps, parts); }
    assert gaps[0][0] == t[0];
    var shorter := gaps[0 := gaps[0][1..]];
    assert shorter[1..] == gaps[1..];
    if parts != [] { WeaveHead(shorter, parts); }
    assert Weave(shorter, parts) == t[1..] == s;
    assert Woven(s, parts, shorter);
  }

  lemma BlankAdded(c: char, s: string, parts: seq<string>, gaps: seq<string>)
    requires Blank(c) && Woven(s, parts, gaps)
    ensures SomeGaps([c] + s, parts)
  {
    var longer := gaps[0 := [c] + gaps[0]];
    assert longer[1..] == gaps[1..];
    if parts != [] { WeaveHead(gaps, parts); WeaveHead(longer, parts); }
    assert Woven([c] + s, parts, longer);
  }

  lemma BlankFirst(c: char, s: string, parts: seq<string>)
    requires Blank(c) && Tokens(parts)
    ensures SomeGaps([c] + s, parts) <==> SomeGaps(s, parts)
  {
    hide Woven;
    if gaps :| Woven([c] + s, parts, gaps) { BlankDropped(c, s, parts, gaps); }
    if gaps :| Woven(s, parts, gaps) { BlankAdded(c, s, parts, gaps); }
  }

  /** A leading character that is no blank must begin the first part. */
  lemma TokenFirst(c: char, s: string, parts: seq<string>)
    requires !Blank(c) && Tokens(parts)
    ensures SomeGaps([c] + s, parts) <==> parts != [] && parts[0][0] == c && StartsWith(s, parts[0][1..], parts[1..])
  {
    var t := [c] + s;
    if gaps :| Woven(t, parts, gaps) {
      FirstCharacter(t, parts, gaps);
      assert [parts[0]] + parts[1..] == parts;
      NoGapFirst(t, parts[0], parts[1..]);
      PartShortens(c, s, parts[0], parts[1..]);
    }
    if parts != [] && parts[0][0] == c && StartsWith(s, parts[0][1..], parts[1..]) {
      PartShortens(c, s, parts[0], parts[1..]);
      NoGapFirst(t, parts[0], parts[1..]);
      assert [parts[0]] + parts[1..] == parts;
    }
  }

  /** Inside a part every character counts, a blank as well. */
  lemma PartShortens(c: char, s: string, part: string, parts: seq<string>)
    requires part != ""
    ensures StartsWith([c] + s, part, parts) <==> part[0] == c && StartsWith(s, part[1..], parts)
  {
    var t := [c] + s;
    assert t[1..] == s;
    if part <= t {
      assert part[1..] == t[1..|part|] == s[..|part| - 1];
      assert t[|part|..] == s[|part| - 1..];
    }
    if part[0] == c && part[1..] <= s {
      assert part == [c] + part[1..];
      assert t[|part|..] == s[|part| - 1..];
    }
  }

  /** What may still come from a matcher on: the rest of its part, then the parts after it. */
  ghost predicate Remaining(m: Matcher, s: string) {
    m.matches && m.part <= |CLAIM_PARTS|
    && if m.offset == 0 then SomeGaps(s, CLAIM_PARTS[m.part..])
       else m.part < |CLAIM_PARTS| && m.offset < |CLAIM_PARTS[m.part]|
            && StartsWith(s, CLAIM_PARTS[m.part][m.offset..], CLAIM_PARTS[m.part + 1..])
  }

  lemma ClaimTokens()
    ensures Tokens(CLAIM_PARTS)
  {
  }

  lemma RemainingStep(m: Matcher, c: char, s: string)
    ensures Remaining(m, [c] + s) <==> Remaining(MatchChar(m, c), s)
  {
    ClaimTokens();
    if m.matches && m.part <= |CLAIM_PARTS| {
      var parts := CLAIM_PARTS[m.part..];
      assert Tokens(parts) by { assert forall i | 0 <= i < |parts| :: parts[i] == CLAIM_PARTS[m.part + i]; }
      if m.offset == 0 {
        StartStep(m, c, s, parts);
      } else if m.part < |CLAIM_PARTS| && m.offset < |CLAIM_PARTS[m.part]| {
        InsideStep(m, c, s);
      }
    }
  }

  lemma StartStep(m: Matcher, c: char, s: string, parts: seq<string>)
    requires m.matches && m.part <= |CLAIM_PARTS| && m.offset == 0 && parts == CLAIM_PARTS[m.part..] && Tokens(parts)
    ensures Remaining(m, [c] + s) <==> Remaining(MatchChar(m, c), s)
  {
    hide SomeGaps;
    if Blank(c) {
      BlankFirst(c, s, parts);
    } else {
      TokenFirst(c, s, parts);
      if parts != [] {
        assert parts[0] == CLAIM_PARTS[m.part] && parts[1..] == CLAIM_PARTS[m.part + 1..];
        if |parts[0]| == 1 {
          assert parts[0][1..] == "" && s[0..] == s;
        }
      }
    }
  }

  lemma InsideStep(m: Matcher, c: char, s: string)
    requires m.matches && m.part < |CLAIM_PARTS| && 0 < m.offset < |CLAIM_PARTS[m.part]|
    ensures Remaining(m, [c] + s) <==> Remaining(MatchChar(m, c), s)
  {
    hide SomeGaps;
    var part, parts := CLAIM_PARTS[m.part][m.offset..], CLAIM_PARTS[m.part + 1..];
    PartShortens(c, s, part, parts);
    assert part[1..] == CLAIM_PARTS[m.part][m.offset + 1..];
    if |part| == 1 {
      assert part[1..] == "" && s[0..] == s;
    }
  }

  /** At the end of the text the claim is complete exactly when nothing but gaps remains. */
  lemma RemainingNothing(m: Matcher)
    requires Stands(m)
    ensures Remaining(m, "") <==> Claims(m)
  {
    ClaimTokens();
    if m.part == |CLAIM_PARTS| {
      assert CLAIM_PARTS[m.part..] == [];
      assert Woven("", [], [""]);
    } else {
      var parts := CLAIM_PARTS[m.part..];
      if gaps :| Woven("", parts, gaps) { WeaveHead(gaps, parts); }
    }
  }

  /** A matcher stands inside a part or before the next. */
  ghost predicate Stands(m: Matcher) {
    if m.part < |CLAIM_PARTS| then m.offset < |CLAIM_PARTS[m.part]| else m.part == |CLAIM_PARTS| && m.offset == 0
  }

  lemma StandsStep(m: Matcher, c: char)
    requires Stands(m)
    ensures Stands(MatchChar(m, c))
  {
    ClaimTokens();
  }

  lemma {:induction false} RemainingText(m: Matcher, s: string)
    requires Stands(m)
    ensures Remaining(m, s) <==> Claims(MatchText(m, s))
    decreases |s|
  {
    if s == "" {
      RemainingNothing(m);
    } else {
      assert s == [s[0]] + s[1..];
      RemainingStep(m, s[0], s[1..]);
      StandsStep(m, s[0]);
      RemainingText(MatchChar(m, s[0]), s[1..]);
      MatchFirst(m, s);
      hide Remaining, MatchChar, MatchText;
    }
  }

  /** The matcher accepts exactly the claim. */
  lemma MatcherIsExact(s: string)
    ensures Claims(MatchText(START, s)) <==> IsClaim(s)
  {
    ClaimTokens();
    RemainingText(START, s);
    assert CLAIM_PARTS[0..] == CLAIM_PARTS;
    assert IsClaim(s) <==> SomeGaps(s, CLAIM_PARTS);
  }

  // ---------------------------------------------------------------------------------- the length of a claim

  lemma {:induction false} WeaveLength(gaps: seq<string>, parts: seq<string>)
    requires |gaps| == |parts| + 1
    ensures |Weave(gaps, parts)| >= Total(parts)
  {
    if parts != [] {
      WeaveHead(gaps, parts);
      WeaveLength(gaps[1..], parts[1..]);
    }
  }

  function Total(parts: seq<string>): nat {
    if parts == [] then 0 else |parts[0]| + Total(parts[1..])
  }

  lemma ClaimLength(s: string)
    requires IsClaim(s)
    ensures |s| >= 17
  {
    var gaps :| Woven(s, CLAIM_PARTS, gaps);
    WeaveLength(gaps, CLAIM_PARTS);
    assert Total(CLAIM_PARTS[4..]) == 1;
    assert CLAIM_PARTS[3..][1..] == CLAIM_PARTS[4..] && CLAIM_PARTS[2..][1..] == CLAIM_PARTS[3..];
    assert CLAIM_PARTS[1..][1..] == CLAIM_PARTS[2..];
    assert Total(CLAIM_PARTS[3..]) == 5 && Total(CLAIM_PARTS[2..]) == 6 && Total(CLAIM_PARTS[1..]) == 16;
  }

  // ---------------------------------------------------------------------------------- the summary and its offline check

  datatype ToolCategory = SearchTool | UseTool | ManagedTargets | ManagedDelegate | OtherTool
  datatype Response = AdmittedTrue | OtherText | NoText

  datatype Observation = Observation(textBytes: nat, textDeltas: nat, textCapped: bool, requestCount: nat,
                                     toolItems: map<ToolCategory, nat>, response: Response)

  const MAXIMUM_TEXT_BYTES := 8_192
  const MAXIMUM_TEXT_DELTAS := 512
  const MAXIMUM_ITEMS := 64

  function Sum(items: map<ToolCategory, nat>): nat
    requires items.Keys == {SearchTool, UseTool, ManagedTargets, ManagedDelegate, OtherTool}
  {
    items[SearchTool] + items[UseTool] + items[ManagedTargets] + items[ManagedDelegate] + items[OtherTool]
  }

  /** `parseAdmissionObservation` accepts it. */
  predicate PassesCheck(o: Observation) {
    && o.textBytes <= MAXIMUM_TEXT_BYTES && o.textDeltas <= MAXIMUM_TEXT_DELTAS && o.requestCount <= MAXIMUM_ITEMS
    && o.toolItems.Keys == {SearchTool, UseTool, ManagedTargets, ManagedDelegate, OtherTool}
    && (forall c | c in o.toolItems :: o.toolItems[c] <= MAXIMUM_ITEMS)
    && Sum(o.toolItems) <= MAXIMUM_ITEMS
    && (o.textBytes == 0) == (o.textDeltas == 0)
    && o.textDeltas <= o.textBytes
    && (o.response == NoText) == (o.textBytes == 0)
    && (o.response == AdmittedTrue ==> o.textBytes >= 17)
    && (o.textCapped ==> o.textBytes == MAXIMUM_TEXT_BYTES || o.textDeltas == MAXIMUM_TEXT_DELTAS)
  }

  /** One item of the turn: what its last snapshot names, and every named category it ever showed. */
  datatype Item = Item(tool: Option<ToolCategory>, categories: set<ToolCategory>)

  /** A tool item counts under its one named category, or as other. */
  function CategoryOf(item: Item): ToolCategory {
    if item.categories == {SearchTool} then SearchTool
    else if item.categories == {UseTool} then UseTool
    else if item.categories == {ManagedTargets} then ManagedTargets
    else if item.categories == {ManagedDelegate} then ManagedDelegate
    else OtherTool
  }

  function Min(a: nat, b: nat): nat {
    if a < b then a else b
  }

  /** The tool items of a category. */
  function ItemsOf(items: map<string, Item>, c: ToolCategory): set<string> {
    set i | i in items && items[i].tool.Some? && CategoryOf(items[i]) == c
  }

  /** The observer's mutable summary. `text` and `bytes` are everything said so far, which the observer does not keep. */
  class AdmissionObserver {
    var textBytes: nat
    var textDeltas: nat
    var textCapped: bool
    var requestCount: nat
    var items: map<string, Item>
    var claim: Matcher
    ghost var text: string
    ghost var bytes: nat
    ghost var deltas: nat

    constructor ()
      ensures Valid() && text == "" && bytes == 0 && deltas == 0 && items == map[] && requestCount == 0
    {
      textBytes, textDeltas, textCapped, requestCount := 0, 0, false, 0;
      items := map[];
      claim := START;
      text, bytes, deltas := "", 0, 0;
    }

    /** Each counter is its total, saturated; the matcher has seen the whole text. */
    ghost predicate Valid()
      reads this
    {
      && claim == MatchText(START, text)
      && textBytes == Min(bytes, MAXIMUM_TEXT_BYTES) && textDeltas == Min(deltas, MAXIMUM_TEXT_DELTAS)
      && textCapped == (bytes > MAXIMUM_TEXT_BYTES || deltas > MAXIMUM_TEXT_DELTAS)
      && deltas <= |text| <= bytes && (deltas == 0 ==> bytes == 0)
      && requestCount <= MAXIMUM_ITEMS && |items| <= MAXIMUM_ITEMS
    }

    /** A delta of assistant text; its UTF-8 length is never less than its characters. */
    method OnText(delta: string, deltaBytes: nat)
      requires Valid() && |delta| <= deltaBytes && (delta == "" ==> deltaBytes == 0)
      modifies this
      ensures Valid() && text == old(text) + delta && bytes == old(bytes) + deltaBytes && items == old(items) && requestCount == old(requestCount)
      ensures deltas == old(deltas) + if delta == "" then 0 else 1
    {
      hide MatchText, MatchChar;
      if delta == "" {
        assert text + delta == text;
        return;
      }
      var total := textBytes + deltaBytes;
      var count := textDeltas + 1;
      textCapped := textCapped || total > MAXIMUM_TEXT_BYTES || count > MAXIMUM_TEXT_DELTAS;
      textBytes := Min(total, MAXIMUM_TEXT_BYTES);
      textDeltas := Min(count, MAXIMUM_TEXT_DELTAS);
      MatchInPieces(START, text, delta);
      if claim.matches {
        Scan(delta);
      } else {
        FailedStaysFailed(claim, delta);
      }
      text, bytes, deltas := text + delta, bytes + deltaBytes, deltas + 1;
    }

    /** The matcher's loop, which stops at the first character that cannot belong to the claim. */
    method Scan(delta: string)
      modifies `claim
      ensures claim == MatchText(old(claim), delta)
    {
      for i := 0 to |delta|
        invariant claim == MatchText(old(claim), delta[..i])
      {
        assert delta[..i + 1][..i] == delta[..i];
        claim := MatchChar(claim, delta[i]);
        if !claim.matches {
          MatchInPieces(old(claim), delta[..i + 1], delta[i + 1..]);
          FailedStaysFailed(claim, delta[i + 1..]);
          assert delta[..i + 1] + delta[i + 1..] == delta;
          return;
        }
      }
      assert delta[..|delta|] == delta;
    }

    method OnRequest()
      requires Valid()
      modifies `requestCount
      ensures Valid() && requestCount == Min(old(requestCount) + 1, MAXIMUM_ITEMS)
    {
      requestCount := Min(requestCount + 1, MAXIMUM_ITEMS);
    }

    /** An item event; a 65th item ends the turn. */
    method OnItem(id: string, tool: Option<ToolCategory>) returns (ok: bool)
      requires Valid()
      modifies `items
      ensures Valid() && ok == (id in old(items) || |old(items)| < MAXIMUM_ITEMS)
      ensures ok ==> items.Keys == old(items).Keys + {id} && items[id].tool == tool && forall i | i in old(items) && i != id :: items[i] == old(items)[i]
      ensures ok ==> items[id].categories == (if id in old(items) then old(items)[id].categories else {})
                                             + (if tool.Some? && tool.value != OtherTool then {tool.value} else {})
    {
      if id !in items && |items| >= MAXIMUM_ITEMS {
        return false;
      }
      var categories := if id in items then items[id].categories else {};
      if tool.Some? && tool.value != OtherTool {
        categories := categories + {tool.value};
      }
      ghost var before := items;
      items := items[id := Item(tool, categories)];
      assert items.Keys == before.Keys + {id};
      ok := true;
    }

    /** The census of tool items. */
    method CountItems() returns (counts: map<ToolCategory, nat>)
      ensures counts.Keys == {SearchTool, UseTool, ManagedTargets, ManagedDelegate, OtherTool}
      ensures forall c | c in counts :: counts[c] == |ItemsOf(items, c)|
      ensures Sum(counts) <= |items|
    {
      hide Census;
      counts := map[SearchTool := 0, UseTool := 0, ManagedTargets := 0, ManagedDelegate := 0, OtherTool := 0];
      var left := items.Keys;
      ghost var seen: map<string, Item> := map[];
      NoCensus();
      while left != {}
        invariant left <= items.Keys && seen.Keys == items.Keys - left && forall i | i in seen :: seen[i] == items[i]
        invariant Census(counts, seen)
        decreases |left|
      {
        var id :| id in left;
        left := left - {id};
        OneMoreCounted(counts, seen, id, items[id]);
        counts := CountOne(counts, items[id]);
        seen := seen[id := items[id]];
      }
      assert seen == items;
      CensusTotals(counts, items);
    }

    /** What the turn's end reports. */
    method Finish() returns (o: Observation)
      requires Valid()
      ensures PassesCheck(o)
      ensures o.response == AdmittedTrue <==> IsClaim(text)
      ensures o.response == NoText <==> text == ""
      ensures o.textBytes == Min(bytes, MAXIMUM_TEXT_BYTES) && o.textDeltas == Min(deltas, MAXIMUM_TEXT_DELTAS) && o.requestCount == requestCount
      ensures o.textCapped == (bytes > MAXIMUM_TEXT_BYTES || deltas > MAXIMUM_TEXT_DELTAS)
      ensures forall c | c in o.toolItems :: o.toolItems[c] == |ItemsOf(items, c)|
    {
      var counts := CountItems();
      MatcherIsExact(text);
      if IsClaim(text) { ClaimLength(text); }
      var response := if textBytes == 0 then NoText else if Claims(claim) then AdmittedTrue else OtherText;
      o := Observation(textBytes, textDeltas, textCapped, requestCount, counts, response);
    }
  }

  function CountOne(counts: map<ToolCategory, nat>, item: Item): map<ToolCategory, nat> {
    if item.tool.Some? && CategoryOf(item) in counts then counts[CategoryOf(item) := counts[CategoryOf(item)] + 1] else counts
  }

  /** The counts are those of these items. */
  ghost predicate Census(counts: map<ToolCategory, nat>, items: map<string, Item>) {
    && counts.Keys == {SearchTool, UseTool, ManagedTargets, ManagedDelegate, OtherTool}
    && (forall c | c in counts :: counts[c] == |ItemsOf(items, c)|)
    && Sum(counts) <= |items|
  }

  lemma NoCensus()
    ensures Census(map[SearchTool := 0, UseTool := 0, ManagedTargets := 0, ManagedDelegate := 0, OtherTool := 0], map[])
  {
    assert forall c :: ItemsOf(map[], c) == {};
  }

  lemma CensusTotals(counts: map<ToolCategory, nat>, items: map<string, Item>)
    requires Census(counts, items)
    ensures counts.Keys == {SearchTool, UseTool, ManagedTargets, ManagedDelegate, OtherTool}
    ensures forall c | c in counts :: counts[c] == |ItemsOf(items, c)|
    ensures Sum(counts) <= |items|
  {
  }

  lemma OneMoreCounted(counts: map<ToolCategory, nat>, seen: map<string, Item>, id: string, item: Item)
    requires Census(counts, seen) && id !in seen
    ensures Census(CountOne(counts, item), seen[id := item])
  {
    OneMoreItem(seen, id, item);
    hide ItemsOf;
    var c := CategoryOf(item);
    assert c == SearchTool || c == UseTool || c == ManagedTargets || c == ManagedDelegate || c == OtherTool;
  }

  lemma OneMoreItem(seen: map<string, Item>, id: string, item: Item)
    requires id !in seen
    ensures forall c: ToolCategory ::
              |ItemsOf(seen[id := item], c)| == |ItemsOf(seen, c)| + if item.tool.Some? && CategoryOf(item) == c then 1 else 0
    ensures |seen[id := item]| == |seen| + 1
  {
    forall c: ToolCategory
      ensures |ItemsOf(seen[id := item], c)| == |ItemsOf(seen, c)| + if item.tool.Some? && CategoryOf(item) == c then 1 else 0
    {
      if item.tool.Some? && CategoryOf(item) == c {
        assert ItemsOf(seen[id := item], c) == ItemsOf(seen, c) + {id};
      } else {
        assert ItemsOf(seen[id := item], c) == ItemsOf(seen, c);
      }
    }
  }
}
