/** `parseNativeJson` as the source writes it: a cursor and a node counter moved over the text by loops. */
module NativeJsonReader {
  import opened CodeUnits
  import opened JsonGrammar
  import opened JsonScanner
  import opened JsonValues
  import opened Wrappers

  /** The scan of the entries from a value on, its key already read. */
  function AfterKey(keyed: bool, s: Text, keys: set<Text>, nodes: nat, depth: nat): Scan {
    match ScanValue(s, nodes, depth + 1)
    case Rejected => Rejected
    case Scanned(after, n) => AfterValue(keyed, SkipSpace(after), keys, n, depth)
  }

  /** The scan of the entries from a comma or the closing bracket on. */
  function AfterValue(keyed: bool, s: Text, keys: set<Text>, nodes: nat, depth: nat): Scan {
    if s == [] then Rejected
    else if s[0] == (if keyed then CLOSE_BRACE else CLOSE_BRACKET) then Scanned(s[1..], nodes)
    else if s[0] != COMMA then Rejected
    else ScanEntries(keyed, s[1..], keys, nodes, depth)
  }

  lemma EntriesByStep(keyed: bool, s: Text, keys: set<Text>, nodes: nat, depth: nat)
    ensures ScanEntries(keyed, s, keys, nodes, depth) ==
            if !keyed then AfterKey(keyed, s, keys, nodes, depth)
            else match ScanKey(s, keys)
                 case NoReading => Rejected
                 case Read(key, rest) => AfterKey(keyed, rest, keys + {key}, nodes, depth)
  {
    if keyed && ScanKey(s, keys).Read? {
      var key, inner := ScanKey(s, keys).value, ScanKey(s, keys).rest;
      var r := ScanValue(inner, nodes, depth + 1);
      if r.Scanned? {
        assert ScanMember(s, keys, nodes, depth) == MemberScanned(key, SkipSpace(r.rest), r.nodes);
      } else {
        assert ScanMember(s, keys, nodes, depth) == BadMember;
      }
    } else if keyed {
      assert ScanMember(s, keys, nodes, depth) == BadMember;
    } else {
      var r := ScanValue(s, nodes, depth + 1);
      assert ScanItem(s, nodes, depth) == if r.Scanned? then Scanned(SkipSpace(r.rest), r.nodes) else Rejected;
    }
  }

  /** Space before the first entry does not change what the scan of the entries answers. */
  lemma SpaceDoesNotMatter(keyed: bool, s: Text, keys: set<Text>, nodes: nat, depth: nat)
    ensures ScanEntries(keyed, SkipSpace(s), keys, nodes, depth) == ScanEntries(keyed, s, keys, nodes, depth)
    ensures ScanKey(SkipSpace(s), keys) == ScanKey(s, keys)
  {
    SkipSpaceTwice(s);
    EntriesByStep(keyed, s, keys, nodes, depth);
    EntriesByStep(keyed, SkipSpace(s), keys, nodes, depth);
    assert ScanValue(SkipSpace(s), nodes, depth + 1) == ScanValue(s, nodes, depth + 1);
  }

  /** One turn of the search for the closing quote, by position. */
  lemma CloseAtStep(text: Text, at: nat)
    requires at < |text|
    ensures CloseAt(text[at..]) ==
            if text[at] == QUOTE then Some(1)
            else if text[at] != BACKSLASH then AddTo(CloseAt(text[at + 1..]), 1)
            else if at + 2 <= |text| then AddTo(CloseAt(text[at + 2..]), 2)
            else None
  {
    assert text[at..][1..] == text[at + 1..];
    assert at + 2 <= |text| ==> text[at..][2..] == text[at + 2..];
  }

  lemma ScanStringBySlice(text: Text, start: nat, end: nat)
    requires start + 1 < end <= |text| && text[start] == QUOTE && CloseAt(text[start + 1..]) == Some(end - start - 1)
    ensures ScanString(text[start..]) ==
            match ReadText(text[start..end])
            case None => NoReading
            case Some(item) => if item.value.StringDoc? then Read(Decode(item.value.chars), text[end..]) else NoReading
  {
    var s := text[start..];
    assert s[1..] == text[start + 1..] && s[..end - start] == text[start..end] && s[end - start..] == text[end..];
  }

  class Scanner {
    const text: Text
    var at: nat
    var nodes: nat

    constructor (text: Text)
      ensures this.text == text && at == 0 && nodes == 0
    {
      this.text := text;
      at, nodes := 0, 0;
    }

    /** What is still to be read. */
    function Rest(): Text
      reads this
      requires at <= |text|
    {
      text[at..]
    }

    method Whitespace()
      requires at <= |text|
      modifies this`at
      ensures old(at) <= at <= |text| && Rest() == SkipSpace(old(Rest()))
    {
      while at < |text| && IsSpace(text[at])
        invariant old(at) <= at <= |text|
        invariant SkipSpace(Rest()) == SkipSpace(old(Rest()))
      {
        assert Rest()[1..] == text[at + 1..];
        at := at + 1;
      }
    }

    /** Moves past the closing quote, skipping whatever a backslash escapes. */
    method Close() returns (found: bool)
      requires at <= |text|
      modifies this`at
      ensures found == CloseAt(old(Rest())).Some?
      ensures found ==> at <= |text| && at == old(at) + CloseAt(old(Rest())).value
    {
      hide CloseAt;
      ghost var start := at;
      ghost var close := CloseAt(Rest());
      while at < |text|
        invariant start <= at
        invariant at <= |text| ==> close == AddTo(CloseAt(text[at..]), at - start)
        invariant at > |text| ==> close == None
        decreases |text| - at
      {
        CloseAtStep(text, at);
        var character := text[at];
        at := at + 1;
        if character == BACKSLASH {
          at := at + 1;
        } else if character == QUOTE {
          return true;
        }
      }
      return false;
    }

    method String() returns (r: Option<Text>)
      requires at <= |text|
      modifies this`at
      ensures ScanString(old(Rest())).NoReading? ==> r == None
      ensures ScanString(old(Rest())).Read? ==>
        r == Some(ScanString(old(Rest())).value) && old(at) < at <= |text| && Rest() == ScanString(old(Rest())).rest
    {
      if at == |text| || text[at] != QUOTE {
        return None;
      }
      var start := at;
      at := at + 1;
      assert Rest() == text[start..][1..];
      var found := Close();
      if !found {
        return None;
      }
      ScanStringBySlice(text, start, at);
      var parsed := ReadText(text[start..at]);
      if parsed.Some? && parsed.value.value.StringDoc? {
        return Some(Decode(parsed.value.value.chars));
      }
      return None;
    }

    method Value(depth: nat) returns (ok: bool)
      requires at <= |text|
      modifies this`at, this`nodes
      ensures ScanValue(old(Rest()), old(nodes), depth).Rejected? ==> !ok
      ensures ScanValue(old(Rest()), old(nodes), depth).Scanned? ==>
        && ok && old(at) < at <= |text|
        && ScanValue(old(Rest()), old(nodes), depth) == Scanned(Rest(), nodes)
      decreases |text| - at, 1
    {
      nodes := nodes + 1;
      if depth > MAX_DEPTH || nodes > MAX_NODES {
        return false;
      }
      Whitespace();
      if at == |text| {
        return false;
      }
      if text[at] == QUOTE {
        var s := String();
        return s.Some?;
      }
      if text[at] == OPEN_BRACE || text[at] == OPEN_BRACKET {
        ok := Bracket(depth);
        return;
      }
      ok := Primitive();
    }

    /** An array or an object, its value already counted. */
    method Bracket(depth: nat) returns (ok: bool)
      requires at < |text| && (text[at] == OPEN_BRACE || text[at] == OPEN_BRACKET)
      modifies this`at, this`nodes
      ensures ScanBracket(old(Rest()), old(nodes), depth).Rejected? ==> !ok
      ensures ScanBracket(old(Rest()), old(nodes), depth).Scanned? ==>
        && ok && old(at) < at <= |text|
        && ScanBracket(old(Rest()), old(nodes), depth) == Scanned(Rest(), nodes)
      decreases |text| - at, 0
    {
      var keyed := text[at] == OPEN_BRACE;
      var end := if keyed then CLOSE_BRACE else CLOSE_BRACKET;
      ghost var body := text[at + 1..];
      assert Rest()[1..] == body;
      at := at + 1;
      Whitespace();
      SpaceDoesNotMatter(keyed, body, {}, nodes, depth);
      if at < |text| && text[at] == end {
        assert Rest()[1..] == text[at + 1..];
        at := at + 1;
        return true;
      }
      ok := Entries(keyed, depth);
    }

    /** Anything up to the next delimiter; `JSON.parse` decides later whether it is a literal. */
    method Primitive() returns (ok: bool)
      requires at <= |text|
      modifies this`at
      ensures ok == (Literal(old(Rest())) != [])
      ensures old(at) <= at <= |text| && Rest() == old(Rest())[|Literal(old(Rest()))|..]
    {
      var start := at;
      ghost var t := Rest();
      while at < |text| && !EndsLiteral(text[at])
        invariant start <= at <= |text|
        invariant |Literal(t)| == at - start + |Literal(Rest())|
        decreases |text| - at
      {
        assert Rest()[1..] == text[at + 1..];
        at := at + 1;
      }
      assert t[at - start..] == Rest();
      return at != start;
    }

    /** A key and its colon. */
    method Key(keys: set<Text>) returns (r: Option<Text>)
      requires at <= |text|
      modifies this`at
      ensures ScanKey(old(Rest()), keys).NoReading? ==> r == None
      ensures ScanKey(old(Rest()), keys).Read? ==>
        r == Some(ScanKey(old(Rest()), keys).value) && old(at) < at <= |text| && Rest() == ScanKey(old(Rest()), keys).rest
    {
      Whitespace();
      r := String();
      if r == None || r.value in keys || UnsafeKey(r.value) {
        return None;
      }
      Whitespace();
      if at == |text| || text[at] != COLON {
        return None;
      }
      assert Rest()[1..] == text[at + 1..];
      at := at + 1;
    }

    /** The loop over the entries of a non-empty array or object, up to its closing bracket. */
    method Entries(keyed: bool, depth: nat) returns (ok: bool)
      requires at <= |text|
      modifies this`at, this`nodes
      ensures ScanEntries(keyed, old(Rest()), {}, old(nodes), depth).Rejected? ==> !ok
      ensures ScanEntries(keyed, old(Rest()), {}, old(nodes), depth).Scanned? ==>
        && ok && old(at) < at <= |text|
        && ScanEntries(keyed, old(Rest()), {}, old(nodes), depth) == Scanned(Rest(), nodes)
      decreases |text| - at, 2
    {
      ghost var whole := ScanEntries(keyed, Rest(), {}, nodes, depth);
      var end := if keyed then CLOSE_BRACE else CLOSE_BRACKET;
      var keys: set<Text> := {};
      while true
        invariant old(at) <= at <= |text|
        invariant whole == ScanEntries(keyed, Rest(), keys, nodes, depth)
        decreases |text| - at
      {
        EntriesByStep(keyed, Rest(), keys, nodes, depth);
        if keyed {
          var key := Key(keys);
          if key == None {
            return false;
          }
          keys := keys + {key.value};
        }
        assert whole == AfterKey(keyed, Rest(), keys, nodes, depth);
        ok := Value(depth + 1);
        if !ok {
          return;
        }
        Whitespace();
        assert whole == AfterValue(keyed, Rest(), keys, nodes, depth);
        if at == |text| {
          return false;
        }
        ghost var left := Rest();
        var next := text[at];
        at := at + 1;
        assert Rest() == left[1..];
        if next == end {
          return true;
        }
        if next != COMMA {
          return false;
        }
      }
    }
  }

  method ParseNativeJson(text: Text) returns (r: Result<Json, InputError>)
    ensures r == ParseNative(text)
  {
    var scanner := new Scanner(text);
    assert text[0..] == text;
    var ok := scanner.Value(0);
    if !ok {
      return Err(InvalidInput);
    }
    scanner.Whitespace();
    if scanner.at != |text| {
      return Err(InvalidInput);
    }
    match ReadText(text)
    case None => return Err(InvalidInput);
    case Some(item) => return Ok(ValueOf(item.value));
  }
}
