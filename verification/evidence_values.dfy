/**
 `assertBoundedNativeEvidence`: one pass over a plain value that counts values, string bytes and key bytes, and
 what that pass accepts in terms of the value alone.
 */
module EvidenceValues {
  import opened CodeUnits
  import opened JsonCanonical
  import opened JsonScanner
  import opened JsonValues
  import opened KeyOrder
  import opened Wrappers

  const MAX_STRING_BYTES := 65_536

  datatype Counters = Counters(nodes: nat, stringBytes: nat, keyBytes: nat)

  /** An own key other than a list's `length`: how many bytes it has, whether it is allowed, and its value. */
  datatype Entry = Entry(keyBytes: nat, safe: bool, value: Json)

  function Entries(v: Json): seq<Entry> {
    match v
    case Arr(items) =>
      seq(|items|, i requires 0 <= i < |items| => Entry(ByteLength(NaturalText(i)), true, items[i]))
    case Obj(fields) =>
      seq(|fields|, i requires 0 <= i < |fields| =>
        Entry(ByteLength(fields[i].key), !UnsafeKey(fields[i].key), fields[i].value))
    case _ => []
  }

  function EntriesNodes(entries: seq<Entry>): nat {
    if entries == [] then 0 else ValueNodes(entries[0].value) + EntriesNodes(entries[1..])
  }

  lemma {:induction false} ListEntriesNodes(items: seq<Json>, entries: seq<Entry>)
    requires |items| == |entries| && forall i | 0 <= i < |items| :: entries[i].value == items[i]
    ensures EntriesNodes(entries) == ListNodes(items)
  {
    if items != [] {
      ListEntriesNodes(items[1..], entries[1..]);
    }
  }

  lemma {:induction false} FieldEntriesNodes(fields: seq<Keyed<Json>>, entries: seq<Entry>)
    requires |fields| == |entries| && forall i | 0 <= i < |fields| :: entries[i].value == fields[i].value
    ensures EntriesNodes(entries) == FieldNodes(fields)
  {
    if fields != [] {
      FieldEntriesNodes(fields[1..], entries[1..]);
    }
  }

  lemma NodesByEntries(v: Json)
    ensures ValueNodes(v) == 1 + EntriesNodes(Entries(v))
  {
    match v
    case Arr(items) => ListEntriesNodes(items, Entries(v));
    case Obj(fields) => FieldEntriesNodes(fields, Entries(v));
    case _ =>
  }

  // ---------------------------------------------------------------------------------- the pass

  function VisitValue(v: Json, depth: nat, c: Counters, maximum: nat): Option<Counters>
    decreases ValueNodes(v), 1
  {
    var counted := c.(nodes := c.nodes + 1);
    if counted.nodes > MAX_NODES || depth > MAX_DEPTH then None
    else if v.Str? then
      var bytes := c.stringBytes + ByteLength(v.text);
      if bytes > MAX_STRING_BYTES then None else Some(counted.(stringBytes := bytes))
    else if v.Arr? && |v.items| + 1 > MAX_NODES then None
    else if v.Obj? && |v.fields| > MAX_NODES then None
    else
      NodesByEntries(v);
      VisitEntries(Entries(v), depth, counted, maximum)
  }

  /** One key: its check, its bytes, then its value one level deeper. */
  function VisitEntry(e: Entry, depth: nat, c: Counters, maximum: nat): Option<Counters>
    decreases ValueNodes(e.value), 2
  {
    var keyed := c.(keyBytes := c.keyBytes + e.keyBytes);
    if !e.safe || keyed.keyBytes + keyed.stringBytes > maximum then None
    else VisitValue(e.value, depth + 1, keyed, maximum)
  }

  function VisitEntries(entries: seq<Entry>, depth: nat, c: Counters, maximum: nat): Option<Counters>
    decreases EntriesNodes(entries), 3
  {
    if entries == [] then Some(c)
    else
      match VisitEntry(entries[0], depth, c, maximum)
      case None => None
      case Some(after) =>
        assert ValueNodes(entries[0].value) >= 1;
        VisitEntries(entries[1..], depth, after, maximum)
  }

  // ---------------------------------------------------------------------------------- what it accepts

  function StringBytes(v: Json): nat
    decreases ValueNodes(v), 1
  {
    NodesByEntries(v);
    if v.Str? then ByteLength(v.text) else EntriesStringBytes(Entries(v))
  }

  function EntriesStringBytes(entries: seq<Entry>): nat
    decreases EntriesNodes(entries), 2
  {
    if entries == [] then 0
    else
      assert ValueNodes(entries[0].value) >= 1;
      StringBytes(entries[0].value) + EntriesStringBytes(entries[1..])
  }

  function KeyBytes(v: Json): nat
    decreases ValueNodes(v), 1
  {
    NodesByEntries(v);
    EntriesKeyBytes(Entries(v))
  }

  function EntriesKeyBytes(entries: seq<Entry>): nat
    decreases EntriesNodes(entries), 2
  {
    if entries == [] then 0
    else
      assert ValueNodes(entries[0].value) >= 1;
      entries[0].keyBytes + KeyBytes(entries[0].value) + EntriesKeyBytes(entries[1..])
  }

  /** String bytes met after the last key; no later key weighs them against the maximum. */
  function UnweighedBytes(v: Json): nat
    decreases ValueNodes(v), 1
  {
    NodesByEntries(v);
    if v.Str? then ByteLength(v.text) else EntriesUnweighedBytes(Entries(v))
  }

  function EntriesUnweighedBytes(entries: seq<Entry>): nat
    decreases EntriesNodes(entries), 2
  {
    if entries == [] then 0
    else
      assert ValueNodes(entries[0].value) >= 1;
      if |entries| == 1 then UnweighedBytes(entries[0].value) else EntriesUnweighedBytes(entries[1..])
  }

  /** What the pass asks of a value it meets at `depth` with counters `c`. */
  ghost predicate Passes(v: Json, depth: nat, c: Counters, maximum: nat) {
    && c.nodes + ValueNodes(v) <= MAX_NODES
    && Within(v, MAX_DEPTH - depth)
    && SafeValue(v)
    && c.stringBytes + StringBytes(v) <= MAX_STRING_BYTES
    && (Entries(v) != [] ==> c.keyBytes + KeyBytes(v) + c.stringBytes + StringBytes(v) - UnweighedBytes(v) <= maximum)
  }

  ghost predicate EntriesPass(entries: seq<Entry>, depth: nat, c: Counters, maximum: nat) {
    && c.nodes + EntriesNodes(entries) <= MAX_NODES
    && EntriesSound(entries, depth)
    && c.stringBytes + EntriesStringBytes(entries) <= MAX_STRING_BYTES
    && (entries != [] ==>
          c.keyBytes + EntriesKeyBytes(entries) + c.stringBytes + EntriesStringBytes(entries) - EntriesUnweighedBytes(entries) <= maximum)
  }

  function Total(v: Json, c: Counters): Counters {
    Counters(c.nodes + ValueNodes(v), c.stringBytes + StringBytes(v), c.keyBytes + KeyBytes(v))
  }

  function EntriesTotal(entries: seq<Entry>, c: Counters): Counters {
    Counters(c.nodes + EntriesNodes(entries), c.stringBytes + EntriesStringBytes(entries), c.keyBytes + EntriesKeyBytes(entries))
  }

  lemma {:induction false} UnweighedWithin(v: Json)
    ensures UnweighedBytes(v) <= StringBytes(v)
    decreases ValueNodes(v), 1
  {
    NodesByEntries(v);
    if !v.Str? {
      EntriesUnweighedWithin(Entries(v));
    }
  }

  lemma {:induction false} EntriesUnweighedWithin(entries: seq<Entry>)
    ensures EntriesUnweighedBytes(entries) <= EntriesStringBytes(entries)
    decreases EntriesNodes(entries), 2
  {
    if entries != [] {
      assert ValueNodes(entries[0].value) >= 1;
      UnweighedWithin(entries[0].value);
      EntriesUnweighedWithin(entries[1..]);
    }
  }

  lemma EntriesHold(v: Json, depth: nat)
    requires depth <= MAX_DEPTH
    ensures Within(v, MAX_DEPTH - depth) && SafeValue(v) <==> EntriesSound(Entries(v), depth)
  {
    if EntriesSound(Entries(v), depth) {
      assert v.Arr? ==> forall i | 0 <= i < |v.items| :: v.items[i] == Entries(v)[i].value;
      assert v.Obj? ==> forall i | 0 <= i < |v.fields| ::
        v.fields[i].value == Entries(v)[i].value && UnsafeKey(v.fields[i].key) == !Entries(v)[i].safe;
    }
  }

  lemma {:induction false} EntriesCount(entries: seq<Entry>)
    ensures |entries| <= EntriesNodes(entries)
  {
    if entries != [] {
      EntriesCount(entries[1..]);
    }
  }

  /** The pass accepts exactly the values within its bounds, and leaves the totals in its counters. */
  lemma {:induction false} VisitExact(v: Json, depth: nat, c: Counters, maximum: nat)
    requires c.nodes <= MAX_NODES && c.stringBytes <= MAX_STRING_BYTES
    ensures VisitValue(v, depth, c, maximum) == if Passes(v, depth, c, maximum) then Some(Total(v, c)) else None
    decreases ValueNodes(v), 1
  {
    NodesByEntries(v);
    EntriesCount(Entries(v));
    var counted := c.(nodes := c.nodes + 1);
    if counted.nodes > MAX_NODES || depth > MAX_DEPTH {
      assert !Passes(v, depth, c, maximum);
    } else if v.Str? {
      assert KeyBytes(v) == 0 && StringBytes(v) == ByteLength(v.text);
    } else {
      VisitEntriesExact(Entries(v), depth, counted, maximum);
      ContainerPasses(v, depth, c, maximum);
    }
  }

  lemma ContainerPasses(v: Json, depth: nat, c: Counters, maximum: nat)
    requires c.nodes < MAX_NODES && depth <= MAX_DEPTH && !v.Str?
    ensures Passes(v, depth, c, maximum) == EntriesPass(Entries(v), depth, c.(nodes := c.nodes + 1), maximum)
    ensures Total(v, c) == EntriesTotal(Entries(v), c.(nodes := c.nodes + 1))
  {
    NodesByEntries(v);
    EntriesHold(v, depth);
  }

  lemma {:induction false} VisitEntriesExact(entries: seq<Entry>, depth: nat, c: Counters, maximum: nat)
    requires c.nodes <= MAX_NODES && c.stringBytes <= MAX_STRING_BYTES
    ensures VisitEntries(entries, depth, c, maximum)
         == if EntriesPass(entries, depth, c, maximum) then Some(EntriesTotal(entries, c)) else None
    decreases EntriesNodes(entries), 2
  {
    if entries != [] {
      var e := entries[0];
      assert ValueNodes(e.value) >= 1;
      VisitExact(e.value, depth + 1, c.(keyBytes := c.keyBytes + e.keyBytes), maximum);
      FirstEntryPasses(entries, depth, c, maximum);
      if EntryPasses(e, depth, c, maximum) {
        VisitEntriesExact(entries[1..], depth, EntryTotal(e, c), maximum);
      }
    }
  }

  ghost predicate EntryPasses(e: Entry, depth: nat, c: Counters, maximum: nat) {
    var keyed := c.(keyBytes := c.keyBytes + e.keyBytes);
    e.safe && keyed.keyBytes + keyed.stringBytes <= maximum && Passes(e.value, depth + 1, keyed, maximum)
  }

  function EntryTotal(e: Entry, c: Counters): Counters {
    Total(e.value, c.(keyBytes := c.keyBytes + e.keyBytes))
  }

  lemma FirstEntryPasses(entries: seq<Entry>, depth: nat, c: Counters, maximum: nat)
    requires entries != [] && c.nodes <= MAX_NODES && c.stringBytes <= MAX_STRING_BYTES
    ensures EntriesPass(entries, depth, c, maximum)
         == (EntryPasses(entries[0], depth, c, maximum) && EntriesPass(entries[1..], depth, EntryTotal(entries[0], c), maximum))
  {
    var e, others := entries[0], entries[1..];
    FirstEntryHolds(entries, depth);
    UnweighedWithin(e.value);
    EntriesUnweighedWithin(others);
    UnkeyedValue(e.value);
    assert EntriesStringBytes(entries) == StringBytes(e.value) + EntriesStringBytes(others);
    assert EntriesKeyBytes(entries) == e.keyBytes + KeyBytes(e.value) + EntriesKeyBytes(others);
    assert EntriesUnweighedBytes(entries) == if others == [] then UnweighedBytes(e.value) else EntriesUnweighedBytes(others);
    assert others == [] ==> EntriesStringBytes(others) == EntriesKeyBytes(others) == EntriesNodes(others) == 0;
  }

  /** A value without keys adds no key bytes, and none of its string bytes is weighed inside it. */
  lemma UnkeyedValue(v: Json)
    ensures Entries(v) == [] ==> UnweighedBytes(v) == StringBytes(v) && KeyBytes(v) == 0
  {
    NodesByEntries(v);
  }

  ghost predicate EntriesSound(entries: seq<Entry>, depth: nat) {
    forall i | 0 <= i < |entries| ::
      entries[i].safe && SafeValue(entries[i].value) && Within(entries[i].value, MAX_DEPTH - depth - 1)
  }

  lemma FirstEntryHolds(entries: seq<Entry>, depth: nat)
    requires entries != []
    ensures EntriesSound(entries, depth)
         == (entries[0].safe && SafeValue(entries[0].value) && Within(entries[0].value, MAX_DEPTH - depth - 1)
             && EntriesSound(entries[1..], depth))
  {
    var others := entries[1..];
    assert forall i | 1 <= i < |entries| :: entries[i] == others[i - 1];
    assert forall i | 0 <= i < |others| :: others[i] == entries[i + 1];
  }

  // ---------------------------------------------------------------------------------- the source's visitor

  lemma EntriesByStep(entries: seq<Entry>, k: nat, depth: nat, c: Counters, maximum: nat)
    requires k < |entries|
    ensures VisitEntries(entries[k..], depth, c, maximum) ==
            match VisitEntry(entries[k], depth, c, maximum)
            case None => None
            case Some(after) => VisitEntries(entries[k + 1..], depth, after, maximum)
    ensures EntriesNodes(entries[k..]) == ValueNodes(entries[k].value) + EntriesNodes(entries[k + 1..])
  {
    assert entries[k..][1..] == entries[k + 1..] && entries[k..][0] == entries[k];
  }

  class Visitor {
    const maximum: nat
    var nodes: nat
    var stringBytes: nat
    var keyBytes: nat

    constructor (maximum: nat)
      ensures this.maximum == maximum && Counted() == Counters(0, 0, 0)
    {
      this.maximum := maximum;
      nodes, stringBytes, keyBytes := 0, 0, 0;
    }

    function Counted(): Counters
      reads this
    {
      Counters(nodes, stringBytes, keyBytes)
    }

    method Visit(item: Json, depth: nat) returns (ok: bool)
      modifies this
      ensures ok == VisitValue(item, depth, old(Counted()), maximum).Some?
      ensures ok ==> VisitValue(item, depth, old(Counted()), maximum) == Some(Counted())
      decreases ValueNodes(item), 1
    {
      nodes := nodes + 1;
      if nodes > MAX_NODES || depth > MAX_DEPTH {
        return false;
      }
      if item.Str? {
        stringBytes := stringBytes + ByteLength(item.text);
        return stringBytes <= MAX_STRING_BYTES;
      }
      if (item.Arr? && |item.items| + 1 > MAX_NODES) || (item.Obj? && |item.fields| > MAX_NODES) {
        return false;
      }
      NodesByEntries(item);
      ok := VisitKeys(Entries(item), depth);
    }

    method VisitKeys(keys: seq<Entry>, depth: nat) returns (ok: bool)
      modifies this
      ensures ok == VisitEntries(keys, depth, old(Counted()), maximum).Some?
      ensures ok ==> VisitEntries(keys, depth, old(Counted()), maximum) == Some(Counted())
      decreases EntriesNodes(keys), 2
    {
      ghost var pass := VisitEntries(keys, depth, Counted(), maximum);
      assert keys[0..] == keys;
      for k := 0 to |keys|
        invariant pass == VisitEntries(keys[k..], depth, Counted(), maximum)
        invariant EntriesNodes(keys[k..]) <= EntriesNodes(keys)
      {
        EntriesByStep(keys, k, depth, Counted(), maximum);
        var key := keys[k];
        if !key.safe {
          return false;
        }
        keyBytes := keyBytes + key.keyBytes;
        if keyBytes + stringBytes > maximum {
          return false;
        }
        ok := Visit(key.value, depth + 1);
        if !ok {
          return;
        }
      }
      return true;
    }
  }

  /** What the source promises of an accepted value: its shape, its strings, its keys and its printed length. */
  ghost predicate Bounded(v: Json, maximum: nat) {
    Passes(v, 0, Counters(0, 0, 0), maximum) && ByteLength(Canonical(v)) <= maximum
  }

  method AssertBoundedNativeEvidence(v: Json, maximum: nat) returns (ok: bool)
    ensures ok == Bounded(v, maximum)
  {
    var visitor := new Visitor(maximum);
    VisitExact(v, 0, Counters(0, 0, 0), maximum);
    ok := visitor.Visit(v, 0);
    return ok && ByteLength(Canonical(v)) <= maximum;
  }

  /** Every accepted value survives printing and parsing, up to the order of its keys. */
  lemma AcceptedRoundTrips(v: Json, maximum: nat)
    requires PlainValue(v) && Bounded(v, maximum)
    ensures ParseNative(Canonical(v)) == Ok(Normal(v))
    ensures SameValue(v, Normal(v))
  {
    RoundTrip(v);
    NormalPlain(v);
    NormalTwice(v);
    NormalDecidesSameValue(v, Normal(v));
  }

  lemma NormalTwice(v: Json)
    requires PlainValue(v)
    ensures Normal(Normal(v)) == Normal(v)
  {
    NormalPlain(v);
    NormalIsFixed(Normal(v), v);
  }

  lemma {:induction false} NormalIsFixed(w: Json, v: Json)
    requires PlainValue(v) && w == Normal(v)
    ensures Normal(w) == w
    decreases v
  {
    match v
    case Arr(items) =>
      forall i | 0 <= i < |items| ensures Normal(w.items[i]) == w.items[i] {
        NormalIsFixed(w.items[i], items[i]);
      }
      assert Normal(w).items == w.items;
    case Obj(fields) =>
      var s := NormalFields(fields);
      SortedSameEntries(s);
      SortedIncreases(s);
      forall k | 0 <= k < |w.fields| ensures Normal(w.fields[k].value) == w.fields[k].value {
        assert w.fields[k] in s;
        var i :| 0 <= i < |s| && s[i] == w.fields[k];
        NormalIsFixed(w.fields[k].value, fields[i].value);
      }
      assert NormalFields(w.fields) == w.fields;
      IncreasingSortsToItself(w.fields);
    case _ =>
  }

  lemma {:induction false} IncreasingSortsToItself<T>(s: seq<Keyed<T>>)
    requires Increasing(s)
    ensures Sorted(s) == s
  {
    if s != [] {
      IncreasingSortsToItself(s[1..]);
      if |s| > 1 {
        assert Below(s[0].key, s[1].key);
        if Below(s[1].key, s[0].key) {
          BelowIsTransitive(s[0].key, s[1].key, s[0].key);
          BelowIsIrreflexive(s[0].key);
        }
      }
    }
  }
}
