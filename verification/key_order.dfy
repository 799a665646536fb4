/** Sorting keyed entries by code unit order, as `Object.keys(value).sort()` orders an object's fields. */
module KeyOrder {
  import opened CodeUnits
  import opened JsonValues

  function Insert<T>(x: Keyed<T>, s: seq<Keyed<T>>): seq<Keyed<T>> {
    if s == [] || !Below(s[0].key, x.key) then [x] + s else [s[0]] + Insert(x, s[1..])
  }

  function Sorted<T>(s: seq<Keyed<T>>): seq<Keyed<T>> {
    if s == [] then [] else Insert(s[0], Sorted(s[1..]))
  }

  ghost predicate DistinctKeys<T>(s: seq<Keyed<T>>) {
    forall i, j | 0 <= i < j < |s| :: s[i].key != s[j].key
  }

  ghost predicate Increasing<T>(s: seq<Keyed<T>>) {
    forall i, j | 0 <= i < j < |s| :: Below(s[i].key, s[j].key)
  }

  lemma {:induction false} InsertKeepsEntries<T>(x: Keyed<T>, s: seq<Keyed<T>>)
    ensures multiset(Insert(x, s)) == multiset{x} + multiset(s)
  {
    if s != [] && Below(s[0].key, x.key) {
      InsertKeepsEntries(x, s[1..]);
      assert s == [s[0]] + s[1..];
    }
  }

  lemma {:induction false} SortedKeepsEntries<T>(s: seq<Keyed<T>>)
    ensures multiset(Sorted(s)) == multiset(s)
  {
    if s != [] {
      SortedKeepsEntries(s[1..]);
      InsertKeepsEntries(s[0], Sorted(s[1..]));
      assert s == [s[0]] + s[1..];
    }
  }

  lemma InEntries<T>(s: seq<Keyed<T>>, e: Keyed<T>)
    ensures e in s <==> e in multiset(s)
  {
  }

  lemma {:induction false} InsertIncreases<T>(x: Keyed<T>, s: seq<Keyed<T>>)
    requires Increasing(s) && forall i | 0 <= i < |s| :: s[i].key != x.key
    ensures Increasing(Insert(x, s))
  {
    if s == [] {
    } else if Below(s[0].key, x.key) {
      var rest := Insert(x, s[1..]);
      InsertIncreases(x, s[1..]);
      InsertKeepsEntries(x, s[1..]);
      forall i | 0 <= i < |rest| ensures Below(s[0].key, rest[i].key) {
        InEntries(rest, rest[i]);
        assert rest[i] in multiset{x} + multiset(s[1..]);
        assert rest[i] == x || rest[i] in s[1..];
      }
    } else {
      BelowIsTotal(s[0].key, x.key);
      forall i | 0 <= i < |s| ensures Below(x.key, s[i].key) {
        if i > 0 {
          BelowIsTransitive(x.key, s[0].key, s[i].key);
        }
      }
    }
  }

  lemma {:induction false} SortedIncreases<T>(s: seq<Keyed<T>>)
    requires DistinctKeys(s)
    ensures Increasing(Sorted(s))
  {
    if s != [] {
      var rest := Sorted(s[1..]);
      SortedIncreases(s[1..]);
      SortedKeepsEntries(s[1..]);
      forall i | 0 <= i < |rest| ensures rest[i].key != s[0].key {
        InEntries(rest, rest[i]);
        InEntries(s[1..], rest[i]);
        var j :| 0 <= j < |s[1..]| && s[1..][j] == rest[i];
        assert s[j + 1] == rest[i];
      }
      InsertIncreases(s[0], rest);
    }
  }

  lemma LeastEntry<T>(a: seq<Keyed<T>>, b: seq<Keyed<T>>)
    requires Increasing(a) && Increasing(b) && multiset(a) == multiset(b) && a != []
    ensures b != [] && a[0] == b[0]
  {
    InEntries(a, a[0]);
    InEntries(b, a[0]);
    InEntries(b, b[0]);
    InEntries(a, b[0]);
    var i :| 0 <= i < |b| && b[i] == a[0];
    var j :| 0 <= j < |a| && a[j] == b[0];
    if i > 0 && j > 0 {
      BelowIsTransitive(a[0].key, b[0].key, a[0].key);
      BelowIsIrreflexive(a[0].key);
    }
  }

  lemma EntriesOfTail<T>(s: seq<Keyed<T>>)
    requires s != []
    ensures multiset(s[1..]) == multiset(s) - multiset{s[0]}
  {
    assert s == [s[0]] + s[1..];
  }

  /** Increasing lists of the same entries are the same list: the order of the fields is canonical. */
  lemma {:induction false} IncreasingIsUnique<T>(a: seq<Keyed<T>>, b: seq<Keyed<T>>)
    requires Increasing(a) && Increasing(b) && multiset(a) == multiset(b)
    ensures a == b
  {
    if a == [] {
      assert |b| == |multiset(b)| == 0;
    } else {
      LeastEntry(a, b);
      EntriesOfTail(a);
      EntriesOfTail(b);
      IncreasingIsUnique(a[1..], b[1..]);
      assert a == [a[0]] + a[1..] && b == [b[0]] + b[1..];
    }
  }

  /** Sorting looks at keys only, so it commutes with any change of the payloads. */
  ghost predicate Mapped<T, U>(s: seq<Keyed<T>>, t: seq<Keyed<U>>, f: T -> U) {
    |s| == |t| && forall i | 0 <= i < |s| :: t[i] == Keyed(s[i].key, f(s[i].value))
  }

  lemma {:induction false} InsertMaps<T, U>(x: Keyed<T>, s: seq<Keyed<T>>, t: seq<Keyed<U>>, f: T -> U)
    requires Mapped(s, t, f)
    ensures Mapped(Insert(x, s), Insert(Keyed(x.key, f(x.value)), t), f)
  {
    if s != [] && Below(s[0].key, x.key) {
      InsertMaps(x, s[1..], t[1..], f);
    }
  }

  lemma {:induction false} SortedMaps<T, U>(s: seq<Keyed<T>>, t: seq<Keyed<U>>, f: T -> U)
    requires Mapped(s, t, f)
    ensures Mapped(Sorted(s), Sorted(t), f)
  {
    if s != [] {
      SortedMaps(s[1..], t[1..], f);
      InsertMaps(s[0], Sorted(s[1..]), Sorted(t[1..]), f);
    }
  }
}
