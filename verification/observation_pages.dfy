/** Observations read with the omission record kept beside them in the run's slot, and the texts cursors are kept as. */
module ObservationPages {
  import opened KeysetPages
  import opened Texts
  import opened Wrappers

  // ---------------------------------------------------------------------------------- sorting by index

  /** The row goes after every row with the same key or a smaller one. */
  function InsertRow<V>(rows: seq<Row<nat, V>>, row: Row<nat, V>): seq<Row<nat, V>> {
    if rows == [] || row.key < rows[0].key then [row] + rows else [rows[0]] + InsertRow(rows[1..], row)
  }

  /** `sort((left, right) => left.index - right.index)`, which is stable. */
  function SortRows<V>(rows: seq<Row<nat, V>>): seq<Row<nat, V>> {
    if rows == [] then [] else InsertRow(SortRows(rows[..|rows| - 1]), rows[|rows| - 1])
  }

  lemma {:induction false} InsertLast<V>(rows: seq<Row<nat, V>>, row: Row<nat, V>)
    requires forall i | 0 <= i < |rows| :: rows[i].key <= row.key
    ensures InsertRow(rows, row) == rows + [row]
  {
    if rows != [] {
      InsertLast(rows[1..], row);
    }
  }

  lemma {:induction false} SortedAlready<V>(rows: seq<Row<nat, V>>)
    requires Increasing(rows, NUMERIC)
    ensures SortRows(rows) == rows
  {
    if rows != [] {
      var init, last := rows[..|rows| - 1], rows[|rows| - 1];
      SortedAlready(init);
      forall i | 0 <= i < |init| ensures init[i].key <= last.key { assert NUMERIC(rows[i].key, rows[|rows| - 1].key); }
      InsertLast(init, last);
    }
  }

  lemma {:induction false} InsertHas<V>(rows: seq<Row<nat, V>>, row: Row<nat, V>, other: Row<nat, V>)
    ensures other in InsertRow(rows, row) <==> other in rows || other == row
  {
    if rows != [] && row.key >= rows[0].key {
      InsertHas(rows[1..], row, other);
      assert rows == [rows[0]] + rows[1..];
    }
  }

  lemma {:induction false} InsertIncreases<V>(rows: seq<Row<nat, V>>, row: Row<nat, V>)
    requires Increasing(rows, NUMERIC) && forall i | 0 <= i < |rows| :: rows[i].key != row.key
    ensures Increasing(InsertRow(rows, row), NUMERIC)
  {
    if rows != [] && row.key > rows[0].key {
      var rest := InsertRow(rows[1..], row);
      InsertIncreases(rows[1..], row);
      forall j | 0 <= j < |rest| ensures rows[0].key < rest[j].key {
        InsertHas(rows[1..], row, rest[j]);
        if rest[j] != row {
          var i :| 0 <= i < |rows[1..]| && rows[1..][i] == rest[j];
          assert NUMERIC(rows[0].key, rows[i + 1].key);
        }
      }
      assert InsertRow(rows, row) == [rows[0]] + rest;
    }
  }

  lemma {:induction false} InsertAbove<V>(table: seq<Row<nat, V>>, row: Row<nat, V>, after: nat)
    requires Increasing(table, NUMERIC)
    ensures Above(InsertRow(table, row), after, NUMERIC) ==
            if after < row.key then InsertRow(Above(table, after, NUMERIC), row) else Above(table, after, NUMERIC)
  {
    var inserted := InsertRow(table, row);
    if table == [] || row.key < table[0].key {
      assert inserted == [row] + table && inserted[1..] == table;
      assert [] + Above(table, after, NUMERIC) == Above(table, after, NUMERIC);
      if table != [] && after < row.key {
        AllAbove(table[1..], after, NUMERIC, table[0].key) by {
          forall other | other in table[1..] ensures NUMERIC(table[0].key, other.key) {
            var i :| 0 <= i < |table[1..]| && table[1..][i] == other;
            assert NUMERIC(table[0].key, table[i + 1].key);
          }
        }
        assert Above(table, after, NUMERIC) == table;
      }
    } else {
      assert inserted[1..] == InsertRow(table[1..], row);
      InsertAbove(table[1..], row, after);
      var rest := Above(table[1..], after, NUMERIC);
      if after < table[0].key {
        assert ([table[0]] + rest)[1..] == rest;
      } else {
        assert [] + rest == rest;
        assert inserted[0] == table[0];
        assert [] + Above(inserted[1..], after, NUMERIC) == Above(inserted[1..], after, NUMERIC);
      }
    }
  }

  lemma {:induction false} InsertPrefix<V>(rows: seq<Row<nat, V>>, row: Row<nat, V>, k: nat)
    requires k <= |rows|
    ensures |InsertRow(rows[..k], row)| == k + 1 && |InsertRow(rows, row)| == |rows| + 1
    ensures InsertRow(rows[..k], row)[..k] == InsertRow(rows, row)[..k]
  {
    if rows != [] && row.key >= rows[0].key {
      if k == 0 {
        InsertPrefix(rows[1..], row, 0);
      } else {
        InsertPrefix(rows[1..], row, k - 1);
        assert rows[..k][1..] == rows[1..][..k - 1];
      }
    }
  }

  // ---------------------------------------------------------------------------------- the observations page

  /** The rows of one observations read: the fetched ones, the omission pushed behind them, and the sort. */
  function MergedRows<V>(table: seq<Row<nat, V>>, omission: Option<Row<nat, V>>, after: nat, limit: nat): seq<Row<nat, V>> {
    var rows := Fetch(Above(table, after, NUMERIC), limit);
    SortRows(rows + if omission.Some? && omission.value.key > after then [omission.value] else [])
  }

  /** The observations with the omission in its place among them. */
  function MergedTable<V>(table: seq<Row<nat, V>>, omission: Option<Row<nat, V>>): seq<Row<nat, V>> {
    match omission case None => table case Some(row) => InsertRow(table, row)
  }

  /** The omission has an index of its own. */
  ghost predicate OwnIndex<V>(table: seq<Row<nat, V>>, omission: Option<Row<nat, V>>) {
    omission.Some? ==> forall i | 0 <= i < |table| :: table[i].key != omission.value.key
  }

  lemma MergedIncreases<V>(table: seq<Row<nat, V>>, omission: Option<Row<nat, V>>)
    requires Increasing(table, NUMERIC) && OwnIndex(table, omission)
    ensures Increasing(MergedTable(table, omission), NUMERIC)
  {
    if omission.Some? { InsertIncreases(table, omission.value); }
  }

  /** A row inserted among the fetched rows or among all of them gives the same page. */
  lemma InsertFetched<V>(above: seq<Row<nat, V>>, row: Row<nat, V>, budget: Budget, size: V -> nat)
    ensures PageOf(InsertRow(Fetch(above, budget.limit), row), budget, size) == PageOf(InsertRow(above, row), budget, size)
  {
    var fetched := Fetch(above, budget.limit);
    var rows, merged := InsertRow(fetched, row), InsertRow(above, row);
    assert fetched == above[..|fetched|];
    InsertPrefix(above, row, |fetched|);
    if |above| > budget.limit {
      assert rows[..budget.limit] == rows[..|fetched|][..budget.limit] == merged[..|fetched|][..budget.limit] == merged[..budget.limit];
    }
    FetchSuffices(merged, rows, budget, size);
  }

  /** Fetching, pushing and sorting gives the page that reading the merged table would give. */
  lemma MergeIsRead<V>(table: seq<Row<nat, V>>, omission: Option<Row<nat, V>>, after: nat, budget: Budget, size: V -> nat)
    requires Increasing(table, NUMERIC)
    ensures PageOf(MergedRows(table, omission, after, budget.limit), budget, size)
            == ReadPage(MergedTable(table, omission), after, budget, size, NUMERIC)
  {
    hide PageOf;
    var above := Above(table, after, NUMERIC);
    var fetched := Fetch(above, budget.limit);
    AboveIncreasing(table, after, NUMERIC);
    SortedAlready(fetched);
    var merged := Above(MergedTable(table, omission), after, NUMERIC);
    FetchSuffices(merged, Fetch(merged, budget.limit), budget, size);
    if omission.Some? {
      InsertAbove(table, omission.value, after);
    }
    if omission.Some? && omission.value.key > after {
      assert (fetched + [omission.value])[..|fetched|] == fetched;
      InsertFetched(above, omission.value, budget, size);
    } else {
      assert fetched + [] == fetched;
    }
  }

  /** The `observations` read: the slot's omission is merged in before the page is cut. */
  method ReadObservations<V>(table: seq<Row<nat, V>>, omission: Option<Row<nat, V>>, after: nat, limit: nat, maxPageBytes: nat, size: V -> nat)
    returns (r: Result<Page<nat, V>, PageError>)
    requires limit > 0 && Increasing(table, NUMERIC)
    ensures r == ReadPage(MergedTable(table, omission), after, BudgetOf(limit, maxPageBytes, 0), size, NUMERIC)
  {
    var rows := Fetch(Above(table, after, NUMERIC), limit);
    if omission.Some? && omission.value.key > after {
      rows := rows + [omission.value];
    } else {
      assert rows + [] == rows;
    }
    rows := SortRows(rows);
    MergeIsRead(table, omission, after, BudgetOf(limit, maxPageBytes, 0), size);
    r := ReadRows(rows, limit, maxPageBytes, 0, size);
  }

  /** One state of a run's observations. */
  datatype Observed<V> = Observed(table: seq<Row<nat, V>>, omission: Option<Row<nat, V>>)

  function MergedTables<V>(states: seq<Observed<V>>): seq<seq<Row<nat, V>>> {
    seq(|states|, i requires 0 <= i < |states| => MergedTable(states[i].table, states[i].omission))
  }

  /** The index names an observation or the omission. */
  ghost predicate Observes<V(!new)>(state: Observed<V>, index: nat) {
    HasKey(state.table, index) || (state.omission.Some? && state.omission.value.key == index)
  }

  lemma MergedHas<V(!new)>(state: Observed<V>, index: nat)
    requires Observes(state, index)
    ensures HasKey(MergedTable(state.table, state.omission), index)
  {
    var row :| (row in state.table || state.omission == Some(row)) && row.key == index;
    if state.omission.Some? { InsertHas(state.table, state.omission.value, row); }
    assert row in MergedTable(state.table, state.omission);
  }

  /**
   Following cursors to the end over changing observations returns every index that named an observation or the omission
   throughout, whatever was rewritten under it, exactly once and in index order.
   */
  lemma ObservationsReturnedOnce<V(!new)>(states: seq<Observed<V>>, after: nat, budget: Budget, size: V -> nat, index: nat)
    requires budget.limit > 0 && forall i | 0 <= i < |states| :: Increasing(states[i].table, NUMERIC) && OwnIndex(states[i].table, states[i].omission)
    requires Traverse(MergedTables(states), after, budget, size, NUMERIC).Done?
    requires after < index && forall i | 0 <= i < |states| :: Observes(states[i], index)
    ensures var rows := Traverse(MergedTables(states), after, budget, size, NUMERIC).rows;
      Increasing(rows, NUMERIC) && Once(rows, index)
  {
    var tables := MergedTables(states);
    forall i | 0 <= i < |tables| ensures Increasing(tables[i], NUMERIC) && HasKey(tables[i], index) {
      MergedIncreases(states[i].table, states[i].omission);
      MergedHas(states[i], index);
    }
    TraversalIncreases(tables, after, budget, size, NUMERIC);
    StayingKeyIsReturnedOnce(tables, after, budget, size, NUMERIC, index);
  }

  // ---------------------------------------------------------------------------------- cursor texts

  const NUMBER_WIDTH := 16
  const ID_WIDTH := 36
  const MAX_SAFE_INTEGER := 9_007_199_254_740_991

  datatype CursorError = StaleRevision

  predicate IdChar(c: char) {
    ('a' <= c <= 'f') || Digit(c) || c == '-'
  }

  predicate IdText(s: string) {
    |s| == ID_WIDTH && forall i | 0 <= i < |s| :: IdChar(s[i])
  }

  /** The decimal digits of `n`, padded with zeros to `width`; only the last digits when it has more. */
  function Padded(n: nat, width: nat): (s: string)
    ensures |s| == width && forall i | 0 <= i < |s| :: Digit(s[i])
  {
    if width == 0 then "" else Padded(n / 10, width - 1) + [('0' as int + n % 10) as char]
  }

  function Number(s: string): nat
    requires forall i | 0 <= i < |s| :: Digit(s[i])
  {
    if s == "" then 0 else
      assert Digit(s[|s| - 1]);
      10 * Number(s[..|s| - 1]) + (s[|s| - 1] as int - '0' as int)
  }

  function Power(width: nat): nat {
    if width == 0 then 1 else 10 * Power(width - 1)
  }

  lemma {:induction false} PaddedReads(n: nat, width: nat)
    requires n < Power(width)
    ensures Number(Padded(n, width)) == n
  {
    if width > 0 {
      PaddedReads(n / 10, width - 1);
      assert Padded(n, width)[..width - 1] == Padded(n / 10, width - 1);
    }
  }

  /** `^\d{16}(?::[a-f0-9-]{36})?$` */
  predicate NumericCursor(s: string) {
    && |s| >= NUMBER_WIDTH && (forall i | 0 <= i < NUMBER_WIDTH :: Digit(s[i]))
    && (|s| == NUMBER_WIDTH || (s[NUMBER_WIDTH] == ':' && IdText(s[NUMBER_WIDTH + 1..])))
  }

  function NumericAfter(after: Option<string>): Result<nat, CursorError> {
    match after
    case None => Ok(0)
    case Some(s) =>
      if NumericCursor(s) && Number(s[..NUMBER_WIDTH]) <= MAX_SAFE_INTEGER then Ok(Number(s[..NUMBER_WIDTH])) else Err(StaleRevision)
  }

  /** The cursors written for task runs and for observations are read back as the number they were written from. */
  lemma NumericCursorReads(n: nat, id: string)
    requires n <= MAX_SAFE_INTEGER && IdText(id)
    ensures NumericAfter(Some(Padded(n, NUMBER_WIDTH))) == Ok(n)
    ensures NumericAfter(Some(Padded(n, NUMBER_WIDTH) + ":" + id)) == Ok(n)
  {
    SixteenDigits();
    PaddedReads(n, NUMBER_WIDTH);
    var s := Padded(n, NUMBER_WIDTH);
    var t := s + ":" + id;
    assert s[..NUMBER_WIDTH] == s && t[..NUMBER_WIDTH] == s && t[NUMBER_WIDTH + 1..] == id;
  }

  lemma SixteenDigits()
    ensures MAX_SAFE_INTEGER < Power(NUMBER_WIDTH)
  {
    assert Power(8) == 100_000_000 by { assert Power(4) == 10_000; }
    assert Power(12) == 10_000 * Power(8);
    assert Power(16) == 10_000 * Power(12);
  }

  datatype RunCursor = RunCursor(at: string, runId: string)

  /** A missing colon makes the split -1: the time is then all but the last character, and the run id the whole text. */
  function RunAfter(after: Option<string>, isDate: string -> bool): Result<RunCursor, CursorError> {
    match after
    case None => Ok(RunCursor("", ""))
    case Some(s) =>
      var split := LastIndexOf(s, ':');
      var at := SliceTo(s, split);
      var runId := s[split + 1..];
      if isDate(at) && IdText(runId) then Ok(RunCursor(at, runId)) else Err(StaleRevision)
  }

  /** A run cursor is read back although its time has colons, because a run id has none. */
  lemma RunCursorReads(at: string, runId: string, isDate: string -> bool)
    requires IdText(runId)
    ensures RunAfter(Some(at + ":" + runId), isDate) == if isDate(at) then Ok(RunCursor(at, runId)) else Err(StaleRevision)
  {
    var s := at + ":" + runId;
    var split := LastIndexOf(s, ':');
    assert s[|at|] == ':';
    forall i | |at| < i < |s| ensures s[i] != ':' {
      assert s[i] == runId[i - |at| - 1] && IdChar(runId[i - |at| - 1]);
    }
    assert split == |at|;
    assert s[..|at|] == at && s[|at| + 1..] == runId;
  }
}
