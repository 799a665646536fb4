/**
 Keyset pages: a page takes records after a cursor until a record count or a byte budget ends it, and no cursor is kept
 open between pages. Tables may change from one page to the next.
 */
module KeysetPages {
  import opened Wrappers

  datatype Row<K, V> = Row(key: K, value: V)
  datatype Page<K, V> = Page(items: seq<Row<K, V>>, cursor: Option<K>)
  datatype PageError = CapacityExceeded
  /** A page's record limit, and the bytes left for records once 512 and the envelope are taken off the page budget. */
  datatype Budget = Budget(limit: nat, room: int)

  const FRAME_BYTES := 512

  function BudgetOf(limit: nat, maxPageBytes: nat, envelopeBytes: nat): Budget {
    Budget(limit, maxPageBytes - envelopeBytes - FRAME_BYTES)
  }

  /** What records cost: their data bytes and one separator each. */
  function Bytes<K, V>(rows: seq<Row<K, V>>, size: V -> nat): nat {
    if rows == [] then 0 else Bytes(rows[..|rows| - 1], size) + size(rows[|rows| - 1].value) + 1
  }

  // ---------------------------------------------------------------------------------- one page

  /** How many of the rows a page takes: as many as the limit and the room allow. */
  function Taken<K, V>(rows: seq<Row<K, V>>, budget: Budget, size: V -> nat): (n: nat)
    ensures n <= |rows| && n <= budget.limit
    ensures n > 0 ==> Bytes(rows[..n], size) <= budget.room
    ensures n < |rows| ==> n == budget.limit || Bytes(rows[..n + 1], size) > budget.room
    ensures forall m | n < m <= |rows| :: m > budget.limit || Bytes(rows[..m], size) > budget.room
  {
    if rows == [] then 0
    else
      var init := rows[..|rows| - 1];
      var n := Taken(init, budget, size);
      assert forall m | 0 <= m <= |init| :: init[..m] == rows[..m];
      assert rows[..|rows|] == rows;
      if n == |init| && n < budget.limit && Bytes(rows, size) <= budget.room then |rows| else n
  }

  function PageOf<K, V>(rows: seq<Row<K, V>>, budget: Budget, size: V -> nat): Result<Page<K, V>, PageError>
  {
    var n := Taken(rows, budget, size);
    if n == |rows| then Ok(Page(rows, None))
    else if n == 0 then Err(CapacityExceeded)
    else Ok(Page(rows[..n], Some(rows[n - 1].key)))
  }

  /** `page`: loads rows one at a time and stops before the one that passes the limit or the budget. */
  method ReadRows<K, V>(rows: seq<Row<K, V>>, limit: nat, maxPageBytes: nat, envelopeBytes: nat, size: V -> nat)
    returns (r: Result<Page<K, V>, PageError>)
    requires limit > 0
    ensures r == PageOf(rows, BudgetOf(limit, maxPageBytes, envelopeBytes), size)
  {
    var items: seq<Row<K, V>> := [];
    var bytes := envelopeBytes + FRAME_BYTES;
    var hasMore := false;
    for i := 0 to |rows|
      invariant !hasMore && i <= limit && items == rows[..i]
      invariant bytes == envelopeBytes + FRAME_BYTES + Bytes(rows[..i], size)
      invariant i > 0 ==> bytes <= maxPageBytes
    {
      if |items| == limit {
        hasMore := true;
        TakenIs(rows, BudgetOf(limit, maxPageBytes, envelopeBytes), size, i);
        break;
      }
      assert rows[..i + 1][..i] == rows[..i];
      var cost := size(rows[i].value) + 1;
      if bytes + cost > maxPageBytes {
        TakenIs(rows, BudgetOf(limit, maxPageBytes, envelopeBytes), size, i);
        if items == [] {
          return Err(CapacityExceeded);
        }
        hasMore := true;
        break;
      }
      items := items + [rows[i]];
      bytes := bytes + cost;
    }
    if !hasMore {
      assert rows[..|rows|] == rows;
      TakenIs(rows, BudgetOf(limit, maxPageBytes, envelopeBytes), size, |rows|);
    }
    r := Ok(Page(items, if hasMore then Some(rows[|items| - 1].key) else None));
  }

  lemma {:induction false} BytesGrow<K, V>(rows: seq<Row<K, V>>, size: V -> nat, m: nat, n: nat)
    requires m <= n <= |rows|
    ensures Bytes(rows[..m], size) <= Bytes(rows[..n], size)
  {
    if m < n {
      assert rows[..n][..n - 1] == rows[..n - 1];
      BytesGrow(rows, size, m, n - 1);
    }
  }

  /** The count a page takes is the only one that fits with no further row fitting. */
  lemma TakenIs<K, V>(rows: seq<Row<K, V>>, budget: Budget, size: V -> nat, n: nat)
    requires n <= |rows| && n <= budget.limit && (n > 0 ==> Bytes(rows[..n], size) <= budget.room)
    requires n < |rows| ==> n == budget.limit || Bytes(rows[..n + 1], size) > budget.room
    ensures Taken(rows, budget, size) == n
  {
    var t := Taken(rows, budget, size);
    if n < t {
      BytesGrow(rows, size, n + 1, t);
    }
  }

  /** Only the first limit + 1 rows decide a page, so fetching no more than that loses nothing. */
  lemma FetchSuffices<K, V>(rows: seq<Row<K, V>>, fetched: seq<Row<K, V>>, budget: Budget, size: V -> nat)
    requires budget.limit < |fetched| ==> budget.limit < |rows|
    requires |fetched| <= budget.limit ==> fetched == rows
    requires budget.limit < |fetched| ==> fetched[..budget.limit] == rows[..budget.limit]
    ensures PageOf(fetched, budget, size) == PageOf(rows, budget, size)
  {
    if budget.limit < |fetched| {
      var n := Taken(fetched, budget, size);
      assert rows[..n] == rows[..budget.limit][..n] == fetched[..budget.limit][..n] == fetched[..n];
      if n < budget.limit {
        assert rows[..n + 1] == rows[..budget.limit][..n + 1] == fetched[..budget.limit][..n + 1] == fetched[..n + 1];
      }
      TakenIs(rows, budget, size, n);
      assert n > 0 ==> fetched[n - 1] == fetched[..n][n - 1] == rows[n - 1];
    }
  }

  // ---------------------------------------------------------------------------------- tables in key order

  const NUMERIC: (nat, nat) -> bool := (a, b) => a < b

  ghost predicate StrictOrder<K(!new)>(less: (K, K) -> bool) {
    && (forall a :: !less(a, a))
    && (forall a, b, c | less(a, b) && less(b, c) :: less(a, c))
  }

  ghost predicate Increasing<K(!new), V>(rows: seq<Row<K, V>>, less: (K, K) -> bool) {
    forall i, j | 0 <= i < j < |rows| :: less(rows[i].key, rows[j].key)
  }

  /** `WHERE key > after ORDER BY key`, on a table already in key order. */
  function Above<K, V>(table: seq<Row<K, V>>, after: K, less: (K, K) -> bool): seq<Row<K, V>> {
    if table == [] then []
    else (if less(after, table[0].key) then [table[0]] else []) + Above(table[1..], after, less)
  }

  lemma {:induction false} AboveHas<K, V>(table: seq<Row<K, V>>, after: K, less: (K, K) -> bool, row: Row<K, V>)
    ensures row in Above(table, after, less) <==> row in table && less(after, row.key)
  {
    if table != [] {
      AboveHas(table[1..], after, less, row);
      assert table == [table[0]] + table[1..];
    }
  }

  lemma {:induction false} AboveIncreasing<K(!new), V>(table: seq<Row<K, V>>, after: K, less: (K, K) -> bool)
    requires Increasing(table, less)
    ensures Increasing(Above(table, after, less), less)
  {
    if table != [] {
      var rest := Above(table[1..], after, less);
      AboveIncreasing(table[1..], after, less);
      forall j | 0 <= j < |rest| ensures less(table[0].key, rest[j].key) {
        AboveHas(table[1..], after, less, rest[j]);
        var i :| 0 <= i < |table[1..]| && table[1..][i] == rest[j];
        assert table[i + 1] == rest[j];
      }
    }
  }

  function Fetch<T>(rows: seq<T>, limit: nat): seq<T> {
    if |rows| > limit + 1 then rows[..limit + 1] else rows
  }

  /** One read: `LIMIT limit + 1` rows after the cursor, then the page. */
  function ReadPage<K, V>(table: seq<Row<K, V>>, after: K, budget: Budget, size: V -> nat, less: (K, K) -> bool): Result<Page<K, V>, PageError> {
    PageOf(Fetch(Above(table, after, less), budget.limit), budget, size)
  }

  /** A page is the first rows after the cursor, non-empty while there are any, and has a cursor exactly when it left some. */
  lemma PageIsPrefix<K, V>(table: seq<Row<K, V>>, after: K, budget: Budget, size: V -> nat, less: (K, K) -> bool)
    requires budget.limit > 0
    ensures var rows := Above(table, after, less);
      match ReadPage(table, after, budget, size, less)
      case Err(_) => rows != [] && size(rows[0].value) + 1 > budget.room
      case Ok(page) =>
        && |page.items| <= |rows| && page.items == rows[..|page.items|] && |page.items| <= budget.limit
        && (rows != [] ==> page.items != [])
        && (page.items != [] ==> Bytes(page.items, size) <= budget.room)
        && page.cursor == (if |page.items| == |rows| then None else Some(rows[|page.items| - 1].key))
  {
    var rows := Above(table, after, less);
    FetchSuffices(rows, Fetch(rows, budget.limit), budget, size);
    if rows != [] {
      assert rows[..1] == [rows[0]];
      assert [rows[0]][..0] == [];
      assert Bytes(rows[..1], size) == size(rows[0].value) + 1;
    }
    hide Above, Taken, Bytes;
    assert rows[..|rows|] == rows;
  }

  // ---------------------------------------------------------------------------------- following the cursors

  datatype Traversal<K, V> = Done(rows: seq<Row<K, V>>) | Unfinished(rows: seq<Row<K, V>>) | Refused(rows: seq<Row<K, V>>)

  function Prepend<K, V>(items: seq<Row<K, V>>, rest: Traversal<K, V>): Traversal<K, V> {
    rest.(rows := items + rest.rows)
  }

  /** One page from each table in turn, each after the cursor of the page before. */
  function Traverse<K, V>(tables: seq<seq<Row<K, V>>>, after: K, budget: Budget, size: V -> nat, less: (K, K) -> bool): Traversal<K, V> {
    if tables == [] then Unfinished([])
    else
      match ReadPage(tables[0], after, budget, size, less)
      case Err(_) => Refused([])
      case Ok(page) =>
        match page.cursor
        case None => Done(page.items)
        case Some(cursor) => Prepend(page.items, Traverse(tables[1..], cursor, budget, size, less))
  }

  ghost predicate AllIncreasing<K(!new), V>(tables: seq<seq<Row<K, V>>>, less: (K, K) -> bool) {
    forall i | 0 <= i < |tables| :: Increasing(tables[i], less)
  }

  /** A row that is in this table sits on this page or lies beyond its cursor. */
  lemma OnPageOrBeyond<K(!new), V>(table: seq<Row<K, V>>, after: K, budget: Budget, size: V -> nat, less: (K, K) -> bool, page: Page<K, V>, row: Row<K, V>)
    requires StrictOrder(less) && Increasing(table, less) && budget.limit > 0
    requires ReadPage(table, after, budget, size, less) == Ok(page)
    requires row in table && less(after, row.key)
    ensures row in page.items || (page.cursor.Some? && less(page.cursor.value, row.key))
  {
    PageIsPrefix(table, after, budget, size, less);
    AboveIncreasing(table, after, less);
    var rows := Above(table, after, less);
    AboveHas(table, after, less, row);
    var i :| 0 <= i < |rows| && rows[i] == row;
    if i < |page.items| {
      assert page.items[i] == row;
    }
  }

  /** What a page returns is in the table, after the cursor it was read with, and not beyond the one it gives. */
  lemma PageWithin<K(!new), V>(table: seq<Row<K, V>>, after: K, budget: Budget, size: V -> nat, less: (K, K) -> bool, page: Page<K, V>)
    requires StrictOrder(less) && Increasing(table, less) && budget.limit > 0
    requires ReadPage(table, after, budget, size, less) == Ok(page)
    ensures Increasing(page.items, less)
    ensures forall row | row in page.items :: row in table && less(after, row.key)
    ensures page.cursor.Some? ==> page.items != [] && page.items[|page.items| - 1].key == page.cursor.value
  {
    PageIsPrefix(table, after, budget, size, less);
    AboveIncreasing(table, after, less);
    var rows := Above(table, after, less);
    forall row | row in page.items ensures row in table && less(after, row.key) {
      AboveHas(table, after, less, row);
    }
  }

  /** Whatever the tables become between pages, the keys returned only ever increase, so no record comes twice. */
  lemma {:induction false} TraversalIncreases<K(!new), V>(tables: seq<seq<Row<K, V>>>, after: K, budget: Budget, size: V -> nat, less: (K, K) -> bool)
    requires StrictOrder(less) && AllIncreasing(tables, less) && budget.limit > 0
    ensures Increasing(Traverse(tables, after, budget, size, less).rows, less)
    ensures forall row | row in Traverse(tables, after, budget, size, less).rows ::
              less(after, row.key) && exists i :: 0 <= i < |tables| && row in tables[i]
  {
    if tables != [] && ReadPage(tables[0], after, budget, size, less).Ok? {
      var page := ReadPage(tables[0], after, budget, size, less).value;
      PageWithin(tables[0], after, budget, size, less, page);
      if page.cursor.Some? {
        TraversalIncreases(tables[1..], page.cursor.value, budget, size, less);
        var rest := Traverse(tables[1..], page.cursor.value, budget, size, less).rows;
        JoinIncreasing(page.items, rest, page.cursor.value, less);
        forall row | row in rest ensures less(after, row.key) && exists i :: 0 <= i < |tables| && row in tables[i] {
          var i :| 0 <= i < |tables[1..]| && row in tables[1..][i];
          assert row in tables[i + 1];
          assert page.items[|page.items| - 1] in page.items;
        }
      }
    }
  }

  lemma JoinIncreasing<K(!new), V>(items: seq<Row<K, V>>, rest: seq<Row<K, V>>, cursor: K, less: (K, K) -> bool)
    requires StrictOrder(less) && Increasing(items, less) && Increasing(rest, less)
    requires items != [] && items[|items| - 1].key == cursor && forall row | row in rest :: less(cursor, row.key)
    ensures Increasing(items + rest, less)
  {
    var rows := items + rest;
    forall i, j | 0 <= i < j < |rows| ensures less(rows[i].key, rows[j].key) {
      if i < |items| <= j {
        assert rows[j] in rest;
        assert i == |items| - 1 || less(items[i].key, cursor);
      }
    }
  }

  /** Some row of the table has the key. */
  ghost predicate HasKey<K(!new), V(!new)>(table: seq<Row<K, V>>, key: K) {
    exists row :: row in table && row.key == key
  }

  /**
   A record that keeps its key in the tables throughout, however it is rewritten between pages, is returned once the
   cursors end, and by the lemma above only once.
   */
  lemma {:induction false} StayingRowIsReturned<K(!new), V(!new)>(tables: seq<seq<Row<K, V>>>, after: K, budget: Budget, size: V -> nat, less: (K, K) -> bool, key: K)
    requires StrictOrder(less) && AllIncreasing(tables, less) && budget.limit > 0
    requires Traverse(tables, after, budget, size, less).Done?
    requires less(after, key) && forall i | 0 <= i < |tables| :: HasKey(tables[i], key)
    ensures HasKey(Traverse(tables, after, budget, size, less).rows, key)
  {
    var page := ReadPage(tables[0], after, budget, size, less).value;
    var row :| row in tables[0] && row.key == key;
    OnPageOrBeyond(tables[0], after, budget, size, less, page, row);
    if row in page.items {
      assert row in Traverse(tables, after, budget, size, less).rows;
    } else {
      StayingRowIsReturned(tables[1..], page.cursor.value, budget, size, less, key);
      var later :| later in Traverse(tables[1..], page.cursor.value, budget, size, less).rows && later.key == key;
      assert later in Traverse(tables, after, budget, size, less).rows;
    }
  }

  /** Keys increase, so one index has the key. */
  lemma KeyIsOnce<K(!new), V(!new)>(rows: seq<Row<K, V>>, less: (K, K) -> bool, key: K) returns (k: nat)
    requires StrictOrder(less) && Increasing(rows, less) && HasKey(rows, key)
    ensures k < |rows| && rows[k].key == key && forall j | 0 <= j < |rows| && j != k :: rows[j].key != key
  {
    var row :| row in rows && row.key == key;
    k :| 0 <= k < |rows| && rows[k] == row;
    forall j | 0 <= j < |rows| && j != k ensures rows[j].key != key {
      assert if j < k then less(rows[j].key, rows[k].key) else less(rows[k].key, rows[j].key);
    }
  }

  /** Exactly one row has the key. */
  ghost predicate Once<K(!new), V(!new)>(rows: seq<Row<K, V>>, key: K) {
    exists k :: 0 <= k < |rows| && rows[k].key == key && forall j | 0 <= j < |rows| && j != k :: rows[j].key != key
  }

  /** The two together: a key that stays is returned exactly once. */
  lemma StayingKeyIsReturnedOnce<K(!new), V(!new)>(tables: seq<seq<Row<K, V>>>, after: K, budget: Budget, size: V -> nat, less: (K, K) -> bool, key: K)
    requires StrictOrder(less) && AllIncreasing(tables, less) && budget.limit > 0
    requires Traverse(tables, after, budget, size, less).Done?
    requires less(after, key) && forall i | 0 <= i < |tables| :: HasKey(tables[i], key)
    ensures Once(Traverse(tables, after, budget, size, less).rows, key)
  {
    TraversalIncreases(tables, after, budget, size, less);
    StayingRowIsReturned(tables, after, budget, size, less, key);
    var k := KeyIsOnce(Traverse(tables, after, budget, size, less).rows, less, key);
  }

  lemma {:induction false} AboveComposes<K(!new), V>(table: seq<Row<K, V>>, after: K, less: (K, K) -> bool, n: nat)
    requires StrictOrder(less) && Increasing(table, less) && 0 < n <= |Above(table, after, less)|
    ensures Above(table, Above(table, after, less)[n - 1].key, less) == Above(table, after, less)[n..]
  {
    var rows := Above(table, after, less);
    var head := table[0];
    var rest := Above(table[1..], after, less);
    if less(after, head.key) {
      assert rows == [head] + rest;
      if n > 1 {
        AboveComposes(table[1..], after, less, n - 1);
        var cursor := rows[n - 1].key;
        AboveHas(table[1..], after, less, rest[n - 2]);
        var i :| 0 <= i < |table[1..]| && table[1..][i] == rest[n - 2];
        assert less(head.key, table[i + 1].key);
      } else {
        AllAbove(table[1..], after, less, head.key);
      }
    } else {
      assert rows == rest;
      AboveComposes(table[1..], after, less, n);
      AboveHas(table[1..], after, less, rest[n - 1]);
      var i :| 0 <= i < |table[1..]| && table[1..][i] == rest[n - 1];
      assert less(head.key, table[i + 1].key);
    }
  }

  lemma {:induction false} AllAbove<K(!new), V>(table: seq<Row<K, V>>, after: K, less: (K, K) -> bool, head: K)
    requires StrictOrder(less) && less(after, head) && forall row | row in table :: less(head, row.key)
    ensures Above(table, after, less) == table && Above(table, head, less) == table
  {
    if table != [] {
      assert table[0] in table;
      AllAbove(table[1..], after, less, head);
    }
  }

  /** Over a table that does not change, the pages together are exactly the rows after the start, if each fits a page alone. */
  lemma {:induction false} UnchangedTable<K(!new), V>(table: seq<Row<K, V>>, after: K, budget: Budget, size: V -> nat, less: (K, K) -> bool, pages: nat)
    requires StrictOrder(less) && Increasing(table, less) && budget.limit > 0
    requires forall row | row in table :: size(row.value) + 1 <= budget.room
    requires pages > 0 && pages >= |Above(table, after, less)|
    ensures Traverse(seq(pages, _ => table), after, budget, size, less) == Done(Above(table, after, less))
    decreases pages
  {
    hide Above, ReadPage, Bytes, StrictOrder, Increasing;
    var rows := Above(table, after, less);
    PageIsPrefix(table, after, budget, size, less);
    if rows != [] { AboveHas(table, after, less, rows[0]); }
    var page := ReadPage(table, after, budget, size, less).value;
    assert rows[..|rows|] == rows;
    if page.cursor.Some? {
      AboveComposes(table, after, less, |page.items|);
      UnchangedTable(table, page.cursor.value, budget, size, less, pages - 1);
      assert seq(pages, _ => table)[1..] == seq(pages - 1, _ => table);
      assert rows == page.items + rows[|page.items|..];
    }
  }
}
