/** The scans by index columns and the task's run list, in pages: the records the query asks for, in key order. */
module ScanPages {
  import opened Collections
  import opened KeysetPages
  import opened SlotPlan
  import opened SlotRecords
  import opened Texts
  import opened Wrappers

  // ---------------------------------------------------------------------------------- scans by the index columns

  datatype Scan = QueuedScan | RecoveryScan(epoch: nat)

  /** The runs a scan is for. */
  predicate Sought(run: Run, scan: Scan) {
    match scan case QueuedScan => run.phase == Queued case RecoveryScan(epoch) => run.phase != Settled && run.ownerEpoch != epoch
  }

  /** The notifications the owner may claim. */
  predicate Eligible(n: Notification, epoch: nat) {
    n.state == Pending || (n.state == Claimed && n.claimEpoch.Some? && n.claimEpoch.value != epoch)
  }

  function QueuedRows(db: Tables): set<Id> {
    set r | r in db.runs && db.runs[r].phase == Queued
  }

  function RecoveryRows(db: Tables, epoch: nat): set<Id> {
    set r | r in db.runs && db.runs[r].unsettled && db.runs[r].ownerEpoch != epoch
  }

  /** In SQL a comparison with a NULL epoch is not true. */
  function EligibleRows(db: Tables, epoch: nat): set<NotificationId> {
    set id | id in db.notifications && db.notifications[id].candidate
           && (db.notifications[id].state == Some(Pending)
               || (db.notifications[id].state == Some(Claimed) && db.notifications[id].ownerEpoch.Some? && db.notifications[id].ownerEpoch.value != epoch))
  }

  /** Each scan by index columns finds exactly the records it asks for. */
  lemma ScansAgree(db: Tables, rs: Records, epoch: nat)
    requires Holds(db, rs, None)
    ensures QueuedRows(db) == set r | r in rs.runs && Sought(rs.runs[r].run, QueuedScan)
    ensures RecoveryRows(db, epoch) == set r | r in rs.runs && Sought(rs.runs[r].run, RecoveryScan(epoch))
    ensures EligibleRows(db, epoch) ==
            set id | id in rs.notifications && Eligible(rs.notifications[id], epoch)
  {
    RunScansAgree(db, rs, epoch);
    NotificationScansAgree(db, rs.notifications, epoch);
  }

  lemma RunScansAgree(db: Tables, rs: Records, epoch: nat)
    requires RunsHold(db.runs, db.inputs, rs.runs, rs.notifications, rs.omissions)
    ensures QueuedRows(db) == set r | r in rs.runs && Sought(rs.runs[r].run, QueuedScan)
    ensures RecoveryRows(db, epoch) == set r | r in rs.runs && Sought(rs.runs[r].run, RecoveryScan(epoch))
  {
    assert forall r | r in db.runs ::
        RunHolds(db.runs[r], db.inputs[r], rs.runs[r], Lookup(rs.notifications, NotificationOf(r)), Lookup(rs.omissions, r), r);
  }

  lemma NotificationScansAgree(db: Tables, known: map<NotificationId, Notification>, epoch: nat)
    requires NotificationsHold(db.notifications, db.runs, known)
    ensures EligibleRows(db, epoch) ==
            set id | id in known && Eligible(known[id], epoch)
  {
    assert forall id | id in known :: id in db.notifications;
  }

  // ---------------------------------------------------------------------------------- rows in key order

  ghost predicate TotalOrder<K(!new)>(less: (K, K) -> bool) {
    StrictOrder(less) && forall a, b | a != b :: less(a, b) || less(b, a)
  }

  ghost predicate Least<K(!new)>(k: K, keys: set<K>, less: (K, K) -> bool) {
    k in keys && forall j | j in keys && j != k :: less(k, j)
  }

  lemma {:induction false} SomeLeast<K(!new)>(keys: set<K>, less: (K, K) -> bool)
    requires TotalOrder(less) && keys != {}
    ensures exists k :: Least(k, keys, less)
    decreases |keys|
  {
    var k :| k in keys;
    var rest := keys - {k};
    if rest == {} {
      assert keys == {k};
      assert Least(k, keys, less);
    } else {
      SomeLeast(rest, less);
      var j :| Least(j, rest, less);
      if less(k, j) {
        assert forall i | i in keys && i != k :: i == j || less(j, i);
        assert Least(k, keys, less);
      } else {
        assert Least(j, keys, less);
      }
    }
  }

  /** `ORDER BY` the key. */
  ghost function TableOf<K(!new), V>(m: map<K, V>, less: (K, K) -> bool): seq<Row<K, V>>
    requires TotalOrder(less)
    decreases |m|
  {
    if m == map[] then []
    else
      assert m.Keys != {};
      SomeLeast(m.Keys, less);
      var k :| Least(k, m.Keys, less);
      [Row(k, m[k])] + TableOf(m - {k}, less)
  }

  lemma {:induction false} TableHas<K(!new), V>(m: map<K, V>, less: (K, K) -> bool, row: Row<K, V>)
    requires TotalOrder(less)
    ensures row in TableOf(m, less) <==> row.key in m && m[row.key] == row.value
    decreases |m|
  {
    hide TotalOrder;
    if m != map[] {
      var k := TableOf(m, less)[0].key;
      TableHas(m - {k}, less, row);
    }
  }

  lemma {:induction false} TableIncreasing<K(!new), V>(m: map<K, V>, less: (K, K) -> bool)
    requires TotalOrder(less)
    ensures Increasing(TableOf(m, less), less)
    decreases |m|
  {
    hide TotalOrder;
    if m != map[] {
      var table := TableOf(m, less);
      var k := table[0].key;
      var rest := TableOf(m - {k}, less);
      TableIncreasing(m - {k}, less);
      forall j | 0 <= j < |rest| ensures less(k, rest[j].key) {
        TableHas(m - {k}, less, rest[j]);
      }
      assert table == [table[0]] + rest;
    }
  }

  // ---------------------------------------------------------------------------------- the orders

  datatype RunKey = RunKey(createdAt: string, runId: Id)

  const RUN_ORDER: (RunKey, RunKey) -> bool :=
    (a: RunKey, b: RunKey) => Before(a.createdAt, b.createdAt) || (a.createdAt == b.createdAt && Before(a.runId, b.runId))
  const TEXT_ORDER: (string, string) -> bool := (a: string, b: string) => Before(a, b)

  lemma TextOrder()
    ensures TotalOrder(TEXT_ORDER)
  {
    forall a: string, b: string, c: string
      ensures Before(a, b) && Before(b, c) ==> Before(a, c)
      ensures a != b ==> Before(a, b) || Before(b, a)
    {
      if Before(a, b) && Before(b, c) { BeforeTransitive(a, b, c); }
      Ordered(a, b);
    }
  }

  lemma RunOrder()
    ensures TotalOrder(RUN_ORDER)
  {
    TextOrder();
    forall a: RunKey, b: RunKey, c: RunKey
      ensures RUN_ORDER(a, b) && RUN_ORDER(b, c) ==> RUN_ORDER(a, c)
      ensures !RUN_ORDER(a, a) && (a != b ==> RUN_ORDER(a, b) || RUN_ORDER(b, a))
    {
      hide NotAfter;
      assert TEXT_ORDER(a.createdAt, b.createdAt) && TEXT_ORDER(b.createdAt, c.createdAt) ==> TEXT_ORDER(a.createdAt, c.createdAt);
      assert TEXT_ORDER(a.runId, b.runId) && TEXT_ORDER(b.runId, c.runId) ==> TEXT_ORDER(a.runId, c.runId);
      assert a.createdAt == b.createdAt || TEXT_ORDER(a.createdAt, b.createdAt) || TEXT_ORDER(b.createdAt, a.createdAt);
      assert a.runId == b.runId || TEXT_ORDER(a.runId, b.runId) || TEXT_ORDER(b.runId, a.runId);
    }
  }

  lemma NumberOrder()
    ensures TotalOrder(NUMERIC)
  {
  }

  ghost function RunTable<V>(m: map<RunKey, V>): seq<Row<RunKey, V>> {
    RunOrder();
    TableOf(m, RUN_ORDER)
  }

  ghost function TextTable<V>(m: map<string, V>): seq<Row<string, V>> {
    TextOrder();
    TableOf(m, TEXT_ORDER)
  }

  ghost function NumberTable<V>(m: map<nat, V>): seq<Row<nat, V>> {
    NumberOrder();
    TableOf(m, NUMERIC)
  }

  // ---------------------------------------------------------------------------------- the queries

  type Loaded = Result<Option<RunRecord>, StoreError>

  function ScanRows(db: Tables, scan: Scan): set<Id> {
    match scan case QueuedScan => QueuedRows(db) case RecoveryScan(epoch) => RecoveryRows(db, epoch)
  }

  /** The rows a scan selects by its index columns, each with the run `readRun` loads for it. */
  ghost function Scanned(db: Tables, scan: Scan): map<RunKey, Loaded> {
    map r | r in db.runs && r in ScanRows(db, scan) :: RunKey(db.runs[r].createdAt, r) := ReadRun(db, r)
  }

  ghost function SoughtRuns(rs: Records, scan: Scan): map<RunKey, Loaded> {
    map r | r in rs.runs && Sought(rs.runs[r].run, scan) :: RunKey(rs.runs[r].run.createdAt, r) := Ok(Some(rs.runs[r]))
  }

  lemma ScannedIsSought(db: Tables, rs: Records, scan: Scan)
    requires Holds(db, rs, None)
    ensures Scanned(db, scan) == SoughtRuns(rs, scan)
  {
    RowsSought(db, rs, scan);
    forall r | r in db.runs ensures r in rs.runs && ReadRun(db, r) == Ok(Some(rs.runs[r])) && db.runs[r].createdAt == rs.runs[r].run.createdAt {
      HeldColumns(db, rs, r);
    }
    SameRuns(db, rs, scan);
  }

  lemma RowsSought(db: Tables, rs: Records, scan: Scan)
    requires Holds(db, rs, None)
    ensures db.runs.Keys == rs.runs.Keys && forall r | r in db.runs :: r in ScanRows(db, scan) <==> Sought(rs.runs[r].run, scan)
  {
    ScansAgree(db, rs, if scan.RecoveryScan? then scan.epoch else 0);
    HeldSlotOf(db, rs, None, "");
    hide Holds, QueuedRows, RecoveryRows;
  }

  lemma SameRuns(db: Tables, rs: Records, scan: Scan)
    requires db.runs.Keys == rs.runs.Keys
    requires forall r | r in db.runs ::
      && ReadRun(db, r) == Ok(Some(rs.runs[r])) && db.runs[r].createdAt == rs.runs[r].run.createdAt
      && (r in ScanRows(db, scan) <==> Sought(rs.runs[r].run, scan))
    ensures Scanned(db, scan) == SoughtRuns(rs, scan)
  {
    hide ReadRun, ScanRows, Sought;
    var scanned, sought := Scanned(db, scan), SoughtRuns(rs, scan);
    forall k ensures k in scanned <==> k in sought {}
    forall k | k in scanned ensures scanned[k] == sought[k] {}
  }

  lemma HeldColumns(db: Tables, rs: Records, r: Id)
    requires Holds(db, rs, None) && r in db.runs
    ensures r in rs.runs && ReadRun(db, r) == Ok(Some(rs.runs[r])) && db.runs[r].createdAt == rs.runs[r].run.createdAt
    ensures db.runs[r].taskId == rs.runs[r].run.taskId && db.runs[r].ordinal == rs.runs[r].run.ordinal
  {
    HeldRun(db, rs, r);
    assert RunHolds(db.runs[r], db.inputs[r], rs.runs[r], Lookup(rs.notifications, NotificationOf(r)), Lookup(rs.omissions, r), r);
  }

  /** Every record's page entry fits a page on its own. */
  ghost predicate EachFits<K(!new), V(!new)>(m: map<K, V>, budget: Budget, size: V -> nat) {
    forall k | k in m :: size(m[k]) + 1 <= budget.room
  }

  lemma PagesOfTable<K(!new), V(!new)>(m: map<K, V>, after: K, budget: Budget, size: V -> nat, less: (K, K) -> bool, pages: nat)
    requires TotalOrder(less) && budget.limit > 0 && EachFits(m, budget, size) && pages > |TableOf(m, less)|
    ensures Traverse(seq(pages, _ => TableOf(m, less)), after, budget, size, less) == Done(Above(TableOf(m, less), after, less))
  {
    var table := TableOf(m, less);
    TableIncreasing(m, less);
    forall row | row in table ensures size(row.value) + 1 <= budget.room { TableHas(m, less, row); }
    AboveShorter(table, after, less);
    UnchangedTable(table, after, budget, size, less, pages);
  }

  lemma {:induction false} AboveShorter<K, V>(table: seq<Row<K, V>>, after: K, less: (K, K) -> bool)
    ensures |Above(table, after, less)| <= |table|
  {
    if table != [] { AboveShorter(table[1..], after, less); }
  }

  /** Over an unchanged store a scan's pages are exactly the runs it is for, loaded, by creation time and id after the start. */
  lemma ScanIsExact(db: Tables, rs: Records, scan: Scan, after: RunKey, budget: Budget, size: Loaded -> nat, pages: nat)
    requires Holds(db, rs, None)
    requires budget.limit > 0 && EachFits(SoughtRuns(rs, scan), budget, size) && pages > |RunTable(SoughtRuns(rs, scan))|
    ensures var sought := RunTable(SoughtRuns(rs, scan));
      Traverse(seq(pages, _ => RunTable(Scanned(db, scan))), after, budget, size, RUN_ORDER) == Done(Above(sought, after, RUN_ORDER))
  {
    RunOrder();
    hide Holds, TotalOrder, EachFits;
    ScannedIsSought(db, rs, scan);
    PagesOfTable(SoughtRuns(rs, scan), after, budget, size, RUN_ORDER, pages);
  }

  // ---------------------------------------------------------------------------------- while commits go on

  /** The store after the first commits of a history. */
  function StoreAt(plans: seq<seq<Mutation>>, n: nat): Tables {
    match ApplyPlans(EMPTY_TABLES, if n <= |plans| then plans[..n] else plans) case Ok(db) => db case Err(_) => EMPTY_TABLES
  }

  function RecordsAt(plans: seq<seq<Mutation>>, n: nat): Records {
    UpdatePlans(EMPTY_RECORDS, if n <= |plans| then plans[..n] else plans)
  }

  lemma StoreHolds(plans: seq<seq<Mutation>>, n: nat)
    requires AllWellFormed(EMPTY_RECORDS, plans) && n <= |plans|
    ensures Holds(StoreAt(plans, n), RecordsAt(plans, n), None)
  {
    hide Holds, WellFormed;
    EmptyStore();
    forall i | 0 <= i < n ensures WellFormed(UpdatePlans(EMPTY_RECORDS, plans[..n][..i]), plans[..n][i]) {
      assert plans[..n][..i] == plans[..i];
    }
    PlansHold(EMPTY_TABLES, EMPTY_RECORDS, plans[..n]);
  }

  /** A run keeps its identity for as long as the history goes on. */
  lemma {:induction false} IdentityKept(plans: seq<seq<Mutation>>, m: nat, n: nat, r: Id)
    requires AllWellFormed(EMPTY_RECORDS, plans) && m <= n <= |plans| && r in RecordsAt(plans, m).runs
    ensures r in RecordsAt(plans, n).runs && RecordsAt(plans, n).runs[r].run.createdAt == RecordsAt(plans, m).runs[r].run.createdAt
  {
    hide WellFormed, UpdateRunFirst;
    if m < n {
      IdentityKept(plans, m, n - 1, r);
      var known, ms := RecordsAt(plans, n - 1), plans[n - 1];
      assert plans[..n][..n - 1] == plans[..n - 1] && plans[..n][n - 1] == ms;
      assert WellFormed(UpdatePlans(EMPTY_RECORDS, plans[..n - 1]), plans[n - 1]);
      KeepsCreation(known, ms, r);
    }
  }

  lemma KeepsCreation(rs: Records, ms: seq<Mutation>, r: Id)
    requires WellFormed(rs, ms) && r in rs.runs
    ensures r in UpdateAll(rs, ms).runs && UpdateAll(rs, ms).runs[r].run.createdAt == rs.runs[r].run.createdAt
  {
    TurnsDoNotMatter(rs, ms);
    RestKeepsOthers(UpdateRunFirst(rs, ms), ms);
  }

  /** The table each page is read from: the store after so many commits. */
  ghost function ScanTables(plans: seq<seq<Mutation>>, at: seq<nat>, scan: Scan): seq<seq<Row<RunKey, Loaded>>>
  {
    seq(|at|, i requires 0 <= i < |at| => RunTable(Scanned(StoreAt(plans, at[i]), scan)))
  }

  /**
   Whatever is committed between the pages of a scan, its rows come in strictly increasing order, and a run that is
   sought at every page is returned exactly once, although it may be rewritten in between.
   */
  lemma ScannedOnce(plans: seq<seq<Mutation>>, at: seq<nat>, scan: Scan, after: RunKey, budget: Budget, size: Loaded -> nat, r: Id)
    requires AllWellFormed(EMPTY_RECORDS, plans) && budget.limit > 0
    requires at != [] && forall i | 0 <= i < |at| :: at[0] <= at[i] <= |plans|
    requires forall i | 0 <= i < |at| :: r in RecordsAt(plans, at[i]).runs && Sought(RecordsAt(plans, at[i]).runs[r].run, scan)
    requires RUN_ORDER(after, RunKey(RecordsAt(plans, at[0]).runs[r].run.createdAt, r))
    requires Traverse(ScanTables(plans, at, scan), after, budget, size, RUN_ORDER).Done?
    ensures var rows := Traverse(ScanTables(plans, at, scan), after, budget, size, RUN_ORDER).rows;
      Increasing(rows, RUN_ORDER) && Once(rows, RunKey(RecordsAt(plans, at[0]).runs[r].run.createdAt, r))
  {
    RunOrder();
    var key := RunKey(RecordsAt(plans, at[0]).runs[r].run.createdAt, r);
    var tables := ScanTables(plans, at, scan);
    hide AllWellFormed, RecordsAt, StoreAt, Sought, HasKey, Increasing, Traverse, Once;
    forall i | 0 <= i < |tables| ensures Increasing(tables[i], RUN_ORDER) && HasKey(tables[i], key) {
      IdentityKept(plans, at[0], at[i], r);
      SoughtHasKey(plans, at[i], scan, r);
    }
    TraversalIncreases(tables, after, budget, size, RUN_ORDER);
    StayingKeyIsReturnedOnce(tables, after, budget, size, RUN_ORDER, key);
  }

  lemma SoughtHasKey(plans: seq<seq<Mutation>>, n: nat, scan: Scan, r: Id)
    requires AllWellFormed(EMPTY_RECORDS, plans) && n <= |plans|
    requires r in RecordsAt(plans, n).runs && Sought(RecordsAt(plans, n).runs[r].run, scan)
    ensures var table := RunTable(Scanned(StoreAt(plans, n), scan));
      Increasing(table, RUN_ORDER) && HasKey(table, RunKey(RecordsAt(plans, n).runs[r].run.createdAt, r))
  {
    RunOrder();
    var rs := RecordsAt(plans, n);
    StoreHolds(plans, n);
    ScannedIsSought(StoreAt(plans, n), rs, scan);
    SoughtIn(rs, scan, r);
    hide *;
    var sought := SoughtRuns(rs, scan);
    var row := Row(RunKey(rs.runs[r].run.createdAt, r), Ok(Some(rs.runs[r])));
    TableIncreasing(sought, RUN_ORDER);
    TableHas(sought, RUN_ORDER, row);
    RowHasKey(TableOf(sought, RUN_ORDER), row);
  }

  lemma SoughtIn(rs: Records, scan: Scan, r: Id)
    requires r in rs.runs && Sought(rs.runs[r].run, scan)
    ensures var key := RunKey(rs.runs[r].run.createdAt, r); key in SoughtRuns(rs, scan) && SoughtRuns(rs, scan)[key] == Ok(Some(rs.runs[r]))
  {
  }

  lemma RowHasKey<K(!new), V(!new)>(table: seq<Row<K, V>>, row: Row<K, V>)
    requires row in table
    ensures HasKey(table, row.key)
  {
  }

  // ---------------------------------------------------------------------------------- notifications, and the runs of a task

  /** The eligible notifications by their ids' texts. */
  ghost function ScannedNotifications(db: Tables, epoch: nat, text: NotificationId -> string): map<string, Option<Notification>>
    requires Injective(text)
  {
    map id | id in EligibleRows(db, epoch) :: text(id) := ReadNotification(db, id)
  }

  ghost predicate Injective(text: NotificationId -> string) {
    forall a, b | text(a) == text(b) :: a == b
  }

  ghost function EligibleNotifications(rs: Records, epoch: nat, text: NotificationId -> string): map<string, Option<Notification>>
    requires Injective(text)
  {
    map id | id in rs.notifications && Eligible(rs.notifications[id], epoch) :: text(id) := Some(rs.notifications[id])
  }

  lemma EligibleIs(db: Tables, rs: Records, epoch: nat)
    requires Holds(db, rs, None)
    ensures forall id :: id in EligibleRows(db, epoch) <==> id in rs.notifications && Eligible(rs.notifications[id], epoch)
  {
    ScansAgree(db, rs, epoch);
    hide Holds, QueuedRows, RecoveryRows, EligibleRows;
  }

  lemma NotificationsAreRead(db: Tables, rs: Records)
    requires Holds(db, rs, None)
    ensures forall id | id in rs.notifications :: ReadNotification(db, id) == Some(rs.notifications[id])
  {
    hide ReadNotification, RunsHold, NotificationsHold;
    forall id | id in rs.notifications ensures ReadNotification(db, id) == Some(rs.notifications[id]) { HeldNotification(db, rs, id); }
  }

  lemma SameNotifications(db: Tables, rs: Records, epoch: nat, text: NotificationId -> string)
    requires Holds(db, rs, None) && Injective(text)
    ensures ScannedNotifications(db, epoch, text) == EligibleNotifications(rs, epoch, text)
  {
    EligibleIs(db, rs, epoch);
    NotificationsAreRead(db, rs);
    hide *;
    SameTexts(db, rs, epoch, text, EligibleRows(db, epoch));
  }

  lemma SameTexts(db: Tables, rs: Records, epoch: nat, text: NotificationId -> string, ids: set<NotificationId>)
    requires Injective(text) && EligibleRows(db, epoch) == ids
    requires forall id :: id in ids <==> id in rs.notifications && Eligible(rs.notifications[id], epoch)
    requires forall id | id in ids :: ReadNotification(db, id) == Some(rs.notifications[id])
    ensures ScannedNotifications(db, epoch, text) == EligibleNotifications(rs, epoch, text)
  {
    hide ReadNotification, EligibleRows, Eligible;
    var scanned, eligible := ScannedNotifications(db, epoch, text), EligibleNotifications(rs, epoch, text);
    forall k ensures k in scanned <==> k in eligible {}
    forall k | k in scanned ensures scanned[k] == eligible[k] {}
  }

  /** The notification scan's pages are exactly the eligible notifications in the order of their ids. */
  lemma NotificationScanIsExact(db: Tables, rs: Records, epoch: nat, text: NotificationId -> string, after: string, budget: Budget,
                                size: Option<Notification> -> nat, pages: nat)
    requires Holds(db, rs, None) && Injective(text)
    requires budget.limit > 0 && EachFits(EligibleNotifications(rs, epoch, text), budget, size)
    requires pages > |TextTable(EligibleNotifications(rs, epoch, text))|
    ensures var eligible := TextTable(EligibleNotifications(rs, epoch, text));
      Traverse(seq(pages, _ => TextTable(ScannedNotifications(db, epoch, text))), after, budget, size, TEXT_ORDER)
      == Done(Above(eligible, after, TEXT_ORDER))
  {
    TextOrder();
    SameNotifications(db, rs, epoch, text);
    hide *;
    PagesOfTable(EligibleNotifications(rs, epoch, text), after, budget, size, TEXT_ORDER, pages);
  }

  ghost predicate OrdinalsUnique(db: Tables, t: Id) {
    forall q, r | q in db.runs && r in db.runs && db.runs[q].taskId == db.runs[r].taskId == t && db.runs[q].ordinal == db.runs[r].ordinal :: q == r
  }

  /** A task's run rows by ordinal. */
  ghost function TaskRuns(db: Tables, t: Id): map<nat, Loaded>
    requires OrdinalsUnique(db, t)
  {
    map r | r in db.runs && db.runs[r].taskId == t :: db.runs[r].ordinal := ReadRun(db, r)
  }

  ghost function RunsOfTask(rs: Records, t: Id): map<nat, Loaded>
    requires OrdinalsDiffer(rs.runs)
  {
    map r | r in rs.runs && rs.runs[r].run.taskId == t :: rs.runs[r].run.ordinal := Ok(Some(rs.runs[r]))
  }

  lemma SameTaskRuns(db: Tables, rs: Records, t: Id)
    requires Holds(db, rs, None) && OrdinalsDiffer(rs.runs)
    ensures OrdinalsUnique(db, t) && TaskRuns(db, t) == RunsOfTask(rs, t)
  {
    forall r | r in db.runs
      ensures r in rs.runs && ReadRun(db, r) == Ok(Some(rs.runs[r])) && db.runs[r].taskId == rs.runs[r].run.taskId && db.runs[r].ordinal == rs.runs[r].run.ordinal
    {
      HeldColumns(db, rs, r);
    }
    HeldSlotOf(db, rs, None, "");
    UniqueOrdinals(db, rs, t);
    hide *;
    SameOrdinals(db, rs, t);
  }

  lemma UniqueOrdinals(db: Tables, rs: Records, t: Id)
    requires db.runs.Keys == rs.runs.Keys && OrdinalsDiffer(rs.runs)
    requires forall r | r in db.runs :: db.runs[r].taskId == rs.runs[r].run.taskId && db.runs[r].ordinal == rs.runs[r].run.ordinal
    ensures OrdinalsUnique(db, t)
  {
    forall q, r | q in db.runs && r in db.runs && db.runs[q].taskId == db.runs[r].taskId == t && db.runs[q].ordinal == db.runs[r].ordinal ensures q == r {
      assert q in rs.runs && r in rs.runs;
    }
  }

  lemma FoundRun(db: Tables, t: Id, r: Id)
    requires OrdinalsUnique(db, t) && r in db.runs && db.runs[r].taskId == t
    ensures db.runs[r].ordinal in TaskRuns(db, t) && TaskRuns(db, t)[db.runs[r].ordinal] == ReadRun(db, r)
  {
    hide ReadRun;
  }

  lemma KnownRun(rs: Records, t: Id, r: Id)
    requires OrdinalsDiffer(rs.runs) && r in rs.runs && rs.runs[r].run.taskId == t
    ensures rs.runs[r].run.ordinal in RunsOfTask(rs, t) && RunsOfTask(rs, t)[rs.runs[r].run.ordinal] == Ok(Some(rs.runs[r]))
  {
  }

  lemma SameOrdinals(db: Tables, rs: Records, t: Id)
    requires db.runs.Keys == rs.runs.Keys && OrdinalsDiffer(rs.runs) && OrdinalsUnique(db, t)
    requires forall r | r in db.runs :: ReadRun(db, r) == Ok(Some(rs.runs[r])) && db.runs[r].taskId == rs.runs[r].run.taskId && db.runs[r].ordinal == rs.runs[r].run.ordinal
    ensures TaskRuns(db, t) == RunsOfTask(rs, t)
  {
    hide ReadRun, OrdinalsUnique, OrdinalsDiffer;
    var found, runs := TaskRuns(db, t), RunsOfTask(rs, t);
    forall k ensures k in found <==> k in runs {}
    forall k | k in found ensures found[k] == runs[k] {
      var r :| r in db.runs && db.runs[r].taskId == t && db.runs[r].ordinal == k;
      FoundRun(db, t, r);
      KnownRun(rs, t, r);
    }
  }

  /** The pages of a task's runs are exactly its runs in the order of their ordinals. */
  lemma TaskRunsAreExact(db: Tables, rs: Records, t: Id, after: nat, budget: Budget, size: Loaded -> nat, pages: nat)
    requires Holds(db, rs, None) && OrdinalsDiffer(rs.runs)
    requires budget.limit > 0 && EachFits(RunsOfTask(rs, t), budget, size) && pages > |NumberTable(RunsOfTask(rs, t))|
    ensures OrdinalsUnique(db, t)
    ensures var runs := NumberTable(RunsOfTask(rs, t));
      Traverse(seq(pages, _ => NumberTable(TaskRuns(db, t))), after, budget, size, NUMERIC) == Done(Above(runs, after, NUMERIC))
  {
    NumberOrder();
    SameTaskRuns(db, rs, t);
    hide *;
    PagesOfTable(RunsOfTask(rs, t), after, budget, size, NUMERIC, pages);
  }
}
