/**
 The reference store's records and tables. A run's task, summary, notification and omission share one slot in the
 run's row; a task is found through its head pointer; critical operations have a column each.
 */
module SlotRecords {
  import opened Collections
  import opened Wrappers

  type Id = string

  // ---------------------------------------------------------------------------------- records

  datatype Parent = Parent(parentId: Id, scopeId: Id)
  datatype Phase = Queued | Underway(name: string) | Settled
  datatype CriticalKind = Cancel | Interrupt | SessionClose | BindingCleanup
  datatype OperationKind = Critical(kind: CriticalKind) | Ordinary(name: string)
  datatype NotificationState = Pending | Claimed | Closed(name: string)

  /** `delegationSubordinateId(runId, 'notification')`, injective in the run. */
  datatype NotificationId = NotificationOf(runId: Id)

  datatype Task = Task(taskId: Id, parent: Parent, content: string)
  datatype Run = Run(runId: Id, taskId: Id, ordinal: nat, createdAt: string, phase: Phase, ownerEpoch: nat, content: string)
  datatype RunRecord = RunRecord(run: Run, input: string)
  datatype Operation = Operation(operationId: Id, runId: Id, parent: Parent, kind: OperationKind, content: string)
  datatype Notification = Notification(id: NotificationId, runId: Id, state: NotificationState, claimEpoch: Option<nat>,
                                       retryAt: Option<string>, expiresAt: string, content: string)
  datatype Observation = Omitted(runId: Id, index: nat, content: string) | Retained(runId: Id, index: nat, content: string)

  datatype OperationKey = OperationKey(parent: Parent, operationId: Id)
  datatype ObservationKey = ObservationKey(runId: Id, index: nat)
  datatype CriticalId = CriticalId(runId: Id, kind: CriticalKind)

  function KeyOf(op: Operation): OperationKey {
    OperationKey(op.parent, op.operationId)
  }

  /** The plain record store: one map a kind of record, no slots, no indexes. */
  datatype Records = Records(
    tasks: map<Id, Task>,
    runs: map<Id, RunRecord>,
    operations: map<OperationKey, Operation>,
    notifications: map<NotificationId, Notification>,
    omissions: map<Id, Observation>,
    observations: map<ObservationKey, Observation>,
    capacity: nat)

  // ---------------------------------------------------------------------------------- tables

  /** What one `final_blob` holds; the column is a zero blob until the first write. */
  datatype FinalSlot = FinalSlot(run: Run, task: Option<Task>, notification: Option<Notification>, omission: Option<Observation>)

  datatype TaskRow = TaskRow(parent: Parent, headRunId: Id)
  datatype RunRow = RunRow(taskId: Id, ordinal: nat, createdAt: string, phase: Phase, ownerEpoch: nat, unsettled: bool,
                           final: Option<FinalSlot>, critical: map<CriticalKind, Operation>)
  datatype CriticalRow = CriticalRow(parent: Parent, operationId: Option<Id>)
  datatype OperationRow = OperationRow(runId: Id, data: Operation)
  datatype NotificationRow = NotificationRow(runId: Id, state: Option<NotificationState>, ownerEpoch: Option<nat>,
                                             retryAt: Option<string>, expiresAt: Option<string>, candidate: bool)

  datatype Tables = Tables(
    tasks: map<Id, TaskRow>,
    runs: map<Id, RunRow>,
    inputs: map<Id, string>,
    operations: map<OperationKey, OperationRow>,
    critical: map<CriticalId, CriticalRow>,
    observations: map<ObservationKey, Observation>,
    notifications: map<NotificationId, NotificationRow>,
    capacity: nat)

  const EMPTY_TABLES := Tables(map[], map[], map[], map[], map[], map[], map[], 0)
  const EMPTY_RECORDS := Records(map[], map[], map[], map[], map[], map[], 0)

  // ---------------------------------------------------------------------------------- readers

  datatype StoreError = StoreFailed | CapacityExceeded

  function ReadSlot(db: Tables, runId: Id): Option<FinalSlot> {
    if runId in db.runs then db.runs[runId].final else None
  }

  /** `readTask`: through the head pointer, failing when the head's slot does not hold the task. */
  function ReadTask(db: Tables, taskId: Id): Result<Option<Task>, StoreError> {
    if taskId !in db.tasks then Ok(None)
    else
      match ReadSlot(db, db.tasks[taskId].headRunId)
      case Some(slot) =>
        if slot.task.Some? && slot.task.value.taskId == taskId then Ok(slot.task) else Err(StoreFailed)
      case None => Err(StoreFailed)
  }

  function ReadRun(db: Tables, runId: Id): Result<Option<RunRecord>, StoreError> {
    match ReadSlot(db, runId)
    case None => Ok(None)
    case Some(slot) => if runId in db.inputs then Ok(Some(RunRecord(slot.run, db.inputs[runId]))) else Err(StoreFailed)
  }

  /** The row of `delegation_critical` that carries this operation id, unique by its UNIQUE constraint. */
  ghost predicate HasCritical(db: Tables, c: CriticalId, key: OperationKey) {
    c in db.critical && db.critical[c].parent == key.parent && db.critical[c].operationId == Some(key.operationId)
  }

  ghost function ReadOperation(db: Tables, key: OperationKey): Option<Operation> {
    if key in db.operations then Some(db.operations[key].data)
    else if exists c :: HasCritical(db, c, key) then
      var c :| HasCritical(db, c, key);
      if c.runId in db.runs then Lookup(db.runs[c.runId].critical, c.kind) else None
    else None
  }

  function ReadNotification(db: Tables, id: NotificationId): Option<Notification> {
    if id !in db.notifications then None
    else
      match ReadSlot(db, db.notifications[id].runId)
      case None => None
      case Some(slot) => slot.notification
  }

  function ReadOmission(db: Tables, runId: Id): Option<Observation> {
    match ReadSlot(db, runId)
    case None => None
    case Some(slot) => slot.omission
  }

  /** Reading every record back from the tables gives exactly these records. */
  ghost predicate Represents(db: Tables, rs: Records) {
    && TasksRead(db, rs.tasks)
    && RunsRead(db, rs.runs)
    && OperationsRead(db, rs.operations)
    && NotificationsRead(db, rs.notifications)
    && OmissionsRead(db, rs.omissions)
    && db.observations == rs.observations
    && db.capacity == rs.capacity
  }

  ghost predicate TasksRead(db: Tables, tasks: map<Id, Task>) {
    forall t :: ReadTask(db, t) == Ok(Lookup(tasks, t))
  }

  ghost predicate RunsRead(db: Tables, runs: map<Id, RunRecord>) {
    forall r :: ReadRun(db, r) == Ok(Lookup(runs, r))
  }

  ghost predicate OperationsRead(db: Tables, operations: map<OperationKey, Operation>) {
    forall key :: ReadOperation(db, key) == Lookup(operations, key)
  }

  ghost predicate NotificationsRead(db: Tables, notifications: map<NotificationId, Notification>) {
    forall id :: ReadNotification(db, id) == Lookup(notifications, id)
  }

  ghost predicate OmissionsRead(db: Tables, omissions: map<Id, Observation>) {
    forall r :: ReadOmission(db, r) == Lookup(omissions, r)
  }

  // ---------------------------------------------------------------------------------- the relation the store keeps

  /**
   The tables hold these records. `pending` is a task whose row is already inserted but whose head slot is written last,
   so that the records do not have it yet.
   */
  ghost predicate Holds(db: Tables, rs: Records, pending: Option<Id>) {
    && RunsHold(db.runs, db.inputs, rs.runs, rs.notifications, rs.omissions)
    && TasksHold(db.tasks, db.runs, rs.tasks, pending)
    && CriticalsHold(db.critical, db.runs, db.tasks, rs.operations)
    && OperationsHold(db.operations, db.runs, rs.operations)
    && NotificationsHold(db.notifications, db.runs, rs.notifications)
    && rs.omissions.Keys <= db.runs.Keys
    && db.observations == rs.observations
    && db.capacity == rs.capacity
  }

  ghost predicate RunsHold(rows: map<Id, RunRow>, inputs: map<Id, string>, runs: map<Id, RunRecord>,
                           notifications: map<NotificationId, Notification>, omissions: map<Id, Observation>) {
    && rows.Keys == runs.Keys == inputs.Keys
    && forall r | r in rows :: RunHolds(rows[r], inputs[r], runs[r], Lookup(notifications, NotificationOf(r)), Lookup(omissions, r), r)
  }

  /** A run's columns and slot are the abstract run, notification and omission. */
  ghost predicate RunHolds(row: RunRow, input: string, record: RunRecord, notification: Option<Notification>, omission: Option<Observation>, r: Id) {
    var run := record.run;
    && record.input == input && run.runId == r
    && row.taskId == run.taskId && row.ordinal == run.ordinal && row.createdAt == run.createdAt
    && row.phase == run.phase && row.ownerEpoch == run.ownerEpoch && row.unsettled == (run.phase != Settled)
    && row.final.Some? && row.final.value == FinalSlot(run, row.final.value.task, notification, omission)
  }

  ghost predicate TasksHold(tasks: map<Id, TaskRow>, runs: map<Id, RunRow>, known: map<Id, Task>, pending: Option<Id>) {
    && (forall r | r in runs :: runs[r].taskId in tasks)
    && (forall t :: t in known <==> t in tasks && Some(t) != pending)
    && (forall t | t in known :: TaskHolds(tasks[t], Lookup(runs, tasks[t].headRunId), known[t], t))
  }

  /** The head run's slot holds the current task. */
  ghost predicate TaskHolds(row: TaskRow, head: Option<RunRow>, task: Task, t: Id) {
    && head.Some? && head.value.taskId == t
    && head.value.final.Some? && head.value.final.value.task == Some(task)
    && task.taskId == t && task.parent == row.parent
  }

  ghost predicate CriticalsHold(critical: map<CriticalId, CriticalRow>, runs: map<Id, RunRow>, tasks: map<Id, TaskRow>,
                                operations: map<OperationKey, Operation>) {
    && (forall c :: c in critical <==> c.runId in runs)
    && forall c | c in critical ::
      && runs[c.runId].taskId in tasks && critical[c].parent == tasks[runs[c.runId].taskId].parent
      && CriticalHolds(critical[c], Lookup(runs[c.runId].critical, c.kind), c, operations)
  }

  ghost predicate CriticalHolds(row: CriticalRow, cell: Option<Operation>, c: CriticalId, operations: map<OperationKey, Operation>) {
    match cell
    case None => row.operationId == None
    case Some(op) =>
      && row == CriticalRow(op.parent, Some(op.operationId))
      && op.runId == c.runId && op.kind == Critical(c.kind)
      && Lookup(operations, KeyOf(op)) == Some(op)
  }

  ghost predicate OperationsHold(rows: map<OperationKey, OperationRow>, runs: map<Id, RunRow>, operations: map<OperationKey, Operation>) {
    && (forall key | key in operations ::
          OperationHolds(Lookup(rows, key), Lookup(runs, operations[key].runId), operations[key], key))
    && (forall key | key in rows :: key in operations && operations[key].kind.Ordinary?)
  }

  ghost predicate OperationHolds(row: Option<OperationRow>, run: Option<RunRow>, op: Operation, key: OperationKey) {
    && KeyOf(op) == key
    && match op.kind
       case Ordinary(_) => row == Some(OperationRow(op.runId, op))
       case Critical(kind) => run.Some? && Lookup(run.value.critical, kind) == Some(op)
  }

  /** The index columns a notification has, or a run that is not settled yet. */
  function NotificationColumns(runId: Id, notification: Option<Notification>): NotificationRow {
    match notification
    case None => NotificationRow(runId, None, None, None, None, false)
    case Some(n) => NotificationRow(runId, Some(n.state), n.claimEpoch, n.retryAt, Some(n.expiresAt), n.state == Pending || n.state == Claimed)
  }

  ghost predicate NotificationsHold(rows: map<NotificationId, NotificationRow>, runs: map<Id, RunRow>, known: map<NotificationId, Notification>) {
    && (forall id :: id in rows <==> id.runId in runs)
    && (forall id | id in rows :: rows[id] == NotificationColumns(id.runId, Lookup(known, id)))
    && (forall id | id in known :: id.runId in runs)
  }

  lemma EmptyStore()
    ensures Holds(EMPTY_TABLES, EMPTY_RECORDS, None)
  {
  }

  // ---------------------------------------------------------------------------------- reading back

  lemma HeldTask(db: Tables, rs: Records, t: Id)
    requires TasksHold(db.tasks, db.runs, rs.tasks, None)
    ensures ReadTask(db, t) == Ok(Lookup(rs.tasks, t))
  {
    if t in rs.tasks {
      assert TaskHolds(db.tasks[t], Lookup(db.runs, db.tasks[t].headRunId), rs.tasks[t], t);
    }
  }

  lemma HeldRun(db: Tables, rs: Records, r: Id)
    requires RunsHold(db.runs, db.inputs, rs.runs, rs.notifications, rs.omissions) && rs.omissions.Keys <= db.runs.Keys
    ensures ReadRun(db, r) == Ok(Lookup(rs.runs, r)) && ReadOmission(db, r) == Lookup(rs.omissions, r)
  {
    if r in db.runs {
      assert RunHolds(db.runs[r], db.inputs[r], rs.runs[r], Lookup(rs.notifications, NotificationOf(r)), Lookup(rs.omissions, r), r);
    }
  }

  lemma HeldNotification(db: Tables, rs: Records, id: NotificationId)
    requires RunsHold(db.runs, db.inputs, rs.runs, rs.notifications, rs.omissions) && NotificationsHold(db.notifications, db.runs, rs.notifications)
    ensures ReadNotification(db, id) == Lookup(rs.notifications, id)
  {
    if id in db.notifications {
      var r := id.runId;
      assert RunHolds(db.runs[r], db.inputs[r], rs.runs[r], Lookup(rs.notifications, NotificationOf(r)), Lookup(rs.omissions, r), r);
      assert id == NotificationOf(r);
    }
  }

  /** The two operation tables never disagree: one row answers for each operation id. */
  lemma HeldOperation(db: Tables, rs: Records, key: OperationKey)
    requires CriticalsHold(db.critical, db.runs, db.tasks, rs.operations) && OperationsHold(db.operations, db.runs, rs.operations)
    ensures ReadOperation(db, key) == Lookup(rs.operations, key)
  {
    if key in rs.operations {
      var op := rs.operations[key];
      assert OperationHolds(Lookup(db.operations, key), Lookup(db.runs, op.runId), op, key);
      if op.kind.Critical? {
        var c := CriticalId(op.runId, op.kind.kind);
        assert CriticalHolds(db.critical[c], Lookup(db.runs[c.runId].critical, c.kind), c, rs.operations);
        assert HasCritical(db, c, key);
      }
    }
    forall c | HasCritical(db, c, key)
      ensures key in rs.operations && c.runId in db.runs && Lookup(db.runs[c.runId].critical, c.kind) == Some(rs.operations[key])
    {
      assert CriticalHolds(db.critical[c], Lookup(db.runs[c.runId].critical, c.kind), c, rs.operations);
    }
  }

  /** Reading every record back from tables that hold the records gives exactly those records. */
  lemma HeldIsRead(db: Tables, rs: Records)
    requires Holds(db, rs, None)
    ensures Represents(db, rs)
  {
    forall t ensures ReadTask(db, t) == Ok(Lookup(rs.tasks, t)) { HeldTask(db, rs, t); }
    forall r ensures ReadRun(db, r) == Ok(Lookup(rs.runs, r)) && ReadOmission(db, r) == Lookup(rs.omissions, r) { HeldRun(db, rs, r); }
    forall key ensures ReadOperation(db, key) == Lookup(rs.operations, key) { HeldOperation(db, rs, key); }
    forall id ensures ReadNotification(db, id) == Lookup(rs.notifications, id) { HeldNotification(db, rs, id); }
  }
}
