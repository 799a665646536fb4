/** One mutation written straight to the tables, and what reading the records back then gives. */
module SlotSteps {
  import opened Collections
  import opened SlotRecords
  import opened Wrappers

  // ---------------------------------------------------------------------------------- the writes

  /** The rows an admission inserts: the task on conflict does nothing, the run with a zero slot, and its index rows. */
  function AdmitRun(db: Tables, run: Run, input: string, parent: Parent): Tables {
    db.(tasks := if run.taskId in db.tasks then db.tasks else db.tasks[run.taskId := TaskRow(parent, run.runId)],
        runs := db.runs[run.runId := RunRow(run.taskId, run.ordinal, run.createdAt, run.phase, run.ownerEpoch, true, None, map[])],
        inputs := db.inputs[run.runId := input],
        critical := db.critical[CriticalId(run.runId, Cancel) := CriticalRow(parent, None)]
                               [CriticalId(run.runId, Interrupt) := CriticalRow(parent, None)]
                               [CriticalId(run.runId, SessionClose) := CriticalRow(parent, None)]
                               [CriticalId(run.runId, BindingCleanup) := CriticalRow(parent, None)],
        notifications := db.notifications[NotificationOf(run.runId) := NotificationRow(run.runId, None, None, None, None, false)])
  }

  function SetRunColumns(db: Tables, run: Run): Tables {
    if run.runId in db.runs
    then db.(runs := db.runs[run.runId := db.runs[run.runId].(phase := run.phase, ownerEpoch := run.ownerEpoch, unsettled := run.phase != Settled)])
    else db
  }

  function SetSlot(db: Tables, runId: Id, slot: FinalSlot): Tables {
    if runId in db.runs then db.(runs := db.runs[runId := db.runs[runId].(final := Some(slot))]) else db
  }

  function WithRun(prior: Option<FinalSlot>, run: Run): FinalSlot {
    match prior case None => FinalSlot(run, None, None, None) case Some(slot) => slot.(run := run)
  }

  function PutRun(db: Tables, run: Run, input: string, parent: Parent): Tables {
    var prior := ReadSlot(db, run.runId);
    var admitted := if prior == None then AdmitRun(db, run, input, parent) else db;
    SetSlot(SetRunColumns(admitted, run), run.runId, WithRun(prior, run))
  }

  function PutOrdinary(db: Tables, op: Operation): Tables {
    var runId := if KeyOf(op) in db.operations then db.operations[KeyOf(op)].runId else op.runId;
    db.(operations := db.operations[KeyOf(op) := OperationRow(runId, op)])
  }

  function PutCritical(db: Tables, op: Operation): Tables
    requires op.kind.Critical?
  {
    var c := CriticalId(op.runId, op.kind.kind);
    db.(runs := if op.runId in db.runs
                then db.runs[op.runId := db.runs[op.runId].(critical := db.runs[op.runId].critical[op.kind.kind := op])] else db.runs,
        critical := if c in db.critical then db.critical[c := db.critical[c].(operationId := Some(op.operationId))] else db.critical)
  }

  function PutOperation(db: Tables, op: Operation): Tables {
    if op.kind.Critical? then PutCritical(db, op) else PutOrdinary(db, op)
  }

  function PutRetained(db: Tables, obs: Observation): Tables {
    db.(observations := db.observations[ObservationKey(obs.runId, obs.index) := obs])
  }

  function SetNotificationColumns(db: Tables, n: Notification): Tables {
    if n.id in db.notifications
    then db.(notifications := db.notifications[n.id :=
               db.notifications[n.id].(state := Some(n.state), ownerEpoch := n.claimEpoch, retryAt := n.retryAt,
                                       expiresAt := Some(n.expiresAt), candidate := n.state == Pending || n.state == Claimed)])
    else db
  }

  function PutNotification(db: Tables, n: Notification): Tables
    requires ReadSlot(db, n.runId).Some?
  {
    SetNotificationColumns(SetSlot(db, n.runId, ReadSlot(db, n.runId).value.(notification := Some(n))), n)
  }

  function PutOmission(db: Tables, obs: Observation): Tables
    requires ReadSlot(db, obs.runId).Some?
  {
    SetSlot(db, obs.runId, ReadSlot(db, obs.runId).value.(omission := Some(obs)))
  }

  function PutTask(db: Tables, task: Task, head: Id): Tables
    requires ReadSlot(db, head).Some?
  {
    var stored := SetSlot(db, head, ReadSlot(db, head).value.(task := Some(task)));
    if task.taskId in db.tasks
    then stored.(tasks := stored.tasks[task.taskId := stored.tasks[task.taskId].(headRunId := head)])
    else stored
  }

  // ---------------------------------------------------------------------------------- the updates of the plain store

  function UpdateRun(rs: Records, run: Run, input: string): Records {
    rs.(runs := rs.runs[run.runId := RunRecord(run, input)])
  }

  /** A critical operation shares its run's column of that kind, so it takes the place of the one kept there before. */
  function UpdateOperation(rs: Records, op: Operation): Records {
    rs.(operations := Without(rs.operations, op)[KeyOf(op) := op])
  }

  predicate SameColumn(known: Operation, op: Operation) {
    op.kind.Critical? && known.kind == op.kind && known.runId == op.runId
  }

  function Without(operations: map<OperationKey, Operation>, op: Operation): map<OperationKey, Operation> {
    map key | key in operations && !SameColumn(operations[key], op) :: operations[key]
  }

  function UpdateNotification(rs: Records, n: Notification): Records {
    rs.(notifications := rs.notifications[n.id := n])
  }

  function UpdateObservation(rs: Records, obs: Observation): Records {
    match obs
    case Omitted(_, _, _) => rs.(omissions := rs.omissions[obs.runId := obs])
    case Retained(_, _, _) => rs.(observations := rs.observations[ObservationKey(obs.runId, obs.index) := obs])
  }

  function UpdateTask(rs: Records, task: Task): Records {
    rs.(tasks := rs.tasks[task.taskId := task])
  }

  // ---------------------------------------------------------------------------------- one row at a time

  function SlotRow(row: RunRow, slot: FinalSlot): RunRow {
    row.(final := Some(slot))
  }

  /** Writing one run's row and its records keeps every other run's. */
  lemma RowPut(rows: map<Id, RunRow>, inputs: map<Id, string>, runs: map<Id, RunRecord>, notifications: map<NotificationId, Notification>,
               omissions: map<Id, Observation>, r: Id, row: RunRow, record: RunRecord)
    requires RunsHold(rows, inputs, runs, notifications, omissions)
    requires RunHolds(row, record.input, record, Lookup(notifications, NotificationOf(r)), Lookup(omissions, r), r)
    ensures RunsHold(rows[r := row], inputs[r := record.input], runs[r := record], notifications, omissions)
  {
  }

  /** Writing one run's slot, with the notification or omission in it. */
  lemma SlotPut(rows: map<Id, RunRow>, inputs: map<Id, string>, runs: map<Id, RunRecord>, notifications: map<NotificationId, Notification>,
                omissions: map<Id, Observation>, notifications': map<NotificationId, Notification>, omissions': map<Id, Observation>, r: Id, row: RunRow)
    requires RunsHold(rows, inputs, runs, notifications, omissions) && r in rows
    requires forall q | q != r :: Lookup(notifications', NotificationOf(q)) == Lookup(notifications, NotificationOf(q))
    requires forall q | q != r :: Lookup(omissions', q) == Lookup(omissions, q)
    requires RunHolds(row, inputs[r], runs[r], Lookup(notifications', NotificationOf(r)), Lookup(omissions', r), r)
    ensures RunsHold(rows[r := row], inputs, runs, notifications', omissions')
  {
  }

  lemma OmissionPut(rows: map<Id, RunRow>, inputs: map<Id, string>, runs: map<Id, RunRecord>, notifications: map<NotificationId, Notification>,
                    omissions: map<Id, Observation>, obs: Observation, row: RunRow)
    requires RunsHold(rows, inputs, runs, notifications, omissions) && obs.runId in rows && rows[obs.runId].final.Some?
    requires row == SlotRow(rows[obs.runId], rows[obs.runId].final.value.(omission := Some(obs)))
    ensures RunsHold(rows[obs.runId := row], inputs, runs, notifications, omissions[obs.runId := obs])
  {
    var r := obs.runId;
    assert RunHolds(rows[r], inputs[r], runs[r], Lookup(notifications, NotificationOf(r)), Lookup(omissions, r), r);
    SlotPut(rows, inputs, runs, notifications, omissions, notifications, omissions[r := obs], r, row);
  }

  lemma NotificationSlotPut(rows: map<Id, RunRow>, inputs: map<Id, string>, runs: map<Id, RunRecord>, notifications: map<NotificationId, Notification>,
                            omissions: map<Id, Observation>, n: Notification, row: RunRow)
    requires RunsHold(rows, inputs, runs, notifications, omissions) && n.runId in rows && rows[n.runId].final.Some?
    requires n.id == NotificationOf(n.runId)
    requires row == SlotRow(rows[n.runId], rows[n.runId].final.value.(notification := Some(n)))
    ensures RunsHold(rows[n.runId := row], inputs, runs, notifications[n.id := n], omissions)
  {
    var r := n.runId;
    assert RunHolds(rows[r], inputs[r], runs[r], Lookup(notifications, NotificationOf(r)), Lookup(omissions, r), r);
    SlotPut(rows, inputs, runs, notifications, omissions, notifications[n.id := n], omissions, r, row);
  }

  lemma HeadsKept(tasks: map<Id, TaskRow>, runs: map<Id, RunRow>, known: map<Id, Task>, pending: Option<Id>, r: Id, row: RunRow)
    requires TasksHold(tasks, runs, known, pending) && r in runs && row.taskId == runs[r].taskId
    requires runs[r].final.Some? ==> row.final.Some? && row.final.value.task == runs[r].final.value.task
    ensures TasksHold(tasks, runs[r := row], known, pending)
  {
    forall t | t in known ensures TaskHolds(tasks[t], Lookup(runs[r := row], tasks[t].headRunId), known[t], t) {
      assert TaskHolds(tasks[t], Lookup(runs, tasks[t].headRunId), known[t], t);
    }
  }

  lemma CriticalsKept(critical: map<CriticalId, CriticalRow>, runs: map<Id, RunRow>, tasks: map<Id, TaskRow>,
                      operations: map<OperationKey, Operation>, r: Id, row: RunRow)
    requires CriticalsHold(critical, runs, tasks, operations) && r in runs && row.taskId == runs[r].taskId && row.critical == runs[r].critical
    ensures CriticalsHold(critical, runs[r := row], tasks, operations)
  {
  }

  lemma OperationsKept(rows: map<OperationKey, OperationRow>, runs: map<Id, RunRow>, operations: map<OperationKey, Operation>, r: Id, row: RunRow)
    requires OperationsHold(rows, runs, operations) && r in runs && row.critical == runs[r].critical
    ensures OperationsHold(rows, runs[r := row], operations)
  {
    forall key | key in operations ensures OperationHolds(Lookup(rows, key), Lookup(runs[r := row], operations[key].runId), operations[key], key) {
      assert OperationHolds(Lookup(rows, key), Lookup(runs, operations[key].runId), operations[key], key);
    }
  }

  // ---------------------------------------------------------------------------------- admitting a run

  /** The parent of a new run is its task's; a task the store has no row for becomes pending. */
  ghost predicate AdmissionAllowed(db: Tables, run: Run, parent: Parent, pending: Option<Id>) {
    && run.runId !in db.runs
    && if run.taskId in db.tasks then pending == None && db.tasks[run.taskId].parent == parent else pending == Some(run.taskId)
  }

  function NewRow(run: Run): RunRow {
    RunRow(run.taskId, run.ordinal, run.createdAt, run.phase, run.ownerEpoch, run.phase != Settled, Some(FinalSlot(run, None, None, None)), map[])
  }

  /** An admission table by table. */
  lemma AdmitParts(db: Tables, run: Run, input: string, parent: Parent)
    requires run.runId !in db.runs
    ensures var db' := PutRun(db, run, input, parent);
      && db'.tasks == (if run.taskId in db.tasks then db.tasks else db.tasks[run.taskId := TaskRow(parent, run.runId)])
      && db'.runs == db.runs[run.runId := NewRow(run)]
      && db'.inputs == db.inputs[run.runId := input]
      && db'.operations == db.operations && db'.observations == db.observations && db'.capacity == db.capacity
      && db'.notifications == db.notifications[NotificationOf(run.runId) := NotificationColumns(run.runId, None)]
  {
  }

  lemma AdmitCriticalRows(db: Tables, run: Run, input: string, parent: Parent, c: CriticalId)
    requires run.runId !in db.runs
    ensures Lookup(PutRun(db, run, input, parent).critical, c) ==
            if c.runId == run.runId then Some(CriticalRow(parent, None)) else Lookup(db.critical, c)
  {
    assert c.kind == Cancel || c.kind == Interrupt || c.kind == SessionClose || c.kind == BindingCleanup;
  }

  lemma AdmitTasks(tasks: map<Id, TaskRow>, runs: map<Id, RunRow>, known: map<Id, Task>, run: Run, parent: Parent, pending: Option<Id>)
    requires TasksHold(tasks, runs, known, None) && run.runId !in runs
    requires if run.taskId in tasks then pending == None else pending == Some(run.taskId)
    ensures TasksHold(if run.taskId in tasks then tasks else tasks[run.taskId := TaskRow(parent, run.runId)],
                      runs[run.runId := NewRow(run)], known, pending)
  {
    forall t | t in known ensures TaskHolds(tasks[t], Lookup(runs[run.runId := NewRow(run)], tasks[t].headRunId), known[t], t) {
      assert TaskHolds(tasks[t], Lookup(runs, tasks[t].headRunId), known[t], t);
    }
  }

  lemma AdmitCriticals(db: Tables, rs: Records, run: Run, input: string, parent: Parent, pending: Option<Id>)
    requires CriticalsHold(db.critical, db.runs, db.tasks, rs.operations) && AdmissionAllowed(db, run, parent, pending)
    ensures var db' := PutRun(db, run, input, parent); CriticalsHold(db'.critical, db'.runs, db'.tasks, rs.operations)
  {
    var critical := PutRun(db, run, input, parent).critical;
    AdmitParts(db, run, input, parent);
    forall c ensures Lookup(critical, c) == if c.runId == run.runId then Some(CriticalRow(parent, None)) else Lookup(db.critical, c) {
      AdmitCriticalRows(db, run, input, parent, c);
    }
    AdmittedCriticals(db, rs.operations, run, parent, critical);
  }

  lemma AdmittedCriticals(db: Tables, operations: map<OperationKey, Operation>, run: Run, parent: Parent, critical: map<CriticalId, CriticalRow>)
    requires CriticalsHold(db.critical, db.runs, db.tasks, operations) && run.runId !in db.runs
    requires run.taskId in db.tasks ==> db.tasks[run.taskId].parent == parent
    requires forall c :: Lookup(critical, c) == if c.runId == run.runId then Some(CriticalRow(parent, None)) else Lookup(db.critical, c)
    ensures CriticalsHold(critical, db.runs[run.runId := NewRow(run)],
                          if run.taskId in db.tasks then db.tasks else db.tasks[run.taskId := TaskRow(parent, run.runId)], operations)
  {
    forall c ensures c in critical <==> c.runId in db.runs[run.runId := NewRow(run)] {
      assert c in critical <==> Lookup(critical, c).Some?;
    }
    forall c | c in critical && c.runId != run.runId ensures c in db.critical && critical[c] == db.critical[c] {
      assert Lookup(critical, c) == Lookup(db.critical, c);
    }
    forall c | c in critical && c.runId == run.runId ensures critical[c] == CriticalRow(parent, None) {
      assert Lookup(critical, c) == Some(CriticalRow(parent, None));
    }
  }

  lemma AdmitOperations(rows: map<OperationKey, OperationRow>, runs: map<Id, RunRow>, operations: map<OperationKey, Operation>, run: Run)
    requires OperationsHold(rows, runs, operations) && run.runId !in runs
    ensures OperationsHold(rows, runs[run.runId := NewRow(run)], operations)
  {
    var runs' := runs[run.runId := NewRow(run)];
    forall key | key in operations ensures OperationHolds(Lookup(rows, key), Lookup(runs', operations[key].runId), operations[key], key) {
      assert OperationHolds(Lookup(rows, key), Lookup(runs, operations[key].runId), operations[key], key);
    }
  }

  lemma AdmitNotifications(rows: map<NotificationId, NotificationRow>, runs: map<Id, RunRow>, known: map<NotificationId, Notification>, run: Run)
    requires NotificationsHold(rows, runs, known) && run.runId !in runs
    ensures NotificationsHold(rows[NotificationOf(run.runId) := NotificationColumns(run.runId, None)], runs[run.runId := NewRow(run)], known)
  {
    assert NotificationOf(run.runId) !in known;
    assert forall id: NotificationId :: id == NotificationOf(id.runId);
  }

  lemma AdmitHolds(db: Tables, rs: Records, run: Run, input: string, parent: Parent, pending: Option<Id>)
    requires Holds(db, rs, None) && AdmissionAllowed(db, run, parent, pending)
    ensures Holds(PutRun(db, run, input, parent), UpdateRun(rs, run, input), pending)
  {
    AdmitParts(db, run, input, parent);
    assert NotificationOf(run.runId) !in rs.notifications && run.runId !in rs.omissions;
    RowPut(db.runs, db.inputs, rs.runs, rs.notifications, rs.omissions, run.runId, NewRow(run), RunRecord(run, input));
    AdmitTasks(db.tasks, db.runs, rs.tasks, run, parent, pending);
    AdmitCriticals(db, rs, run, input, parent, pending);
    AdmitOperations(db.operations, db.runs, rs.operations, run);
    AdmitNotifications(db.notifications, db.runs, rs.notifications, run);
  }

  // ---------------------------------------------------------------------------------- updating a run

  /** What a run never changes after its admission. */
  predicate SameIdentity(known: RunRecord, run: Run, input: string) {
    known.run.taskId == run.taskId && known.run.ordinal == run.ordinal && known.run.createdAt == run.createdAt && known.input == input
  }

  function UpdatedRow(row: RunRow, run: Run): RunRow
    requires row.final.Some?
  {
    row.(phase := run.phase, ownerEpoch := run.ownerEpoch, unsettled := run.phase != Settled, final := Some(row.final.value.(run := run)))
  }

  lemma UpdateParts(db: Tables, run: Run, input: string, parent: Parent)
    requires ReadSlot(db, run.runId).Some?
    ensures PutRun(db, run, input, parent) == db.(runs := db.runs[run.runId := UpdatedRow(db.runs[run.runId], run)])
  {
  }

  lemma UpdateRunHolds(db: Tables, rs: Records, run: Run, input: string, parent: Parent)
    requires Holds(db, rs, None) && run.runId in db.runs && SameIdentity(rs.runs[run.runId], run, input)
    ensures Holds(PutRun(db, run, input, parent), UpdateRun(rs, run, input), None)
  {
    var r := run.runId;
    assert RunHolds(db.runs[r], db.inputs[r], rs.runs[r], Lookup(rs.notifications, NotificationOf(r)), Lookup(rs.omissions, r), r);
    var row := UpdatedRow(db.runs[r], run);
    UpdateParts(db, run, input, parent);
    RowPut(db.runs, db.inputs, rs.runs, rs.notifications, rs.omissions, r, row, RunRecord(run, input));
    Rewritten(db.inputs, r);
    HeadsKept(db.tasks, db.runs, rs.tasks, None, r, row);
    CriticalsKept(db.critical, db.runs, db.tasks, rs.operations, r, row);
    OperationsKept(db.operations, db.runs, rs.operations, r, row);
  }

  lemma Rewritten<K, V>(m: map<K, V>, k: K)
    requires k in m
    ensures m[k := m[k]] == m
  {
  }

  // ---------------------------------------------------------------------------------- slots

  lemma PutOmissionHolds(db: Tables, rs: Records, obs: Observation, pending: Option<Id>)
    requires Holds(db, rs, pending) && obs.Omitted? && obs.runId in db.runs && ReadSlot(db, obs.runId).Some?
    ensures Holds(PutOmission(db, obs), UpdateObservation(rs, obs), pending)
  {
    var r := obs.runId;
    assert RunHolds(db.runs[r], db.inputs[r], rs.runs[r], Lookup(rs.notifications, NotificationOf(r)), Lookup(rs.omissions, r), r);
    var row := SlotRow(db.runs[r], db.runs[r].final.value.(omission := Some(obs)));
    OmissionPut(db.runs, db.inputs, rs.runs, rs.notifications, rs.omissions, obs, row);
    SlotWritten(db, rs, pending, r, row);
  }

  /** Writing a slot that keeps its task keeps every table but the runs. */
  lemma SlotWritten(db: Tables, rs: Records, pending: Option<Id>, r: Id, row: RunRow)
    requires r in db.runs && row.taskId == db.runs[r].taskId && row.critical == db.runs[r].critical
    requires db.runs[r].final.Some? ==> row.final.Some? && row.final.value.task == db.runs[r].final.value.task
    requires TasksHold(db.tasks, db.runs, rs.tasks, pending)
    requires CriticalsHold(db.critical, db.runs, db.tasks, rs.operations) && OperationsHold(db.operations, db.runs, rs.operations)
    ensures TasksHold(db.tasks, db.runs[r := row], rs.tasks, pending)
    ensures CriticalsHold(db.critical, db.runs[r := row], db.tasks, rs.operations)
    ensures OperationsHold(db.operations, db.runs[r := row], rs.operations)
    ensures db.runs[r := row].Keys == db.runs.Keys
  {
    HeadsKept(db.tasks, db.runs, rs.tasks, pending, r, row);
    CriticalsKept(db.critical, db.runs, db.tasks, rs.operations, r, row);
    OperationsKept(db.operations, db.runs, rs.operations, r, row);
  }

  lemma NotificationPut(rows: map<NotificationId, NotificationRow>, runs: map<Id, RunRow>, known: map<NotificationId, Notification>, n: Notification, row: RunRow)
    requires NotificationsHold(rows, runs, known) && n.runId in runs && n.id == NotificationOf(n.runId)
    ensures n.id in rows && rows[n.id].runId == n.runId
    ensures NotificationsHold(rows[n.id := NotificationColumns(n.runId, Some(n))], runs[n.runId := row], known[n.id := n])
  {
  }

  lemma PutNotificationParts(db: Tables, n: Notification)
    requires ReadSlot(db, n.runId).Some? && n.id in db.notifications && db.notifications[n.id].runId == n.runId
    ensures PutNotification(db, n) ==
            db.(runs := db.runs[n.runId := SlotRow(db.runs[n.runId], db.runs[n.runId].final.value.(notification := Some(n)))],
                notifications := db.notifications[n.id := NotificationColumns(n.runId, Some(n))])
  {
  }

  lemma PutNotificationHolds(db: Tables, rs: Records, n: Notification, pending: Option<Id>)
    requires Holds(db, rs, pending) && n.runId in db.runs && n.id == NotificationOf(n.runId) && ReadSlot(db, n.runId).Some?
    ensures Holds(PutNotification(db, n), UpdateNotification(rs, n), pending)
  {
    var row := SlotRow(db.runs[n.runId], db.runs[n.runId].final.value.(notification := Some(n)));
    NotificationPut(db.notifications, db.runs, rs.notifications, n, row);
    PutNotificationParts(db, n);
    NotificationSlotPut(db.runs, db.inputs, rs.runs, rs.notifications, rs.omissions, n, row);
    SlotWritten(db, rs, pending, n.runId, row);
  }

  lemma PutRetainedHolds(db: Tables, rs: Records, obs: Observation, pending: Option<Id>)
    requires Holds(db, rs, pending) && obs.Retained?
    ensures Holds(PutRetained(db, obs), UpdateObservation(rs, obs), pending)
  {
  }

  // ---------------------------------------------------------------------------------- operations

  /** An operation belongs to a known run of the same parent, and its id is used for that run and kind only. */
  ghost predicate OperationAllowed(db: Tables, rs: Records, op: Operation) {
    && op.runId in db.runs && db.runs[op.runId].taskId in db.tasks
    && op.parent == db.tasks[db.runs[op.runId].taskId].parent
    && (KeyOf(op) in rs.operations ==> rs.operations[KeyOf(op)].runId == op.runId && rs.operations[KeyOf(op)].kind == op.kind)
  }

  lemma PutOrdinaryHolds(db: Tables, rs: Records, op: Operation, pending: Option<Id>)
    requires Holds(db, rs, pending) && op.kind.Ordinary? && OperationAllowed(db, rs, op)
    ensures Holds(PutOrdinary(db, op), UpdateOperation(rs, op), pending)
  {
    WithoutOrdinary(rs.operations, op);
    PutOrdinaryRows(db, rs, op);
    PutOrdinaryCriticals(db, rs, op);
  }

  lemma WithoutOrdinary(operations: map<OperationKey, Operation>, op: Operation)
    requires op.kind.Ordinary?
    ensures Without(operations, op) == operations
  {
  }

  lemma PutOrdinaryRows(db: Tables, rs: Records, op: Operation)
    requires OperationsHold(db.operations, db.runs, rs.operations) && op.kind.Ordinary? && OperationAllowed(db, rs, op)
    ensures OperationsHold(PutOrdinary(db, op).operations, db.runs, rs.operations[KeyOf(op) := op])
  {
    var rows := PutOrdinary(db, op).operations;
    var operations := rs.operations[KeyOf(op) := op];
    if KeyOf(op) in rs.operations {
      assert OperationHolds(Lookup(db.operations, KeyOf(op)), Lookup(db.runs, rs.operations[KeyOf(op)].runId), rs.operations[KeyOf(op)], KeyOf(op));
    }
    forall key | key in operations ensures OperationHolds(Lookup(rows, key), Lookup(db.runs, operations[key].runId), operations[key], key) {
      if key != KeyOf(op) {
        assert OperationHolds(Lookup(db.operations, key), Lookup(db.runs, operations[key].runId), operations[key], key);
      }
    }
  }

  lemma PutOrdinaryCriticals(db: Tables, rs: Records, op: Operation)
    requires CriticalsHold(db.critical, db.runs, db.tasks, rs.operations) && op.kind.Ordinary? && OperationAllowed(db, rs, op)
    ensures CriticalsHold(db.critical, db.runs, db.tasks, rs.operations[KeyOf(op) := op])
  {
    forall c | c in db.critical
      ensures CriticalHolds(db.critical[c], Lookup(db.runs[c.runId].critical, c.kind), c, rs.operations[KeyOf(op) := op])
    {
      assert CriticalHolds(db.critical[c], Lookup(db.runs[c.runId].critical, c.kind), c, rs.operations);
    }
  }

  lemma PutCriticalHolds(db: Tables, rs: Records, op: Operation, pending: Option<Id>)
    requires Holds(db, rs, pending) && op.kind.Critical? && OperationAllowed(db, rs, op)
    ensures Holds(PutCritical(db, op), UpdateOperation(rs, op), pending)
  {
    var db', rs' := PutCritical(db, op), UpdateOperation(rs, op);
    var r := op.runId;
    assert RunHolds(db.runs[r], db.inputs[r], rs.runs[r], Lookup(rs.notifications, NotificationOf(r)), Lookup(rs.omissions, r), r);
    var row := db.runs[r].(critical := db.runs[r].critical[op.kind.kind := op]);
    SlotPut(db.runs, db.inputs, rs.runs, rs.notifications, rs.omissions, rs.notifications, rs.omissions, r, row);
    HeadsKept(db.tasks, db.runs, rs.tasks, pending, r, row);
    PutCriticalRows(db, rs, op);
    PutCriticalCells(db, rs, op);
  }

  /** The row of every other column keeps its operation, and this column's row now carries the new one. */
  lemma PutCriticalRows(db: Tables, rs: Records, op: Operation)
    requires CriticalsHold(db.critical, db.runs, db.tasks, rs.operations) && OperationsHold(db.operations, db.runs, rs.operations)
    requires op.kind.Critical? && OperationAllowed(db, rs, op)
    ensures var db' := PutCritical(db, op); CriticalsHold(db'.critical, db'.runs, db.tasks, UpdateOperation(rs, op).operations)
  {
    var db', operations := PutCritical(db, op), UpdateOperation(rs, op).operations;
    var mine := CriticalId(op.runId, op.kind.kind);
    assert mine in db.critical;
    forall c | c in db'.critical ensures CriticalHolds(db'.critical[c], Lookup(db'.runs[c.runId].critical, c.kind), c, operations) {
      assert CriticalHolds(db.critical[c], Lookup(db.runs[c.runId].critical, c.kind), c, rs.operations);
      if c != mine {
        assert Lookup(db'.runs[c.runId].critical, c.kind) == Lookup(db.runs[c.runId].critical, c.kind);
      }
    }
  }

  lemma PutCriticalCells(db: Tables, rs: Records, op: Operation)
    requires OperationsHold(db.operations, db.runs, rs.operations) && op.kind.Critical? && OperationAllowed(db, rs, op)
    ensures OperationsHold(db.operations, PutCritical(db, op).runs, UpdateOperation(rs, op).operations)
  {
    var runs', operations := PutCritical(db, op).runs, UpdateOperation(rs, op).operations;
    forall key | key in operations ensures OperationHolds(Lookup(db.operations, key), Lookup(runs', operations[key].runId), operations[key], key) {
      if key != KeyOf(op) {
        assert OperationHolds(Lookup(db.operations, key), Lookup(db.runs, operations[key].runId), operations[key], key);
      }
    }
  }

  // ---------------------------------------------------------------------------------- the task and its head

  lemma TaskParts(db: Tables, task: Task, head: Id)
    requires head in db.runs && ReadSlot(db, head).Some? && task.taskId in db.tasks && db.tasks[task.taskId].parent == task.parent
    ensures var row := SlotRow(db.runs[head], db.runs[head].final.value.(task := Some(task)));
      PutTask(db, task, head) == db.(runs := db.runs[head := row], tasks := db.tasks[task.taskId := TaskRow(task.parent, head)])
  {
  }

  lemma NotificationsStay(rows: map<NotificationId, NotificationRow>, runs: map<Id, RunRow>, known: map<NotificationId, Notification>, r: Id, row: RunRow)
    requires NotificationsHold(rows, runs, known) && r in runs
    ensures NotificationsHold(rows, runs[r := row], known)
  {
  }

  lemma TaskSlotPut(rows: map<Id, RunRow>, inputs: map<Id, string>, runs: map<Id, RunRecord>, notifications: map<NotificationId, Notification>,
                    omissions: map<Id, Observation>, task: Task, head: Id, row: RunRow)
    requires RunsHold(rows, inputs, runs, notifications, omissions) && head in rows && rows[head].final.Some?
    requires row == SlotRow(rows[head], rows[head].final.value.(task := Some(task)))
    ensures RunsHold(rows[head := row], inputs, runs, notifications, omissions)
  {
    assert RunHolds(rows[head], inputs[head], runs[head], Lookup(notifications, NotificationOf(head)), Lookup(omissions, head), head);
    SlotPut(rows, inputs, runs, notifications, omissions, notifications, omissions, head, row);
  }

  lemma PutTaskHolds(db: Tables, rs: Records, task: Task, head: Id, pending: Option<Id>)
    requires Holds(db, rs, pending) && (pending == None || pending == Some(task.taskId))
    requires task.taskId in db.tasks && db.tasks[task.taskId].parent == task.parent
    requires head in db.runs && db.runs[head].taskId == task.taskId && ReadSlot(db, head).Some?
    ensures Holds(PutTask(db, task, head), UpdateTask(rs, task), None)
  {
    var row := SlotRow(db.runs[head], db.runs[head].final.value.(task := Some(task)));
    TaskParts(db, task, head);
    NotificationsStay(db.notifications, db.runs, rs.notifications, head, row);
    hide RunsHold, TasksHold, CriticalsHold, OperationsHold, NotificationsHold, PutTask;
    TaskSlotPut(db.runs, db.inputs, rs.runs, rs.notifications, rs.omissions, task, head, row);
    PutTaskHeads(db.tasks, db.runs, rs.tasks, task, head, row, pending);
    CriticalsKept(db.critical, db.runs, db.tasks, rs.operations, head, row);
    TaskCriticals(db.critical, db.runs[head := row], db.tasks, rs.operations, task, head);
    OperationsKept(db.operations, db.runs, rs.operations, head, row);
  }

  lemma TaskCriticals(critical: map<CriticalId, CriticalRow>, runs: map<Id, RunRow>, tasks: map<Id, TaskRow>,
                      operations: map<OperationKey, Operation>, task: Task, head: Id)
    requires CriticalsHold(critical, runs, tasks, operations) && task.taskId in tasks && tasks[task.taskId].parent == task.parent
    ensures CriticalsHold(critical, runs, tasks[task.taskId := TaskRow(task.parent, head)], operations)
  {
  }

  /** Every other task's head is a run of that other task, so its slot is not the one written. */
  lemma PutTaskHeads(tasks: map<Id, TaskRow>, runs: map<Id, RunRow>, known: map<Id, Task>, task: Task, head: Id, row: RunRow, pending: Option<Id>)
    requires TasksHold(tasks, runs, known, pending) && (pending == None || pending == Some(task.taskId))
    requires task.taskId in tasks && tasks[task.taskId].parent == task.parent
    requires head in runs && runs[head].taskId == task.taskId == row.taskId
    requires row.final.Some? && row.final.value.task == Some(task)
    ensures TasksHold(tasks[task.taskId := TaskRow(task.parent, head)], runs[head := row], known[task.taskId := task], None)
  {
    var tasks', runs', known' := tasks[task.taskId := TaskRow(task.parent, head)], runs[head := row], known[task.taskId := task];
    forall t | t in known' ensures TaskHolds(tasks'[t], Lookup(runs', tasks'[t].headRunId), known'[t], t) {
      if t != task.taskId {
        assert TaskHolds(tasks[t], Lookup(runs, tasks[t].headRunId), known[t], t);
      }
    }
  }
}
