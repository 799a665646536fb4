/** A whole list of planner mutations against the tables and against the plain records. */
module SlotPlan {
  import opened Collections
  import opened SlotRecords
  import opened SlotSteps
  import opened Wrappers

  datatype Mutation =
    | SetTask(task: Task)
    | SetRun(run: Run, input: string)
    | SetCapacity(capacity: nat)
    | SetOperation(operation: Operation)
    | SetObservation(observation: Observation)
    | SetNotification(notification: Notification)

  // ---------------------------------------------------------------------------------- the plain store

  function Update(rs: Records, m: Mutation): Records {
    match m
    case SetTask(task) => UpdateTask(rs, task)
    case SetRun(run, input) => UpdateRun(rs, run, input)
    case SetCapacity(capacity) => rs.(capacity := capacity)
    case SetOperation(op) => UpdateOperation(rs, op)
    case SetObservation(obs) => UpdateObservation(rs, obs)
    case SetNotification(n) => UpdateNotification(rs, n)
  }

  /** Each mutation is one map update, in the order of the list. */
  function UpdateAll(rs: Records, ms: seq<Mutation>): Records {
    if ms == [] then rs else Update(UpdateAll(rs, ms[..|ms| - 1]), ms[|ms| - 1])
  }

  /** The same without the task and the run, which the tables take out of turn. */
  function UpdateRest(rs: Records, ms: seq<Mutation>): Records {
    if ms == [] then rs
    else
      var before := UpdateRest(rs, ms[..|ms| - 1]);
      var m := ms[|ms| - 1];
      if m.SetTask? || m.SetRun? then before else Update(before, m)
  }

  // ---------------------------------------------------------------------------------- well-formed lists

  predicate HasRun(ms: seq<Mutation>) {
    exists i :: 0 <= i < |ms| && ms[i].SetRun?
  }

  predicate HasTask(ms: seq<Mutation>) {
    exists i :: 0 <= i < |ms| && ms[i].SetTask?
  }

  function RunOf(ms: seq<Mutation>): (m: Mutation)
    requires HasRun(ms)
    ensures m.SetRun? && m in ms
  {
    if ms[0].SetRun? then ms[0] else RunOf(ms[1..])
  }

  function TaskOf(ms: seq<Mutation>): (m: Mutation)
    requires HasTask(ms)
    ensures m.SetTask? && m in ms
  {
    if ms[0].SetTask? then ms[0] else TaskOf(ms[1..])
  }

  /** At most one run and one task, so the first of its kind is the only one. */
  ghost predicate OneEach(ms: seq<Mutation>) {
    && (forall i, j | 0 <= i < |ms| && 0 <= j < |ms| && ms[i].SetRun? && ms[j].SetRun? :: i == j)
    && (forall i, j | 0 <= i < |ms| && 0 <= j < |ms| && ms[i].SetTask? && ms[j].SetTask? :: i == j)
  }

  /** No run of the task has this ordinal yet. */
  ghost predicate FreshOrdinal(runs: map<Id, RunRecord>, run: Run) {
    forall r | r in runs && runs[r].run.taskId == run.taskId :: runs[r].run.ordinal != run.ordinal
  }

  /** A known run keeps its identity; a new one comes with its task and takes an ordinal of its own. */
  ghost predicate RunPlanned(rs: Records, ms: seq<Mutation>) {
    HasRun(ms) ==>
      var run := RunOf(ms).run;
      && (HasTask(ms) ==> TaskOf(ms).task.taskId == run.taskId)
      && if run.runId in rs.runs then SameIdentity(rs.runs[run.runId], run, RunOf(ms).input) else HasTask(ms) && FreshOrdinal(rs.runs, run)
  }

  /** A known task keeps its parent; a new one comes with its first run. */
  ghost predicate TaskPlanned(rs: Records, ms: seq<Mutation>) {
    HasTask(ms) ==>
      var task := TaskOf(ms).task;
      if task.taskId in rs.tasks then rs.tasks[task.taskId].parent == task.parent
      else HasRun(ms) && RunOf(ms).run.runId !in rs.runs
  }

  function UpdateRunFirst(rs: Records, ms: seq<Mutation>): Records {
    if HasRun(ms) then UpdateRun(rs, RunOf(ms).run, RunOf(ms).input) else rs
  }

  function TasksAfter(rs: Records, ms: seq<Mutation>): map<Id, Task> {
    if HasTask(ms) then rs.tasks[TaskOf(ms).task.taskId := TaskOf(ms).task] else rs.tasks
  }

  /** What each other mutation needs of the records at its turn, `tasks` being those of the whole list. */
  ghost predicate Allowed(tasks: map<Id, Task>, rs: Records, m: Mutation) {
    match m
    case SetTask(_) => true
    case SetRun(_, _) => true
    case SetCapacity(_) => true
    case SetOperation(op) =>
      && op.runId in rs.runs && rs.runs[op.runId].run.taskId in tasks
      && op.parent == tasks[rs.runs[op.runId].run.taskId].parent
      && (KeyOf(op) in rs.operations ==> rs.operations[KeyOf(op)].runId == op.runId && rs.operations[KeyOf(op)].kind == op.kind)
    case SetObservation(obs) =>
      obs.runId in rs.runs && (obs.Retained? ==> ObservationKey(obs.runId, obs.index) !in rs.observations)
    case SetNotification(n) => n.runId in rs.runs && n.id == NotificationOf(n.runId)
  }

  ghost predicate RestPlanned(tasks: map<Id, Task>, rs: Records, ms: seq<Mutation>) {
    forall i | 0 <= i < |ms| :: Allowed(tasks, UpdateRest(rs, ms[..i]), ms[i])
  }

  ghost predicate WellFormed(rs: Records, ms: seq<Mutation>) {
    OneEach(ms) && RunPlanned(rs, ms) && TaskPlanned(rs, ms) && RestPlanned(TasksAfter(rs, ms), UpdateRunFirst(rs, ms), ms)
  }

  // ---------------------------------------------------------------------------------- turns do not matter

  lemma PrefixKinds(ms: seq<Mutation>, init: seq<Mutation>)
    requires ms != [] && init == ms[..|ms| - 1] && OneEach(ms)
    ensures OneEach(init)
    ensures HasRun(ms) <==> HasRun(init) || ms[|ms| - 1].SetRun?
    ensures HasTask(ms) <==> HasTask(init) || ms[|ms| - 1].SetTask?
    ensures HasRun(ms) ==> if ms[|ms| - 1].SetRun? then !HasRun(init) && RunOf(ms) == ms[|ms| - 1] else HasRun(init) && RunOf(ms) == RunOf(init)
    ensures HasTask(ms) ==> if ms[|ms| - 1].SetTask? then !HasTask(init) && TaskOf(ms) == ms[|ms| - 1] else HasTask(init) && TaskOf(ms) == TaskOf(init)
  {
    var last := |ms| - 1;
    if i :| 0 <= i < |ms| && ms[i].SetRun? { if i < last { assert init[i].SetRun?; } }
    if i :| 0 <= i < |ms| && ms[i].SetTask? { if i < last { assert init[i].SetTask?; } }
  }

  /** Taking the run first and the task last gives the records of the list taken in order. */
  lemma {:induction false} TurnsDoNotMatter(rs: Records, ms: seq<Mutation>)
    requires OneEach(ms)
    ensures UpdateAll(rs, ms) == UpdateRest(UpdateRunFirst(rs, ms), ms).(tasks := TasksAfter(rs, ms))
  {
    if ms != [] {
      var init, m := ms[..|ms| - 1], ms[|ms| - 1];
      PrefixKinds(ms, init);
      hide OneEach, HasRun, HasTask, RunOf, TaskOf;
      TurnsDoNotMatter(rs, init);
      if m.SetRun? {
        RestCommutes(rs, init, UpdateRun(rs, m.run, m.input).runs);
        RestKeepsOthers(rs, init);
      } else if m.SetTask? {
        RestKeepsOthers(UpdateRunFirst(rs, ms), init);
      } else {
        TaskCommutes(UpdateRest(UpdateRunFirst(rs, init), init), m, TasksAfter(rs, init));
      }
    }
  }

  lemma TaskCommutes(rs: Records, m: Mutation, tasks: map<Id, Task>)
    requires !m.SetTask?
    ensures Update(rs.(tasks := tasks), m) == Update(rs, m).(tasks := tasks)
  {
    hide Without;
  }

  lemma RunCommutes(rs: Records, m: Mutation, runs: map<Id, RunRecord>)
    requires !m.SetRun?
    ensures Update(rs.(runs := runs), m) == Update(rs, m).(runs := runs)
  {
    hide Without;
  }

  lemma OtherMapsKept(rs: Records, m: Mutation)
    ensures !m.SetTask? ==> Update(rs, m).tasks == rs.tasks
    ensures !m.SetRun? ==> Update(rs, m).runs == rs.runs
  {
    hide Without;
  }

  lemma {:induction false} RestKeepsOthers(rs: Records, ms: seq<Mutation>)
    ensures UpdateRest(rs, ms).tasks == rs.tasks && UpdateRest(rs, ms).runs == rs.runs
  {
    hide Update;
    if ms != [] {
      var init := ms[..|ms| - 1];
      RestKeepsOthers(rs, init);
      OtherMapsKept(UpdateRest(rs, init), ms[|ms| - 1]);
    }
  }

  lemma {:induction false} RestCommutes(rs: Records, ms: seq<Mutation>, runs: map<Id, RunRecord>)
    ensures UpdateRest(rs.(runs := runs), ms) == UpdateRest(rs, ms).(runs := runs)
  {
    hide Update;
    if ms != [] {
      var init, m := ms[..|ms| - 1], ms[|ms| - 1];
      RestCommutes(rs, init, runs);
      if !m.SetRun? && !m.SetTask? {
        RunCommutes(UpdateRest(rs, init), m, runs);
      }
    }
  }

  // ---------------------------------------------------------------------------------- the tables

  /** One mutation other than the run and the task, written straight to the tables. */
  function Put(db: Tables, m: Mutation): Tables
    requires m.SetObservation? && m.observation.Omitted? ==> ReadSlot(db, m.observation.runId).Some?
    requires m.SetNotification? ==> ReadSlot(db, m.notification.runId).Some?
  {
    match m
    case SetTask(_) => db
    case SetRun(_, _) => db
    case SetCapacity(capacity) => db.(capacity := capacity)
    case SetOperation(op) => PutOperation(db, op)
    case SetObservation(obs) => if obs.Omitted? then PutOmission(db, obs) else PutRetained(db, obs)
    case SetNotification(n) => PutNotification(db, n)
  }

  /** The task rows have the parents of these tasks. */
  ghost predicate ParentsHold(rows: map<Id, TaskRow>, tasks: map<Id, Task>) {
    forall t | t in tasks :: t in rows && rows[t].parent == tasks[t].parent
  }

  lemma HeldSlot(db: Tables, rs: Records, r: Id)
    requires RunsHold(db.runs, db.inputs, rs.runs, rs.notifications, rs.omissions)
    ensures r in rs.runs <==> r in db.runs
    ensures r in rs.runs ==> ReadSlot(db, r).Some? && db.runs[r].taskId == rs.runs[r].run.taskId
  {
    if r in rs.runs {
      assert RunHolds(db.runs[r], db.inputs[r], rs.runs[r], Lookup(rs.notifications, NotificationOf(r)), Lookup(rs.omissions, r), r);
    }
  }

  /** Every other mutation keeps the tables holding the records, each updated. */
  lemma PutHolds(db: Tables, rs: Records, tasks: map<Id, Task>, m: Mutation, pending: Option<Id>)
    requires Holds(db, rs, pending) && ParentsHold(db.tasks, tasks) && Allowed(tasks, rs, m) && !m.SetTask? && !m.SetRun?
    ensures m.SetObservation? && m.observation.Omitted? ==> ReadSlot(db, m.observation.runId).Some?
    ensures m.SetNotification? ==> ReadSlot(db, m.notification.runId).Some?
    ensures Holds(Put(db, m), Update(rs, m), pending)
    ensures Put(db, m).tasks == db.tasks
  {
    hide RunsHold, TasksHold, CriticalsHold, OperationsHold, NotificationsHold;
    match m
    case SetCapacity(_) =>
    case SetOperation(op) =>
      HeldSlot(db, rs, op.runId);
      if op.kind.Critical? { PutCriticalHolds(db, rs, op, pending); } else { PutOrdinaryHolds(db, rs, op, pending); }
    case SetObservation(obs) =>
      HeldSlot(db, rs, obs.runId);
      if obs.Omitted? { PutOmissionHolds(db, rs, obs, pending); } else { PutRetainedHolds(db, rs, obs, pending); }
    case SetNotification(n) =>
      HeldSlot(db, rs, n.runId);
      PutNotificationHolds(db, rs, n, pending);
  }

  /** The task left pending by the run's admission. */
  function PendingTask(rs: Records, ms: seq<Mutation>): Option<Id> {
    if HasTask(ms) && TaskOf(ms).task.taskId !in rs.tasks then Some(TaskOf(ms).task.taskId) else None
  }

  function PutRunFirst(db: Tables, ms: seq<Mutation>): Tables {
    if HasRun(ms) then PutRun(db, RunOf(ms).run, RunOf(ms).input, if HasTask(ms) then TaskOf(ms).task.parent else Parent("", "")) else db
  }

  lemma RunFirstHolds(db: Tables, rs: Records, ms: seq<Mutation>)
    requires Holds(db, rs, None) && RunPlanned(rs, ms) && TaskPlanned(rs, ms)
    ensures Holds(PutRunFirst(db, ms), UpdateRunFirst(rs, ms), PendingTask(rs, ms))
  {
    HeldParents(db.tasks, db.runs, rs.tasks);
    hide RunsHold, TasksHold, CriticalsHold, OperationsHold, NotificationsHold, PutRun, UpdateRun;
    if HasRun(ms) {
      var run, input := RunOf(ms).run, RunOf(ms).input;
      var parent := if HasTask(ms) then TaskOf(ms).task.parent else Parent("", "");
      HeldSlot(db, rs, run.runId);
      if run.runId in rs.runs {
        UpdateRunHolds(db, rs, run, input, parent);
      } else {
        AdmitHolds(db, rs, run, input, parent, PendingTask(rs, ms));
      }
    }
  }

  lemma RunFirstParents(db: Tables, rs: Records, ms: seq<Mutation>)
    requires Holds(db, rs, None) && RunPlanned(rs, ms) && TaskPlanned(rs, ms)
    ensures ParentsHold(PutRunFirst(db, ms).tasks, TasksAfter(rs, ms))
  {
    HeldParents(db.tasks, db.runs, rs.tasks);
    if HasRun(ms) {
      HeldSlotOf(db, rs, None, RunOf(ms).run.runId);
      PutRunTasks(db, RunOf(ms).run, RunOf(ms).input, if HasTask(ms) then TaskOf(ms).task.parent else Parent("", ""));
    }
    PlannedParents(db.tasks, PutRunFirst(db, ms).tasks, rs, ms, db.runs.Keys);
  }

  lemma PutRunTasks(db: Tables, run: Run, input: string, parent: Parent)
    requires run.runId in db.runs ==> ReadSlot(db, run.runId).Some?
    ensures PutRun(db, run, input, parent).tasks ==
            if run.runId in db.runs || run.taskId in db.tasks then db.tasks else db.tasks[run.taskId := TaskRow(parent, run.runId)]
  {
    if run.runId in db.runs { UpdateParts(db, run, input, parent); } else { AdmitParts(db, run, input, parent); }
  }

  lemma PlannedParents(rows: map<Id, TaskRow>, rows': map<Id, TaskRow>, rs: Records, ms: seq<Mutation>, runs: set<Id>)
    requires rows.Keys == rs.tasks.Keys && ParentsHold(rows, rs.tasks) && RunPlanned(rs, ms) && TaskPlanned(rs, ms) && runs == rs.runs.Keys
    requires rows' == if HasRun(ms) && RunOf(ms).run.runId !in runs && RunOf(ms).run.taskId !in rows && HasTask(ms)
                      then rows[RunOf(ms).run.taskId := TaskRow(TaskOf(ms).task.parent, RunOf(ms).run.runId)] else rows
    ensures ParentsHold(rows', TasksAfter(rs, ms))
  {
  }

  lemma HeldSlotOf(db: Tables, rs: Records, pending: Option<Id>, r: Id)
    requires Holds(db, rs, pending)
    ensures r in rs.runs <==> r in db.runs
    ensures r in rs.runs ==> ReadSlot(db, r).Some? && db.runs[r].taskId == rs.runs[r].run.taskId
    ensures db.runs.Keys == rs.runs.Keys
  {
    HeldSlot(db, rs, r);
  }

  lemma HeldParents(rows: map<Id, TaskRow>, runs: map<Id, RunRow>, tasks: map<Id, Task>)
    requires TasksHold(rows, runs, tasks, None)
    ensures rows.Keys == tasks.Keys && ParentsHold(rows, tasks)
  {
    forall t | t in tasks ensures rows[t].parent == tasks[t].parent {
      assert TaskHolds(rows[t], Lookup(runs, rows[t].headRunId), tasks[t], t);
    }
    assert forall t :: t in rows <==> t in tasks;
  }

  // ---------------------------------------------------------------------------------- the whole list

  predicate NeedsSlot(m: Mutation) {
    (m.SetObservation? && m.observation.Omitted?) || m.SetNotification?
  }

  function SlotOwner(m: Mutation): Id
    requires NeedsSlot(m)
  {
    if m.SetNotification? then m.notification.runId else m.observation.runId
  }

  /** The mutations other than the run and the task, in order; one without its slot fails. */
  function PutRest(db: Tables, ms: seq<Mutation>): Result<Tables, StoreError> {
    if ms == [] then Ok(db)
    else
      var before := PutRest(db, ms[..|ms| - 1]);
      var m := ms[|ms| - 1];
      if before.Err? then before
      else if NeedsSlot(m) && ReadSlot(before.value, SlotOwner(m)) == None then Err(StoreFailed)
      else Ok(Put(before.value, m))
  }

  /** The run whose slot takes the task: the one in the list, or the head the task already had. */
  function HeadOf(db: Tables, ms: seq<Mutation>): Option<Id>
    requires HasTask(ms)
  {
    if HasRun(ms) then Some(RunOf(ms).run.runId)
    else if TaskOf(ms).task.taskId in db.tasks then Some(db.tasks[TaskOf(ms).task.taskId].headRunId)
    else None
  }

  function PutTaskLast(db: Tables, ms: seq<Mutation>): Result<Tables, StoreError> {
    if !HasTask(ms) then Ok(db)
    else
      var head := HeadOf(db, ms);
      if head == None || ReadSlot(db, head.value) == None then Err(StoreFailed) else Ok(PutTask(db, TaskOf(ms).task, head.value))
  }

  /** `applyMutations`: run first, the rest in order, task last. */
  function Apply(db: Tables, ms: seq<Mutation>): Result<Tables, StoreError> {
    if HasRun(ms) && ReadSlot(db, RunOf(ms).run.runId) == None && !HasTask(ms) then Err(StoreFailed)
    else
      var rest := PutRest(PutRunFirst(db, ms), ms);
      if rest.Err? then rest else PutTaskLast(rest.value, ms)
  }

  lemma {:induction false} RestHolds(db: Tables, rs: Records, tasks: map<Id, Task>, ms: seq<Mutation>, pending: Option<Id>)
    requires Holds(db, rs, pending) && ParentsHold(db.tasks, tasks) && RestPlanned(tasks, rs, ms)
    ensures PutRest(db, ms).Ok?
    ensures Holds(PutRest(db, ms).value, UpdateRest(rs, ms), pending)
    ensures PutRest(db, ms).value.tasks == db.tasks
  {
    hide Holds;
    if ms != [] {
      var init, m := ms[..|ms| - 1], ms[|ms| - 1];
      forall i | 0 <= i < |init| ensures Allowed(tasks, UpdateRest(rs, init[..i]), init[i]) {
        assert init[..i] == ms[..i];
      }
      RestHolds(db, rs, tasks, init, pending);
      RestStep(PutRest(db, init).value, UpdateRest(rs, init), tasks, m, pending);
    }
  }

  lemma RestStep(db: Tables, rs: Records, tasks: map<Id, Task>, m: Mutation, pending: Option<Id>)
    requires Holds(db, rs, pending) && ParentsHold(db.tasks, tasks) && Allowed(tasks, rs, m)
    ensures NeedsSlot(m) ==> ReadSlot(db, SlotOwner(m)).Some?
    ensures Holds(Put(db, m), if m.SetTask? || m.SetRun? then rs else Update(rs, m), pending)
    ensures Put(db, m).tasks == db.tasks
  {
    hide Holds;
    if !m.SetTask? && !m.SetRun? {
      PutHolds(db, rs, tasks, m, pending);
    }
  }

  lemma TaskLastHolds(db: Tables, rs: Records, ms: seq<Mutation>, pending: Option<Id>)
    requires Holds(db, rs, pending) && HasTask(ms)
    requires var t := TaskOf(ms).task.taskId;
      && (pending == if t in rs.tasks then None else Some(t))
      && t in db.tasks && db.tasks[t].parent == TaskOf(ms).task.parent
      && (if HasRun(ms) then RunOf(ms).run.runId in rs.runs && rs.runs[RunOf(ms).run.runId].run.taskId == t else t in rs.tasks)
    ensures PutTaskLast(db, ms).Ok? && Holds(PutTaskLast(db, ms).value, UpdateTask(rs, TaskOf(ms).task), None)
  {
    hide Holds, PutTask, UpdateTask;
    var head := if HasRun(ms) then RunOf(ms).run.runId else db.tasks[TaskOf(ms).task.taskId].headRunId;
    if HasRun(ms) { HeldSlotOf(db, rs, pending, head); } else { HeldHead(db, rs, TaskOf(ms).task.taskId, pending); }
    PutTaskHolds(db, rs, TaskOf(ms).task, head, pending);
  }

  lemma HeldHead(db: Tables, rs: Records, t: Id, pending: Option<Id>)
    requires Holds(db, rs, pending) && t in rs.tasks
    ensures t in db.tasks && db.tasks[t].headRunId in db.runs
    ensures db.runs[db.tasks[t].headRunId].taskId == t && ReadSlot(db, db.tasks[t].headRunId).Some?
  {
    assert TaskHolds(db.tasks[t], Lookup(db.runs, db.tasks[t].headRunId), rs.tasks[t], t);
  }

  /**
   Refinement: a well-formed list of mutations succeeds on tables that hold the records, and leaves tables that hold
   the records with each mutation applied to its map.
   */
  lemma ApplyRefines(db: Tables, rs: Records, ms: seq<Mutation>)
    requires Holds(db, rs, None) && WellFormed(rs, ms)
    ensures Apply(db, ms).Ok? && Holds(Apply(db, ms).value, UpdateAll(rs, ms), None)
  {
    hide Holds;
    var first, records := PutRunFirst(db, ms), UpdateRunFirst(rs, ms);
    var tasks, pending := TasksAfter(rs, ms), PendingTask(rs, ms);
    RunFirstHolds(db, rs, ms);
    RunFirstParents(db, rs, ms);
    RestHolds(first, records, tasks, ms, pending);
    var rest := UpdateRest(records, ms);
    TurnsDoNotMatter(rs, ms);
    RestKeepsOthers(records, ms);
    FirstSlot(db, rs, ms);
    if HasTask(ms) {
      TaskLastHolds(PutRest(first, ms).value, rest, ms, pending);
    }
  }

  lemma FirstSlot(db: Tables, rs: Records, ms: seq<Mutation>)
    requires Holds(db, rs, None) && RunPlanned(rs, ms)
    ensures HasRun(ms) && !HasTask(ms) ==> ReadSlot(db, RunOf(ms).run.runId).Some?
  {
    if HasRun(ms) { HeldSlotOf(db, rs, None, RunOf(ms).run.runId); }
  }

  // ---------------------------------------------------------------------------------- every history

  function ApplyPlans(db: Tables, plans: seq<seq<Mutation>>): Result<Tables, StoreError> {
    if plans == [] then Ok(db)
    else
      var before := ApplyPlans(db, plans[..|plans| - 1]);
      if before.Err? then before else Apply(before.value, plans[|plans| - 1])
  }

  function UpdatePlans(rs: Records, plans: seq<seq<Mutation>>): Records {
    if plans == [] then rs else UpdateAll(UpdatePlans(rs, plans[..|plans| - 1]), plans[|plans| - 1])
  }

  ghost predicate AllWellFormed(rs: Records, plans: seq<seq<Mutation>>) {
    forall i | 0 <= i < |plans| :: WellFormed(UpdatePlans(rs, plans[..i]), plans[i])
  }

  lemma {:induction false} PlansHold(db: Tables, rs: Records, plans: seq<seq<Mutation>>)
    requires Holds(db, rs, None) && AllWellFormed(rs, plans)
    ensures ApplyPlans(db, plans).Ok? && Holds(ApplyPlans(db, plans).value, UpdatePlans(rs, plans), None)
  {
    hide Holds, WellFormed;
    if plans != [] {
      var init := plans[..|plans| - 1];
      forall i | 0 <= i < |init| ensures WellFormed(UpdatePlans(rs, init[..i]), init[i]) {
        assert init[..i] == plans[..i];
      }
      PlansHold(db, rs, init);
      ApplyRefines(ApplyPlans(db, init).value, UpdatePlans(rs, init), plans[|plans| - 1]);
    }
  }

  /** What the table's UNIQUE(task_id, ordinal) asks for. */
  ghost predicate OrdinalsDiffer(runs: map<Id, RunRecord>) {
    forall q, r | q in runs && r in runs && runs[q].run.taskId == runs[r].run.taskId && runs[q].run.ordinal == runs[r].run.ordinal :: q == r
  }

  /** No history of well-formed plans gives two runs of a task one ordinal. */
  lemma {:induction false} PlansKeepOrdinals(rs: Records, plans: seq<seq<Mutation>>)
    requires OrdinalsDiffer(rs.runs) && AllWellFormed(rs, plans)
    ensures OrdinalsDiffer(UpdatePlans(rs, plans).runs)
  {
    hide OrdinalsDiffer, UpdateRunFirst;
    if plans != [] {
      var init, ms := plans[..|plans| - 1], plans[|plans| - 1];
      forall i | 0 <= i < |init| ensures WellFormed(UpdatePlans(rs, init[..i]), init[i]) {
        assert init[..i] == plans[..i];
      }
      PlansKeepOrdinals(rs, init);
      var known := UpdatePlans(rs, init);
      TurnsDoNotMatter(known, ms);
      RestKeepsOthers(UpdateRunFirst(known, ms), ms);
      RunKeepsOrdinals(known, ms);
    }
  }

  lemma RunKeepsOrdinals(rs: Records, ms: seq<Mutation>)
    requires OrdinalsDiffer(rs.runs) && RunPlanned(rs, ms)
    ensures OrdinalsDiffer(UpdateRunFirst(rs, ms).runs)
  {
  }

  /** Every history of well-formed plans from the empty store reads back as the plain record store's history. */
  lemma StoreRefinesRecords(plans: seq<seq<Mutation>>)
    requires AllWellFormed(EMPTY_RECORDS, plans)
    ensures ApplyPlans(EMPTY_TABLES, plans).Ok?
    ensures Represents(ApplyPlans(EMPTY_TABLES, plans).value, UpdatePlans(EMPTY_RECORDS, plans))
  {
    EmptyStore();
    PlansHold(EMPTY_TABLES, EMPTY_RECORDS, plans);
    HeldIsRead(ApplyPlans(EMPTY_TABLES, plans).value, UpdatePlans(EMPTY_RECORDS, plans));
  }
}
