/**
 The reference store's tables as fields that one commit updates in place. Final slots are collected in a map first and
 written to the run rows at the end, so until then the rows and the map together are what the tables say.
 */
module SlotStore {
  import Capacity
  import opened SlotPlan
  import opened SlotRecords
  import opened SlotSteps
  import opened Wrappers

  // ---------------------------------------------------------------------------------- slots that are not written yet

  /** The tables as they will be once the collected slots are written. */
  function Overlay(db: Tables, slots: map<Id, FinalSlot>): Tables {
    db.(runs := map r | r in db.runs :: if r in slots then SlotRow(db.runs[r], slots[r]) else db.runs[r])
  }

  lemma NothingCollected(db: Tables)
    ensures Overlay(db, map[]) == db
  {
    assert (map r | r in db.runs :: db.runs[r]) == db.runs;
  }

  lemma Collect(db: Tables, slots: map<Id, FinalSlot>, r: Id, slot: FinalSlot)
    requires r in db.runs
    ensures Overlay(db, slots[r := slot]) == SetSlot(Overlay(db, slots), r, slot)
  {
    assert Overlay(db, slots[r := slot]).runs == SetSlot(Overlay(db, slots), r, slot).runs;
  }

  /** Only the run rows matter to the collected slots. */
  lemma CollectedOther(db: Tables, db': Tables, slots: map<Id, FinalSlot>)
    requires db'.runs == db.runs
    ensures Overlay(db', slots) == db'.(runs := Overlay(db, slots).runs)
    ensures Overlay(db, slots) == db.(runs := Overlay(db, slots).runs)
    ensures Overlay(db, slots).runs.Keys == db.runs.Keys
  {
  }

  lemma SlotTables(db: Tables, r: Id, slot: FinalSlot)
    ensures SetSlot(db, r, slot) == db.(runs := SetSlot(db, r, slot).runs)
  {
  }

  lemma CollectedOperation(db: Tables, slots: map<Id, FinalSlot>, op: Operation)
    ensures Overlay(PutOperation(db, op), slots) == PutOperation(Overlay(db, slots), op)
  {
    if op.kind.Critical? {
      assert Overlay(PutCritical(db, op), slots).runs == PutCritical(Overlay(db, slots), op).runs;
    }
  }

  /** Writing one collected slot to its row changes nothing of what the tables say. */
  lemma WriteCollected(db: Tables, slots: map<Id, FinalSlot>, rest: map<Id, FinalSlot>, r: Id)
    requires r in db.runs && r in slots && rest == slots - {r}
    ensures Overlay(SetSlot(db, r, slots[r]), rest) == Overlay(db, slots)
  {
    assert Overlay(SetSlot(db, r, slots[r]), rest).runs == Overlay(db, slots).runs;
  }

  // ---------------------------------------------------------------------------------- what a commit writes

  /** The runs whose slot a list of mutations rewrites, before its task finds its head. */
  function Touched(ms: seq<Mutation>): set<Id> {
    if ms == [] then {}
    else Touched(ms[..|ms| - 1]) + if NeedsSlot(ms[|ms| - 1]) then {SlotOwner(ms[|ms| - 1])} else {}
  }

  ghost function Written(db: Tables, ms: seq<Mutation>): set<Id>
    requires Apply(db, ms).Ok?
  {
    Touched(ms) + (if HasRun(ms) then {RunOf(ms).run.runId} else {})
    + (if HasTask(ms) then {HeadOf(PutRest(PutRunFirst(db, ms), ms).value, ms).value} else {})
  }

  /** A list that fails early fails as a whole. */
  lemma {:induction false} RestPrefix(db: Tables, ms: seq<Mutation>, i: nat)
    requires i <= |ms| && PutRest(db, ms).Ok?
    ensures PutRest(db, ms[..i]).Ok?
  {
    hide Put, ReadSlot;
    if i < |ms| {
      var init := ms[..|ms| - 1];
      assert init[..i] == ms[..i];
      RestPrefix(db, init, i);
    } else {
      assert ms[..i] == ms;
    }
  }

  // ---------------------------------------------------------------------------------- every text in its column

  /** A run's row: its operations have texts that fit, and so has its slot unless it was written. */
  ghost predicate RowFits(row: RunRow, finalFits: FinalSlot -> bool, operationFits: Operation -> bool, written: bool) {
    && (!written && row.final.Some? ==> finalFits(row.final.value))
    && forall kind | kind in row.critical :: operationFits(row.critical[kind])
  }

  /** Every operation kept, and every final slot outside these runs, has a text that fits its column. */
  ghost predicate FitOutside(db: Tables, finalFits: FinalSlot -> bool, operationFits: Operation -> bool, runs: set<Id>) {
    && (forall r | r in db.runs :: RowFits(db.runs[r], finalFits, operationFits, r in runs))
    && (forall key | key in db.operations :: operationFits(db.operations[key].data))
  }

  lemma SlotFits(db: Tables, r: Id, slot: FinalSlot, finalFits: FinalSlot -> bool, operationFits: Operation -> bool, runs: set<Id>)
    requires FitOutside(db, finalFits, operationFits, runs)
    ensures FitOutside(SetSlot(db, r, slot), finalFits, operationFits, runs + {r})
  {
    forall q | q in SetSlot(db, r, slot).runs ensures RowFits(SetSlot(db, r, slot).runs[q], finalFits, operationFits, q in runs + {r}) {
      assert RowFits(db.runs[q], finalFits, operationFits, q in runs);
    }
  }

  lemma ColumnsFit(db: Tables, run: Run, finalFits: FinalSlot -> bool, operationFits: Operation -> bool, runs: set<Id>)
    requires FitOutside(db, finalFits, operationFits, runs)
    ensures FitOutside(SetRunColumns(db, run), finalFits, operationFits, runs)
  {
    forall q | q in db.runs ensures RowFits(SetRunColumns(db, run).runs[q], finalFits, operationFits, q in runs) {
      assert RowFits(db.runs[q], finalFits, operationFits, q in runs);
    }
  }

  lemma AdmittedFits(db: Tables, run: Run, input: string, parent: Parent, finalFits: FinalSlot -> bool, operationFits: Operation -> bool, runs: set<Id>)
    requires FitOutside(db, finalFits, operationFits, runs)
    ensures FitOutside(AdmitRun(db, run, input, parent), finalFits, operationFits, runs)
  {
    var admitted := AdmitRun(db, run, input, parent).runs;
    forall q | q in admitted ensures RowFits(admitted[q], finalFits, operationFits, q in runs) {
      if q != run.runId { assert RowFits(db.runs[q], finalFits, operationFits, q in runs); }
    }
  }

  lemma RunFirstFits(db: Tables, ms: seq<Mutation>, finalFits: FinalSlot -> bool, operationFits: Operation -> bool)
    requires FitOutside(db, finalFits, operationFits, {})
    ensures FitOutside(PutRunFirst(db, ms), finalFits, operationFits, if HasRun(ms) then {RunOf(ms).run.runId} else {})
  {
    hide FitOutside, AdmitRun, SetRunColumns, SetSlot, WithRun, HasRun, HasTask;
    if HasRun(ms) {
      var run, prior := RunOf(ms).run, ReadSlot(db, RunOf(ms).run.runId);
      var parent := if HasTask(ms) then TaskOf(ms).task.parent else Parent("", "");
      AdmittedFits(db, run, RunOf(ms).input, parent, finalFits, operationFits, {});
      var admitted := if prior == None then AdmitRun(db, run, RunOf(ms).input, parent) else db;
      ColumnsFit(admitted, run, finalFits, operationFits, {});
      SlotFits(SetRunColumns(admitted, run), run.runId, WithRun(prior, run), finalFits, operationFits, {});
      assert {} + {run.runId} == {run.runId};
    }
  }

  lemma CriticalFits(db: Tables, op: Operation, finalFits: FinalSlot -> bool, operationFits: Operation -> bool, runs: set<Id>)
    requires FitOutside(db, finalFits, operationFits, runs) && op.kind.Critical? && operationFits(op)
    ensures FitOutside(PutCritical(db, op), finalFits, operationFits, runs)
  {
    var rows := PutCritical(db, op).runs;
    forall q | q in rows ensures RowFits(rows[q], finalFits, operationFits, q in runs) {
      CellFits(db.runs[q], op.kind.kind, op, finalFits, operationFits, q in runs);
    }
  }

  lemma CellFits(row: RunRow, kind: CriticalKind, op: Operation, finalFits: FinalSlot -> bool, operationFits: Operation -> bool, written: bool)
    requires RowFits(row, finalFits, operationFits, written) && operationFits(op)
    ensures RowFits(row.(critical := row.critical[kind := op]), finalFits, operationFits, written)
  {
  }

  lemma OrdinaryFits(db: Tables, op: Operation, finalFits: FinalSlot -> bool, operationFits: Operation -> bool, runs: set<Id>)
    requires FitOutside(db, finalFits, operationFits, runs) && operationFits(op)
    ensures FitOutside(PutOrdinary(db, op), finalFits, operationFits, runs)
  {
    hide RowFits;
  }

  lemma PutFits(db: Tables, m: Mutation, finalFits: FinalSlot -> bool, operationFits: Operation -> bool, runs: set<Id>)
    requires FitOutside(db, finalFits, operationFits, runs) && (m.SetOperation? ==> operationFits(m.operation))
    requires NeedsSlot(m) ==> ReadSlot(db, SlotOwner(m)).Some?
    ensures FitOutside(Put(db, m), finalFits, operationFits, runs + if NeedsSlot(m) then {SlotOwner(m)} else {})
  {
    hide RowFits, PutCritical, PutOrdinary, SetSlot;
    match m
    case SetTask(_) =>
    case SetRun(_, _) =>
    case SetCapacity(_) =>
    case SetOperation(op) =>
      if op.kind.Critical? { CriticalFits(db, op, finalFits, operationFits, runs); } else { OrdinaryFits(db, op, finalFits, operationFits, runs); }
    case SetObservation(obs) =>
      if obs.Omitted? { SlotFits(db, obs.runId, ReadSlot(db, obs.runId).value.(omission := Some(obs)), finalFits, operationFits, runs); }
    case SetNotification(n) =>
      SlotFits(db, n.runId, ReadSlot(db, n.runId).value.(notification := Some(n)), finalFits, operationFits, runs);
  }

  lemma {:induction false} RestFits(db: Tables, ms: seq<Mutation>, finalFits: FinalSlot -> bool, operationFits: Operation -> bool, runs: set<Id>)
    requires FitOutside(db, finalFits, operationFits, runs) && PutRest(db, ms).Ok?
    requires forall i | 0 <= i < |ms| && ms[i].SetOperation? :: operationFits(ms[i].operation)
    ensures FitOutside(PutRest(db, ms).value, finalFits, operationFits, runs + Touched(ms))
  {
    hide FitOutside, Put, ReadSlot;
    if ms == [] {
      assert runs + {} == runs;
    } else {
      var init, m := ms[..|ms| - 1], ms[|ms| - 1];
      RestFits(db, init, finalFits, operationFits, runs);
      PutFits(PutRest(db, init).value, m, finalFits, operationFits, runs + Touched(init));
      var own := if NeedsSlot(m) then {SlotOwner(m)} else {};
      assert runs + Touched(init) + own == runs + (Touched(init) + own);
    }
  }

  lemma TaskFits(db: Tables, ms: seq<Mutation>, finalFits: FinalSlot -> bool, operationFits: Operation -> bool, runs: set<Id>)
    requires FitOutside(db, finalFits, operationFits, runs) && PutTaskLast(db, ms).Ok?
    ensures FitOutside(PutTaskLast(db, ms).value, finalFits, operationFits, runs + if HasTask(ms) then {HeadOf(db, ms).value} else {})
  {
    hide RowFits, SetSlot, HasTask, HasRun, HeadOf;
    if HasTask(ms) {
      var head := HeadOf(db, ms).value;
      SlotFits(db, head, ReadSlot(db, head).value.(task := Some(TaskOf(ms).task)), finalFits, operationFits, runs);
    } else {
      assert runs + {} == runs;
    }
  }

  /** What a list writes is all that has to fit again. */
  lemma ApplyFits(db: Tables, ms: seq<Mutation>, finalFits: FinalSlot -> bool, operationFits: Operation -> bool)
    requires FitOutside(db, finalFits, operationFits, {}) && Apply(db, ms).Ok?
    requires forall i | 0 <= i < |ms| && ms[i].SetOperation? :: operationFits(ms[i].operation)
    ensures FitOutside(Apply(db, ms).value, finalFits, operationFits, Written(db, ms))
  {
    hide FitOutside, PutRunFirst, PutRest, PutTaskLast, HeadOf;
    var run := if HasRun(ms) then {RunOf(ms).run.runId} else {};
    RunFirstFits(db, ms, finalFits, operationFits);
    RestFits(PutRunFirst(db, ms), ms, finalFits, operationFits, run);
    TaskFits(PutRest(PutRunFirst(db, ms), ms).value, ms, finalFits, operationFits, run + Touched(ms));
    assert run + Touched(ms) == Touched(ms) + run;
  }

  // ---------------------------------------------------------------------------------- what a commit may allocate

  /** The commands whose kind decides how their pages are accounted. */
  datatype Command = Admit | DispatchIntent(kind: OperationKind) | RequestState(resolutionIntended: bool) | Observe | OtherCommand

  /** `ordinaryWrite`: new pages, rather than pages assigned when the run was admitted. */
  predicate OrdinaryWrite(command: Command, ms: seq<Mutation>) {
    match command
    case Admit => true
    case DispatchIntent(kind) => !kind.Critical?
    case RequestState(resolutionIntended) => resolutionIntended
    case Observe => exists i :: 0 <= i < |ms| && ms[i].SetObservation? && !ms[i].observation.Omitted?
    case OtherCommand => false
  }

  predicate HasCapacity(ms: seq<Mutation>) {
    exists i :: 0 <= i < |ms| && ms[i].SetCapacity?
  }

  /** The first capacity mutation: its value is the bytes the new accounting reserves. */
  function CapacityOf(ms: seq<Mutation>): nat
    requires HasCapacity(ms)
  {
    if ms[0].SetCapacity? then ms[0].capacity else CapacityOf(ms[1..])
  }

  function DataBytes(ms: seq<Mutation>, size: Mutation -> nat): nat {
    if ms == [] then 40_960 else DataBytes(ms[..|ms| - 1], size) + size(ms[|ms| - 1]) + 4_096
  }

  function Operations(ms: seq<Mutation>): nat {
    if ms == [] then 0 else Operations(ms[..|ms| - 1]) + if ms[|ms| - 1].SetOperation? then 1 else 0
  }

  /** The commit as its capacity checks see it: an ordinary one allocates, any other was assigned its bytes. */
  function Accounted(command: Command, ms: seq<Mutation>, size: Mutation -> nat, left: Capacity.Disk): Capacity.Commit
    requires HasCapacity(ms)
  {
    var ordinary := OrdinaryWrite(command, ms);
    Capacity.Commit(CapacityOf(ms), if ordinary then DataBytes(ms, size) else 0,
      if ordinary then 0 else 32_768 + Operations(ms) * 2_048, left)
  }

  class ReferenceStore {
    var tasks: map<Id, TaskRow>
    var runs: map<Id, RunRow>
    var inputs: map<Id, string>
    var operations: map<OperationKey, OperationRow>
    var critical: map<CriticalId, CriticalRow>
    var observations: map<ObservationKey, Observation>
    var notifications: map<NotificationId, NotificationRow>
    var capacity: nat
    /** Whether the canonical text fits its 32,768 or 2,048 bytes. */
    const finalFits: FinalSlot -> bool
    const operationFits: Operation -> bool
    /** `delegationDataBytes` of a mutation. */
    const size: Mutation -> nat

    function Contents(): Tables
      reads this
    {
      Tables(tasks, runs, inputs, operations, critical, observations, notifications, capacity)
    }

    constructor (finalFits: FinalSlot -> bool, operationFits: Operation -> bool, size: Mutation -> nat)
      ensures Contents() == EMPTY_TABLES && this.finalFits == finalFits && this.operationFits == operationFits && this.size == size
    {
      tasks, runs, inputs, operations, critical, observations, notifications, capacity :=
        map[], map[], map[], map[], map[], map[], map[], 0;
      this.finalFits, this.operationFits, this.size := finalFits, operationFits, size;
    }

    predicate OperationsFit(ms: seq<Mutation>) {
      forall i | 0 <= i < |ms| && ms[i].SetOperation? :: operationFits(ms[i].operation)
    }

    /** Whether every slot and every operation the list writes fits its column. */
    ghost predicate AllFit(db: Tables, ms: seq<Mutation>) {
      && OperationsFit(ms)
      && Apply(db, ms).Ok?
      && forall r | r in Written(db, ms) :: ReadSlot(Apply(db, ms).value, r).Some? && finalFits(ReadSlot(Apply(db, ms).value, r).value)
    }

    method InsertRun(run: Run, input: string, parent: Parent)
      modifies this
      ensures Contents() == AdmitRun(old(Contents()), run, input, parent)
    {
      if run.taskId !in tasks {
        tasks := tasks[run.taskId := TaskRow(parent, run.runId)];
      }
      runs := runs[run.runId := RunRow(run.taskId, run.ordinal, run.createdAt, run.phase, run.ownerEpoch, true, None, map[])];
      inputs := inputs[run.runId := input];
      var kinds := [Cancel, Interrupt, SessionClose, BindingCleanup];
      for i := 0 to 4
        invariant kinds == [Cancel, Interrupt, SessionClose, BindingCleanup]
        invariant tasks == AdmitRun(old(Contents()), run, input, parent).tasks
        invariant runs == AdmitRun(old(Contents()), run, input, parent).runs
        invariant inputs == old(inputs)[run.runId := input] && operations == old(operations)
        invariant observations == old(observations) && notifications == old(notifications) && capacity == old(capacity)
        invariant i == 0 ==> critical == old(critical)
        invariant i == 1 ==> critical == old(critical)[CriticalId(run.runId, Cancel) := CriticalRow(parent, None)]
        invariant i == 2 ==> critical == old(critical)[CriticalId(run.runId, Cancel) := CriticalRow(parent, None)]
                                                      [CriticalId(run.runId, Interrupt) := CriticalRow(parent, None)]
        invariant i == 3 ==> critical == old(critical)[CriticalId(run.runId, Cancel) := CriticalRow(parent, None)]
                                                      [CriticalId(run.runId, Interrupt) := CriticalRow(parent, None)]
                                                      [CriticalId(run.runId, SessionClose) := CriticalRow(parent, None)]
        invariant i == 4 ==> critical == AdmitRun(old(Contents()), run, input, parent).critical
      {
        critical := critical[CriticalId(run.runId, kinds[i]) := CriticalRow(parent, None)];
      }
      notifications := notifications[NotificationOf(run.runId) := NotificationRow(run.runId, None, None, None, None, false)];
    }

    method UpdateRunColumns(run: Run)
      modifies `runs
      ensures Contents() == SetRunColumns(old(Contents()), run)
    {
      if run.runId in runs {
        runs := runs[run.runId := runs[run.runId].(phase := run.phase, ownerEpoch := run.ownerEpoch, unsettled := run.phase != Settled)];
      }
    }

    method WriteOperation(op: Operation)
      modifies `runs, `critical, `operations
      ensures Contents() == PutOperation(old(Contents()), op) && runs.Keys == old(runs.Keys)
    {
      match op.kind
      case Critical(kind) =>
        if op.runId in runs {
          runs := runs[op.runId := runs[op.runId].(critical := runs[op.runId].critical[kind := op])];
        }
        var c := CriticalId(op.runId, kind);
        if c in critical {
          critical := critical[c := critical[c].(operationId := Some(op.operationId))];
        }
      case Ordinary(_) =>
        var runId := if KeyOf(op) in operations then operations[KeyOf(op)].runId else op.runId;
        operations := operations[KeyOf(op) := OperationRow(runId, op)];
    }

    method UpdateNotificationColumns(n: Notification)
      modifies `notifications
      ensures Contents() == SetNotificationColumns(old(Contents()), n)
    {
      if n.id in notifications {
        notifications := notifications[n.id := notifications[n.id].(
            state := Some(n.state), ownerEpoch := n.claimEpoch, retryAt := n.retryAt,
            expiresAt := Some(n.expiresAt), candidate := n.state == Pending || n.state == Claimed)];
      }
    }

    method WriteSlot(r: Id, slot: FinalSlot)
      requires r in runs
      modifies `runs
      ensures Contents() == SetSlot(old(Contents()), r, slot) && runs.Keys == old(runs.Keys)
    {
      runs := runs[r := runs[r].(final := Some(slot))];
    }

    /** Writes the collected slots to their rows, until one does not fit. */
    method WriteSlots(slots: map<Id, FinalSlot>) returns (ok: bool)
      requires slots.Keys <= runs.Keys
      modifies `runs
      ensures ok <==> forall r | r in slots :: finalFits(slots[r])
      ensures ok ==> Contents() == Overlay(old(Contents()), slots)
    {
      hide Overlay, SetSlot;
      var left := slots;
      while left != map[]
        invariant left.Keys <= slots.Keys <= Contents().runs.Keys
        invariant forall r | r in left :: left[r] == slots[r]
        invariant forall r | r in slots && r !in left :: finalFits(slots[r])
        invariant Overlay(Contents(), left) == Overlay(old(Contents()), slots)
        decreases |left|
      {
        var r :| r in left;
        if !finalFits(slots[r]) {
          return false;
        }
        WriteCollected(Contents(), left, left - {r}, r);
        WriteSlot(r, left[r]);
        left := left - {r};
      }
      NothingCollected(Contents());
      ok := true;
    }

    /** One mutation other than the run and the task; false when it needs a slot that is missing or does not fit. */
    method ApplyOne(m: Mutation, slots: map<Id, FinalSlot>) returns (ok: bool, slots': map<Id, FinalSlot>)
      requires slots.Keys <= Contents().runs.Keys
      modifies this
      ensures Contents().runs.Keys == old(Contents()).runs.Keys
      ensures ok <==> (m.SetOperation? ==> operationFits(m.operation))
                      && (NeedsSlot(m) ==> ReadSlot(Overlay(old(Contents()), slots), SlotOwner(m)).Some?)
      ensures ok ==> slots'.Keys == slots.Keys + (if NeedsSlot(m) then {SlotOwner(m)} else {}) <= Contents().runs.Keys
      ensures ok ==> Overlay(Contents(), slots') == Put(Overlay(old(Contents()), slots), m)
    {
      hide Overlay, PutOperation;
      ghost var db := Contents();
      ok, slots' := true, slots;
      CollectedOther(db, db, slots);
      match m
      case SetTask(_) =>
      case SetRun(_, _) =>
      case SetCapacity(value) =>
        capacity := value;
        CollectedOther(db, Contents(), slots);
      case SetOperation(op) =>
        ok := operationFits(op);
        if ok {
          CollectedOperation(db, slots, op);
          WriteOperation(op);
        }
      case SetObservation(obs) =>
        if obs.Omitted? {
          ok, slots' := CollectOmission(obs, slots);
        } else {
          observations := observations[ObservationKey(obs.runId, obs.index) := obs];
          CollectedOther(db, Contents(), slots);
        }
      case SetNotification(n) =>
        ok, slots' := CollectNotification(n, slots);
    }

    method CollectOmission(obs: Observation, slots: map<Id, FinalSlot>) returns (ok: bool, slots': map<Id, FinalSlot>)
      requires slots.Keys <= Contents().runs.Keys
      ensures ok <==> ReadSlot(Overlay(Contents(), slots), obs.runId).Some?
      ensures ok ==> slots'.Keys == slots.Keys + {obs.runId} <= Contents().runs.Keys
      ensures ok ==> Overlay(Contents(), slots') == PutOmission(Overlay(Contents(), slots), obs)
    {
      hide Overlay, SetSlot;
      var slot := SlotAt(slots, obs.runId);
      ok, slots' := slot.Some?, slots;
      if ok {
        CollectedOther(Contents(), Contents(), slots);
        Collect(Contents(), slots, obs.runId, slot.value.(omission := Some(obs)));
        slots' := slots[obs.runId := slot.value.(omission := Some(obs))];
      }
    }

    method CollectNotification(n: Notification, slots: map<Id, FinalSlot>) returns (ok: bool, slots': map<Id, FinalSlot>)
      requires slots.Keys <= Contents().runs.Keys
      modifies `notifications
      ensures ok <==> ReadSlot(Overlay(old(Contents()), slots), n.runId).Some?
      ensures ok ==> slots'.Keys == slots.Keys + {n.runId} <= Contents().runs.Keys
      ensures ok ==> Overlay(Contents(), slots') == PutNotification(Overlay(old(Contents()), slots), n)
    {
      hide Overlay;
      var slot := SlotAt(slots, n.runId);
      ok, slots' := slot.Some?, slots;
      if ok {
        ghost var db := Contents();
        CollectedOther(db, db, slots);
        Collect(db, slots, n.runId, slot.value.(notification := Some(n)));
        slots' := slots[n.runId := slot.value.(notification := Some(n))];
        CollectedOther(db, db, slots');
        UpdateNotificationColumns(n);
        CollectedOther(db, Contents(), slots');
      }
    }

    /** A collected slot, or else the one in the run's row. */
    function SlotAt(slots: map<Id, FinalSlot>, r: Id): (slot: Option<FinalSlot>)
      requires slots.Keys <= Contents().runs.Keys
      reads this
      ensures slot == ReadSlot(Overlay(Contents(), slots), r)
    {
      if r in slots then Some(slots[r]) else if r in runs then runs[r].final else None
    }

    /** The run goes first: its rows when it is new, its slot collected, its columns updated. */
    method ApplyRun(ms: seq<Mutation>) returns (ok: bool, slots: map<Id, FinalSlot>)
      modifies this
      ensures ok <==> (HasRun(ms) && ReadSlot(old(Contents()), RunOf(ms).run.runId) == None ==> HasTask(ms))
      ensures ok ==> slots.Keys == (if HasRun(ms) then {RunOf(ms).run.runId} else {}) <= Contents().runs.Keys
      ensures ok ==> Overlay(Contents(), slots) == PutRunFirst(old(Contents()), ms)
    {
      ok, slots := true, map[];
      if HasRun(ms) {
        var m := RunOf(ms);
        var prior := if m.run.runId in runs then runs[m.run.runId].final else None;
        if prior == None {
          if !HasTask(ms) {
            return false, slots;
          }
          InsertRun(m.run, m.input, TaskOf(ms).task.parent);
        }
        slots := map[m.run.runId := SlotSteps.WithRun(prior, m.run)];
        UpdateRunColumns(m.run);
        Collect(Contents(), map[], m.run.runId, SlotSteps.WithRun(prior, m.run));
      }
      NothingCollected(Contents());
    }

    /** The task goes last, into the slot of its head run. */
    method ApplyTask(ms: seq<Mutation>, slots: map<Id, FinalSlot>) returns (ok: bool, slots': map<Id, FinalSlot>)
      requires slots.Keys <= Contents().runs.Keys
      modifies `tasks
      ensures ok <==> PutTaskLast(Overlay(old(Contents()), slots), ms).Ok?
      ensures ok ==> slots'.Keys == slots.Keys + (if HasTask(ms) then {HeadOf(Overlay(old(Contents()), slots), ms).value} else {}) <= Contents().runs.Keys
      ensures ok ==> PutTaskLast(Overlay(old(Contents()), slots), ms) == Ok(Overlay(Contents(), slots'))
    {
      hide Overlay, PutTask, ReadSlot;
      CollectedOther(Contents(), Contents(), slots);
      ok, slots' := true, slots;
      if HasTask(ms) {
        var task := TaskOf(ms).task;
        var retained := if task.taskId in tasks then Some(tasks[task.taskId].headRunId) else None;
        var head := if HasRun(ms) then Some(RunOf(ms).run.runId) else retained;
        if head == None || SlotAt(slots, head.value) == None {
          return false, slots;
        }
        slots' := CollectTask(task, head.value, slots);
      }
    }

    method CollectTask(task: Task, head: Id, slots: map<Id, FinalSlot>) returns (slots': map<Id, FinalSlot>)
      requires slots.Keys <= Contents().runs.Keys && ReadSlot(Overlay(Contents(), slots), head).Some?
      modifies `tasks
      ensures slots'.Keys == slots.Keys + {head} <= Contents().runs.Keys
      ensures Overlay(Contents(), slots') == PutTask(Overlay(old(Contents()), slots), task, head)
    {
      hide Overlay, SetSlot;
      ghost var db := Contents();
      var slot := SlotAt(slots, head).value.(task := Some(task));
      CollectedOther(db, db, slots);
      Collect(db, slots, head, slot);
      slots' := slots[head := slot];
      CollectedOther(db, db, slots');
      if task.taskId in tasks {
        tasks := tasks[task.taskId := tasks[task.taskId].(headRunId := head)];
      }
      CollectedOther(db, Contents(), slots');
      SlotTables(Overlay(db, slots), head, slot);
    }

    /** The mutations other than the run and the task, in order, until one fails. */
    method ApplyRest(ms: seq<Mutation>, slots: map<Id, FinalSlot>) returns (ok: bool, slots': map<Id, FinalSlot>)
      requires slots.Keys <= Contents().runs.Keys
      modifies this
      ensures ok <==> OperationsFit(ms) && PutRest(Overlay(old(Contents()), slots), ms).Ok?
      ensures ok ==> slots'.Keys == slots.Keys + Touched(ms) <= Contents().runs.Keys
      ensures ok ==> PutRest(Overlay(old(Contents()), slots), ms) == Ok(Overlay(Contents(), slots'))
    {
      hide Overlay, Put, ReadSlot;
      ghost var first := Overlay(Contents(), slots);
      ok, slots' := true, slots;
      for i := 0 to |ms|
        invariant ok
        invariant slots'.Keys == slots.Keys + Touched(ms[..i]) <= Contents().runs.Keys
        invariant PutRest(first, ms[..i]) == Ok(Overlay(Contents(), slots'))
        invariant OperationsFit(ms[..i])
      {
        assert ms[..i + 1][..i] == ms[..i];
        ok, slots' := ApplyOne(ms[i], slots');
        if !ok {
          if PutRest(first, ms).Ok? { RestPrefix(first, ms, i + 1); }
          return;
        }
      }
      assert ms[..|ms|] == ms;
    }

    /** `applyMutations`. */
    method ApplyMutations(ms: seq<Mutation>) returns (ok: bool)
      modifies this
      ensures ok <==> AllFit(old(Contents()), ms)
      ensures ok ==> Apply(old(Contents()), ms) == Ok(Contents())
    {
      hide Overlay, PutRest, PutRunFirst, PutTaskLast, ReadSlot, HeadOf, Touched, OperationsFit;
      var slots;
      ok, slots := ApplyRun(ms);
      if !ok { return; }
      ok, slots := ApplyRest(ms, slots);
      if !ok { return; }
      ok, slots := ApplyTask(ms, slots);
      if !ok { return; }
      AllCollected(Contents(), slots);
      ok := WriteSlots(slots);
    }

    /** Every slot and operation in the tables has a text that fits its column. */
    ghost predicate TextsFit()
      reads this
    {
      FitOutside(Contents(), finalFits, operationFits, {})
    }

    /** What a commit needs: nothing to do, or accounting, capacity before and after, and room in every column it writes. */
    ghost predicate CanCommit(db: Tables, command: Command, ms: seq<Mutation>, disk: Capacity.Disk, left: Capacity.Disk, block: Capacity.Block) {
      ms == [] || (HasCapacity(ms) && Capacity.Kept(disk, block, Accounted(command, ms, size, left)) && AllFit(db, ms))
    }

    /** One transaction on a disk that the writes leave as `left`: everything is written, or nothing is. */
    method Commit(command: Command, ms: seq<Mutation>, disk: Capacity.Disk, left: Capacity.Disk, block: Capacity.Block) returns (ok: bool)
      modifies this
      ensures ok <==> CanCommit(old(Contents()), command, ms, disk, left, block)
      ensures if ok then Apply(old(Contents()), ms) == Ok(Contents()) else Contents() == old(Contents())
      ensures old(TextsFit()) ==> TextsFit()
    {
      hide Apply, Capacity.Passes, AllFit, FitOutside, OrdinaryWrite;
      if ms == [] {
        NothingToApply(Contents());
        return true;
      }
      if !HasCapacity(ms) {
        return false;
      }
      var commit := Accounted(command, ms, size, left);
      if !Capacity.Passes(disk, block, commit.reserved, commit.ordinaryBytes, commit.assignedBytes) {
        return false;
      }
      var before := Contents();
      ok := ApplyMutations(ms);
      if ok {
        WrittenFits(before, ms);
        ok := Capacity.Passes(left, block, commit.reserved, 0, commit.assignedBytes);
      }
      if !ok {
        tasks, runs, inputs, operations := before.tasks, before.runs, before.inputs, before.operations;
        critical, observations, notifications, capacity := before.critical, before.observations, before.notifications, before.capacity;
      }
    }

    lemma WrittenFits(db: Tables, ms: seq<Mutation>)
      requires AllFit(db, ms)
      ensures FitOutside(db, finalFits, operationFits, {}) ==> FitOutside(Apply(db, ms).value, finalFits, operationFits, {})
    {
      hide Apply, Written, Touched;
      if FitOutside(db, finalFits, operationFits, {}) {
        ApplyFits(db, ms, finalFits, operationFits);
      }
    }
  }

  lemma NothingToApply(db: Tables)
    ensures Apply(db, []) == Ok(db)
  {
  }

  lemma AllCollected(db: Tables, slots: map<Id, FinalSlot>)
    requires slots.Keys <= db.runs.Keys
    ensures forall r | r in slots :: ReadSlot(Overlay(db, slots), r) == Some(slots[r])
  {
  }
}
