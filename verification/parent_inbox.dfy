/**
 The parent inbox as an object: `ParentInboxContext`, acceptance and the dispatch page. Every method is proved to do a
 sequence of the steps that every run of the inbox was proved about.
 */
module ParentInboxes {
  import opened Collections
  import opened InboxRows
  import opened InboxSteps
  import opened OwnerHandle
  import opened ReferenceDatabases
  import opened Wrappers

  const RECOVERY_BATCH := 100

  datatype Position = Position(store: Store, handle: Handle)

  function StepTo(p: Position, action: Action): Position {
    var o := Step(p.store, p.handle, action);
    Position(o.store, o.handle)
  }

  ghost function Perform(p: Position, trace: seq<Action>): Position {
    if trace == [] then p else StepTo(Perform(p, trace[..|trace| - 1]), trace[|trace| - 1])
  }

  lemma PerformNone(p: Position)
    ensures Perform(p, []) == p
  {
  }

  lemma PerformOne(p: Position, trace: seq<Action>, action: Action)
    ensures Perform(p, trace + [action]) == StepTo(Perform(p, trace), action)
  {
    assert (trace + [action])[..|trace|] == trace;
  }

  lemma PerformFirst(p: Position, action: Action)
    ensures Perform(p, [action]) == StepTo(p, action)
  {
    assert [] + [action] == [action];
    PerformOne(p, [], action);
  }

  lemma {:induction false} PerformJoin(p: Position, first: seq<Action>, second: seq<Action>)
    ensures Perform(p, first + second) == Perform(Perform(p, first), second)
  {
    if second == [] {
      assert first + second == first;
    } else {
      var init := second[..|second| - 1];
      PerformJoin(p, first, init);
      assert first + second == (first + init) + [second[|second| - 1]];
      PerformOne(p, first + init, second[|second| - 1]);
    }
  }

  // ---------------------------------------------------------------------------------- picking a recovery batch

  function InboxIds(rows: map<Key, Row>, keys: set<Key>): set<nat>
    requires keys <= rows.Keys
  {
    set k | k in keys :: rows[k].inboxId
  }

  /** `ORDER BY inbox_id LIMIT 100`: the smallest ids, as many as the batch takes. */
  ghost predicate Smallest(batch: set<nat>, ids: set<nat>) {
    && batch <= ids
    && (forall i, j | i in batch && j in ids - batch :: i < j)
    && (|batch| < RECOVERY_BATCH ==> batch == ids)
  }

  lemma {:induction false} LeastOf(ids: set<nat>) returns (least: nat)
    requires ids != {}
    ensures least in ids && forall i | i in ids :: least <= i
    decreases |ids|
  {
    least :| least in ids;
    var rest := ids - {least};
    assert ids == rest + {least};
    if rest != {} {
      var other := LeastOf(rest);
      if other < least { least := other; }
    }
  }

  method PickBatch(ids: set<nat>) returns (batch: set<nat>)
    ensures Smallest(batch, ids) && |batch| <= RECOVERY_BATCH && (ids != {} ==> batch != {})
  {
    batch := {};
    var rest := ids;
    while rest != {} && |batch| < RECOVERY_BATCH
      invariant batch + rest == ids && batch !! rest && |batch| <= RECOVERY_BATCH
      invariant forall i, j | i in batch && j in rest :: i < j
      invariant ids != {} && batch == {} ==> rest != {}
      decreases |rest|
    {
      ghost var found := LeastOf(rest);
      var least :| least in rest && forall i | i in rest :: least <= i;
      batch := batch + {least};
      rest := rest - {least};
    }
  }

  /** What a turn meets outside: host answers, lease checks, clock readings and the fate of each transaction. */
  datatype Turn = Turn(readEnv: Env, considerEnv: Env, destination: Option<Destination>, now: int, granted: bool,
                       intentEnv: Env, intentCurrent: bool, dispatchId: nat, callEnv: Env, callCurrent: bool,
                       response: Response, answerEnv: Env, giveUpEnv: Env, at: int, released: bool, releasedAgain: bool)

  /** The steps of one turn; each does nothing unless the one before it leads there. */
  function TurnSteps(turn: Turn): seq<Action> {
    [Consider(turn.considerEnv, turn.destination, turn.now), TakeTurn(turn.granted),
     RecordIntent(turn.intentEnv, turn.intentCurrent, turn.dispatchId), CallParent(turn.callEnv, turn.callCurrent),
     ParentAnswered(turn.answerEnv, turn.response, turn.at), GiveUp(turn.giveUpEnv, turn.at),
     ReleaseTurn(turn.released), ReleaseTurn(turn.releasedAgain)]
  }

  lemma TurnUnrolled(p: Position, turn: Turn)
    ensures Perform(p, TurnSteps(turn)) ==
            StepTo(StepTo(StepTo(StepTo(StepTo(StepTo(StepTo(StepTo(p,
              Consider(turn.considerEnv, turn.destination, turn.now)), TakeTurn(turn.granted)),
              RecordIntent(turn.intentEnv, turn.intentCurrent, turn.dispatchId)), CallParent(turn.callEnv, turn.callCurrent)),
              ParentAnswered(turn.answerEnv, turn.response, turn.at)), GiveUp(turn.giveUpEnv, turn.at)),
              ReleaseTurn(turn.released)), ReleaseTurn(turn.releasedAgain))
  {
    hide Step, StepTo, Perform;
    var t := TurnSteps(turn);
    assert t[..1] == [t[0]];
    PerformFirst(p, t[0]);
    PerformUpTo(p, t, 1);
    PerformUpTo(p, t, 2);
    PerformUpTo(p, t, 3);
    PerformUpTo(p, t, 4);
    PerformUpTo(p, t, 5);
    PerformUpTo(p, t, 6);
    PerformUpTo(p, t, 7);
    assert t[..8] == t;
  }

  lemma PerformUpTo(p: Position, trace: seq<Action>, i: nat)
    requires i < |trace|
    ensures Perform(p, trace[..i + 1]) == StepTo(Perform(p, trace[..i]), trace[i])
  {
    assert trace[..i + 1] == trace[..i] + [trace[i]];
    PerformOne(p, trace[..i], trace[i]);
  }

  predicate PhaseIs(p: Position, phase: Phase) {
    At(p.handle, phase)
  }

  /** With no turn in hand the rest of a turn does nothing. */
  lemma ReadyStays(p: Position, turn: Turn)
    requires PhaseIs(p, Ready)
    ensures StepTo(p, TakeTurn(turn.granted)) == p
    ensures StepTo(p, RecordIntent(turn.intentEnv, turn.intentCurrent, turn.dispatchId)) == p
    ensures StepTo(p, CallParent(turn.callEnv, turn.callCurrent)) == p
    ensures StepTo(p, ParentAnswered(turn.answerEnv, turn.response, turn.at)) == p
    ensures StepTo(p, GiveUp(turn.giveUpEnv, turn.at)) == p
    ensures StepTo(p, ReleaseTurn(turn.released)) == p && StepTo(p, ReleaseTurn(turn.releasedAgain)) == p
  {
  }

  lemma ReleasingSkips(p: Position, turn: Turn)
    requires PhaseIs(p, Releasing(0))
    ensures StepTo(p, CallParent(turn.callEnv, turn.callCurrent)) == p
    ensures StepTo(p, ParentAnswered(turn.answerEnv, turn.response, turn.at)) == p
    ensures StepTo(p, GiveUp(turn.giveUpEnv, turn.at)) == p
  {
  }

  lemma SettlingSkips(p: Position, turn: Turn)
    requires p.handle.inbox.Some? && p.handle.inbox.value.phase.Settling?
    ensures StepTo(p, ParentAnswered(turn.answerEnv, turn.response, turn.at)) == p
  {
  }

  datatype ReceiptState = ReceiptBlocked | ReceiptRow(state: RowState)
  datatype Receipt = Receipt(key: Key, state: ReceiptState)

  class ParentInboxContext {
    const database: ReferenceDatabase
    var closing: bool
    var releaseFailed: bool
    var recovered: bool
    var active: bool
    /** Where the suspended `dispatchOne` stands, and the producer it holds. */
    var phase: Phase
    var token: Option<nat>

    constructor (database: ReferenceDatabase)
      ensures this.database == database && State() == FRESH_INBOX
    {
      this.database := database;
      closing, releaseFailed, recovered, active, phase, token := false, false, false, false, Ready, None;
    }

    function State(): Inbox
      reads this
    {
      Inbox(closing, releaseFailed, recovered, active, phase, token)
    }

    function Here(): Position
      reads this, database, database.file
    {
      Position(database.file.Contents(), Handle(database.State(), Some(State())))
    }

    // -------------------------------------------------------------------------------- recovery

    /** One transaction of `ensureRecovered`. */
    method RetireBatch(env: Env, batch: set<nat>, at: int) returns (r: Result<(), Failure>)
      requires !recovered && !closing
      modifies database, database.file
      ensures Here() == StepTo(old(Here()), RecoverBatch(env, batch, at))
      ensures r.Ok? ==> database.file.Contents() == RecoverRows(old(database.file.Contents()), batch, at)
      ensures OnlyRetired(old(database.file.rows), database.file.rows)
      ensures Good(env) && Able(old(database.file.Contents()), old(database.State())) ==> r.Ok? && Able(database.file.Contents(), database.State())
    {
      if Good(env) && Able(database.file.Contents(), database.State()) {
        AbleCommits(database.file.Contents(), database.State(), env, (s: Store) => Ok((RecoverRows(s, batch, at), ())));
      }
      TransactIsAtomic(database.file.Contents(), database.State(), env, true, (s: Store) => Ok((RecoverRows(s, batch, at), ())));
      r := database.Transaction(env, true, (s: Store) => Ok((RecoverRows(s, batch, at), ())));
    }

    /** The read at the head of the recovery loop; without intents left the inbox has recovered. */
    method FindIntended(env: Env) returns (r: Result<set<nat>, Failure>)
      requires !recovered && !closing
      modifies this`recovered, database
      ensures Here() == StepTo(old(Here()), FinishRecovery(env))
      ensures r.Ok? ==> r.value == InboxIds(database.file.rows, IntendedKeys(database.file.Contents())) && recovered == (r.value == {})
      ensures r.Err? ==> !recovered
      ensures recovered ==> IntendedKeys(database.file.Contents()) == {}
      ensures env.current && Able(old(database.file.Contents()), old(database.State())) ==> r.Ok? && Able(database.file.Contents(), database.State())
    {
      var refused := database.CheckCurrent(true, env.current);
      if refused.Some? {
        return Err(refused.value);
      }
      var keys := IntendedKeys(database.file.Contents());
      r := Ok(InboxIds(database.file.rows, keys));
      assert r.value == {} ==> keys == {} by {
        if k :| k in keys { assert database.file.rows[k].inboxId in r.value; }
      }
      if r.value == {} {
        recovered := true;
      }
    }

    /** `ensureRecovered`: batch after batch until no intent is left, or a read or transaction fails. */
    method EnsureRecovered(envs: nat -> Env, at: nat -> int) returns (ok: bool, ghost trace: seq<Action>)
      requires !closing
      modifies this`recovered, database, database.file
      ensures ok == recovered && Perform(old(Here()), trace) == Here()
      ensures ok && !old(recovered) ==> IntendedKeys(database.file.Contents()) == {}
      ensures OnlyRetired(old(database.file.rows), database.file.rows)
      ensures (forall n :: Good(envs(n))) && Able(old(database.file.Contents()), old(database.State())) ==> ok
    {
      hide Step, IntendedKeys, InboxIds, RecoverRows, OnlyRetired, Perform, Able;
      trace := [];
      PerformNone(Here());
      RetiredNone(database.file.rows);
      ok := recovered;
      var n := 0;
      while !ok
        invariant ok == recovered && Perform(old(Here()), trace) == Here()
        invariant ok && !old(recovered) ==> IntendedKeys(database.file.Contents()) == {}
        invariant OnlyRetired(old(database.file.rows), database.file.rows)
        invariant (forall n :: Good(envs(n))) && Able(old(database.file.Contents()), old(database.State())) ==> Able(database.file.Contents(), database.State())
        decreases |IntendedKeys(database.file.Contents())|, !ok
      {
        var ids := FindIntended(envs(n));
        PerformOne(old(Here()), trace, FinishRecovery(envs(n)));
        trace := trace + [FinishRecovery(envs(n))];
        ok := recovered;
        if ids.Err? {
          return;
        }
        if !recovered {
          var batch := PickBatch(ids.value);
          ghost var store := database.file.Contents();
          var retired := RetireBatch(envs(n + 1), batch, at(n));
          PerformOne(old(Here()), trace, RecoverBatch(envs(n + 1), batch, at(n)));
          trace := trace + [RecoverBatch(envs(n + 1), batch, at(n))];
          RetiredAgain(old(database.file.rows), store.rows, database.file.rows);
          if retired.Err? {
            return;
          }
          FewerIntended(store, batch, at(n));
          n := n + 2;
        }
      }
    }

    /** `assertOpen`. */
    method AssertOpen(envs: nat -> Env, at: nat -> int) returns (ok: bool, ghost trace: seq<Action>)
      modifies this`recovered, database, database.file
      ensures ok == (!closing && recovered) && Perform(old(Here()), trace) == Here()
      ensures OnlyRetired(old(database.file.rows), database.file.rows)
    {
      if closing {
        return false, [];
      }
      ok, trace := EnsureRecovered(envs, at);
    }

    // -------------------------------------------------------------------------------- acceptance

    /** The port's `accept`. */
    method AcceptEnvelope(envs: nat -> Env, at: nat -> int, env: Env, envelope: Envelope, destination: Option<Destination>,
                          before: bool, inTime: bool, after: bool, now: int, inboxId: nat)
      returns (r: Result<Acceptance, Failure>, ghost trace: seq<Action>)
      modifies this`recovered, database, database.file
      ensures Perform(old(Here()), trace) == Here()
      ensures recovered && !closing && before ==> trace != [] && trace[|trace| - 1] == Accept(env, envelope, destination, before, inTime, after, now, inboxId)
      ensures r.Ok? && r.value.Accepted? ==>
        && envelope.key in database.file.rows && database.file.rows[envelope.key].envelope == envelope
        && database.file.rows[envelope.key].inboxId == r.value.inboxId && database.file.rows[envelope.key].acceptedAt == r.value.acceptedAt
    {
      hide Step, Perform, OnlyRetired, Transact;
      var isOpen;
      isOpen, trace := AssertOpen(envs, at);
      if !isOpen {
        return Err(Thrown("closing")), trace;
      }
      if !before {
        return Err(Thrown("deadline")), trace;
      }
      PerformOne(old(Here()), trace, Accept(env, envelope, destination, before, inTime, after, now, inboxId));
      trace := trace + [Accept(env, envelope, destination, before, inTime, after, now, inboxId)];
      r := AcceptIn(env, envelope, destination, inTime, after, now, inboxId);
    }

    method AcceptIn(env: Env, envelope: Envelope, destination: Option<Destination>, inTime: bool, after: bool, now: int, inboxId: nat)
      returns (r: Result<Acceptance, Failure>)
      requires !closing && recovered
      modifies database, database.file
      ensures Here() == StepTo(old(Here()), Accept(env, envelope, destination, true, inTime, after, now, inboxId))
      ensures var o := Step(old(Here()).store, old(Here()).handle, Accept(env, envelope, destination, true, inTime, after, now, inboxId));
        o.answered == if r.Ok? && r.value.Accepted? then Some(Answer(envelope.key, r.value.inboxId, r.value.acceptedAt)) else None
      ensures r.Ok? && r.value.Accepted? ==>
        && envelope.key in database.file.rows && database.file.rows[envelope.key].envelope == envelope
        && database.file.rows[envelope.key].inboxId == r.value.inboxId && database.file.rows[envelope.key].acceptedAt == r.value.acceptedAt
    {
      TransactIsAtomic(database.file.Contents(), database.State(), env, true, (s: Store) => AcceptRow(s, envelope, destination, inTime, now, inboxId));
      r := database.Transaction(env, true, (s: Store) => AcceptRow(s, envelope, destination, inTime, now, inboxId));
      if r == Err(CapacityFailure) {
        r := Ok(Blocked("capacity"));
      }
      if r.Ok? && !after {
        r := Err(Thrown("deadline"));
      }
    }

    /** The port's `inspect`: absent, or the one answer acceptance gives. */
    method InspectKey(envs: nat -> Env, at: nat -> int, env: Env, key: Key, parent: string, revision: nat,
                      destination: Option<Destination>, before: bool, after: bool)
      returns (r: Result<Option<Acceptance>, Failure>, ghost trace: seq<Action>)
      modifies this`recovered, database, database.file
      ensures Perform(old(Here()), trace) == Here()
      ensures r.Ok? ==> before && after
      ensures r == Ok(None) ==> key !in database.file.rows && Denial(destination, revision) == None
      ensures r.Ok? && r.value.Some? && !r.value.value.Accepted? ==> r.value.value.Rejected? && r.value == Denial(destination, revision)
      ensures r.Ok? && r.value.Some? && r.value.value.Accepted? ==>
        && key in database.file.rows && r.value.value == Accepted(database.file.rows[key].inboxId, database.file.rows[key].acceptedAt)
        && database.file.rows[key].envelope.parent == parent && database.file.rows[key].envelope.revision == revision
    {
      hide Perform, OnlyRetired;
      var isOpen;
      isOpen, trace := AssertOpen(envs, at);
      if !isOpen {
        return Err(Thrown("closing")), trace;
      }
      if !before {
        return Err(Thrown("deadline")), trace;
      }
      PerformOne(old(Here()), trace, Inspect(env, key, parent, revision, destination, before, after));
      trace := trace + [Inspect(env, key, parent, revision, destination, before, after)];
      var refused := database.CheckCurrent(true, env.current);
      if refused.Some? {
        return Err(refused.value), trace;
      }
      var denied := Denial(destination, revision);
      if denied.Some? && denied.value.Rejected? {
        r := Ok(denied);
      } else if denied.Some? {
        return Err(Thrown("authority unavailable")), trace;
      } else if key !in database.file.rows {
        r := Ok(None);
      } else {
        var row := database.file.rows[key];
        if row.envelope.parent != parent || row.envelope.revision != revision {
          return Err(Thrown("another parent scope")), trace;
        }
        r := Ok(Some(Accepted(row.inboxId, row.acceptedAt)));
      }
      if !after {
        r := Err(Thrown("deadline"));
      }
    }

    // -------------------------------------------------------------------------------- one record

    /** The record is read again just before its turn. */
    method ReadPending(env: Env, key: Key) returns (r: Result<bool, Failure>)
      requires !closing && recovered && active && !releaseFailed && phase == Ready
      modifies this`phase, database
      ensures Here() == StepTo(old(Here()), ReadRecord(env, key))
      ensures r == Ok(true) ==> phase == Read(key) && key in database.file.rows
      ensures r.Ok? ==> r.value == (key in database.file.rows && database.file.rows[key].state == Pending)
      ensures r != Ok(true) ==> phase == Ready
    {
      var refused := database.CheckCurrent(true, env.current);
      if refused.Some? {
        return Err(refused.value);
      }
      r := Ok(key in database.file.rows && database.file.rows[key].state == Pending);
      if r.value {
        phase := Read(key);
      }
    }

    /** `settle`. */
    method Settle(env: Env, key: Key, state: RowState, reason: Option<string>, at: int) returns (r: Result<(), Failure>)
      modifies database, database.file
      ensures Transacted(database.file.Contents(), database.State(), r)
              == Transact(old(database.file.Contents()), old(database.State()), env, true, (s: Store) => SettleRow(s, key, state, reason, at))
      ensures OnlyRow(old(database.file.rows), database.file.rows, key)
      ensures r.Ok? ==> key in database.file.rows && database.file.rows[key].state == state
    {
      TransactIsAtomic(database.file.Contents(), database.State(), env, true, (s: Store) => SettleRow(s, key, state, reason, at));
      r := database.Transaction(env, true, (s: Store) => SettleRow(s, key, state, reason, at));
    }

    method ConsiderRecord(env: Env, destination: Option<Destination>, now: int) returns (r: Result<Receipt, Failure>)
      requires phase.Read? && phase.key in database.file.rows
      modifies this`phase, this`token, database, database.file
      ensures Here() == StepTo(old(Here()), Consider(env, destination, now))
      ensures OnlyRow(old(database.file.rows), database.file.rows, old(phase).key)
      ensures phase == Ready || phase == Retained(old(phase).key)
      ensures phase == Ready ==> token == old(token)
      ensures phase.Ready? && r.Ok? ==> ReceiptTells(r.value, old(phase).key, old(database.file.rows), database.file.rows)
      ensures phase.Retained? ==> database.file.rows == old(database.file.rows)
    {
      var key := phase.key;
      r := Ok(Receipt(key, ReceiptBlocked));
      match Decide(database.file.rows[key].envelope, destination, now)
      case Block(_) =>
        phase := Ready;
      case Dismiss(reason) =>
        hide Transact, SettleRow;
        var settled := Settle(env, key, Dismissed, Some(reason), now);
        phase := Ready;
        r := if settled.Ok? then Ok(Receipt(key, ReceiptRow(Dismissed))) else Err(settled.error);
      case Proceed =>
        var producer := database.RetainProducer(env.current);
        if producer.Err? {
          phase := Ready;
          return Err(producer.error);
        }
        phase := Retained(key);
        token := Some(producer.value);
    }

    /** Gives the producer of this turn back. */
    method ReturnTurn()
      modifies this`phase, this`token, database
      ensures Here() == Position(old(database.file.Contents()), Returned(old(Here()).handle))
      ensures phase == Ready && token == None
    {
      if token.Some? {
        database.ReturnProducer(token.value);
      }
      phase, token := Ready, None;
    }

    method AcquireTurn(granted: bool)
      requires phase.Retained?
      modifies this`phase, this`token, database
      ensures Here() == StepTo(old(Here()), TakeTurn(granted))
      ensures phase == (if granted then Leased(old(phase).key) else Ready) && (!granted ==> token == None)
    {
      if granted {
        phase := Leased(phase.key);
      } else {
        ReturnTurn();
      }
    }

    method Intend(env: Env, current: bool, dispatchId: nat) returns (ok: bool)
      requires phase.Leased?
      modifies this`phase, database, database.file
      ensures Here() == StepTo(old(Here()), RecordIntent(env, current, dispatchId))
      ensures OnlyRow(old(database.file.rows), database.file.rows, old(phase).key)
      ensures phase == if ok then Planned(old(phase).key) else Releasing(0)
    {
      var key := phase.key;
      ok := current && !closing;
      if ok {
        TransactIsAtomic(database.file.Contents(), database.State(), env, true, (s: Store) => IntendRow(s, key, dispatchId));
        hide Transact;
        var intended := database.Transaction(env, true, (s: Store) => IntendRow(s, key, dispatchId));
        ok := intended.Ok?;
      }
      phase := if ok then Planned(key) else Releasing(0);
    }

    method Call(env: Env, current: bool) returns (called: bool)
      requires phase.Planned?
      modifies this`phase, database
      ensures Here() == StepTo(old(Here()), CallParent(env, current))
      ensures phase == if called then Called(old(phase).key) else Settling(old(phase).key)
    {
      called := current && !closing;
      if called {
        var refused := database.CheckCurrent(true, env.current);
        called := refused == None;
      }
      phase := if called then Called(phase.key) else Settling(phase.key);
    }

    method ReceiveAnswer(env: Env, response: Response, at: int) returns (settled: Option<RowState>)
      requires phase.Called?
      modifies this`phase, database, database.file
      ensures Here() == StepTo(old(Here()), ParentAnswered(env, response, at))
      ensures OnlyRow(old(database.file.rows), database.file.rows, old(phase).key)
      ensures phase == if settled.Some? then Releasing(0) else Settling(old(phase).key)
      ensures settled.Some? ==> old(phase).key in database.file.rows && database.file.rows[old(phase).key].state == settled.value && IsSettled(settled.value)
    {
      hide SettleRow;
      var key := phase.key;
      settled := None;
      if !response.ParentThrew? {
        var state := if response.ParentAcknowledged? then Acknowledged else RecoveryRequired;
        var reason := if response.ParentAcknowledged? then None else Some("dispatch_uncertain");
        AnswerAlike(database.file.Contents(), database.State(), env, key, response, at);
        hide Transact;
        var done := Settle(env, key, state, reason, at);
        settled := if done.Ok? then Some(state) else None;
      }
      phase := if settled.Some? then Releasing(0) else Settling(key);
    }

    method GiveUpTurn(env: Env, at: int) returns (ok: bool)
      requires phase.Settling?
      modifies this`phase, database, database.file
      ensures Here() == StepTo(old(Here()), GiveUp(env, at)) && phase == Releasing(0)
      ensures OnlyRow(old(database.file.rows), database.file.rows, old(phase).key)
      ensures ok ==> old(phase).key in database.file.rows && database.file.rows[old(phase).key].state == RecoveryRequired
    {
      hide SettleRow, Transact;
      var done := Settle(env, phase.key, RecoveryRequired, Some("dispatch_uncertain"), at);
      ok := done.Ok?;
      phase := Releasing(0);
    }

    /** `releaseTurn`: two attempts, and a lease that cannot be released is kept with its producer. */
    method FinishTurn(first: bool, second: bool)
      requires phase == Releasing(0)
      modifies this`phase, this`token, this`releaseFailed, database
      ensures Here() == StepTo(StepTo(old(Here()), ReleaseTurn(first)), ReleaseTurn(second)) && phase == Ready
      ensures if first || second then token == None && releaseFailed == old(releaseFailed) else token == old(token) && releaseFailed
    {
      var attempt := 0;
      while attempt < 2
        invariant attempt <= 2 && releaseFailed == (old(releaseFailed) || attempt == 2)
        invariant Here() == (if attempt == 0 then old(Here()) else if attempt == 1 then StepTo(old(Here()), ReleaseTurn(first))
                             else StepTo(StepTo(old(Here()), ReleaseTurn(first)), ReleaseTurn(second)))
        invariant phase == (if attempt < 2 then Releasing(attempt) else Ready) && token == old(token)
        invariant attempt > 0 ==> !first
        invariant attempt > 1 ==> !second
      {
        var released := if attempt == 0 then first else second;
        if released {
          ReturnTurn();
          return;
        }
        attempt := attempt + 1;
        if attempt == 2 {
          releaseFailed := true;
          phase := Ready;
        } else {
          phase := Releasing(attempt);
        }
      }
    }

    /** `dispatchOne`, when nothing else comes in while it waits: exactly the steps of its turn. */
    method DispatchOne(turn: Turn) returns (r: Result<Receipt, Failure>)
      requires phase.Read? && phase.key in database.file.rows
      modifies this`phase, this`token, this`releaseFailed, database, database.file
      ensures Here() == Perform(old(Here()), TurnSteps(turn)) && phase == Ready
      ensures OnlyRow(old(database.file.rows), database.file.rows, old(phase).key)
      ensures r.Ok? ==> ReceiptTells(r.value, old(phase).key, old(database.file.rows), database.file.rows)
    {
      hide Step, Perform, Decide, IsSettled;
      var key := phase.key;
      ghost var start := Here();
      TurnUnrolled(start, turn);
      ghost var p1 := StepTo(start, Consider(turn.considerEnv, turn.destination, turn.now));
      ghost var p2 := StepTo(p1, TakeTurn(turn.granted));
      ghost var p3 := StepTo(p2, RecordIntent(turn.intentEnv, turn.intentCurrent, turn.dispatchId));
      r := ConsiderRecord(turn.considerEnv, turn.destination, turn.now);
      if phase == Ready {
        ReadyStays(p1, turn);
        return;
      }
      AcquireTurn(turn.granted);
      if !turn.granted {
        ReadyStays(p2, turn);
        return Ok(Receipt(key, ReceiptBlocked));
      }
      var ok := Intend(turn.intentEnv, turn.intentCurrent, turn.dispatchId);
      if ok {
        r := DispatchPlanned(turn);
      } else {
        ReleasingSkips(p3, turn);
        r := Err(Thrown("the parent inbox dispatch state changed"));
      }
      FinishTurn(turn.released, turn.releasedAgain);
    }

    /** From the recorded intent to the settled outcome. */
    method DispatchPlanned(turn: Turn) returns (r: Result<Receipt, Failure>)
      requires phase.Planned? && phase.key in database.file.rows
      modifies this`phase, database, database.file
      ensures Here() == StepTo(StepTo(StepTo(old(Here()), CallParent(turn.callEnv, turn.callCurrent)),
                                      ParentAnswered(turn.answerEnv, turn.response, turn.at)), GiveUp(turn.giveUpEnv, turn.at))
      ensures phase == Releasing(0)
      ensures OnlyRow(old(database.file.rows), database.file.rows, old(phase).key)
      ensures r.Ok? ==> r.value.state.ReceiptRow? && ReceiptTells(r.value, old(phase).key, old(database.file.rows), database.file.rows)
    {
      hide Step;
      var key := phase.key;
      var settled: Option<RowState> := None;
      var called := Call(turn.callEnv, turn.callCurrent);
      if called {
        settled := ReceiveAnswer(turn.answerEnv, turn.response, turn.at);
      } else {
        SettlingSkips(Here(), turn);
      }
      if settled.Some? {
        ReleasingSkips(Here(), turn);
        return Ok(Receipt(key, ReceiptRow(settled.value)));
      }
      var ok := GiveUpTurn(turn.giveUpEnv, turn.at);
      r := if ok then Ok(Receipt(key, ReceiptRow(RecoveryRequired))) else Err(Thrown("already settled or unavailable"));
    }

    // -------------------------------------------------------------------------------- a page

    /** `ORDER BY accepted_at, inbox_id LIMIT ?` over the pending rows of one parent. */
    method SelectPending(parent: string, nextTurn: bool, limit: nat) returns (keys: seq<Key>)
      ensures |keys| <= limit && FirstRows(database.file.rows, keys, Selected(database.file.rows, parent, nextTurn))
      ensures |keys| < limit ==> forall k | k in Selected(database.file.rows, parent, nextTurn) :: k in keys
    {
      hide NotAfter, Selected, Ahead;
      keys := [];
      var rows := database.file.rows;
      SelectedKnown(rows, parent, nextTurn);
      var rest := Selected(rows, parent, nextTurn);
      NoneAhead(rows, rest);
      while rest != {} && |keys| < limit
        invariant |keys| <= limit && rest <= rows.Keys && Ahead(rows, keys, rest, Selected(rows, parent, nextTurn))
        decreases |rest|
      {
        ghost var found := FirstOf(rows, rest);
        var first :| first in rest && forall k | k in rest :: NotAfter(rows, first, k);
        OneMoreAhead(rows, keys, rest, first, Selected(rows, parent, nextTurn));
        keys := keys + [first];
        rest := rest - {first};
      }
      AheadIsFirst(rows, keys, rest, Selected(rows, parent, nextTurn));
    }

    /** `dispatchPending`, when nothing else comes in while it waits: one receipt a record, none twice. */
    method DispatchPending(envs: nat -> Env, at: nat -> int, parent: string, nextTurn: bool, limit: int, turns: nat -> Turn)
      returns (r: Result<seq<Receipt>, Failure>, ghost trace: seq<Action>)
      requires !active && phase == Ready
      modifies this, database, database.file
      ensures Perform(old(Here()), trace) == Here() && phase == Ready && !active
      ensures r.Ok? ==> 1 <= limit <= 100 && |r.value| <= limit && ReceiptsTell(r.value, database.file.rows)
      ensures r.Ok? && !releaseFailed ==> exists rows :: OnlyRetired(old(database.file.rows), rows) && Served(rows, r.value, parent, nextTurn, limit)
    {
      hide Step, Perform, OnlyRetired;
      active := true;
      trace := [BeginPage];
      PerformFirst(old(Here()), BeginPage);
      BeginIs(old(Here()));
      var isOpen;
      ghost var recovery;
      isOpen, recovery := AssertOpen(envs, at);
      PerformJoin(old(Here()), trace, recovery);
      trace := trace + recovery;
      if !isOpen {
        r := Err(Thrown("closing"));
      } else if limit < 1 || limit > 100 {
        r := Err(Thrown("limit"));
      } else {
        ghost var dispatched;
        r, dispatched := DispatchEach(parent, nextTurn, limit, turns);
        PerformJoin(old(Here()), trace, dispatched);
        trace := trace + dispatched;
      }
      PerformOne(old(Here()), trace, EndPage);
      EndIs(Here());
      trace := trace + [EndPage];
      active := false;
    }

    method DispatchEach(parent: string, nextTurn: bool, limit: nat, turns: nat -> Turn) returns (r: Result<seq<Receipt>, Failure>, ghost trace: seq<Action>)
      requires active && recovered && !closing && phase == Ready
      modifies this`phase, this`token, this`releaseFailed, database, database.file
      ensures Perform(old(Here()), trace) == Here() && phase == Ready
      ensures r.Ok? ==> |r.value| <= limit && ReceiptsTell(r.value, database.file.rows)
      ensures r.Ok? && !releaseFailed ==> Served(old(database.file.rows), r.value, parent, nextTurn, limit)
    {
      hide Step, Perform, TurnSteps, OnlyRow, ReceiptTells, ReceiptsTell, FirstRows, Selected, Served, Untouched, Named;
      trace := [];
      PerformNone(Here());
      var keys := SelectPending(parent, nextTurn, limit);
      FirstUntouched(database.file.rows, keys, parent, nextTurn);
      FirstDiffer(database.file.rows, keys, Selected(database.file.rows, parent, nextTurn));
      NoReceipts(keys, database.file.rows);
      var receipts: seq<Receipt> := [];
      for i := 0 to |keys|
        invariant Perform(old(Here()), trace) == Here() && phase == Ready && recovered && !closing && active
        invariant |receipts| == i && ReceiptsTell(receipts, database.file.rows) && Named(receipts, keys)
        invariant Untouched(old(database.file.rows), database.file.rows, keys, i)
      {
        UntouchedPending(old(database.file.rows), database.file.rows, keys, i);
        if closing || releaseFailed {
          return Ok(receipts), trace;
        }
        PerformOne(old(Here()), trace, ReadRecord(turns(i).readEnv, keys[i]));
        trace := trace + [ReadRecord(turns(i).readEnv, keys[i])];
        var found := ReadPending(turns(i).readEnv, keys[i]);
        if found.Err? {
          return Err(found.error), trace;
        }
        if !found.value {
          continue;
        }
        ghost var rows := database.file.rows;
        PerformJoin(old(Here()), trace, TurnSteps(turns(i)));
        var one := DispatchOne(turns(i));
        trace := trace + TurnSteps(turns(i));
        if one.Err? {
          return Err(one.error), trace;
        }
        NextUntouched(old(database.file.rows), rows, database.file.rows, keys, i, parent, nextTurn);
        NamedReceipt(receipts, one.value, keys, rows, database.file.rows);
        receipts := receipts + [one.value];
      }
      AllServed(old(database.file.rows), receipts, keys, parent, nextTurn, limit);
      r := Ok(receipts);
    }

    /** `dispose`: what it answers once the wait for the active page is over. */
    method BeginDispose() returns (closed: bool)
      modifies this`closing
      ensures Here() == StepTo(old(Here()), Dispose) && closed == AnswersClosed(State())
    {
      closing := true;
      closed := !(active || releaseFailed);
    }
  }

  lemma BeginIs(p: Position)
    requires p.handle.inbox.Some? && !p.handle.inbox.value.active
    ensures StepTo(p, BeginPage) == p.(handle := p.handle.(inbox := Some(p.handle.inbox.value.(active := true))))
  {
  }

  lemma EndIs(p: Position)
    requires p.handle.inbox.Some? && p.handle.inbox.value.phase == Ready
    ensures StepTo(p, EndPage) == p.(handle := p.handle.(inbox := Some(p.handle.inbox.value.(active := false))))
  {
  }

  function Selected(rows: map<Key, Row>, parent: string, nextTurn: bool): set<Key> {
    set k | k in rows && rows[k].state == Pending && rows[k].envelope.parent == parent && (nextTurn || rows[k].envelope.policy == Automatic)
  }

  lemma SelectedKnown(rows: map<Key, Row>, parent: string, nextTurn: bool)
    ensures Selected(rows, parent, nextTurn) <= rows.Keys
  {
  }

  predicate NotAfter(rows: map<Key, Row>, j: Key, k: Key) {
    j in rows && k in rows
    && (rows[j].acceptedAt < rows[k].acceptedAt || (rows[j].acceptedAt == rows[k].acceptedAt && rows[j].inboxId <= rows[k].inboxId))
  }

  /** The keys taken so far come before the rest of the rows. */
  ghost predicate Ahead(rows: map<Key, Row>, keys: seq<Key>, rest: set<Key>, from: set<Key>) {
    && (forall k :: k in from <==> k in keys || k in rest)
    && (forall k | k in keys :: k !in rest)
    && (forall i, j | 0 <= i < j < |keys| :: keys[i] != keys[j] && NotAfter(rows, keys[i], keys[j]))
    && (forall i, k | 0 <= i < |keys| && k in rest :: NotAfter(rows, keys[i], k))
  }

  lemma NoneAhead(rows: map<Key, Row>, from: set<Key>)
    ensures Ahead(rows, [], from, from)
  {
  }

  lemma OneMoreAhead(rows: map<Key, Row>, keys: seq<Key>, rest: set<Key>, first: Key, from: set<Key>)
    requires Ahead(rows, keys, rest, from) && first in rest && forall k | k in rest :: NotAfter(rows, first, k)
    ensures Ahead(rows, keys + [first], rest - {first}, from)
  {
    hide NotAfter;
  }

  lemma AheadIsFirst(rows: map<Key, Row>, keys: seq<Key>, rest: set<Key>, from: set<Key>)
    requires Ahead(rows, keys, rest, from)
    ensures FirstRows(rows, keys, from)
    ensures rest == {} ==> forall k | k in from :: k in keys
  {
    hide NotAfter;
  }

  /** These keys are distinct, in order, and no key left out comes before one of them. */
  ghost predicate FirstRows(rows: map<Key, Row>, keys: seq<Key>, from: set<Key>) {
    && (forall i, j | 0 <= i < j < |keys| :: keys[i] != keys[j] && NotAfter(rows, keys[i], keys[j]))
    && (forall i | 0 <= i < |keys| :: keys[i] in from)
    && (forall i, k | 0 <= i < |keys| && k in from && k !in keys :: NotAfter(rows, keys[i], k))
  }

  lemma {:induction false} FirstOf(rows: map<Key, Row>, keys: set<Key>) returns (first: Key)
    requires keys != {} && keys <= rows.Keys
    ensures first in keys && forall k | k in keys :: NotAfter(rows, first, k)
    decreases |keys|
  {
    first :| first in keys;
    var rest := keys - {first};
    assert keys == rest + {first};
    if rest != {} {
      var other := FirstOf(rows, rest);
      if !NotAfter(rows, first, other) { first := other; }
    }
  }

  /** One receipt, in order, for each of the first pending rows. */
  ghost predicate Served(rows: map<Key, Row>, receipts: seq<Receipt>, parent: string, nextTurn: bool, limit: nat) {
    var keys := seq(|receipts|, i requires 0 <= i < |receipts| => receipts[i].key);
    && FirstRows(rows, keys, Selected(rows, parent, nextTurn))
    && (|receipts| < limit ==> forall k | k in Selected(rows, parent, nextTurn) :: k in keys)
  }

  /** The receipts so far are those of the first keys. */
  ghost predicate Named(receipts: seq<Receipt>, keys: seq<Key>) {
    |receipts| <= |keys| && forall j | 0 <= j < |receipts| :: receipts[j].key == keys[j]
  }

  /** The rows still to come are as they were selected: pending. */
  ghost predicate Untouched(rows: map<Key, Row>, rows': map<Key, Row>, keys: seq<Key>, from: nat) {
    rows'.Keys == rows.Keys && forall j | from <= j < |keys| :: keys[j] in rows' && rows'[keys[j]] == rows[keys[j]] && rows'[keys[j]].state == Pending
  }

  lemma FirstUntouched(rows: map<Key, Row>, keys: seq<Key>, parent: string, nextTurn: bool)
    requires FirstRows(rows, keys, Selected(rows, parent, nextTurn))
    ensures Untouched(rows, rows, keys, 0)
  {
    PendingSelected(rows, parent, nextTurn);
  }

  lemma UntouchedPending(rows: map<Key, Row>, rows': map<Key, Row>, keys: seq<Key>, i: nat)
    requires Untouched(rows, rows', keys, i) && i < |keys|
    ensures keys[i] in rows' && rows'[keys[i]].state == Pending
  {
  }

  lemma NextUntouched(rows: map<Key, Row>, before: map<Key, Row>, after: map<Key, Row>, keys: seq<Key>, i: nat, parent: string, nextTurn: bool)
    requires Untouched(rows, before, keys, i) && i < |keys| && OnlyRow(before, after, keys[i]) && FirstRows(rows, keys, Selected(rows, parent, nextTurn))
    ensures Untouched(rows, after, keys, i + 1)
  {
    assert forall j | i < j < |keys| :: keys[i] != keys[j];
  }

  lemma NoReceipts(keys: seq<Key>, rows: map<Key, Row>)
    ensures Named([], keys) && ReceiptsTell([], rows)
  {
  }

  lemma NamedReceipt(receipts: seq<Receipt>, receipt: Receipt, keys: seq<Key>, rows: map<Key, Row>, rows': map<Key, Row>)
    requires Named(receipts, keys) && |receipts| < |keys| && ReceiptsTell(receipts, rows)
    requires OnlyRow(rows, rows', keys[|receipts|]) && ReceiptTells(receipt, keys[|receipts|], rows, rows')
    requires forall i, j | 0 <= i < j < |keys| :: keys[i] != keys[j]
    ensures Named(receipts + [receipt], keys) && ReceiptsTell(receipts + [receipt], rows')
  {
    MoreReceipts(receipts, receipt, keys[|receipts|], rows, rows');
  }

  lemma FirstDiffer(rows: map<Key, Row>, keys: seq<Key>, from: set<Key>)
    requires FirstRows(rows, keys, from)
    ensures forall i, j | 0 <= i < j < |keys| :: keys[i] != keys[j]
  {
  }

  lemma AllServed(rows: map<Key, Row>, receipts: seq<Receipt>, keys: seq<Key>, parent: string, nextTurn: bool, limit: nat)
    requires Named(receipts, keys) && |receipts| == |keys| && FirstRows(rows, keys, Selected(rows, parent, nextTurn))
    requires |keys| < limit ==> forall k | k in Selected(rows, parent, nextTurn) :: k in keys
    ensures Served(rows, receipts, parent, nextTurn, limit)
  {
    assert seq(|receipts|, i requires 0 <= i < |receipts| => receipts[i].key) == keys;
  }

  lemma PendingSelected(rows: map<Key, Row>, parent: string, nextTurn: bool)
    ensures forall k | k in Selected(rows, parent, nextTurn) :: k in rows && rows[k].state == Pending
  {
  }

  /** Each receipt of a row that was settled still tells that row's state, and no record has two. */
  ghost predicate ReceiptsTell(receipts: seq<Receipt>, rows: map<Key, Row>) {
    && (forall i, j | 0 <= i < j < |receipts| :: receipts[i].key != receipts[j].key)
    && forall i | 0 <= i < |receipts| && receipts[i].state.ReceiptRow? ::
         receipts[i].key in rows && rows[receipts[i].key].state == receipts[i].state.state && IsSettled(receipts[i].state.state)
  }

  lemma MoreReceipts(receipts: seq<Receipt>, receipt: Receipt, key: Key, rows: map<Key, Row>, rows': map<Key, Row>)
    requires ReceiptsTell(receipts, rows) && OnlyRow(rows, rows', key) && ReceiptTells(receipt, key, rows, rows')
    requires forall i | 0 <= i < |receipts| :: receipts[i].key != key
    ensures ReceiptsTell(receipts + [receipt], rows')
  {
  }

  /** No other row is touched, and none is lost. */
  ghost predicate OnlyRow(rows: map<Key, Row>, rows': map<Key, Row>, key: Key) {
    rows'.Keys == rows.Keys && forall k | k in rows && k != key :: rows'[k] == rows[k]
  }

  /** A receipt says what became of its row. */
  ghost predicate ReceiptTells(receipt: Receipt, key: Key, rows: map<Key, Row>, rows': map<Key, Row>) {
    && receipt.key == key
    && match receipt.state
       case ReceiptBlocked => rows' == rows
       case ReceiptRow(state) => key in rows' && rows'[key].state == state && IsSettled(state)
  }

  lemma AnswerAlike(store: Store, owner: Owner, env: Env, key: Key, response: Response, at: int)
    requires !response.ParentThrew?
    ensures var state := if response.ParentAcknowledged? then Acknowledged else RecoveryRequired;
      var reason := if response.ParentAcknowledged? then None else Some("dispatch_uncertain");
      Transact(store, owner, env, true, (s: Store) =>
          if response.ParentAcknowledged? then SettleRow(s, key, Acknowledged, None, at)
          else SettleRow(s, key, RecoveryRequired, Some("dispatch_uncertain"), at))
      == Transact(store, owner, env, true, (s: Store) => SettleRow(s, key, state, reason, at))
  {
  }

  /** Only intents changed, and only to `recovery_required`. */
  ghost predicate OnlyRetired(rows: map<Key, Row>, rows': map<Key, Row>) {
    && rows'.Keys == rows.Keys
    && forall k | k in rows ::
      || rows'[k] == rows[k]
      || (rows[k].state == Intended && rows'[k].state == RecoveryRequired && rows'[k].reason == Some("prior_executor_lost") && SameIdentity(rows[k], rows'[k]))
  }

  lemma RetiredNone(rows: map<Key, Row>)
    ensures OnlyRetired(rows, rows)
  {
  }

  lemma RetiredAgain(first: map<Key, Row>, second: map<Key, Row>, third: map<Key, Row>)
    requires OnlyRetired(first, second) && OnlyRetired(second, third)
    ensures OnlyRetired(first, third)
  {
  }

  lemma FewerIntended(store: Store, batch: set<nat>, at: int)
    requires batch != {} && batch <= InboxIds(store.rows, IntendedKeys(store))
    ensures |IntendedKeys(RecoverRows(store, batch, at))| < |IntendedKeys(store)|
  {
    var i :| i in batch;
    var k :| k in IntendedKeys(store) && store.rows[k].inboxId == i;
    var left := IntendedKeys(RecoverRows(store, batch, at));
    assert left <= IntendedKeys(store) - {k};
    SubsetCount(left, IntendedKeys(store) - {k});
  }
}
