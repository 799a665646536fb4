/** What a whole turn and a reopening do when nothing outside goes wrong: the outcome the current authority and the parent decide. */
module InboxTurns {
  import opened InboxRows
  import opened InboxRuns
  import opened InboxSteps
  import opened InboxWorld
  import opened OwnerHandle
  import opened ParentInboxes
  import opened Wrappers

  /** The dispatches a sequence of steps makes. */
  ghost function Dispatched(p: Position, trace: seq<Action>): multiset<Key> {
    if trace == [] then multiset{}
    else
      var init := trace[..|trace| - 1];
      var before := Perform(p, init);
      var o := Step(before.store, before.handle, trace[|trace| - 1]);
      Dispatched(p, init) + if o.dispatched.Some? then multiset{o.dispatched.value} else multiset{}
  }

  predicate AllGood(turn: Turn) {
    Good(turn.considerEnv) && Good(turn.intentEnv) && Good(turn.callEnv) && Good(turn.answerEnv) && Good(turn.giveUpEnv)
  }

  /** The state a pending row ends in. */
  function FinalState(row: Row, turn: Turn): RowState {
    match Decide(row.envelope, turn.destination, turn.now)
    case Block(_) => Pending
    case Dismiss(_) => Dismissed
    case Proceed =>
      if !turn.granted || !turn.intentCurrent then Pending
      else if turn.callCurrent && turn.response == ParentAcknowledged then Acknowledged
      else RecoveryRequired
  }

  /** Whether the parent is called at all. */
  predicate CallsParent(row: Row, turn: Turn) {
    Decide(row.envelope, turn.destination, turn.now).Proceed? && turn.granted && turn.intentCurrent && turn.callCurrent
  }

  /** A turn about to begin on a pending row: an able owner, an open inbox, no producer in hand. */
  ghost predicate Begins(p: Position, key: Key) {
    && Able(p.store, p.handle.owner) && OwnerHolds(p.handle.owner)
    && p.handle.inbox == Some(Inbox(false, false, true, true, Read(key), None))
    && key in p.store.rows && p.store.rows[key].state == Pending
  }

  /** A turn in hand on a row: the producer retained for it, and the owner it will go back to. */
  ghost predicate InHand(p: Position, start: Position, key: Key, phase: Phase, state: RowState) {
    && p.handle.owner == start.handle.owner.(producers := start.handle.owner.producers + 1,
                                             tokens := start.handle.owner.tokens + {start.handle.owner.issued}, issued := start.handle.owner.issued + 1)
    && p.handle.inbox == Some(Inbox(false, false, true, true, phase, Some(start.handle.owner.issued)))
    && RowBecomes(start.store, p.store, key, state)
  }

  /** Only this row changed, and only its state and the times and reason of its settlement. */
  ghost predicate RowBecomes(store: Store, store': Store, key: Key, state: RowState) {
    && key in store.rows && store'.rows.Keys == store.rows.Keys && store'.epoch == store.epoch && store'.nonce == store.nonce
    && store'.rows[key].state == state && SameIdentity(store.rows[key], store'.rows[key])
    && forall k | k in store.rows && k != key :: store'.rows[k] == store.rows[k]
  }

  /** Ready again, with the owner as before but for the token number used. */
  ghost predicate Ends(p: Position, start: Position, key: Key, state: RowState) {
    && p.handle.inbox == Some(Inbox(false, false, true, true, Ready, None))
    && p.handle.owner == start.handle.owner.(issued := p.handle.owner.issued)
    && RowBecomes(start.store, p.store, key, state)
  }

  lemma SettleBecomes(start: Store, store: Store, key: Key, from: RowState, to: RowState, reason: Option<string>, at: int)
    requires RowBecomes(start, store, key, from) && Expected(to) == from
    ensures SettleRow(store, key, to, reason, at).Ok? && RowBecomes(start, SettleRow(store, key, to, reason, at).value.0, key, to)
  {
  }

  lemma ConsiderOutcome(p: Position, key: Key, turn: Turn)
    requires key in p.store.rows && Begins(p, key) && AllGood(turn)
    ensures var q := StepTo(p, Consider(turn.considerEnv, turn.destination, turn.now));
      match Decide(p.store.rows[key].envelope, turn.destination, turn.now)
      case Block(_) => Ends(q, p, key, Pending)
      case Dismiss(_) => Ends(q, p, key, Dismissed)
      case Proceed => InHand(q, p, key, Retained(key), Pending)
  {
    match Decide(p.store.rows[key].envelope, turn.destination, turn.now)
    case Dismiss(reason) =>
      SettleBecomes(p.store, p.store, key, Pending, Dismissed, Some(reason), turn.now);
      AbleCommits(p.store, p.handle.owner, turn.considerEnv, (s: Store) => SettleRow(s, key, Dismissed, Some(reason), turn.now));
      hide SettleRow, Transact, Decide;
    case _ =>
  }

  lemma TakeTurnOutcome(p: Position, start: Position, key: Key, turn: Turn)
    requires Begins(start, key) && InHand(p, start, key, Retained(key), Pending)
    ensures var q := StepTo(p, TakeTurn(turn.granted));
      if turn.granted then InHand(q, start, key, Leased(key), Pending) else Ends(q, start, key, Pending)
  {
    var tokens, issued := start.handle.owner.tokens, start.handle.owner.issued;
    TokensCounted(start.handle.owner);
    assert tokens + {issued} - {issued} == tokens;
    hide RowBecomes;
  }

  lemma AbleStays(p: Position, start: Position, key: Key, phase: Phase, state: RowState)
    requires Begins(start, key) && InHand(p, start, key, phase, state)
    ensures Able(p.store, p.handle.owner)
  {
  }

  lemma IntentOutcome(p: Position, start: Position, key: Key, turn: Turn)
    requires Begins(start, key) && AllGood(turn) && InHand(p, start, key, Leased(key), Pending)
    ensures var q := StepTo(p, RecordIntent(turn.intentEnv, turn.intentCurrent, turn.dispatchId));
      if turn.intentCurrent then InHand(q, start, key, Planned(key), Intended) else InHand(q, start, key, Releasing(0), Pending)
  {
    AbleStays(p, start, key, Leased(key), Pending);
    AbleCommits(p.store, p.handle.owner, turn.intentEnv, (s: Store) => IntendRow(s, key, turn.dispatchId));
    hide Transact;
  }

  lemma CallOutcome(p: Position, start: Position, key: Key, turn: Turn)
    requires Begins(start, key) && AllGood(turn) && InHand(p, start, key, Planned(key), Intended)
    ensures var q := StepTo(p, CallParent(turn.callEnv, turn.callCurrent));
      InHand(q, start, key, if turn.callCurrent then Called(key) else Settling(key), Intended)
    ensures Step(p.store, p.handle, CallParent(turn.callEnv, turn.callCurrent)).dispatched == if turn.callCurrent then Some(key) else None
  {
    AbleStays(p, start, key, Planned(key), Intended);
    hide RowBecomes;
  }

  lemma AnswerOutcome(p: Position, start: Position, key: Key, turn: Turn)
    requires Begins(start, key) && AllGood(turn) && InHand(p, start, key, Called(key), Intended)
    ensures var q := StepTo(p, ParentAnswered(turn.answerEnv, turn.response, turn.at));
      match turn.response
      case ParentAcknowledged => InHand(q, start, key, Releasing(0), Acknowledged)
      case ParentUncertain => InHand(q, start, key, Releasing(0), RecoveryRequired)
      case ParentThrew => InHand(q, start, key, Settling(key), Intended)
  {
    AbleStays(p, start, key, Called(key), Intended);
    if !turn.response.ParentThrew? {
      var state := if turn.response.ParentAcknowledged? then Acknowledged else RecoveryRequired;
      var reason := if turn.response.ParentAcknowledged? then None else Some("dispatch_uncertain");
      AnswerAlike(p.store, p.handle.owner, turn.answerEnv, key, turn.response, turn.at);
      SettleBecomes(start.store, p.store, key, Intended, state, reason, turn.at);
      AbleCommits(p.store, p.handle.owner, turn.answerEnv, (s: Store) => SettleRow(s, key, state, reason, turn.at));
    }
    hide Transact, SettleRow;
  }

  lemma GiveUpOutcome(p: Position, start: Position, key: Key, turn: Turn)
    requires Begins(start, key) && AllGood(turn) && InHand(p, start, key, Settling(key), Intended)
    ensures InHand(StepTo(p, GiveUp(turn.giveUpEnv, turn.at)), start, key, Releasing(0), RecoveryRequired)
  {
    AbleStays(p, start, key, Settling(key), Intended);
    SettleBecomes(start.store, p.store, key, Intended, RecoveryRequired, Some("dispatch_uncertain"), turn.at);
    AbleCommits(p.store, p.handle.owner, turn.giveUpEnv, (s: Store) => SettleRow(s, key, RecoveryRequired, Some("dispatch_uncertain"), turn.at));
    hide Transact, SettleRow;
  }

  lemma ReleaseOutcome(p: Position, start: Position, key: Key, turn: Turn, state: RowState)
    requires Begins(start, key) && InHand(p, start, key, Releasing(0), state) && (turn.released || turn.releasedAgain)
    ensures Ends(StepTo(StepTo(p, ReleaseTurn(turn.released)), ReleaseTurn(turn.releasedAgain)), start, key, state)
  {
    var tokens, issued := start.handle.owner.tokens, start.handle.owner.issued;
    TokensCounted(start.handle.owner);
    assert tokens + {issued} - {issued} == tokens;
    hide RowBecomes;
  }

  /** The eight positions of a turn. */
  ghost function After(p: Position, turn: Turn, n: nat): Position
    requires n <= 8
  {
    Perform(p, TurnSteps(turn)[..n])
  }

  lemma AfterStep(p: Position, turn: Turn, n: nat)
    requires n < 8
    ensures After(p, turn, 0) == p && After(p, turn, n + 1) == StepTo(After(p, turn, n), TurnSteps(turn)[n])
    ensures After(p, turn, 8) == Perform(p, TurnSteps(turn))
  {
    PerformUpTo(p, TurnSteps(turn), n);
    assert TurnSteps(turn)[..8] == TurnSteps(turn) && TurnSteps(turn)[..0] == [];
  }

  lemma DispatchedUpTo(p: Position, trace: seq<Action>, n: nat)
    requires n < |trace|
    ensures var before := Perform(p, trace[..n]);
      var o := Step(before.store, before.handle, trace[n]);
      Dispatched(p, trace[..n + 1]) == Dispatched(p, trace[..n]) + if o.dispatched.Some? then multiset{o.dispatched.value} else multiset{}
  {
    assert trace[..n + 1][..n] == trace[..n];
    hide Step;
  }

  lemma OnlyCallsDispatch(store: Store, handle: Handle, action: Action)
    requires !action.CallParent?
    ensures Step(store, handle, action).dispatched == None
  {
    hide AcceptRow, SettleRow, IntendRow, RecoverRows, Decide, AcquireAction, Transact, Acquire;
  }

  /** The turn dispatches what its fourth step dispatches. */
  lemma TurnDispatches(p: Position, turn: Turn)
    ensures var o := Step(After(p, turn, 3).store, After(p, turn, 3).handle, TurnSteps(turn)[3]);
      Dispatched(p, TurnSteps(turn)) == if o.dispatched.Some? then multiset{o.dispatched.value} else multiset{}
  {
    var t := TurnSteps(turn);
    assert t[..0] == [] && t[..8] == t;
    OthersQuiet(p, turn, 0); OthersQuiet(p, turn, 1); OthersQuiet(p, turn, 2);
    OthersQuiet(p, turn, 4); OthersQuiet(p, turn, 5); OthersQuiet(p, turn, 6); OthersQuiet(p, turn, 7);
    hide Step, Dispatched, Perform;
    DispatchedUpTo(p, t, 3);
    DispatchedNone(p);
  }

  lemma DispatchedNone(p: Position)
    ensures Dispatched(p, []) == multiset{}
  {
  }

  lemma OthersQuiet(p: Position, turn: Turn, n: nat)
    requires n < 8 && n != 3
    ensures Dispatched(p, TurnSteps(turn)[..n + 1]) == Dispatched(p, TurnSteps(turn)[..n])
  {
    var before := After(p, turn, n);
    OnlyCallsDispatch(before.store, before.handle, TurnSteps(turn)[n]);
    DispatchedUpTo(p, TurnSteps(turn), n);
    hide Step, Dispatched, Perform;
  }

  /** The steps of a turn after the first. */
  ghost function Rest(p: Position, turn: Turn): Position {
    var called := StepTo(Third(p, turn), CallParent(turn.callEnv, turn.callCurrent));
    var settled := StepTo(StepTo(called, ParentAnswered(turn.answerEnv, turn.response, turn.at)), GiveUp(turn.giveUpEnv, turn.at));
    StepTo(StepTo(settled, ReleaseTurn(turn.released)), ReleaseTurn(turn.releasedAgain))
  }

  ghost function Third(p: Position, turn: Turn): Position {
    StepTo(StepTo(p, TakeTurn(turn.granted)), RecordIntent(turn.intentEnv, turn.intentCurrent, turn.dispatchId))
  }

  ghost predicate Calling(p: Position, turn: Turn, key: Key) {
    Step(p.store, p.handle, CallParent(turn.callEnv, turn.callCurrent)).dispatched == Some(key)
  }

  ghost predicate NotCalling(p: Position, turn: Turn) {
    Step(p.store, p.handle, CallParent(turn.callEnv, turn.callCurrent)).dispatched == None
  }

  lemma RestWithoutTurn(p: Position, turn: Turn)
    requires PhaseIs(p, Ready)
    ensures Rest(p, turn) == p && NotCalling(Third(p, turn), turn)
  {
    NoTurn(p, turn);
    hide Step, StepTo;
  }

  lemma RestOutcome(p: Position, start: Position, key: Key, turn: Turn)
    requires Begins(start, key) && AllGood(turn) && (turn.released || turn.releasedAgain) && InHand(p, start, key, Retained(key), Pending)
    ensures Ends(Rest(p, turn), start, key,
                 if !turn.granted || !turn.intentCurrent then Pending
                 else if turn.callCurrent && turn.response == ParentAcknowledged then Acknowledged else RecoveryRequired)
    ensures if turn.granted && turn.intentCurrent && turn.callCurrent then Calling(Third(p, turn), turn, key) else NotCalling(Third(p, turn), turn)
  {
    hide Step, InHand, Begins, AllGood, Ends, StepTo, PhaseIs;
    TakeTurnOutcome(p, start, key, turn);
    var taken := StepTo(p, TakeTurn(turn.granted));
    if !turn.granted {
      EndsReady(taken, start, key, Pending);
      NoTurn(taken, turn);
    } else {
      IntentOutcome(taken, start, key, turn);
      var third := Third(p, turn);
      if turn.intentCurrent {
        CalledOutcome(third, start, key, turn);
      } else {
        InHandPhase(third, start, key, Releasing(0), Pending);
        ReleasingSkips(third, turn);
        CallSkips(third, turn);
        ReleaseOutcome(third, start, key, turn, Pending);
      }
    }
  }

  /** A turn is its first step and the rest, and dispatches in its fourth step only. */
  lemma TurnUnfolds(p: Position, turn: Turn)
    ensures var p1 := StepTo(p, Consider(turn.considerEnv, turn.destination, turn.now));
      var o := Step(Third(p1, turn).store, Third(p1, turn).handle, CallParent(turn.callEnv, turn.callCurrent));
      && Perform(p, TurnSteps(turn)) == Rest(p1, turn)
      && Dispatched(p, TurnSteps(turn)) == if o.dispatched.Some? then multiset{o.dispatched.value} else multiset{}
  {
    hide Dispatched, Perform, StepTo, Step, After;
    TurnUnrolled(p, turn);
    TurnDispatches(p, turn);
    AfterStep(p, turn, 0); AfterStep(p, turn, 1); AfterStep(p, turn, 2);
  }

  /**
   A whole turn: the row ends in the state its authority and the parent decide, no other row changes, the producer is
   back, and the parent was called once exactly when the turn got that far.
   */
  lemma TurnOutcome(p: Position, key: Key, turn: Turn)
    requires key in p.store.rows && Begins(p, key) && AllGood(turn) && (turn.released || turn.releasedAgain)
    ensures Ends(Perform(p, TurnSteps(turn)), p, key, FinalState(p.store.rows[key], turn))
    ensures Dispatched(p, TurnSteps(turn)) == if CallsParent(p.store.rows[key], turn) then multiset{key} else multiset{}
  {
    hide Decide, Dispatched, Perform, InHand, Begins, AllGood, Ends, StepTo, PhaseIs, Step, Third, Rest;
    TurnUnfolds(p, turn);
    ConsiderOutcome(p, key, turn);
    var p1 := StepTo(p, Consider(turn.considerEnv, turn.destination, turn.now));
    if Decide(p.store.rows[key].envelope, turn.destination, turn.now).Proceed? {
      RestOutcome(p1, p, key, turn);
    } else {
      EndsReady(p1, p, key, FinalState(p.store.rows[key], turn));
      RestWithoutTurn(p1, turn);
    }
  }

  lemma EndsReady(p: Position, start: Position, key: Key, state: RowState)
    requires Ends(p, start, key, state)
    ensures PhaseIs(p, Ready)
  {
  }

  lemma InHandPhase(p: Position, start: Position, key: Key, phase: Phase, state: RowState)
    requires InHand(p, start, key, phase, state)
    ensures PhaseIs(p, phase)
  {
  }

  /** Without a turn in hand nothing is released or dispatched any more. */
  lemma NoTurn(p: Position, turn: Turn)
    requires PhaseIs(p, Ready)
    ensures StepTo(p, TakeTurn(turn.granted)) == p
    ensures StepTo(p, RecordIntent(turn.intentEnv, turn.intentCurrent, turn.dispatchId)) == p
    ensures StepTo(p, CallParent(turn.callEnv, turn.callCurrent)) == p
    ensures StepTo(p, ParentAnswered(turn.answerEnv, turn.response, turn.at)) == p
    ensures StepTo(p, GiveUp(turn.giveUpEnv, turn.at)) == p
    ensures StepTo(p, ReleaseTurn(turn.released)) == p && StepTo(p, ReleaseTurn(turn.releasedAgain)) == p
    ensures Step(p.store, p.handle, CallParent(turn.callEnv, turn.callCurrent)).dispatched == None
  {
    ReadyStays(p, turn);
  }

  lemma CallSkips(p: Position, turn: Turn)
    requires PhaseIs(p, Releasing(0))
    ensures Step(p.store, p.handle, CallParent(turn.callEnv, turn.callCurrent)).dispatched == None
  {
  }

  /** From the recorded intent on. */
  lemma CalledOutcome(p: Position, start: Position, key: Key, turn: Turn)
    requires Begins(start, key) && AllGood(turn) && InHand(p, start, key, Planned(key), Intended) && (turn.released || turn.releasedAgain)
    ensures var q := StepTo(StepTo(StepTo(p, CallParent(turn.callEnv, turn.callCurrent)), ParentAnswered(turn.answerEnv, turn.response, turn.at)), GiveUp(turn.giveUpEnv, turn.at));
      Ends(StepTo(StepTo(q, ReleaseTurn(turn.released)), ReleaseTurn(turn.releasedAgain)), start, key,
           if turn.callCurrent && turn.response == ParentAcknowledged then Acknowledged else RecoveryRequired)
    ensures Step(p.store, p.handle, CallParent(turn.callEnv, turn.callCurrent)).dispatched == if turn.callCurrent then Some(key) else None
  {
    CallOutcome(p, start, key, turn);
    var called := StepTo(p, CallParent(turn.callEnv, turn.callCurrent));
    var answered := StepTo(called, ParentAnswered(turn.answerEnv, turn.response, turn.at));
    if turn.callCurrent { AnswerOutcome(called, start, key, turn); } else { SettlingSkips(called, turn); }
    if PhaseIs(answered, Settling(key)) { GiveUpOutcome(answered, start, key, turn); } else { ReleasingSkips(answered, turn); }
    hide Step, Begins, AllGood, RowBecomes;
    ReleaseOutcome(StepTo(answered, GiveUp(turn.giveUpEnv, turn.at)), start, key, turn,
                   if turn.callCurrent && turn.response == ParentAcknowledged then Acknowledged else RecoveryRequired);
  }

  // ---------------------------------------------------------------------------------- after a crash

  /** Reopening: a new handle on a free lock acquires the owner and retires what its predecessor left intended. */
  function Reopening(h: nat, env: Env, nonce: nat, batch: set<nat>, at: int): seq<Event> {
    [OpenHandle(h), Local(h, AcquireOwner(env, nonce)), Local(h, OpenInbox), Local(h, RecoverBatch(env, batch, at))]
  }

  /** Every intent of the batch is retired without a dispatch, every other row is as it was, and the epoch moved on by one. */
  lemma ReopeningRetires(world: World, h: nat, env: Env, nonce: nat, batch: set<nat>, at: int)
    requires LockFree(world) && h !in world.handles && Good(env)
    ensures var after := Run(world, Reopening(h, env, nonce, batch, at));
      && after.store == RecoverRows(world.store, batch, at).(epoch := world.store.epoch + 1, nonce := Some(nonce))
      && after.dispatches == world.dispatches && after.answers == world.answers
      && after.tokens == world.tokens + [Token(world.store.epoch + 1, nonce)]
      && h in after.handles && Able(after.store, after.handles[h].owner)
  {
    var events := Reopening(h, env, nonce, batch, at);
    RunUnrolled(world, events);
    var openedUp := Next(world, events[0]);
    var acquired := Next(openedUp, events[1]);
    var started := Next(acquired, events[2]);
    assert acquired.store == world.store.(epoch := world.store.epoch + 1, nonce := Some(nonce));
    assert Able(started.store, started.handles[h].owner);
    AbleCommits(started.store, started.handles[h].owner, env, (s: Store) => Ok((RecoverRows(s, batch, at), ())));
  }

  lemma RunUnrolled(world: World, events: seq<Event>)
    requires |events| == 4
    ensures Run(world, events) == Next(Next(Next(Next(world, events[0]), events[1]), events[2]), events[3])
  {
    hide Next;
    RunUpTo(world, events, 0);
    RunUpTo(world, events, 1);
    RunUpTo(world, events, 2);
    RunUpTo(world, events, 3);
    assert events[..4] == events && events[..0] == [];
  }

  lemma RunUpTo(world: World, events: seq<Event>, n: nat)
    requires n < |events|
    ensures Run(world, events[..n + 1]) == Next(Run(world, events[..n]), events[n])
  {
    hide Next;
    assert events[..n + 1][..n] == events[..n];
  }
}
