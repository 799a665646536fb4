/** The promises of the parent inbox and its owner fence, over every run of every process on one store. */
module InboxRuns {
  import opened InboxRows
  import opened InboxSteps
  import opened InboxWorld
  import opened OwnerHandle
  import opened Wrappers

  // ---------------------------------------------------------------------------------- every step keeps the world

  lemma StepKeeps(store: Store, dispatches: multiset<Key>, handle: Handle, action: Action)
    requires Before(store, dispatches, handle)
    ensures StepHolds(store, dispatches, handle, Step(store, handle, action))
  {
    hide Before, StepHolds;
    match action
    case AcquireOwner(env, nonce) => AcquireHolds(store, dispatches, handle, env, nonce);
    case RecoverBatch(env, batch, at) => RecoverHolds(store, dispatches, handle, env, batch, at);
    case FinishRecovery(env) => FinishHolds(store, dispatches, handle, env);
    case Accept(env, envelope, destination, before, inTime, after, now, inboxId) =>
      AcceptHolds(store, dispatches, handle, env, envelope, destination, before, inTime, after, now, inboxId);
    case Inspect(env, key, parent, revision, destination, before, after) =>
      InspectHolds(store, dispatches, handle, env, key, parent, revision, destination, before, after);
    case ReadRecord(env, key) => ReadHolds(store, dispatches, handle, env, key);
    case Consider(env, destination, now) => ConsiderHolds(store, dispatches, handle, env, destination, now);
    case TakeTurn(granted) => TakeTurnHolds(store, dispatches, handle, granted);
    case RecordIntent(env, current, dispatchId) => IntendHolds(store, dispatches, handle, env, current, dispatchId);
    case CallParent(env, current) => CallHolds(store, dispatches, handle, env, current);
    case ParentAnswered(env, response, at) => AnsweredHolds(store, dispatches, handle, env, response, at);
    case GiveUp(env, at) => GiveUpHolds(store, dispatches, handle, env, at);
    case ReleaseTurn(released) => ReleaseTurnHolds(store, dispatches, handle, released);
    case _ => SmallStepKeeps(store, dispatches, handle, action);
  }

  /** The steps that touch neither a row nor a turn. */
  lemma SmallStepKeeps(store: Store, dispatches: multiset<Key>, handle: Handle, action: Action)
    requires Before(store, dispatches, handle)
    requires OwnerCall(action) || action.OpenInbox? || action.BeginPage? || action.EndPage? || action.Dispose?
    ensures StepHolds(store, dispatches, handle, Step(store, handle, action))
  {
    if OwnerCall(action) {
      OwnerCallKeeps(store, handle, action);
      hide StepHolds, Step, OwnerHolds;
      OwnerCallHolds(store, dispatches, handle, Step(store, handle, action).handle.owner);
    } else {
      SameRows(store);
      hide StepHolds, Counted, RowsKept, RowsHold, OwnerHolds, FenceIs;
      QuietStep(store, dispatches, handle, Step(store, handle, action));
    }
  }

  predicate OwnerCall(action: Action) {
    action.ReleaseOwner? || action.CloseHandle? || action.RetainProducer? || action.ReturnProducer? || action.Fault?
  }

  lemma OwnerCallKeeps(store: Store, handle: Handle, action: Action)
    requires OwnerHolds(handle.owner) && InboxHolds(handle)
    requires OwnerCall(action)
    ensures var o := Step(store, handle, action);
      && o == WithOwner(store, handle, o.handle.owner) && OwnerHolds(o.handle.owner)
      && (o.handle.owner.token == handle.owner.token || o.handle.owner.token == None)
      && (!handle.owner.locked ==> !o.handle.owner.locked)
      && (handle.inbox.Some? && handle.inbox.value.token.Some? ==> handle.inbox.value.token.value in o.handle.owner.tokens)
  {
    var env := if action.RetainProducer? then action.env else Env(true, true, true, true, true, true, true, true);
    var token := if action.ReleaseOwner? then action.token else Token(0, 0);
    var id := if action.ReturnProducer? then action.id else 0;
    OwnerKept(store, handle.owner, env, token, id, 0);
    TokensCounted(handle.owner);
    FailedOwner(handle.owner);
    hide Acquire, RecoverStep, FinishStep, AcceptStep, InspectStep, ReadStep, ConsiderStep, TakeTurnStep, IntendStep, CallStep, AnsweredStep, GiveUpStep, ReleaseStep;
  }

  /** What never goes back, from one world to a later one. */
  ghost predicate WorldFollows(world: World, world': World) {
    && RowsFollow(world.store.rows, world'.store.rows)
    && world.answers <= world'.answers
    && world.dispatches <= world'.dispatches
    && world.tokens <= world'.tokens
    && world.store.epoch <= world'.store.epoch
  }

  lemma LocalKeeps(world: World, h: nat, action: Action)
    requires WorldHolds(world) && h in world.handles
    ensures WorldHolds(LocalStep(world, h, action)) && WorldFollows(world, LocalStep(world, h, action))
  {
    WorldBefore(world, h);
    hide WorldHolds, WorldFollows, Before, StepHolds, Step;
    StepKeeps(world.store, world.dispatches, world.handles[h], action);
    OutcomeKeeps(world, h, Step(world.store, world.handles[h], action), LocalStep(world, h, action));
  }

  lemma WorldBefore(world: World, h: nat)
    requires WorldHolds(world) && h in world.handles
    ensures Before(world.store, world.dispatches, world.handles[h])
  {
    hide Counted, RowsHold, Answered, TokensHold, Exclusive;
  }

  lemma OutcomeKeeps(world: World, h: nat, o: Outcome, world': World)
    requires WorldHolds(world) && h in world.handles && StepHolds(world.store, world.dispatches, world.handles[h], o)
    requires world' == World(o.store, world.handles[h := o.handle],
                             world.dispatches + (if o.dispatched.Some? then multiset{o.dispatched.value} else multiset{}),
                             world.answers + (if o.answered.Some? then {o.answered.value} else {}),
                             world.tokens + (if o.handle.owner.token.Some? && world.handles[h].owner.token == None then [o.handle.owner.token.value] else []))
    ensures WorldHolds(world') && WorldFollows(world, world')
  {
    hide Counted, RowsHold, RowsFollow, OwnerHolds, InboxHolds, TurnHolds, Answered, TokensHold, FenceIs;
    HandlesKept(world, h, o, world'.dispatches);
    TokensKept(world, h, o, world');
    AnswersKept(world.store.rows, o.store.rows, world.answers, o.answered);
    ExclusiveKept(world.handles, h, o.handle);
    assert world.dispatches + multiset{} == world.dispatches;
  }

  lemma ExclusiveKept(handles: map<nat, Handle>, h: nat, handle: Handle)
    requires Exclusive(handles) && h in handles && (!handles[h].owner.locked ==> !handle.owner.locked)
    ensures Exclusive(handles[h := handle])
  {
  }

  lemma HandlesKept(world: World, h: nat, o: Outcome, dispatches': multiset<Key>)
    requires Exclusive(world.handles) && h in world.handles && StepHolds(world.store, world.dispatches, world.handles[h], o)
    requires forall g | g in world.handles :: HandleHolds(world.store, world.dispatches, world.handles[g])
    requires dispatches' == world.dispatches + (if o.dispatched.Some? then multiset{o.dispatched.value} else multiset{})
    ensures HandleHolds(o.store, dispatches', o.handle)
    ensures forall g | g in world.handles && g != h :: HandleHolds(o.store, dispatches', world.handles[g])
  {
    assert o.dispatched == None ==> dispatches' == world.dispatches;
    forall g | g in world.handles && g != h ensures HandleHolds(o.store, dispatches', world.handles[g]) {
      assert HandleHolds(world.store, world.dispatches, world.handles[g]);
      hide HandleHolds, StepHolds;
      OthersKept(world.store, world.dispatches, world.handles[h], o, dispatches', world.handles[g]);
    }
    hide Counted, RowsHold, RowsFollow, OwnerHolds, InboxHolds, TurnHolds, Answered, FenceIs;
  }

  /** Another handle has no turn and no claim on the fence while this one holds the lock. */
  lemma OthersKept(store: Store, dispatches: multiset<Key>, handle: Handle, o: Outcome, dispatches': multiset<Key>, other: Handle)
    requires StepHolds(store, dispatches, handle, o) && HandleHolds(store, dispatches, other)
    requires !handle.owner.locked || !other.owner.locked
    requires dispatches' == dispatches + (if o.dispatched.Some? then multiset{o.dispatched.value} else multiset{})
    ensures HandleHolds(o.store, dispatches', other)
  {
    hide Counted, RowsHold;
    if handle.owner.locked {
      assert other.owner.tokens == {} && other.owner.token == None;
    } else {
      assert o.store == store && o.dispatched == None && dispatches' == dispatches;
    }
  }

  lemma TokensKept(world: World, h: nat, o: Outcome, world': World)
    requires h in world.handles && TokensHold(world.store, world.tokens)
    requires FenceMoves(world.store, world.handles[h].owner, o.store, o.handle.owner)
    requires world'.tokens == world.tokens + (if o.handle.owner.token.Some? && world.handles[h].owner.token == None then [o.handle.owner.token.value] else [])
    ensures TokensHold(o.store, world'.tokens) && world.tokens <= world'.tokens && world.store.epoch <= o.store.epoch
  {
  }

  lemma AnswersKept(rows: map<Key, Row>, rows': map<Key, Row>, answers: set<Answer>, answered: Option<Answer>)
    requires Answered(rows, answers) && RowsFollow(rows, rows') && (answered.Some? ==> Answered(rows', {answered.value}))
    ensures Answered(rows', answers + (if answered.Some? then {answered.value} else {}))
  {
    if answered.Some? { assert answered.value in {answered.value}; }
  }

  lemma FollowsItself(rows: map<Key, Row>)
    ensures RowsFollow(rows, rows)
  {
  }

  lemma FreshHolds(store: Store, dispatches: multiset<Key>)
    ensures HandleHolds(store, dispatches, Handle(FRESH_OWNER, None))
  {
  }

  lemma NextKeeps(world: World, event: Event)
    requires WorldHolds(world)
    ensures WorldHolds(Next(world, event)) && WorldFollows(world, Next(world, event))
  {
    if event.Local? && event.h in world.handles {
      hide WorldHolds, WorldFollows, LocalStep;
      LocalKeeps(world, event.h, event.action);
    } else {
      FreshHolds(world.store, world.dispatches);
      FollowsItself(world.store.rows);
      hide Counted, RowsHold, Answered, TokensHold, HandleHolds, RowsFollow;
    }
  }

  lemma {:induction false} RunKeeps(world: World, events: seq<Event>)
    requires WorldHolds(world)
    ensures WorldHolds(Run(world, events)) && WorldFollows(world, Run(world, events))
  {
    if events != [] {
      var init := events[..|events| - 1];
      RunKeeps(world, init);
      NextKeeps(Run(world, init), events[|events| - 1]);
      FollowTransitive(world.store.rows, Run(world, init).store.rows, Run(world, events).store.rows);
      hide WorldHolds, Next, RowsFollow;
    }
  }

  lemma EmptyHolds()
    ensures WorldHolds(EMPTY_WORLD)
  {
  }

  // ---------------------------------------------------------------------------------- theorems

  /** Every notification is dispatched at most once; once acknowledged exactly once; pending or dismissed never. */
  lemma DispatchedAtMostOnce(events: seq<Event>, k: Key)
    ensures var world := Run(EMPTY_WORLD, events);
      && world.dispatches[k] <= 1
      && (k in world.store.rows && world.store.rows[k].state == Acknowledged ==> world.dispatches[k] == 1)
      && (k in world.store.rows && (world.store.rows[k].state == Pending || world.store.rows[k].state == Dismissed) ==> world.dispatches[k] == 0)
      && (k !in world.store.rows ==> world.dispatches[k] == 0)
  {
    EmptyHolds();
    RunKeeps(EMPTY_WORLD, events);
  }

  /**
   Acceptance agrees with itself: one row a notification, one inbox id a row, every answer names that row, and neither
   the row's identity nor a settled state ever changes afterwards.
   */
  lemma AcceptanceAgrees(events: seq<Event>, later: seq<Event>)
    ensures var world, world' := Run(EMPTY_WORLD, events), Run(Run(EMPTY_WORLD, events), later);
      && (forall a, b | a in world'.answers && b in world'.answers && a.key == b.key :: a == b)
      && (forall a | a in world.answers :: a.key in world'.store.rows && world'.store.rows[a.key].inboxId == a.inboxId
                                           && world'.store.rows[a.key].acceptedAt == a.acceptedAt)
      && (forall k | k in world.store.rows :: k in world'.store.rows && SameIdentity(world.store.rows[k], world'.store.rows[k]))
      && (forall k | k in world.store.rows && IsSettled(world.store.rows[k].state) :: world'.store.rows[k].state == world.store.rows[k].state)
      && (forall j, k | j in world'.store.rows && k in world'.store.rows && world'.store.rows[j].inboxId == world'.store.rows[k].inboxId :: j == k)
  {
    EmptyHolds();
    RunKeeps(EMPTY_WORLD, events);
    RunKeeps(Run(EMPTY_WORLD, events), later);
    hide Next;
  }

  /** Recovery never retires an intent that a live dispatch still stands on. */
  lemma RecoveryLeavesLiveTurns(events: seq<Event>, h: nat, env: Env, batch: set<nat>, at: int, g: nat, k: Key)
    requires var world := Run(EMPTY_WORLD, events);
      && h in world.handles && g in world.handles && world.handles[g].inbox.Some?
      && (world.handles[g].inbox.value.phase == Planned(k) || world.handles[g].inbox.value.phase == Called(k))
    ensures var world := Run(EMPTY_WORLD, events);
      && k in world.store.rows && world.store.rows[k].state == Intended
      && Next(world, Local(h, RecoverBatch(env, batch, at))).store == world.store
  {
    var world := Run(EMPTY_WORLD, events);
    EmptyHolds();
    RunKeeps(EMPTY_WORLD, events);
    assert HandleHolds(world.store, world.dispatches, world.handles[g]) && HandleHolds(world.store, world.dispatches, world.handles[h]);
    LiveTurn(world.store, world.dispatches, world.handles[g], k);
    assert Before(world.store, world.dispatches, world.handles[h]);
    assert !world.handles[h].owner.locked || (world.handles[h].inbox.Some? && world.handles[h].inbox.value.recovered);
    hide Run, WorldHolds, Before;
    IdleRecovery(world.store, world.dispatches, world.handles[h], env, batch, at);
  }

  /** A handle without the lock, or whose inbox has recovered, retires nothing. */
  lemma IdleRecovery(store: Store, dispatches: multiset<Key>, handle: Handle, env: Env, batch: set<nat>, at: int)
    requires Before(store, dispatches, handle)
    requires !handle.owner.locked || (handle.inbox.Some? && handle.inbox.value.recovered)
    ensures Step(store, handle, RecoverBatch(env, batch, at)).store == store
  {
    StepKeeps(store, dispatches, handle, RecoverBatch(env, batch, at));
    hide Counted, RowsHold, OwnerHolds, TurnHolds, InboxHolds, FenceIs, Transact;
  }

  lemma LiveTurn(store: Store, dispatches: multiset<Key>, handle: Handle, k: Key)
    requires HandleHolds(store, dispatches, handle) && handle.inbox.Some?
    requires handle.inbox.value.phase == Planned(k) || handle.inbox.value.phase == Called(k)
    ensures handle.inbox.value.recovered && handle.owner.locked && k in store.rows && store.rows[k].state == Intended
  {
  }

  /** A step that changes the database runs on the one live owner: it holds the lock, never failed, and the fence is its own. */
  lemma OneOwnerCommits(events: seq<Event>, h: nat, action: Action)
    requires h in Run(EMPTY_WORLD, events).handles
    requires Next(Run(EMPTY_WORLD, events), Local(h, action)).store != Run(EMPTY_WORLD, events).store
    ensures var world := Run(EMPTY_WORLD, events);
      var owner := world.handles[h].owner;
      && owner.locked && !owner.failed && !owner.closed
      && (forall g | g in world.handles && g != h :: !world.handles[g].owner.locked)
      && (if action.AcquireOwner? then owner.token == None else owner.token.Some? && FenceIs(world.store, owner.token.value))
  {
    var world := Run(EMPTY_WORLD, events);
    EmptyHolds();
    RunKeeps(EMPTY_WORLD, events);
    assert HandleHolds(world.store, world.dispatches, world.handles[h]);
    CommitsUnderFence(world.store, world.handles[h], action);
    hide Step, Run;
  }

  lemma CommitsUnderFence(store: Store, handle: Handle, action: Action)
    requires Step(store, handle, action).store != store
    ensures handle.owner.locked && !handle.owner.failed && !handle.owner.closed
    ensures if action.AcquireOwner? then handle.owner.token == None else handle.owner.token.Some? && FenceIs(store, handle.owner.token.value)
  {
    hide AcceptRow, SettleRow, IntendRow, RecoverRows, Decide, AcquireAction;
  }

  /** Owners are acquired with strictly increasing epochs, whatever opened, crashed or contended in between. */
  lemma EpochsIncrease(events: seq<Event>, i: nat, j: nat)
    requires i < j < |Run(EMPTY_WORLD, events).tokens|
    ensures Run(EMPTY_WORLD, events).tokens[i].epoch < Run(EMPTY_WORLD, events).tokens[j].epoch <= Run(EMPTY_WORLD, events).store.epoch
  {
    EmptyHolds();
    RunKeeps(EMPTY_WORLD, events);
  }

  /** Once failed, a handle stays failed and commits nothing more. */
  lemma FailedNeverCommits(store: Store, handle: Handle, action: Action)
    requires handle.owner.failed
    ensures Step(store, handle, action).handle.owner.failed && Step(store, handle, action).store == store
  {
    hide AcceptRow, SettleRow, IntendRow, RecoverRows, Decide, AcquireAction;
  }

  /** Producers are conserved, and the inbox has at most one turn out, backed by a producer that keeps the owner from leaving. */
  lemma ProducersConserved(events: seq<Event>, h: nat)
    requires h in Run(EMPTY_WORLD, events).handles
    ensures var handle := Run(EMPTY_WORLD, events).handles[h];
      && handle.owner.producers == |handle.owner.tokens|
      && (handle.inbox.Some? ==>
            && Leases(handle.inbox.value) <= 1
            && (Leases(handle.inbox.value) == 1 ==> handle.inbox.value.token.Some? && handle.inbox.value.token.value in handle.owner.tokens && handle.owner.locked))
  {
    EmptyHolds();
    RunKeeps(EMPTY_WORLD, events);
    var world := Run(EMPTY_WORLD, events);
    assert HandleHolds(world.store, world.dispatches, world.handles[h]);
  }

  /** Ownership is let go only when every producer was returned and no turn is out. */
  lemma ReleasedAtZero(events: seq<Event>, h: nat, action: Action)
    requires var world := Run(EMPTY_WORLD, events);
      h in world.handles && world.handles[h].owner.locked && !Next(world, Local(h, action)).handles[h].owner.locked
    ensures var handle := Run(EMPTY_WORLD, events).handles[h];
      && handle.owner.tokens == {} && (handle.inbox.Some? ==> handle.inbox.value.token == None && Leases(handle.inbox.value) == 0)
  {
    EmptyHolds();
    RunKeeps(EMPTY_WORLD, events);
    var world := Run(EMPTY_WORLD, events);
    assert HandleHolds(world.store, world.dispatches, world.handles[h]);
    UnlocksAtZero(world.store, world.handles[h], action);
    TokensCounted(world.handles[h].owner);
    hide Step, Run;
  }

  lemma UnlocksAtZero(store: Store, handle: Handle, action: Action)
    requires handle.owner.locked && !Step(store, handle, action).handle.owner.locked
    ensures handle.owner.producers == 0
  {
    hide AcceptRow, SettleRow, IntendRow, RecoverRows, Decide, AcquireAction;
  }

  // ---------------------------------------------------------------------------------- after dispose

  /** A closing inbox with no turn in hand. */
  predicate Quiet(handle: Handle) {
    handle.inbox.Some? && handle.inbox.value.closing && !handle.inbox.value.releaseFailed
    && handle.inbox.value.phase == Ready && handle.inbox.value.token == None
  }

  lemma QuietStays(store: Store, handle: Handle, action: Action)
    requires Quiet(handle)
    ensures Quiet(Step(store, handle, action).handle) && Step(store, handle, action).dispatched == None
  {
    hide AcceptRow, SettleRow, IntendRow, RecoverRows, Decide, AcquireAction, Transact, Acquire;
  }

  /** Once `dispose` has answered closed, the inbox holds no token, takes none and dispatches nothing, until its process ends. */
  lemma {:induction false} DisposedStaysQuiet(events: seq<Event>, h: nat, later: seq<Event>)
    requires var world := Run(EMPTY_WORLD, events);
      h in world.handles && world.handles[h].inbox.Some? && AnswersClosed(world.handles[h].inbox.value)
    requires forall i | 0 <= i < |later| :: later[i] != Crash(h)
    ensures var world := Run(Run(EMPTY_WORLD, events), later); h in world.handles && Quiet(world.handles[h])
  {
    var world := Run(EMPTY_WORLD, events);
    if later == [] {
      EmptyHolds();
      RunKeeps(EMPTY_WORLD, events);
      assert HandleHolds(world.store, world.dispatches, world.handles[h]);
    } else {
      var init := later[..|later| - 1];
      DisposedStaysQuiet(events, h, init);
      var before := Run(world, init);
      var event := later[|later| - 1];
      assert event != Crash(h);
      if event.Local? && event.h == h {
        QuietStays(before.store, before.handles[h], event.action);
      }
      hide Step;
    }
  }
}
