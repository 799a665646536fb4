/**
 Every process on one store: each handle opened, each step it takes, each crash. What holds in every run of that world.
 */
module InboxWorld {
  import opened InboxRows
  import opened InboxSteps
  import opened OwnerHandle
  import opened Wrappers

  /** `dispatches`, `answers` and `tokens` are the history: calls of `lease.dispatch`, acceptances answered, owners acquired. */
  datatype World = World(store: Store, handles: map<nat, Handle>, dispatches: multiset<Key>, answers: set<Answer>, tokens: seq<Token>)

  datatype Event = OpenHandle(h: nat) | Crash(h: nat) | Local(h: nat, action: Action)

  const EMPTY_WORLD := World(Store(map[], 0, None), map[], multiset{}, {}, [])

  /** `acquireReferenceOwnership`: an exclusive lock that a crash or a release frees. */
  predicate LockFree(world: World) {
    forall h | h in world.handles :: !world.handles[h].owner.locked
  }

  function LocalStep(world: World, h: nat, action: Action): World
    requires h in world.handles
  {
    var before := world.handles[h];
    var o := Step(world.store, before, action);
    World(o.store, world.handles[h := o.handle],
          world.dispatches + (if o.dispatched.Some? then multiset{o.dispatched.value} else multiset{}),
          world.answers + (if o.answered.Some? then {o.answered.value} else {}),
          world.tokens + (if o.handle.owner.token.Some? && before.owner.token == None then [o.handle.owner.token.value] else []))
  }

  function Next(world: World, event: Event): World {
    match event
    case OpenHandle(h) =>
      if h in world.handles || !LockFree(world) then world
      else world.(handles := world.handles[h := Handle(FRESH_OWNER, None)])
    case Crash(h) => world.(handles := world.handles - {h})
    case Local(h, action) => if h in world.handles then LocalStep(world, h, action) else world
  }

  function Run(world: World, events: seq<Event>): World {
    if events == [] then world else Next(Run(world, events[..|events| - 1]), events[|events| - 1])
  }

  // ---------------------------------------------------------------------------------- invariants

  /** One dispatch at most, exactly one once acknowledged, none while pending or dismissed. */
  ghost predicate Counted(store: Store, dispatches: multiset<Key>) {
    && (forall k :: dispatches[k] <= 1)
    && (forall k | k in dispatches :: k in store.rows && store.rows[k].state != Pending && store.rows[k].state != Dismissed)
    && (forall k | k in store.rows && store.rows[k].state == Acknowledged :: k in dispatches)
  }

  /** Rows sit under their own key, each with an inbox id of its own. */
  ghost predicate RowsHold(rows: map<Key, Row>) {
    && (forall k | k in rows :: rows[k].envelope.key == k)
    && (forall j, k | j in rows && k in rows && rows[j].inboxId == rows[k].inboxId :: j == k)
  }

  ghost predicate Answered(rows: map<Key, Row>, answers: set<Answer>) {
    forall a | a in answers :: a.key in rows && rows[a.key].inboxId == a.inboxId && rows[a.key].acceptedAt == a.acceptedAt
  }

  predicate HoldsProducer(phase: Phase) {
    !phase.Ready? && !phase.Read?
  }

  /** The inbox holds a producer exactly while it has a turn in hand or could not give one back. */
  ghost predicate InboxHolds(handle: Handle) {
    handle.inbox.Some? ==>
      var inbox := handle.inbox.value;
      && (inbox.token.Some? <==> HoldsProducer(inbox.phase) || inbox.releaseFailed)
      && (inbox.token.Some? ==> inbox.token.value in handle.owner.tokens)
      && (inbox.releaseFailed ==> inbox.phase == Ready)
      && (inbox.phase != Ready ==> inbox.active && inbox.recovered)
  }

  /** The row a live turn stands on: intended, and dispatched exactly when its dispatch was called. */
  ghost predicate TurnHolds(store: Store, dispatches: multiset<Key>, handle: Handle) {
    handle.inbox.Some? ==>
      match handle.inbox.value.phase
      case Read(k) => k in store.rows
      case Planned(k) => k in store.rows && store.rows[k].state == Intended && k !in dispatches
      case Called(k) => k in store.rows && store.rows[k].state == Intended && k in dispatches
      case Settling(k) => k in store.rows && store.rows[k].state == Intended
      case _ => true
  }

  ghost predicate HandleHolds(store: Store, dispatches: multiset<Key>, handle: Handle) {
    && OwnerHolds(handle.owner) && InboxHolds(handle) && TurnHolds(store, dispatches, handle)
    && (handle.owner.token.Some? ==> FenceIs(store, handle.owner.token.value))
  }

  /** Owners were acquired with ever larger epochs, none above the persisted one. */
  ghost predicate TokensHold(store: Store, tokens: seq<Token>) {
    && (forall i, j | 0 <= i < j < |tokens| :: tokens[i].epoch < tokens[j].epoch)
    && (forall i | 0 <= i < |tokens| :: tokens[i].epoch <= store.epoch)
  }

  ghost predicate Exclusive(handles: map<nat, Handle>) {
    forall g, h | g in handles && h in handles && handles[g].owner.locked && handles[h].owner.locked :: g == h
  }

  ghost predicate WorldHolds(world: World) {
    && Counted(world.store, world.dispatches)
    && RowsHold(world.store.rows)
    && Answered(world.store.rows, world.answers)
    && TokensHold(world.store, world.tokens)
    && Exclusive(world.handles)
    && forall h | h in world.handles :: HandleHolds(world.store, world.dispatches, world.handles[h])
  }

  // ---------------------------------------------------------------------------------- what the store actions keep

  /** Rows changed only as a transaction may change them. */
  ghost predicate RowsKept(store: Store, store': Store) {
    RowsFollow(store.rows, store'.rows) && store'.epoch == store.epoch && store'.nonce == store.nonce && RowsHold(store'.rows)
  }

  lemma AcceptRowKeeps(store: Store, envelope: Envelope, destination: Option<Destination>, inTime: bool, now: int, inboxId: nat)
    requires RowsHold(store.rows) && AcceptRow(store, envelope, destination, inTime, now, inboxId).Ok?
    ensures var (store', answer) := AcceptRow(store, envelope, destination, inTime, now, inboxId).value;
      && RowsKept(store, store')
      && (forall k | k in store.rows :: store'.rows[k] == store.rows[k])
      && (forall k | k in store'.rows && k !in store.rows :: k == envelope.key && store'.rows[k].state == Pending)
      && (answer.Accepted? ==>
            && envelope.key in store'.rows && store'.rows[envelope.key].envelope == envelope
            && store'.rows[envelope.key].inboxId == answer.inboxId && store'.rows[envelope.key].acceptedAt == answer.acceptedAt)
  {
  }

  /** One row changes its state, as the caller expects it to. */
  ghost predicate OneRow(store: Store, store': Store, key: Key, from: RowState, to: RowState) {
    && key in store.rows && store'.rows.Keys == store.rows.Keys
    && (forall k | k in store.rows && k != key :: store'.rows[k] == store.rows[k])
    && store'.rows[key].state == to && SameIdentity(store.rows[key], store'.rows[key])
    && (store.rows[key].state == from || store'.rows[key] == store.rows[key])
    && store'.epoch == store.epoch && store'.nonce == store.nonce
  }

  lemma SettleRowKeeps(store: Store, key: Key, state: RowState, reason: Option<string>, at: int)
    requires IsSettled(state) && RowsHold(store.rows) && SettleRow(store, key, state, reason, at).Ok?
    ensures var store' := SettleRow(store, key, state, reason, at).value.0;
      RowsKept(store, store') && OneRow(store, store', key, Expected(state), state)
  {
  }

  lemma IntendRowKeeps(store: Store, key: Key, dispatchId: nat)
    requires RowsHold(store.rows) && IntendRow(store, key, dispatchId).Ok?
    ensures var store' := IntendRow(store, key, dispatchId).value.0;
      RowsKept(store, store') && OneRow(store, store', key, Pending, Intended) && store.rows[key].state == Pending
  {
  }

  lemma RecoverRowsKeep(store: Store, batch: set<nat>, at: int)
    requires RowsHold(store.rows)
    ensures var store' := RecoverRows(store, batch, at);
      && RowsKept(store, store') && store'.rows.Keys == store.rows.Keys
      && forall k | k in store.rows :: store'.rows[k] == store.rows[k] || (store.rows[k].state == Intended && store'.rows[k].state == RecoveryRequired)
  {
  }

  // ---------------------------------------------------------------------------------- one step of one handle

  /** What a step of one handle leaves true, of the store and of the handle itself. */
  ghost predicate StepHolds(store: Store, dispatches: multiset<Key>, handle: Handle, o: Outcome) {
    var dispatches' := if o.dispatched.Some? then dispatches + multiset{o.dispatched.value} else dispatches;
    && Counted(o.store, dispatches') && RowsHold(o.store.rows) && RowsFollow(store.rows, o.store.rows)
    && HandleHolds(o.store, dispatches', o.handle)
    && (o.answered.Some? ==> Answered(o.store.rows, {o.answered.value}))
    && (!handle.owner.locked ==> o.store == store && o.dispatched == None && !o.handle.owner.locked)
    && FenceMoves(store, handle.owner, o.store, o.handle.owner)
  }

  /** The fence moves only when this handle acquires it, to the next epoch. */
  predicate FenceMoves(store: Store, owner: Owner, store': Store, owner': Owner) {
    if owner.token == None && owner'.token.Some?
    then store'.epoch == store.epoch + 1 && owner'.token.value.epoch == store'.epoch
    else store'.epoch == store.epoch && store'.nonce == store.nonce
  }

  ghost predicate Before(store: Store, dispatches: multiset<Key>, handle: Handle) {
    Counted(store, dispatches) && RowsHold(store.rows) && HandleHolds(store, dispatches, handle)
  }

  /** A step that dispatches nothing and keeps the owner's token. */
  lemma QuietStep(store: Store, dispatches: multiset<Key>, handle: Handle, o: Outcome)
    requires Before(store, dispatches, handle)
    requires RowsKept(store, o.store) && Counted(o.store, dispatches) && (o.store != store ==> handle.owner.locked)
    requires o.dispatched == None && (o.answered.Some? ==> Answered(o.store.rows, {o.answered.value}))
    requires OwnerHolds(o.handle.owner) && InboxHolds(o.handle) && TurnHolds(o.store, dispatches, o.handle)
    requires o.handle.owner.token == handle.owner.token || o.handle.owner.token == None
    requires !handle.owner.locked ==> !o.handle.owner.locked
    ensures StepHolds(store, dispatches, handle, o)
  {
    hide Counted, RowsHold, RowsFollow, OwnerHolds, InboxHolds, TurnHolds, Answered;
  }

  lemma SameRows(store: Store)
    requires RowsHold(store.rows)
    ensures RowsKept(store, store)
  {
  }

  lemma FailedOwner(owner: Owner)
    requires OwnerHolds(owner)
    ensures OwnerHolds(owner.(failed := true))
  {
  }

  /** The phase moves between two that both hold a producer, or both do not. */
  lemma PhaseMoves(handle: Handle, owner: Owner, phase: Phase)
    requires InboxHolds(handle) && handle.inbox.Some? && handle.inbox.value.phase != Ready
    requires owner.tokens == handle.owner.tokens && HoldsProducer(phase) == HoldsProducer(handle.inbox.value.phase)
    ensures InboxHolds(To(handle, phase).(owner := owner))
  {
  }

  lemma CountedOneRow(store: Store, store': Store, dispatches: multiset<Key>, key: Key, from: RowState, to: RowState)
    requires Counted(store, dispatches) && OneRow(store, store', key, from, to)
    requires (from == Pending && (to == Intended || to == Dismissed)) || (from == Intended && to == RecoveryRequired) || (to == Acknowledged && key in dispatches)
    ensures Counted(store', dispatches)
  {
  }

  lemma CountedFollow(store: Store, store': Store, dispatches: multiset<Key>)
    requires Counted(store, dispatches) && store.rows.Keys <= store'.rows.Keys
    requires forall k | k in store.rows :: store'.rows[k] == store.rows[k] || (store.rows[k].state == Intended && store'.rows[k].state == RecoveryRequired)
    requires forall k | k in store'.rows && k !in store.rows :: store'.rows[k].state == Pending
    ensures Counted(store', dispatches)
  {
  }

  // ---------------------------------------------------------------------------------- the steps

  lemma RecoverHolds(store: Store, dispatches: multiset<Key>, handle: Handle, env: Env, batch: set<nat>, at: int)
    requires Before(store, dispatches, handle)
    ensures StepHolds(store, dispatches, handle, RecoverStep(store, handle, env, batch, at))
  {
    var o := RecoverStep(store, handle, env, batch, at);
    RecoverRowsKeep(store, batch, at);
    CountedFollow(store, RecoverRows(store, batch, at), dispatches);
    SameRows(store);
    FailedOwner(handle.owner);
    TransactIsAtomic(store, handle.owner, env, true, (s: Store) => Ok((RecoverRows(s, batch, at), ())));
    hide StepHolds, Transact, Counted, RowsKept, RowsHold, OwnerHolds, RecoverRows, FenceIs;
    QuietStep(store, dispatches, handle, o);
  }

  lemma FinishHolds(store: Store, dispatches: multiset<Key>, handle: Handle, env: Env)
    requires Before(store, dispatches, handle)
    ensures StepHolds(store, dispatches, handle, FinishStep(store, handle, env))
  {
    var o := FinishStep(store, handle, env);
    SameRows(store);
    FailedOwner(handle.owner);
    assert InboxHolds(o.handle) && TurnHolds(store, dispatches, o.handle) by { hide Counted, RowsHold, FenceIs, IntendedKeys, Guard; }
    hide StepHolds, Guard, Counted, RowsKept, RowsHold, OwnerHolds, FenceIs, IntendedKeys, InboxHolds, TurnHolds;
    QuietStep(store, dispatches, handle, o);
  }

  lemma AcceptHolds(store: Store, dispatches: multiset<Key>, handle: Handle, env: Env, envelope: Envelope, destination: Option<Destination>,
                    before: bool, inTime: bool, after: bool, now: int, inboxId: nat)
    requires Before(store, dispatches, handle)
    ensures StepHolds(store, dispatches, handle, AcceptStep(store, handle, env, envelope, destination, before, inTime, after, now, inboxId))
  {
    var o := AcceptStep(store, handle, env, envelope, destination, before, inTime, after, now, inboxId);
    SameRows(store);
    FailedOwner(handle.owner);
    TransactIsAtomic(store, handle.owner, env, true, (s: Store) => AcceptRow(s, envelope, destination, inTime, now, inboxId));
    var accepted := AcceptRow(store, envelope, destination, inTime, now, inboxId);
    if accepted.Ok? {
      AcceptRowKeeps(store, envelope, destination, inTime, now, inboxId);
      CountedFollow(store, accepted.value.0, dispatches);
    }
    hide StepHolds, Transact, AcceptRow, Counted, RowsKept, RowsHold, OwnerHolds, FenceIs;
    QuietStep(store, dispatches, handle, o);
  }

  lemma InspectHolds(store: Store, dispatches: multiset<Key>, handle: Handle, env: Env, key: Key, parent: string, revision: nat,
                     destination: Option<Destination>, before: bool, after: bool)
    requires Before(store, dispatches, handle)
    ensures StepHolds(store, dispatches, handle, InspectStep(store, handle, env, key, parent, revision, destination, before, after))
  {
    SameRows(store);
    FailedOwner(handle.owner);
    hide StepHolds, Counted, RowsKept, RowsHold, OwnerHolds, FenceIs;
    QuietStep(store, dispatches, handle, InspectStep(store, handle, env, key, parent, revision, destination, before, after));
  }

  lemma ReadHolds(store: Store, dispatches: multiset<Key>, handle: Handle, env: Env, key: Key)
    requires Before(store, dispatches, handle)
    ensures StepHolds(store, dispatches, handle, ReadStep(store, handle, env, key))
  {
    SameRows(store);
    FailedOwner(handle.owner);
    hide StepHolds, Counted, RowsKept, RowsHold, OwnerHolds, FenceIs;
    QuietStep(store, dispatches, handle, ReadStep(store, handle, env, key));
  }

  lemma DismissHolds(store: Store, dispatches: multiset<Key>, handle: Handle, env: Env, key: Key, reason: string, now: int)
    requires Before(store, dispatches, handle) && handle.inbox.Some? && handle.inbox.value.phase == Read(key)
    ensures var t := Transact(store, handle.owner, env, true, (s: Store) => SettleRow(s, key, Dismissed, Some(reason), now));
      StepHolds(store, dispatches, handle, WithOwner(t.store, To(handle, Ready), t.owner))
  {
    var t := Transact(store, handle.owner, env, true, (s: Store) => SettleRow(s, key, Dismissed, Some(reason), now));
    SameRows(store);
    FailedOwner(handle.owner);
    TransactIsAtomic(store, handle.owner, env, true, (s: Store) => SettleRow(s, key, Dismissed, Some(reason), now));
    if t.result.Ok? {
      SettleRowKeeps(store, key, Dismissed, Some(reason), now);
      CountedOneRow(store, t.store, dispatches, key, Pending, Dismissed);
    }
    hide StepHolds, Transact, SettleRow, Counted, RowsKept, RowsHold, OwnerHolds, FenceIs;
    QuietStep(store, dispatches, handle, WithOwner(t.store, To(handle, Ready), t.owner));
  }

  lemma BlockHolds(store: Store, dispatches: multiset<Key>, handle: Handle, key: Key)
    requires Before(store, dispatches, handle) && handle.inbox.Some? && handle.inbox.value.phase == Read(key)
    ensures StepHolds(store, dispatches, handle, Unchanged(store, To(handle, Ready)))
  {
    SameRows(store);
    hide StepHolds, Counted, RowsKept, RowsHold, OwnerHolds, FenceIs;
    QuietStep(store, dispatches, handle, Unchanged(store, To(handle, Ready)));
  }

  lemma ProceedHolds(store: Store, dispatches: multiset<Key>, handle: Handle, env: Env, key: Key)
    requires Before(store, dispatches, handle) && handle.inbox.Some? && handle.inbox.value.phase == Read(key)
    ensures var (owner, token) := Retain(store, handle.owner, env.current);
      StepHolds(store, dispatches, handle,
                if token.Err? then WithOwner(store, To(handle, Ready), owner)
                else Unchanged(store, Handle(owner, Some(handle.inbox.value.(phase := Retained(key), token := Some(token.value))))))
  {
    var (owner, token) := Retain(store, handle.owner, env.current);
    SameRows(store);
    OwnerKept(store, handle.owner, env, Token(0, 0), 0, 0);
    var o := if token.Err? then WithOwner(store, To(handle, Ready), owner)
             else Unchanged(store, Handle(owner, Some(handle.inbox.value.(phase := Retained(key), token := Some(token.value)))));
    assert InboxHolds(o.handle) by { hide Counted, RowsHold, OwnerHolds, FenceIs; }
    hide StepHolds, Counted, RowsKept, RowsHold, OwnerHolds, InboxHolds, FenceIs;
    QuietStep(store, dispatches, handle, o);
  }

  lemma ConsiderHolds(store: Store, dispatches: multiset<Key>, handle: Handle, env: Env, destination: Option<Destination>, now: int)
    requires Before(store, dispatches, handle)
    ensures StepHolds(store, dispatches, handle, ConsiderStep(store, handle, env, destination, now))
  {
    if handle.inbox.Some? && handle.inbox.value.phase.Read? {
      var key := handle.inbox.value.phase.key;
      assert key in store.rows;
      hide StepHolds, Before, Decide;
      match Decide(store.rows[key].envelope, destination, now)
      case Block(_) => BlockHolds(store, dispatches, handle, key);
      case Dismiss(reason) => DismissHolds(store, dispatches, handle, env, key, reason, now);
      case Proceed => ProceedHolds(store, dispatches, handle, env, key);
    } else {
      SameRows(store);
      hide StepHolds, Counted, RowsKept, RowsHold, OwnerHolds, FenceIs;
      QuietStep(store, dispatches, handle, Unchanged(store, handle));
    }
  }

  lemma ReturnHolds(store: Store, dispatches: multiset<Key>, handle: Handle)
    requires Before(store, dispatches, handle) && handle.inbox.Some? && HoldsProducer(handle.inbox.value.phase)
    ensures StepHolds(store, dispatches, handle, Unchanged(store, Returned(handle)))
  {
    SameRows(store);
    OwnerKept(store, handle.owner, Env(true, true, true, true, true, true, true, true), Token(0, 0), handle.inbox.value.token.value, 0);
    hide StepHolds, Counted, RowsKept, RowsHold, OwnerHolds, FenceIs;
    QuietStep(store, dispatches, handle, Unchanged(store, Returned(handle)));
  }

  lemma TakeTurnHolds(store: Store, dispatches: multiset<Key>, handle: Handle, granted: bool)
    requires Before(store, dispatches, handle)
    ensures StepHolds(store, dispatches, handle, TakeTurnStep(store, handle, granted))
  {
    SameRows(store);
    if handle.inbox.Some? && handle.inbox.value.phase.Retained? && !granted {
      ReturnHolds(store, dispatches, handle);
    } else {
      hide StepHolds, Counted, RowsKept, RowsHold, OwnerHolds, FenceIs;
      QuietStep(store, dispatches, handle, TakeTurnStep(store, handle, granted));
    }
  }

  lemma RecordHolds(store: Store, dispatches: multiset<Key>, handle: Handle, env: Env, key: Key, dispatchId: nat)
    requires Before(store, dispatches, handle) && handle.inbox.Some? && handle.inbox.value.phase == Leased(key)
    ensures var t := Transact(store, handle.owner, env, true, (s: Store) => IntendRow(s, key, dispatchId));
      StepHolds(store, dispatches, handle, WithOwner(t.store, To(handle, if t.result.Ok? then Planned(key) else Releasing(0)), t.owner))
  {
    var t := Transact(store, handle.owner, env, true, (s: Store) => IntendRow(s, key, dispatchId));
    var phase := if t.result.Ok? then Planned(key) else Releasing(0);
    SameRows(store);
    FailedOwner(handle.owner);
    TransactIsAtomic(store, handle.owner, env, true, (s: Store) => IntendRow(s, key, dispatchId));
    PhaseMoves(handle, t.owner, phase);
    if t.result.Ok? {
      IntendRowKeeps(store, key, dispatchId);
      CountedOneRow(store, t.store, dispatches, key, Pending, Intended);
      assert key !in dispatches;
    }
    hide StepHolds, Transact, IntendRow, Counted, RowsKept, RowsHold, OwnerHolds, FenceIs, InboxHolds;
    QuietStep(store, dispatches, handle, WithOwner(t.store, To(handle, phase), t.owner));
  }

  lemma IntendHolds(store: Store, dispatches: multiset<Key>, handle: Handle, env: Env, current: bool, dispatchId: nat)
    requires Before(store, dispatches, handle)
    ensures StepHolds(store, dispatches, handle, IntendStep(store, handle, env, current, dispatchId))
  {
    if handle.inbox.Some? && handle.inbox.value.phase.Leased? && current && !handle.inbox.value.closing {
      hide StepHolds, Before, Transact;
      RecordHolds(store, dispatches, handle, env, handle.inbox.value.phase.key, dispatchId);
    } else {
      SameRows(store);
      hide StepHolds, Transact, Counted, RowsKept, RowsHold, OwnerHolds, FenceIs;
      QuietStep(store, dispatches, handle, IntendStep(store, handle, env, current, dispatchId));
    }
  }

  /** The dispatch itself: its row is intended and was never dispatched before. */
  lemma DispatchHolds(store: Store, dispatches: multiset<Key>, handle: Handle, key: Key)
    requires Before(store, dispatches, handle) && handle.inbox.Some? && handle.inbox.value.phase == Planned(key) && handle.owner.locked
    ensures StepHolds(store, dispatches, handle, Outcome(store, To(handle, Called(key)), Some(key), None))
  {
    assert Counted(store, dispatches + multiset{key}) by { hide RowsHold, OwnerHolds, InboxHolds, FenceIs; }
    PhaseMoves(handle, handle.owner, Called(key));
    assert TurnHolds(store, dispatches + multiset{key}, To(handle, Called(key))) by { hide RowsHold, OwnerHolds, InboxHolds, FenceIs, Counted; }
    SameRows(store);
    hide Counted, RowsHold, OwnerHolds, InboxHolds, TurnHolds, FenceIs;
  }

  lemma CallHolds(store: Store, dispatches: multiset<Key>, handle: Handle, env: Env, current: bool)
    requires Before(store, dispatches, handle)
    ensures StepHolds(store, dispatches, handle, CallStep(store, handle, env, current))
  {
    var o := CallStep(store, handle, env, current);
    SameRows(store);
    FailedOwner(handle.owner);
    hide StepHolds, Guard, Counted, RowsKept, RowsHold, OwnerHolds, FenceIs;
    if o.dispatched == None {
      QuietStep(store, dispatches, handle, o);
    } else {
      DispatchHolds(store, dispatches, handle, o.dispatched.value);
    }
  }

  /** A settlement on the row of the turn in hand, whatever comes of it. */
  lemma SettleHolds(store: Store, dispatches: multiset<Key>, handle: Handle, env: Env, key: Key, state: RowState, reason: Option<string>, at: int, after: Phase)
    requires Before(store, dispatches, handle) && handle.inbox.Some? && HoldsProducer(handle.inbox.value.phase)
    requires handle.inbox.value.phase == Called(key) || handle.inbox.value.phase == Settling(key)
    requires state == RecoveryRequired || (state == Acknowledged && handle.inbox.value.phase == Called(key))
    requires after.Releasing? || (after == Settling(key) && Transact(store, handle.owner, env, true, (s: Store) => SettleRow(s, key, state, reason, at)).result.Err?)
    ensures var t := Transact(store, handle.owner, env, true, (s: Store) => SettleRow(s, key, state, reason, at));
      StepHolds(store, dispatches, handle, WithOwner(t.store, To(handle, after), t.owner))
  {
    var t := Transact(store, handle.owner, env, true, (s: Store) => SettleRow(s, key, state, reason, at));
    SameRows(store);
    FailedOwner(handle.owner);
    TransactIsAtomic(store, handle.owner, env, true, (s: Store) => SettleRow(s, key, state, reason, at));
    if t.result.Ok? {
      SettleRowKeeps(store, key, state, reason, at);
      CountedOneRow(store, t.store, dispatches, key, Intended, state);
    }
    PhaseMoves(handle, t.owner, after);
    hide StepHolds, Transact, SettleRow, Counted, RowsKept, RowsHold, OwnerHolds, FenceIs, InboxHolds;
    QuietStep(store, dispatches, handle, WithOwner(t.store, To(handle, after), t.owner));
  }

  lemma AnsweredHolds(store: Store, dispatches: multiset<Key>, handle: Handle, env: Env, response: Response, at: int)
    requires Before(store, dispatches, handle)
    ensures StepHolds(store, dispatches, handle, AnsweredStep(store, handle, env, response, at))
  {
    var o := AnsweredStep(store, handle, env, response, at);
    if handle.inbox.Some? && handle.inbox.value.phase.Called? && !response.ParentThrew? {
      var key := handle.inbox.value.phase.key;
      var state := if response.ParentAcknowledged? then Acknowledged else RecoveryRequired;
      var reason := if response.ParentAcknowledged? then None else Some("dispatch_uncertain");
      TransactAlike(store, handle.owner, env, (s: Store) => SettleRow(s, key, state, reason, at), (s: Store) =>
          if response.ParentAcknowledged? then SettleRow(s, key, Acknowledged, None, at)
          else SettleRow(s, key, RecoveryRequired, Some("dispatch_uncertain"), at));
      hide StepHolds, Transact, Before;
      SettleHolds(store, dispatches, handle, env, key, state, reason, at, o.handle.inbox.value.phase);
    } else {
      SameRows(store);
      hide StepHolds, Counted, RowsKept, RowsHold, OwnerHolds, FenceIs;
      QuietStep(store, dispatches, handle, o);
    }
  }

  lemma TransactAlike<A>(store: Store, owner: Owner, env: Env, f: Store -> Result<(Store, A), Failure>, g: Store -> Result<(Store, A), Failure>)
    requires f(store) == g(store)
    ensures Transact(store, owner, env, true, f) == Transact(store, owner, env, true, g)
  {
  }

  lemma GiveUpHolds(store: Store, dispatches: multiset<Key>, handle: Handle, env: Env, at: int)
    requires Before(store, dispatches, handle)
    ensures StepHolds(store, dispatches, handle, GiveUpStep(store, handle, env, at))
  {
    if handle.inbox.Some? && handle.inbox.value.phase.Settling? {
      SettleHolds(store, dispatches, handle, env, handle.inbox.value.phase.key, RecoveryRequired, Some("dispatch_uncertain"), at, Releasing(0));
    } else {
      SameRows(store);
      hide StepHolds, Counted, RowsKept, RowsHold, OwnerHolds, FenceIs;
      QuietStep(store, dispatches, handle, GiveUpStep(store, handle, env, at));
    }
  }

  lemma ReleaseTurnHolds(store: Store, dispatches: multiset<Key>, handle: Handle, released: bool)
    requires Before(store, dispatches, handle)
    ensures StepHolds(store, dispatches, handle, ReleaseStep(store, handle, released))
  {
    SameRows(store);
    if handle.inbox.Some? && handle.inbox.value.phase.Releasing? && released {
      ReturnHolds(store, dispatches, handle);
    } else {
      hide StepHolds, Counted, RowsKept, RowsHold, OwnerHolds, FenceIs;
      QuietStep(store, dispatches, handle, ReleaseStep(store, handle, released));
    }
  }

  lemma AcquireHolds(store: Store, dispatches: multiset<Key>, handle: Handle, env: Env, nonce: nat)
    requires Before(store, dispatches, handle)
    ensures StepHolds(store, dispatches, handle, Step(store, handle, AcquireOwner(env, nonce)))
  {
    var t := Acquire(store, handle.owner, env, nonce);
    OwnerKept(store, handle.owner, env, Token(0, 0), 0, nonce);
    AcquireMoves(store, handle.owner, env, nonce);
    SameRows(store);
    assert InboxHolds(handle.(owner := t.owner));
    hide Acquire, OwnerHolds, RowsHold, Counted, InboxHolds, FenceIs;
  }

  /** An acquisition either leaves store and token alone, or moves the fence to its new token. */
  lemma AcquireMoves(store: Store, owner: Owner, env: Env, nonce: nat)
    ensures var t := Acquire(store, owner, env, nonce);
      && t.store.rows == store.rows && t.owner.tokens == owner.tokens && t.owner.locked == owner.locked
      && if t.owner.token == owner.token then t.store == store
         else owner.token == None && owner.locked && t.owner.token.Some? && FenceIs(t.store, t.owner.token.value)
              && t.store.epoch == store.epoch + 1
  {
  }

  /** The owner's own calls: nothing is returned that the inbox still holds. */
  lemma OwnerCallHolds(store: Store, dispatches: multiset<Key>, handle: Handle, owner: Owner)
    requires Before(store, dispatches, handle) && OwnerHolds(owner)
    requires owner.token == handle.owner.token || owner.token == None
    requires !handle.owner.locked ==> !owner.locked
    requires handle.inbox.Some? && handle.inbox.value.token.Some? ==> handle.inbox.value.token.value in owner.tokens
    ensures StepHolds(store, dispatches, handle, WithOwner(store, handle, owner))
  {
    SameRows(store);
    hide StepHolds, Counted, RowsKept, RowsHold, OwnerHolds, FenceIs;
    QuietStep(store, dispatches, handle, WithOwner(store, handle, owner));
  }
}
