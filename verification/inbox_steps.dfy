/**
 The parent inbox of one handle, one synchronous step at a time: between any two steps another call, a dispose or a
 crash may come in. A step that is not enabled changes nothing.
 */
module InboxSteps {
  import opened InboxRows
  import opened OwnerHandle
  import opened Wrappers

  /** Where the active dispatch page stands in `dispatchOne`. */
  datatype Phase =
    | Ready
    | Read(key: Key)
    | Retained(key: Key)
    | Leased(key: Key)
    | Planned(key: Key)
    | Called(key: Key)
    | Settling(key: Key)
    | Releasing(attempt: nat)

  /** `ParentInboxContext`; `token` is the producer it holds for a turn, kept for good when the turn cannot be released. */
  datatype Inbox = Inbox(closing: bool, releaseFailed: bool, recovered: bool, active: bool, phase: Phase, token: Option<nat>)

  const FRESH_INBOX := Inbox(false, false, false, false, Ready, None)

  datatype Handle = Handle(owner: Owner, inbox: Option<Inbox>)

  datatype Answer = Answer(key: Key, inboxId: nat, acceptedAt: int)
  datatype Outcome = Outcome(store: Store, handle: Handle, dispatched: Option<Key>, answered: Option<Answer>)
  datatype Response = ParentAcknowledged | ParentUncertain | ParentThrew

  datatype Action =
    | AcquireOwner(env: Env, nonce: nat)
    | ReleaseOwner(token: Token)
    | CloseHandle
    | RetainProducer(env: Env)
    | ReturnProducer(id: nat)
    | Fault
    | OpenInbox
    | RecoverBatch(env: Env, batch: set<nat>, at: int)
    | FinishRecovery(env: Env)
    | Accept(env: Env, envelope: Envelope, destination: Option<Destination>, before: bool, inTime: bool, after: bool, now: int, inboxId: nat)
    | Inspect(env: Env, key: Key, parent: string, revision: nat, destination: Option<Destination>, before: bool, after: bool)
    | BeginPage
    | ReadRecord(env: Env, key: Key)
    | Consider(env: Env, destination: Option<Destination>, now: int)
    | TakeTurn(granted: bool)
    | RecordIntent(env: Env, current: bool, dispatchId: nat)
    | CallParent(env: Env, current: bool)
    | ParentAnswered(env: Env, response: Response, at: int)
    | GiveUp(env: Env, at: int)
    | ReleaseTurn(released: bool)
    | EndPage
    | Dispose

  function Unchanged(store: Store, handle: Handle): Outcome {
    Outcome(store, handle, None, None)
  }

  function WithOwner(store: Store, handle: Handle, owner: Owner): Outcome {
    Outcome(store, handle.(owner := owner), None, None)
  }

  function WithInbox(store: Store, handle: Handle, inbox: Inbox): Outcome {
    Outcome(store, handle.(inbox := Some(inbox)), None, None)
  }

  predicate Open(handle: Handle) {
    handle.inbox.Some? && handle.inbox.value.recovered && !handle.inbox.value.closing
  }

  predicate At(handle: Handle, phase: Phase) {
    handle.inbox.Some? && handle.inbox.value.phase == phase
  }

  // ---------------------------------------------------------------------------------- recovery and acceptance

  /** One pass of `ensureRecovered` that found intents: a transaction retires those of its batch. */
  function RecoverStep(store: Store, handle: Handle, env: Env, batch: set<nat>, at: int): Outcome {
    if handle.inbox == None || handle.inbox.value.recovered || handle.inbox.value.closing then Unchanged(store, handle)
    else
      var t := Transact(store, handle.owner, env, true, (s: Store) => Ok((RecoverRows(s, batch, at), ())));
      WithOwner(t.store, handle, t.owner)
  }

  /** The pass that found none. */
  function FinishStep(store: Store, handle: Handle, env: Env): Outcome {
    if handle.inbox == None || handle.inbox.value.recovered || handle.inbox.value.closing then Unchanged(store, handle)
    else
      var (owner, refused) := Guard(store, handle.owner, true, env.current);
      if refused.Some? || IntendedKeys(store) != {} then WithOwner(store, handle, owner)
      else WithInbox(store, handle, handle.inbox.value.(recovered := true))
  }

  /** `accept`: a deadline that passes after the commit loses the answer, not the row. */
  function AcceptStep(store: Store, handle: Handle, env: Env, envelope: Envelope, destination: Option<Destination>,
                      before: bool, inTime: bool, after: bool, now: int, inboxId: nat): Outcome {
    if !Open(handle) || !before then Unchanged(store, handle)
    else
      var t := Transact(store, handle.owner, env, true, (s: Store) => AcceptRow(s, envelope, destination, inTime, now, inboxId));
      Outcome(t.store, handle.(owner := t.owner), None,
              if t.result.Ok? && t.result.value.Accepted? && after
              then Some(Answer(envelope.key, t.result.value.inboxId, t.result.value.acceptedAt)) else None)
  }

  /** The port's `inspect`. */
  function InspectStep(store: Store, handle: Handle, env: Env, key: Key, parent: string, revision: nat,
                       destination: Option<Destination>, before: bool, after: bool): Outcome {
    if !Open(handle) || !before then Unchanged(store, handle)
    else
      var (owner, refused) := Guard(store, handle.owner, true, env.current);
      if refused.Some? || Denial(destination, revision).Some? || key !in store.rows || !after
         || store.rows[key].envelope.parent != parent || store.rows[key].envelope.revision != revision
      then WithOwner(store, handle, owner)
      else Outcome(store, handle, None, Some(Answer(key, store.rows[key].inboxId, store.rows[key].acceptedAt)))
  }

  // ---------------------------------------------------------------------------------- a dispatch page

  /** The loop of `dispatchPending` reads the next record that is still pending. */
  function ReadStep(store: Store, handle: Handle, env: Env, key: Key): Outcome {
    if !Open(handle) || !At(handle, Ready) || !handle.inbox.value.active || handle.inbox.value.releaseFailed then Unchanged(store, handle)
    else
      var (owner, refused) := Guard(store, handle.owner, true, env.current);
      if refused.Some? || key !in store.rows || store.rows[key].state != Pending then WithOwner(store, handle, owner)
      else WithInbox(store, handle, handle.inbox.value.(phase := Read(key)))
  }

  function To(handle: Handle, phase: Phase): Handle
    requires handle.inbox.Some?
  {
    handle.(inbox := Some(handle.inbox.value.(phase := phase)))
  }

  /** Current authority decides: blocked, dismissed, or a producer is retained for the turn. */
  function ConsiderStep(store: Store, handle: Handle, env: Env, destination: Option<Destination>, now: int): Outcome {
    if handle.inbox == None || !handle.inbox.value.phase.Read? || handle.inbox.value.phase.key !in store.rows then Unchanged(store, handle)
    else
      var key := handle.inbox.value.phase.key;
      match Decide(store.rows[key].envelope, destination, now)
      case Block(_) => Unchanged(store, To(handle, Ready))
      case Dismiss(reason) =>
        var t := Transact(store, handle.owner, env, true, (s: Store) => SettleRow(s, key, Dismissed, Some(reason), now));
        WithOwner(t.store, To(handle, Ready), t.owner)
      case Proceed =>
        var (owner, token) := Retain(store, handle.owner, env.current);
        if token.Err? then WithOwner(store, To(handle, Ready), owner)
        else Unchanged(store, Handle(owner, Some(handle.inbox.value.(phase := Retained(key), token := Some(token.value)))))
  }

  /** The producer goes back and the page goes on. */
  function Returned(handle: Handle): Handle
    requires handle.inbox.Some?
  {
    Handle(if handle.inbox.value.token.Some? then Return(handle.owner, handle.inbox.value.token.value) else handle.owner,
           Some(handle.inbox.value.(phase := Ready, token := None)))
  }

  function TakeTurnStep(store: Store, handle: Handle, granted: bool): Outcome {
    if handle.inbox == None || !handle.inbox.value.phase.Retained? then Unchanged(store, handle)
    else if granted then Unchanged(store, To(handle, Leased(handle.inbox.value.phase.key)))
    else Unchanged(store, Returned(handle))
  }

  /** The intent is committed only under a current lease that was not aborted. */
  function IntendStep(store: Store, handle: Handle, env: Env, current: bool, dispatchId: nat): Outcome {
    if handle.inbox == None || !handle.inbox.value.phase.Leased? then Unchanged(store, handle)
    else if !current || handle.inbox.value.closing then Unchanged(store, To(handle, Releasing(0)))
    else
      var key := handle.inbox.value.phase.key;
      var t := Transact(store, handle.owner, env, true, (s: Store) => IntendRow(s, key, dispatchId));
      WithOwner(t.store, To(handle, if t.result.Ok? then Planned(key) else Releasing(0)), t.owner)
  }

  /** `lease.dispatch` is called: the one step with an effect outside. */
  function CallStep(store: Store, handle: Handle, env: Env, current: bool): Outcome {
    if handle.inbox == None || !handle.inbox.value.phase.Planned? then Unchanged(store, handle)
    else
      var key := handle.inbox.value.phase.key;
      var (owner, refused) := Guard(store, handle.owner, true, env.current);
      if !current || handle.inbox.value.closing then Unchanged(store, To(handle, Settling(key)))
      else if refused.Some? then WithOwner(store, To(handle, Settling(key)), owner)
      else Outcome(store, To(handle, Called(key)), Some(key), None)
  }

  function AnsweredStep(store: Store, handle: Handle, env: Env, response: Response, at: int): Outcome {
    if handle.inbox == None || !handle.inbox.value.phase.Called? then Unchanged(store, handle)
    else
      var key := handle.inbox.value.phase.key;
      if response.ParentThrew? then Unchanged(store, To(handle, Settling(key)))
      else
        var t := Transact(store, handle.owner, env, true, (s: Store) =>
          if response.ParentAcknowledged? then SettleRow(s, key, Acknowledged, None, at)
          else SettleRow(s, key, RecoveryRequired, Some("dispatch_uncertain"), at));
        WithOwner(t.store, To(handle, if t.result.Ok? then Releasing(0) else Settling(key)), t.owner)
  }

  /** The catch branch after an intent; whether it can settle or not, the lease is released. */
  function GiveUpStep(store: Store, handle: Handle, env: Env, at: int): Outcome {
    if handle.inbox == None || !handle.inbox.value.phase.Settling? then Unchanged(store, handle)
    else
      var key := handle.inbox.value.phase.key;
      var t := Transact(store, handle.owner, env, true, (s: Store) => SettleRow(s, key, RecoveryRequired, Some("dispatch_uncertain"), at));
      WithOwner(t.store, To(handle, Releasing(0)), t.owner)
  }

  /** `releaseTurn`: two attempts, then the lease and its producer are kept and the inbox stops. */
  function ReleaseStep(store: Store, handle: Handle, released: bool): Outcome {
    if handle.inbox == None || !handle.inbox.value.phase.Releasing? then Unchanged(store, handle)
    else if released then Unchanged(store, Returned(handle))
    else if handle.inbox.value.phase.attempt == 0 then Unchanged(store, To(handle, Releasing(1)))
    else WithInbox(store, handle, handle.inbox.value.(phase := Ready, releaseFailed := true))
  }

  // ---------------------------------------------------------------------------------- every step

  function Step(store: Store, handle: Handle, action: Action): Outcome {
    match action
    case AcquireOwner(env, nonce) =>
      var t := Acquire(store, handle.owner, env, nonce);
      WithOwner(t.store, handle, t.owner)
    case ReleaseOwner(token) => WithOwner(store, handle, Release(handle.owner, token).0)
    case CloseHandle => WithOwner(store, handle, CloseUnused(handle.owner).0)
    case RetainProducer(env) => WithOwner(store, handle, Retain(store, handle.owner, env.current).0)
    case ReturnProducer(id) =>
      if handle.inbox.Some? && handle.inbox.value.token == Some(id) then Unchanged(store, handle)
      else WithOwner(store, handle, Return(handle.owner, id))
    case Fault => WithOwner(store, handle, handle.owner.(failed := true))
    case OpenInbox => if handle.inbox == None then WithInbox(store, handle, FRESH_INBOX) else Unchanged(store, handle)
    case RecoverBatch(env, batch, at) => RecoverStep(store, handle, env, batch, at)
    case FinishRecovery(env) => FinishStep(store, handle, env)
    case Accept(env, envelope, destination, before, inTime, after, now, inboxId) =>
      AcceptStep(store, handle, env, envelope, destination, before, inTime, after, now, inboxId)
    case Inspect(env, key, parent, revision, destination, before, after) =>
      InspectStep(store, handle, env, key, parent, revision, destination, before, after)
    case BeginPage =>
      if handle.inbox == None || handle.inbox.value.active then Unchanged(store, handle)
      else WithInbox(store, handle, handle.inbox.value.(active := true))
    case ReadRecord(env, key) => ReadStep(store, handle, env, key)
    case Consider(env, destination, now) => ConsiderStep(store, handle, env, destination, now)
    case TakeTurn(granted) => TakeTurnStep(store, handle, granted)
    case RecordIntent(env, current, dispatchId) => IntendStep(store, handle, env, current, dispatchId)
    case CallParent(env, current) => CallStep(store, handle, env, current)
    case ParentAnswered(env, response, at) => AnsweredStep(store, handle, env, response, at)
    case GiveUp(env, at) => GiveUpStep(store, handle, env, at)
    case ReleaseTurn(released) => ReleaseStep(store, handle, released)
    case EndPage =>
      if !At(handle, Ready) then Unchanged(store, handle) else WithInbox(store, handle, handle.inbox.value.(active := false))
    case Dispose => if handle.inbox == None then Unchanged(store, handle) else WithInbox(store, handle, handle.inbox.value.(closing := true))
  }

  /** What `dispose` answers once its wait is over. */
  predicate AnswersClosed(inbox: Inbox) {
    inbox.closing && !inbox.active && !inbox.releaseFailed
  }

  /** Turns the host has leased to this inbox and not had back. */
  function Leases(inbox: Inbox): nat {
    (if inbox.phase.Leased? || inbox.phase.Planned? || inbox.phase.Called? || inbox.phase.Settling? || inbox.phase.Releasing? then 1 else 0)
    + if inbox.releaseFailed then 1 else 0
  }
}
