/** The parent inbox table, and the actions its transactions run on it. */
module InboxRows {
  import opened Wrappers

  datatype Key = Key(storeId: string, notificationId: string)
  datatype Policy = NextTurn | Automatic | Collect
  datatype Envelope = Envelope(key: Key, parent: string, revision: nat, policy: Policy, expiresAt: int, content: string)
  datatype RowState = Pending | Intended | Acknowledged | RecoveryRequired | Dismissed

  /** `delegation_parent_inbox`: the digest is modelled by the envelope itself. */
  datatype Row = Row(envelope: Envelope, inboxId: nat, acceptedAt: int, state: RowState,
                     dispatchId: Option<nat>, settledAt: Option<int>, reason: Option<string>)

  /** The persisted database: the inbox rows, unique by key, and the owner fence. */
  datatype Store = Store(rows: map<Key, Row>, epoch: nat, nonce: Option<nat>)

  datatype Failure = OwnerLost | StoreFailed | CapacityFailure | Thrown(message: string)

  predicate IsSettled(state: RowState) {
    state == Acknowledged || state == RecoveryRequired || state == Dismissed
  }

  /** What a row is accepted with and keeps for good. */
  predicate SameIdentity(row: Row, row': Row) {
    row'.envelope == row.envelope && row'.inboxId == row.inboxId && row'.acceptedAt == row.acceptedAt
  }

  // ---------------------------------------------------------------------------------- current authority of a parent

  datatype Lifecycle = Idle | Retired | Unavailable(name: string)
  datatype Destination = Destination(revision: nat, lifecycle: Lifecycle, resultAccess: bool, executionAllowed: bool)

  datatype Acceptance = Accepted(inboxId: nat, acceptedAt: int) | Rejected(reason: string) | Blocked(reason: string)

  /** `availability`. */
  function Denial(destination: Option<Destination>, revision: nat): Option<Acceptance> {
    match destination
    case None => Some(Blocked("authority_unavailable"))
    case Some(d) =>
      if d.revision != revision || !d.resultAccess then Some(Rejected("revoked"))
      else if d.lifecycle == Retired then Some(Rejected("parent_retired"))
      else None
  }

  datatype Decision = Block(reason: string) | Dismiss(reason: string) | Proceed

  /** What `dispatchOne` does with a pending record under the parent's current authority. */
  function Decide(envelope: Envelope, destination: Option<Destination>, now: int): Decision {
    match destination
    case None => Block("authority_unavailable")
    case Some(d) =>
      if d.revision != envelope.revision || !d.resultAccess then Dismiss("revoked")
      else if d.lifecycle == Retired then Dismiss("parent_retired")
      else if envelope.expiresAt <= now then Dismiss("expired")
      else if d.lifecycle != Idle then Block("lifecycle")
      else if !d.executionAllowed then Block("execution_unavailable")
      else Proceed
  }

  // ---------------------------------------------------------------------------------- actions

  predicate UsesInboxId(rows: map<Key, Row>, inboxId: nat) {
    exists k | k in rows :: rows[k].inboxId == inboxId
  }

  /** The transaction of `accept`: an old row answers, a new one is inserted, conflicting content throws. */
  function AcceptRow(store: Store, envelope: Envelope, destination: Option<Destination>, inTime: bool, now: int, inboxId: nat): Result<(Store, Acceptance), Failure> {
    var key := envelope.key;
    if !inTime then Err(Thrown("deadline"))
    else if Denial(destination, envelope.revision).Some? then Ok((store, Denial(destination, envelope.revision).value))
    else if key in store.rows then
      if store.rows[key].envelope != envelope then Err(Thrown("conflicting content"))
      else Ok((store, Accepted(store.rows[key].inboxId, store.rows[key].acceptedAt)))
    else if envelope.expiresAt <= now then Ok((store, Rejected("expired")))
    else if envelope.policy == Collect then Err(Thrown("collect"))
    else if UsesInboxId(store.rows, inboxId) then Err(Thrown("unique"))
    else Ok((store.(rows := store.rows[key := Row(envelope, inboxId, now, Pending, None, None, None)]), Accepted(inboxId, now)))
  }

  /** The state a row must be in to be settled this way. */
  function Expected(state: RowState): RowState {
    if state == Dismissed then Pending else Intended
  }

  /** `settle`: compare and set, and no error when the row already has that outcome. */
  function SettleRow(store: Store, key: Key, state: RowState, reason: Option<string>, at: int): Result<(Store, ()), Failure> {
    if key in store.rows && store.rows[key].state == Expected(state) then
      Ok((store.(rows := store.rows[key := store.rows[key].(state := state, reason := reason, settledAt := Some(at))]), ()))
    else if key in store.rows && store.rows[key].state == state then Ok((store, ()))
    else Err(Thrown("already settled or unavailable"))
  }

  /** The intent is recorded by compare and set before anything is dispatched. */
  function IntendRow(store: Store, key: Key, dispatchId: nat): Result<(Store, ()), Failure> {
    if key in store.rows && store.rows[key].state == Pending then
      Ok((store.(rows := store.rows[key := store.rows[key].(state := Intended, dispatchId := Some(dispatchId))]), ()))
    else Err(Thrown("the parent inbox dispatch state changed"))
  }

  predicate InBatch(rows: map<Key, Row>, key: Key, batch: set<nat>) {
    key in rows && rows[key].state == Intended && rows[key].inboxId in batch
  }

  /** One recovery batch: the intents a former executor left behind are retired. */
  function RecoverRows(store: Store, batch: set<nat>, at: int): Store {
    store.(rows := map k | k in store.rows ::
      if InBatch(store.rows, k, batch)
      then store.rows[k].(state := RecoveryRequired, reason := Some("prior_executor_lost"), settledAt := Some(at))
      else store.rows[k])
  }

  function IntendedKeys(store: Store): set<Key> {
    set k | k in store.rows && store.rows[k].state == Intended
  }

  // ---------------------------------------------------------------------------------- what every action keeps

  /** No row is lost, renamed or reopened, and a settled state is final. */
  ghost predicate RowsFollow(rows: map<Key, Row>, rows': map<Key, Row>) {
    && rows.Keys <= rows'.Keys
    && forall k | k in rows :: SameIdentity(rows[k], rows'[k]) && StateFollows(rows[k].state, rows'[k].state)
  }

  predicate StateFollows(state: RowState, state': RowState) {
    match state
    case Pending => true
    case Intended => state' == Intended || state' == Acknowledged || state' == RecoveryRequired
    case _ => state' == state
  }

  lemma FollowTransitive(first: map<Key, Row>, second: map<Key, Row>, third: map<Key, Row>)
    requires RowsFollow(first, second) && RowsFollow(second, third)
    ensures RowsFollow(first, third)
  {
  }
}
