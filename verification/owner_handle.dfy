/** One process's handle on the reference database: owner token, failure flags, transactions and retained producers. */
module OwnerHandle {
  import opened InboxRows
  import opened Wrappers

  datatype Token = Token(epoch: nat, nonce: nat)

  /** `tokens` are the retained producers that were not returned, `issued` how many there ever were. */
  datatype Owner = Owner(locked: bool, token: Option<Token>, failed: bool, closed: bool, acquired: bool,
                         producers: nat, tokens: set<nat>, issued: nat)

  const FRESH_OWNER := Owner(true, None, false, false, false, 0, {}, 0)

  /**
   What the outside decides about one call: whether the owner lock and the files are current at each guard, the
   transaction begins, the space suffices before and after, the commit succeeds, an error is fatal or its rollback
   fails, and the checkpoint after a commit succeeds.
   */
  datatype Env = Env(current: bool, stillCurrent: bool, begins: bool, fits: bool, stillFits: bool, commits: bool, fatal: bool, checkpoints: bool)

  predicate FenceIs(store: Store, token: Token) {
    store.epoch == token.epoch && store.nonce == Some(token.nonce)
  }

  /** `guard`: closed and failed handles refuse, and any other refusal fails the handle for good. */
  function Guard(store: Store, owner: Owner, requireOwner: bool, current: bool): (r: (Owner, Option<Failure>))
    ensures r.1 == None ==> r.0 == owner && owner.locked && !owner.closed && !owner.failed
                            && (requireOwner ==> owner.token.Some?) && (owner.token.Some? ==> FenceIs(store, owner.token.value))
    ensures r.0 == owner || r.0 == owner.(failed := true)
  {
    if owner.closed then (owner, Some(OwnerLost))
    else if owner.failed then (owner, Some(StoreFailed))
    else if !(current && owner.locked) || (requireOwner && owner.token == None)
            || (owner.token.Some? && !FenceIs(store, owner.token.value))
    then (owner.(failed := true), Some(OwnerLost))
    else (owner, None)
  }

  datatype Transacted<A> = Transacted(store: Store, owner: Owner, result: Result<A, Failure>)

  /** `transaction`: guard, act, guard again, commit; every failure rolls back. */
  function Transact<A>(store: Store, owner: Owner, env: Env, requireOwner: bool, action: Store -> Result<(Store, A), Failure>): Transacted<A> {
    var entry := Guard(store, owner, requireOwner, env.current);
    if entry.1.Some? then Transacted(store, entry.0, Err(entry.1.value))
    else if !env.begins then Transacted(store, owner.(failed := owner.failed || env.fatal), Err(Thrown("begin")))
    else if !env.fits then Transacted(store, owner.(failed := owner.failed || env.fatal), Err(CapacityFailure))
    else
      match action(store)
      case Err(failure) => Transacted(store, owner.(failed := owner.failed || env.fatal), Err(failure))
      case Ok((store', value)) =>
        var exit := Guard(store', owner, requireOwner, env.stillCurrent);
        if exit.1.Some? then Transacted(store, exit.0, Err(exit.1.value))
        else if !env.stillFits then Transacted(store, owner.(failed := owner.failed || env.fatal), Err(CapacityFailure))
        else if !env.commits then Transacted(store, owner.(failed := owner.failed || env.fatal), Err(Thrown("commit")))
        else Transacted(store', owner.(failed := owner.failed || !env.checkpoints), Ok(value))
  }

  /** A transaction either leaves the database as it was or commits the whole action, under the fence and on a live handle. */
  lemma TransactIsAtomic<A>(store: Store, owner: Owner, env: Env, requireOwner: bool, action: Store -> Result<(Store, A), Failure>)
    ensures var t := Transact(store, owner, env, requireOwner, action);
      && (t.result.Err? ==> t.store == store)
      && (t.result.Ok? ==> action(store) == Ok((t.store, t.result.value)))
      && (t.result.Ok? ==> owner.locked && !owner.closed && !owner.failed && (requireOwner ==> owner.token.Some?))
      && (t.result.Ok? && owner.token.Some? ==> FenceIs(store, owner.token.value) && FenceIs(t.store, owner.token.value))
      && (t.owner == owner || t.owner == owner.(failed := true))
  {
  }

  /** A handle whose next guarded call cannot be refused from within. */
  predicate Able(store: Store, owner: Owner) {
    owner.locked && !owner.closed && !owner.failed && owner.token.Some? && FenceIs(store, owner.token.value)
  }

  /** Nothing outside goes wrong. */
  predicate Good(env: Env) {
    env.current && env.stillCurrent && env.begins && env.fits && env.stillFits && env.commits && env.checkpoints
  }

  /** Then every action that succeeds and leaves the fence alone is committed, and the handle is as before. */
  lemma AbleCommits<A>(store: Store, owner: Owner, env: Env, action: Store -> Result<(Store, A), Failure>)
    requires Able(store, owner) && Good(env) && action(store).Ok?
    requires action(store).value.0.epoch == store.epoch && action(store).value.0.nonce == store.nonce
    ensures Transact(store, owner, env, true, action) == Transacted(action(store).value.0, owner, Ok(action(store).value.1))
  {
  }

  function AcquireAction(nonce: nat): Store -> Result<(Store, Token), Failure> {
    (store: Store) => Ok((store.(epoch := store.epoch + 1, nonce := Some(nonce)), Token(store.epoch + 1, nonce)))
  }

  /** `acquireOwner`. */
  function Acquire(store: Store, owner: Owner, env: Env, nonce: nat): Transacted<Token> {
    var entry := Guard(store, owner, false, env.current);
    if entry.1.Some? then Transacted(store, entry.0, Err(entry.1.value))
    else if owner.token.Some? then Transacted(store, owner, Err(OwnerLost))
    else
      var t := Transact(store, owner, env, false, AcquireAction(nonce));
      if t.result.Ok? then t.(owner := t.owner.(token := Some(t.result.value), acquired := true)) else t
  }

  /** `releaseOwner`: only with the current token and no retained producer. */
  function Release(owner: Owner, token: Token): (Owner, Option<Failure>) {
    if owner.token != Some(token) then (owner, Some(OwnerLost))
    else if owner.producers != 0 then (owner, Some(Thrown("live producers")))
    else (owner.(locked := false, closed := true, token := None), None)
  }

  /** `closeUnused`. */
  function CloseUnused(owner: Owner): (Owner, Option<Failure>) {
    if owner.acquired || owner.producers != 0 then (owner, Some(OwnerLost))
    else (owner.(locked := false, closed := true), None)
  }

  /** `retainProducer`: the token is a promise to return it once. */
  function Retain(store: Store, owner: Owner, current: bool): (Owner, Result<nat, Failure>) {
    var entry := Guard(store, owner, true, current);
    if entry.1.Some? then (entry.0, Err(entry.1.value))
    else (owner.(producers := owner.producers + 1, tokens := owner.tokens + {owner.issued}, issued := owner.issued + 1), Ok(owner.issued))
  }

  /** The closure `retainProducer` returned: a second call changes nothing. */
  function Return(owner: Owner, token: nat): Owner {
    if token in owner.tokens && owner.producers > 0 then owner.(producers := owner.producers - 1, tokens := owner.tokens - {token}) else owner
  }

  /** The producer count is the number of tokens not returned, and a handle without its lock has none. */
  predicate OwnerHolds(owner: Owner) {
    && owner.producers == |owner.tokens|
    && (forall t | t in owner.tokens :: t < owner.issued)
    && owner.closed == !owner.locked
    && (owner.token.Some? ==> owner.locked && owner.acquired)
    && (owner.tokens != {} ==> owner.locked && owner.token.Some?)
  }

  lemma OwnerKept(store: Store, owner: Owner, env: Env, token: Token, id: nat, nonce: nat)
    requires OwnerHolds(owner)
    ensures OwnerHolds(Acquire(store, owner, env, nonce).owner)
    ensures OwnerHolds(Release(owner, token).0)
    ensures OwnerHolds(CloseUnused(owner).0)
    ensures OwnerHolds(Retain(store, owner, env.current).0)
    ensures OwnerHolds(Return(owner, id))
  {
    TokensCounted(owner);
  }

  lemma TokensCounted(owner: Owner)
    requires OwnerHolds(owner)
    ensures owner.producers == 0 <==> owner.tokens == {}
    ensures owner.issued !in owner.tokens
  {
  }
}
