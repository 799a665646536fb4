/** The guarded database handle as an object over the shared database file; each call is the owner step of the same name. */
module ReferenceDatabases {
  import opened InboxRows
  import opened OwnerHandle
  import opened Wrappers

  /** The persisted file, seen by every handle on the store. */
  class DatabaseFile {
    var rows: map<Key, Row>
    var epoch: nat
    var nonce: Option<nat>

    function Contents(): Store
      reads this
    {
      Store(rows, epoch, nonce)
    }

    constructor ()
      ensures Contents() == Store(map[], 0, None)
    {
      rows, epoch, nonce := map[], 0, None;
    }

    method Write(store: Store)
      modifies this
      ensures Contents() == store
    {
      rows, epoch, nonce := store.rows, store.epoch, store.nonce;
    }
  }

  class ReferenceDatabase {
    const file: DatabaseFile
    var locked: bool
    var owner: Option<Token>
    var failed: bool
    var closed: bool
    var acquired: bool
    var producers: nat
    /** The return closures whose `retained` flag is still set. */
    var tokens: set<nat>
    var issued: nat

    function State(): Owner
      reads this
    {
      Owner(locked, owner, failed, closed, acquired, producers, tokens, issued)
    }

    constructor (file: DatabaseFile)
      ensures this.file == file && State() == FRESH_OWNER
    {
      this.file := file;
      locked, owner, failed, closed, acquired, producers, tokens, issued := true, None, false, false, false, 0, {}, 0;
    }

    method CheckCurrent(requireOwner: bool, current: bool) returns (refused: Option<Failure>)
      modifies this`failed
      ensures (State(), refused) == Guard(file.Contents(), old(State()), requireOwner, current)
    {
      if closed {
        return Some(OwnerLost);
      }
      if failed {
        return Some(StoreFailed);
      }
      if !current || !locked || (requireOwner && owner == None) {
        failed := true;
        return Some(OwnerLost);
      }
      if owner.Some? && (file.epoch != owner.value.epoch || file.nonce != Some(owner.value.nonce)) {
        failed := true;
        return Some(OwnerLost);
      }
      refused := None;
    }

    /** Rolls back: the file is as it was when the transaction began. */
    method RollBack(before: Store, fatal: bool)
      modifies this`failed, file
      ensures file.Contents() == before && failed == (old(failed) || fatal)
    {
      file.Write(before);
      if fatal {
        failed := true;
      }
    }

    method Transaction<A>(env: Env, requireOwner: bool, action: Store -> Result<(Store, A), Failure>) returns (r: Result<A, Failure>)
      modifies this`failed, file
      ensures Transacted(file.Contents(), State(), r) == Transact(old(file.Contents()), old(State()), env, requireOwner, action)
    {
      var refused := CheckCurrent(requireOwner, env.current);
      if refused.Some? {
        return Err(refused.value);
      }
      var before := file.Contents();
      if !env.begins || !env.fits {
        if env.fatal {
          failed := true;
        }
        return Err(if !env.begins then Thrown("begin") else CapacityFailure);
      }
      var done := action(before);
      if done.Err? {
        RollBack(before, env.fatal);
        return Err(done.error);
      }
      file.Write(done.value.0);
      refused := CheckCurrent(requireOwner, env.stillCurrent);
      if refused.Some? {
        RollBack(before, false);
        return Err(refused.value);
      }
      if !env.stillFits {
        RollBack(before, env.fatal);
        return Err(CapacityFailure);
      }
      if !env.commits {
        RollBack(before, env.fatal);
        return Err(Thrown("commit"));
      }
      if !env.checkpoints {
        failed := true;
      }
      r := Ok(done.value.1);
    }

    method AcquireOwner(env: Env, nonce: nat) returns (r: Result<Token, Failure>)
      modifies this, file
      ensures Transacted(file.Contents(), State(), r) == Acquire(old(file.Contents()), old(State()), env, nonce)
    {
      var refused := CheckCurrent(false, env.current);
      if refused.Some? {
        return Err(refused.value);
      }
      if owner.Some? {
        return Err(OwnerLost);
      }
      r := Transaction(env, false, AcquireAction(nonce));
      if r.Ok? {
        owner := Some(r.value);
        acquired := true;
      }
    }

    method RetainProducer(current: bool) returns (r: Result<nat, Failure>)
      modifies this
      ensures (State(), r) == Retain(file.Contents(), old(State()), current)
    {
      var refused := CheckCurrent(true, current);
      if refused.Some? {
        return Err(refused.value);
      }
      r := Ok(issued);
      producers := producers + 1;
      tokens := tokens + {issued};
      issued := issued + 1;
    }

    /** The closure returned by `retainProducer`. */
    method ReturnProducer(token: nat)
      modifies this
      ensures State() == Return(old(State()), token)
    {
      if token in tokens && producers > 0 {
        tokens := tokens - {token};
        producers := producers - 1;
      }
    }

    method ReleaseOwner(token: Token) returns (refused: Option<Failure>)
      modifies this
      ensures (State(), refused) == Release(old(State()), token)
    {
      if owner != Some(token) {
        return Some(OwnerLost);
      }
      if producers != 0 {
        return Some(Thrown("live producers"));
      }
      locked := false;
      closed := true;
      owner := None;
      refused := None;
    }

    method CloseUnusedHandle() returns (refused: Option<Failure>)
      modifies this
      ensures (State(), refused) == CloseUnused(old(State()))
    {
      if acquired || producers != 0 {
        return Some(OwnerLost);
      }
      locked := false;
      closed := true;
      refused := None;
    }
  }
}
