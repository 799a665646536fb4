/** The worker's side: one job, its operation, the cleanup that may have to be retried, and its exit. */
module Workers {
  import opened Launchers
  import opened Wrappers

  datatype Operation = NotEntered | Running | Settled

  /**
   `held` are the native resources of the operation; `entries` counts the jobs entered, and `answered` is the history of
   cleanup answers given.
   */
  datatype Worker = Worker(
    connected: bool, stopped: bool, entered: bool, operation: Operation, canRetry: bool, cleanupClosed: bool,
    waiting: set<nat>, maintained: bool, exitCode: Option<int>, held: bool, entries: nat, answered: set<(nat, Status)>)

  const FRESH_WORKER := Worker(true, false, false, NotEntered, false, false, {}, false, None, false, 0, {})

  datatype Replied = Replied(worker: Worker, messages: seq<ToLauncher>)

  /** A reply reaches the channel only while it is connected and the message fits. */
  function Reply(w: Worker, message: ToLauncher, fits: bool): seq<ToLauncher> {
    if w.connected && fits then [message] else []
  }

  /** The channel goes away: ownership is kept, and maintained until its own cleanup succeeds. */
  function Disconnected(w: Worker): Worker {
    w.(connected := false, stopped := true, maintained := w.maintained || (w.connected && w.entered && !w.cleanupClosed))
  }

  /** `disconnect()`: also ends the maintenance. */
  function Disconnect(w: Worker): Worker {
    Disconnected(w.(maintained := false))
  }

  /** An invalid message stops the operation; before any job it is answered as a closed failure. */
  function Invalid(w: Worker): Replied {
    var stopped := w.(stopped := true);
    if w.entered then Replied(stopped, []) else Replied(Disconnect(stopped), Reply(stopped, ResultMessage(CleanupClosed, true), true))
  }

  /** `process.on('message')`. */
  function Take(w: Worker, message: ToWorker): Replied {
    match message
    case CancelMessage => Replied(w.(stopped := true), [])
    case JobMessage =>
      if w.entered then Invalid(w)
      else Replied(w.(entered := true, operation := Running, held := true, entries := w.entries + 1), [])
    case CleanupMessage(id) =>
      if id < 1 || id > MAXIMUM_CLEANUP_REQUESTS then Invalid(w) else Replied(w.(stopped := true, waiting := w.waiting + {id}), [])
  }

  /** `execute` ends: closed with nothing held, or pending with a cleanup that can be retried. */
  function Settle(w: Worker, cleanup: Status, valid: bool, fits: bool): Replied {
    if w.operation != Running then Replied(w, [])
    else
      var settled := w.(operation := Settled, canRetry := true, cleanupClosed := cleanup == CleanupClosed, held := cleanup == CleanupPending);
      Replied(if settled.cleanupClosed then Disconnect(settled) else settled, Reply(settled, ResultMessage(cleanup, valid), fits))
  }

  /** `cleanup()` after the operation: `released` is whether the retried release succeeds. */
  function Clean(w: Worker, released: bool): Worker {
    if w.cleanupClosed || !w.canRetry || !released then w else w.(cleanupClosed := true, held := false)
  }

  /** A cleanup request is answered once the operation is over. */
  function Serve(w: Worker, id: nat, released: bool, fits: bool): Replied {
    if id !in w.waiting || w.operation == Running then Replied(w, [])
    else
      var cleaned := Clean(w, released);
      var status := if cleaned.cleanupClosed then CleanupClosed else CleanupPending;
      var served := cleaned.(waiting := w.waiting - {id}, answered := w.answered + {(id, status)});
      Replied(if served.cleanupClosed then Disconnect(served) else served, Reply(served, CleanupAnswer(id, status), fits))
  }

  /** Maintenance after a lost channel retries the same cleanup. */
  function Maintain(w: Worker, released: bool): Worker {
    if !w.maintained || w.operation == Running then w
    else
      var cleaned := Clean(w, released);
      if cleaned.cleanupClosed then Disconnect(cleaned) else cleaned
  }

  /** A process ends with 0 only when nothing keeps it alive; it may crash or be killed at any time. */
  predicate CanExit(w: Worker, code: Option<int>) {
    code == Some(0) ==> !w.connected && !w.maintained && w.operation != Running
  }

  // ---------------------------------------------------------------------------------- what every worker step keeps

  /** Closed means released and disconnected, and an entered worker that may exit with 0 has closed. */
  ghost predicate WorkerHolds(w: Worker) {
    && (w.entered <==> w.operation != NotEntered) && w.entries == (if w.entered then 1 else 0)
    && (w.cleanupClosed ==> w.operation == Settled && !w.held && !w.connected)
    && (w.held ==> w.entered)
    && (w.operation == Settled <==> w.canRetry)
    && (!w.connected && w.entered && !w.cleanupClosed ==> w.maintained)
    && (forall id | (id, CleanupClosed) in w.answered :: w.cleanupClosed)
    && (w.exitCode == Some(0) && w.entered ==> w.cleanupClosed)
  }

  /** A result or an answer of `closed` is sent only by a worker whose operation settled and whose cleanup succeeded. */
  ghost predicate Tells(w: Worker, message: ToLauncher) {
    match message
    case ResultMessage(cleanup, _) => w.entered && (cleanup == CleanupClosed ==> w.cleanupClosed)
    case CleanupAnswer(id, status) => id >= 1 && (id, status) in w.answered
    case ReadyMessage(own) => own
    case Malformed => false
  }

  ghost predicate AllTell(w: Worker, messages: seq<ToLauncher>) {
    forall i | 0 <= i < |messages| :: Tells(w, messages[i])
  }

  /** A later worker keeps what an earlier one told. */
  ghost predicate WorkerFollows(w: Worker, w': Worker) {
    (w.entered ==> w'.entered) && (w.cleanupClosed ==> w'.cleanupClosed) && w.answered <= w'.answered
  }

  lemma ToldForGood(w: Worker, w': Worker, messages: seq<ToLauncher>)
    requires AllTell(w, messages) && WorkerFollows(w, w')
    ensures AllTell(w', messages)
  {
  }

  /** However malformed the messages, a worker enters at most one job. */
  lemma EntersAtMostOnce(w: Worker, message: ToWorker)
    requires WorkerHolds(w) && w.connected && w.exitCode == None
    ensures Take(w, message).worker.entries <= 1 && WorkerHolds(Take(w, message).worker)
  {
  }

  lemma TakeTells(w: Worker, message: ToWorker)
    requires WorkerHolds(w) && (message.JobMessage? ==> !w.entered) && (message.CleanupMessage? ==> 1 <= message.requestId <= MAXIMUM_CLEANUP_REQUESTS)
    ensures var r := Take(w, message); WorkerFollows(w, r.worker) && AllTell(r.worker, r.messages) && r.messages == []
    ensures Take(w, message).worker.exitCode == w.exitCode
  {
  }

  lemma SettleTells(w: Worker, cleanup: Status, valid: bool, fits: bool)
    requires WorkerHolds(w)
    ensures var r := Settle(w, cleanup, valid, fits); WorkerHolds(r.worker) && WorkerFollows(w, r.worker) && AllTell(r.worker, r.messages)
  {
  }

  lemma ServeTells(w: Worker, id: nat, released: bool, fits: bool)
    requires WorkerHolds(w) && forall i | i in w.waiting :: i >= 1
    ensures var r := Serve(w, id, released, fits); WorkerHolds(r.worker) && WorkerFollows(w, r.worker) && AllTell(r.worker, r.messages)
  {
  }

  lemma MaintainKeeps(w: Worker, released: bool)
    requires WorkerHolds(w)
    ensures WorkerHolds(Maintain(w, released)) && WorkerFollows(w, Maintain(w, released))
  {
  }

  // ---------------------------------------------------------------------------------- the worker as an object

  /** The worker module's variables, changed by its message and disconnect handlers; `sent` is what it put on the channel. */
  class NativeWorker {
    var connected: bool
    var stopped: bool
    var entered: bool
    var operation: Operation
    var canRetry: bool
    var cleanupClosed: bool
    var waiting: set<nat>
    var maintained: bool
    var sent: seq<ToLauncher>
    ghost var held: bool
    ghost var entries: nat
    ghost var answered: set<(nat, Status)>

    constructor ()
      ensures State() == FRESH_WORKER && sent == [ReadyMessage(true)]
    {
      connected, stopped, entered, operation, canRetry, cleanupClosed, waiting, maintained := true, false, false, NotEntered, false, false, {}, false;
      held, entries, answered := false, 0, {};
      sent := [ReadyMessage(true)];
    }

    ghost function State(): Worker
      reads this
    {
      Worker(connected, stopped, entered, operation, canRetry, cleanupClosed, waiting, maintained, None, held, entries, answered)
    }

    method SendMessage(message: ToLauncher, fits: bool)
      modifies `sent
      ensures sent == old(sent) + Reply(State(), message, fits)
    {
      if connected && fits {
        sent := sent + [message];
      }
    }

    /** `disconnect()` and the `disconnect` event it causes. */
    method CloseChannel()
      modifies `connected, `stopped, `maintained
      ensures State() == Disconnect(old(State()))
    {
      maintained := false;
      OnDisconnect();
    }

    method OnDisconnect()
      modifies `connected, `stopped, `maintained
      ensures State() == Disconnected(old(State()))
    {
      if connected && entered && !cleanupClosed {
        maintained := true;
      }
      connected := false;
      stopped := true;
    }

    method OnInvalid()
      modifies this
      ensures Replied(State(), sent) == After(old(sent), Invalid(old(State())))
    {
      stopped := true;
      if !entered {
        SendMessage(ResultMessage(CleanupClosed, true), true);
        CloseChannel();
      }
    }

    method OnMessage(message: ToWorker)
      modifies this
      ensures Replied(State(), sent) == After(old(sent), Take(old(State()), message))
    {
      match message
      case CancelMessage =>
        stopped := true;
      case JobMessage =>
        if entered {
          OnInvalid();
        } else {
          entered := true;
          operation := Running;
          held := true;
          entries := entries + 1;
        }
      case CleanupMessage(id) =>
        if id < 1 || id > MAXIMUM_CLEANUP_REQUESTS {
          OnInvalid();
        } else {
          stopped := true;
          waiting := waiting + {id};
        }
    }

    /** The end of `execute`. */
    method FinishExecution(cleanup: Status, valid: bool, fits: bool)
      modifies this
      ensures Replied(State(), sent) == After(old(sent), Settle(old(State()), cleanup, valid, fits))
    {
      if operation != Running {
        return;
      }
      operation := Settled;
      canRetry := true;
      cleanupClosed := cleanup == CleanupClosed;
      held := cleanup == CleanupPending;
      SendMessage(ResultMessage(cleanup, valid), fits);
      if cleanupClosed {
        CloseChannel();
      }
    }

    /** `cleanup()`. */
    method CleanUp(released: bool)
      modifies `cleanupClosed, `held
      ensures State() == Clean(old(State()), released)
    {
      if !cleanupClosed && canRetry && released {
        cleanupClosed := true;
        held := false;
      }
    }

    /** The rest of the cleanup handler, once the operation is over. */
    method AnswerCleanup(id: nat, released: bool, fits: bool)
      modifies this
      ensures Replied(State(), sent) == After(old(sent), Serve(old(State()), id, released, fits))
    {
      if id !in waiting || operation == Running {
        return;
      }
      CleanUp(released);
      waiting := waiting - {id};
      var status := if cleanupClosed then CleanupClosed else CleanupPending;
      answered := answered + {(id, status)};
      SendMessage(CleanupAnswer(id, status), fits);
      if cleanupClosed {
        CloseChannel();
      }
    }

    /** One tick of the maintenance a lost channel starts. */
    method MaintainOnce(released: bool)
      modifies this
      ensures State() == Maintain(old(State()), released) && sent == old(sent)
    {
      if maintained && operation != Running {
        CleanUp(released);
        if cleanupClosed {
          CloseChannel();
        }
      }
    }
  }

  function After(before: seq<ToLauncher>, step: Replied): Replied {
    Replied(step.worker, before + step.messages)
  }
}
