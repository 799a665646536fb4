/** The launcher's side of the worker protocol: what each event does to its flags, and what it sends. */
module Launchers {
  import opened Wrappers

  datatype Status = CleanupClosed | CleanupPending
  datatype ToWorker = JobMessage | CancelMessage | CleanupMessage(requestId: nat)
  /** `Malformed` is any message that does not parse; a result may also fail the check of its payload. */
  datatype ToLauncher = ReadyMessage(ownProcess: bool) | ResultMessage(cleanup: Status, valid: bool)
                      | CleanupAnswer(requestId: int, status: Status) | Malformed

  const MAXIMUM_OUTPUT_BYTES := 65_536
  const MAXIMUM_CLEANUP_REQUESTS := 64

  /** The cleanup request being waited for; `answer` is what its promise resolved to. */
  datatype Request = Request(id: nat, answer: Option<Status>)

  datatype Launcher = Launcher(
    ready: bool, current: Option<Status>, active: Option<Request>, cleanupRequests: nat, closed: bool, exitCode: Option<int>,
    jobSent: bool, cleanupAcknowledged: bool, outputBytes: nat, protocolFailed: bool, canceledOnce: bool, killed: bool)

  const FRESH_LAUNCHER := Launcher(false, None, None, 0, false, None, false, false, 0, false, false, false)

  /** A step of the launcher and the messages it put on the channel, in order. */
  datatype Sent = Sent(launcher: Launcher, messages: seq<ToWorker>)

  /** What happens to a message: put on the channel, dropped because the channel is gone, or failed with an error. */
  datatype Delivery = Delivered | Dropped | Refused

  /** `onCancel`, the first time: a worker that has its job is asked to stop, another one is killed. */
  function Cancel(l: Launcher, delivery: Delivery): Sent {
    if l.canceledOnce then Sent(l, [])
    else if l.jobSent then Sent(l.(canceledOnce := true), if delivery == Delivered then [CancelMessage] else [])
    else Sent(l.(canceledOnce := true, killed := l.killed || !l.closed), [])
  }

  /** `send`: a failed send cancels. */
  function Send(l: Launcher, message: ToWorker, delivery: Delivery, cancelDelivery: Delivery): Sent {
    match delivery
    case Delivered => Sent(l, [message])
    case Dropped => Sent(l, [])
    case Refused => Cancel(l, cancelDelivery)
  }

  /** Once ready and neither closed nor canceled, the job is sent; otherwise the launch is canceled. */
  function Start(l: Launcher, inTime: bool, delivery: Delivery, cancelDelivery: Delivery): Sent {
    if l.jobSent then Sent(l, [])
    else if l.ready && inTime && !l.closed && !l.canceledOnce then Send(l.(jobSent := true), JobMessage, delivery, cancelDelivery)
    else Cancel(l, cancelDelivery)
  }

  function FailProtocol(l: Launcher, delivery: Delivery): Sent {
    Cancel(l.(protocolFailed := true), delivery)
  }

  function Output(l: Launcher, bytes: nat, delivery: Delivery): Sent {
    var counted := l.(outputBytes := l.outputBytes + bytes);
    if counted.outputBytes > MAXIMUM_OUTPUT_BYTES then FailProtocol(counted, delivery) else Sent(counted, [])
  }

  /** The active promise takes the first answer to its own id and no other. */
  function Resolve(active: Option<Request>, id: int, status: Status): Option<Request> {
    if active.Some? && active.value.id == id && active.value.answer == None then Some(active.value.(answer := Some(status))) else active
  }

  /** `child.on('message')`. */
  function Receive(l: Launcher, message: ToLauncher, delivery: Delivery): Sent {
    match message
    case ReadyMessage(own) => if l.ready || !own then FailProtocol(l, delivery) else Sent(l.(ready := true), [])
    case ResultMessage(cleanup, valid) =>
      if !l.jobSent || l.current.Some? || !valid then FailProtocol(l, delivery) else Sent(l.(current := Some(cleanup)), [])
    case CleanupAnswer(id, status) =>
      if id < 1 || id > l.cleanupRequests then FailProtocol(l, delivery)
      else Sent(l.(cleanupAcknowledged := l.cleanupAcknowledged || status == CleanupClosed, active := Resolve(l.active, id, status)), [])
    case Malformed => FailProtocol(l, delivery)
  }

  /** `child.once('close')`. */
  function Close(l: Launcher, code: Option<int>): Launcher {
    if l.closed then l
    else l.(closed := true, exitCode := code, active := if l.active.Some? then Resolve(l.active, l.active.value.id, CleanupPending) else None)
  }

  /** `isClosed`, which is also what the lease reports as `cleanup`. */
  predicate IsClosed(l: Launcher) {
    l.closed && (!l.jobSent || (l.exitCode == Some(0) && (l.cleanupAcknowledged || (!l.protocolFailed && l.current == Some(CleanupClosed)))))
  }

  datatype Retry = RetryDone | RetryFailed | RetryWaits | RetryAwaitsExit

  /** `retryCleanup` up to its first wait. */
  function BeginRetry(l: Launcher, cancelDelivery: Delivery, delivery: Delivery): (Sent, Retry) {
    if IsClosed(l) then (Sent(l, []), RetryDone)
    else if l.closed then (Sent(l, []), RetryFailed)
    else if !l.protocolFailed && l.current == Some(CleanupClosed) then (Sent(l, []), RetryAwaitsExit)
    else if l.cleanupRequests >= MAXIMUM_CLEANUP_REQUESTS then (Sent(l, []), RetryFailed)
    else
      var id := l.cleanupRequests + 1;
      var asked := l.(cleanupRequests := id, active := Some(Request(id, None)));
      var canceled := Send(asked, CancelMessage, cancelDelivery, cancelDelivery);
      var cleaned := Send(canceled.launcher, CleanupMessage(id), delivery, delivery);
      (Sent(cleaned.launcher, canceled.messages + cleaned.messages), RetryWaits)
  }

  /** After the wait: the request is forgotten, and only a `closed` answer goes on to wait for the exit. */
  function EndWait(l: Launcher): (Launcher, Retry) {
    var answer := if l.active.Some? then l.active.value.answer else None;
    (l.(active := None), if answer == Some(CleanupClosed) then RetryAwaitsExit else RetryFailed)
  }

  // ---------------------------------------------------------------------------------- the launcher as an object

  /** `executeNativeWorker`'s variables, changed by its event handlers; `sent` is what was put on the channel. */
  class NativeLauncher {
    var ready: bool
    var current: Option<Status>
    var activeCleanup: Option<Request>
    var cleanupRequests: nat
    var closed: bool
    var exitCode: Option<int>
    var jobSent: bool
    var cleanupAcknowledged: bool
    var outputBytes: nat
    var protocolFailed: bool
    var canceledOnce: bool
    var killed: bool
    var sent: seq<ToWorker>

    constructor ()
      ensures State() == FRESH_LAUNCHER && sent == []
    {
      ready, current, activeCleanup, cleanupRequests, closed, exitCode := false, None, None, 0, false, None;
      jobSent, cleanupAcknowledged, outputBytes, protocolFailed, canceledOnce, killed := false, false, 0, false, false, false;
      sent := [];
    }

    function State(): Launcher
      reads this
    {
      Launcher(ready, current, activeCleanup, cleanupRequests, closed, exitCode, jobSent, cleanupAcknowledged,
               outputBytes, protocolFailed, canceledOnce, killed)
    }

    method SendMessage(message: ToWorker, delivery: Delivery, cancelDelivery: Delivery)
      modifies this
      ensures Sent(State(), sent) == Then(old(sent), Send(old(State()), message, delivery, cancelDelivery))
    {
      match delivery
      case Delivered => sent := sent + [message];
      case Dropped => assert sent + [] == sent;
      case Refused => OnCancel(cancelDelivery);
    }

    method OnCancel(delivery: Delivery)
      modifies this
      ensures Sent(State(), sent) == Then(old(sent), Cancel(old(State()), delivery))
    {
      assert sent + [] == sent;
      if canceledOnce {
        return;
      }
      canceledOnce := true;
      if jobSent {
        if delivery == Delivered {
          sent := sent + [CancelMessage];
        }
      } else if !closed {
        killed := true;
      }
    }

    method OnOutput(bytes: nat, delivery: Delivery)
      modifies this
      ensures Sent(State(), sent) == Then(old(sent), Output(old(State()), bytes, delivery))
    {
      assert sent + [] == sent;
      outputBytes := outputBytes + bytes;
      if outputBytes > MAXIMUM_OUTPUT_BYTES {
        protocolFailed := true;
        OnCancel(delivery);
      }
    }

    method OnMessage(message: ToLauncher, delivery: Delivery)
      modifies this
      ensures Sent(State(), sent) == Then(old(sent), Receive(old(State()), message, delivery))
    {
      hide Cancel, Resolve;
      assert sent + [] == sent;
      var refused := false;
      match message {
        case ReadyMessage(own) =>
          if ready || !own { refused := true; } else { ready := true; }
        case ResultMessage(cleanup, valid) =>
          if !jobSent || current.Some? || !valid { refused := true; } else { current := Some(cleanup); }
        case CleanupAnswer(id, status) =>
          if id < 1 || id > cleanupRequests { refused := true; } else { TakeAnswer(id, status); }
        case Malformed => refused := true;
      }
      if refused {
        protocolFailed := true;
        OnCancel(delivery);
      }
    }

    method TakeAnswer(id: int, status: Status)
      modifies `cleanupAcknowledged, `activeCleanup
      ensures cleanupAcknowledged == (old(cleanupAcknowledged) || status == CleanupClosed)
      ensures activeCleanup == Resolve(old(activeCleanup), id, status)
    {
      if status == CleanupClosed {
        cleanupAcknowledged := true;
      }
      if activeCleanup.Some? && activeCleanup.value.id == id && activeCleanup.value.answer == None {
        activeCleanup := Some(Request(id, Some(status)));
      }
    }

    method OnClose(code: Option<int>)
      modifies this
      ensures State() == Close(old(State()), code) && sent == old(sent)
    {
      if closed {
        return;
      }
      closed := true;
      exitCode := code;
      if activeCleanup.Some? && activeCleanup.value.answer == None {
        activeCleanup := Some(activeCleanup.value.(answer := Some(CleanupPending)));
      }
    }

    method StartJob(inTime: bool, delivery: Delivery, cancelDelivery: Delivery)
      modifies this
      ensures Sent(State(), sent) == Then(old(sent), Start(old(State()), inTime, delivery, cancelDelivery))
    {
      assert sent + [] == sent;
      if jobSent {
        return;
      }
      if ready && inTime && !closed && !canceledOnce {
        jobSent := true;
        SendMessage(JobMessage, delivery, cancelDelivery);
      } else {
        OnCancel(cancelDelivery);
      }
    }

    method RequestCleanup(cancelDelivery: Delivery, delivery: Delivery) returns (r: Retry)
      modifies this
      ensures Sent(State(), sent) == Then(old(sent), BeginRetry(old(State()), cancelDelivery, delivery).0)
      ensures r == BeginRetry(old(State()), cancelDelivery, delivery).1
    {
      assert sent + [] == sent;
      if IsClosed(State()) {
        return RetryDone;
      }
      if closed {
        return RetryFailed;
      }
      if protocolFailed || current != Some(CleanupClosed) {
        if cleanupRequests >= MAXIMUM_CLEANUP_REQUESTS {
          return RetryFailed;
        }
        cleanupRequests := cleanupRequests + 1;
        activeCleanup := Some(Request(cleanupRequests, None));
        var id := cleanupRequests;
        SendMessage(CancelMessage, cancelDelivery, cancelDelivery);
        SendMessage(CleanupMessage(id), delivery, delivery);
        return RetryWaits;
      }
      r := RetryAwaitsExit;
    }

    method FinishWait() returns (r: Retry)
      modifies this
      ensures (State(), r) == EndWait(old(State())) && sent == old(sent)
    {
      var answer := if activeCleanup.Some? then activeCleanup.value.answer else None;
      activeCleanup := None;
      r := if answer == Some(CleanupClosed) then RetryAwaitsExit else RetryFailed;
    }
  }

  function Then(before: seq<ToWorker>, step: Sent): Sent {
    Sent(step.launcher, before + step.messages)
  }
}
