/**
 Launcher and worker together, with a channel each way: every interleaving of messages, lost messages, cancels, output,
 timeouts and exits.
 */
module WorkerProtocol {
  import opened Launchers
  import opened Workers
  import opened Wrappers

  datatype System = System(launcher: Launcher, worker: Worker, down: seq<ToWorker>, up: seq<ToLauncher>, retrying: bool)

  /** The worker's first message says it is ready. */
  const FRESH_SYSTEM := System(FRESH_LAUNCHER, FRESH_WORKER, [], [ReadyMessage(true)], false)

  datatype Event =
    | LauncherStarts(inTime: bool, delivery: Delivery, cancelDelivery: Delivery)
    | LauncherCancels(delivery: Delivery)
    | LauncherReads(delivery: Delivery)
    | OutputArrives(bytes: nat, delivery: Delivery)
    | ChildFails(delivery: Delivery)
    | CloseArrives
    | RetryBegins(cancelDelivery: Delivery, delivery: Delivery)
    | RetryEnds
    | WorkerReads
    | WorkerSettles(cleanup: Status, valid: bool, fits: bool)
    | WorkerServes(id: nat, released: bool, fits: bool)
    | WorkerMaintains(released: bool)
    | ChannelBreaks
    | WorkerExits(code: Option<int>)

  function Launched(s: System, step: Sent): System {
    s.(launcher := step.launcher, down := s.down + step.messages)
  }

  function Answered(s: System, step: Replied): System {
    s.(worker := step.worker, up := s.up + step.messages)
  }

  function Next(s: System, event: Event): System {
    match event
    case LauncherStarts(inTime, delivery, cancelDelivery) => Launched(s, Start(s.launcher, inTime, delivery, cancelDelivery))
    case LauncherCancels(delivery) => Launched(s, Cancel(s.launcher, delivery))
    case LauncherReads(delivery) =>
      if s.up == [] then s else Launched(s.(up := s.up[1..]), Launchers.Receive(s.launcher, s.up[0], delivery))
    case OutputArrives(bytes, delivery) => Launched(s, Output(s.launcher, bytes, delivery))
    case ChildFails(delivery) => Launched(s, FailProtocol(s.launcher, delivery))
    case CloseArrives => if s.worker.exitCode == None then s else s.(launcher := Close(s.launcher, s.worker.exitCode))
    case RetryBegins(cancelDelivery, delivery) =>
      if s.retrying then s
      else
        var (step, r) := BeginRetry(s.launcher, cancelDelivery, delivery);
        Launched(s.(retrying := r == RetryWaits), step)
    case RetryEnds => if s.retrying then s.(launcher := EndWait(s.launcher).0, retrying := false) else s
    case WorkerReads =>
      if s.down == [] || !s.worker.connected || s.worker.exitCode.Some? then s
      else Answered(s.(down := s.down[1..]), Workers.Take(s.worker, s.down[0]))
    case WorkerSettles(cleanup, valid, fits) => if s.worker.exitCode.Some? then s else Answered(s, Settle(s.worker, cleanup, valid, fits))
    case WorkerServes(id, released, fits) => if s.worker.exitCode.Some? then s else Answered(s, Serve(s.worker, id, released, fits))
    case WorkerMaintains(released) => if s.worker.exitCode.Some? then s else s.(worker := Maintain(s.worker, released))
    case ChannelBreaks => if s.worker.exitCode.Some? then s else s.(worker := Disconnected(s.worker))
    case WorkerExits(code) =>
      if s.worker.exitCode.Some? || code == None || !CanExit(s.worker, code) then s else s.(worker := s.worker.(exitCode := code))
  }

  function Run(s: System, events: seq<Event>): System {
    if events == [] then s else Next(Run(s, events[..|events| - 1]), events[|events| - 1])
  }

  // ---------------------------------------------------------------------------------- invariants

  function Jobs(messages: seq<ToWorker>): nat {
    if messages == [] then 0 else (if messages[0].JobMessage? then 1 else 0) + Jobs(messages[1..])
  }

  /** The launcher asks with ids it counted, each at most once at a time, and never more than 64. */
  ghost predicate RequestsHold(l: Launcher) {
    && l.cleanupRequests <= MAXIMUM_CLEANUP_REQUESTS
    && (l.active.Some? ==> l.active.value.id == l.cleanupRequests >= 1)
  }

  ghost predicate DownHolds(l: Launcher, w: Worker, down: seq<ToWorker>) {
    && (forall i | 0 <= i < |down| && down[i].CleanupMessage? :: 1 <= down[i].requestId <= l.cleanupRequests)
    && (forall id | id in w.waiting :: 1 <= id <= l.cleanupRequests)
    && (forall id, status | (id, status) in w.answered :: 1 <= id <= l.cleanupRequests)
    && Jobs(down) + w.entries <= (if l.jobSent then 1 else 0)
  }

  /** What the launcher knows was told by the worker, and is still so. */
  ghost predicate KnowledgeHolds(l: Launcher, w: Worker) {
    && (l.current.Some? ==> w.entered && l.jobSent)
    && (l.current == Some(CleanupClosed) ==> w.cleanupClosed)
    && (l.cleanupAcknowledged ==> w.cleanupClosed)
    && (l.closed ==> w.exitCode.Some? && l.exitCode == w.exitCode)
    && (l.active.Some? && l.active.value.answer.Some? && !l.closed ==> (l.active.value.id, l.active.value.answer.value) in w.answered)
    && (l.active.Some? && l.active.value.answer == Some(CleanupClosed) ==> (l.active.value.id, CleanupClosed) in w.answered)
  }

  ghost predicate SystemHolds(s: System) {
    && WorkerHolds(s.worker)
    && RequestsHold(s.launcher)
    && DownHolds(s.launcher, s.worker, s.down)
    && KnowledgeHolds(s.launcher, s.worker)
    && AllTell(s.worker, s.up)
    && (s.retrying <==> s.launcher.active.Some?)
  }

  lemma {:induction false} JobsJoin(first: seq<ToWorker>, second: seq<ToWorker>)
    ensures Jobs(first + second) == Jobs(first) + Jobs(second)
  {
    if first == [] {
      assert first + second == second;
    } else {
      assert (first + second)[1..] == first[1..] + second;
      JobsJoin(first[1..], second);
    }
  }

  // ---------------------------------------------------------------------------------- the launcher's steps

  /** A launcher step that learns nothing of the worker: it may send, cancel or fail. */
  ghost predicate Quiet(l: Launcher, step: Sent) {
    var l' := step.launcher;
    && l'.current == l.current && l'.cleanupAcknowledged == l.cleanupAcknowledged && l'.closed == l.closed && l'.exitCode == l.exitCode
    && l'.cleanupRequests >= l.cleanupRequests && (l.jobSent ==> l'.jobSent)
    && Jobs(step.messages) <= (if l'.jobSent && !l.jobSent then 1 else 0)
    && (forall i | 0 <= i < |step.messages| && step.messages[i].CleanupMessage? :: 1 <= step.messages[i].requestId <= l'.cleanupRequests)
    && (l'.active == l.active || (l'.active.Some? && l'.active.value.answer == None) || l'.active == None)
  }

  lemma QuietKeeps(s: System, step: Sent, retrying: bool)
    requires SystemHolds(s) && Quiet(s.launcher, step) && RequestsHold(step.launcher) && (retrying <==> step.launcher.active.Some?)
    ensures SystemHolds(Launched(s.(retrying := retrying), step))
  {
    var down := s.down + step.messages;
    JobsJoin(s.down, step.messages);
    forall i | 0 <= i < |down| && down[i].CleanupMessage? ensures 1 <= down[i].requestId <= step.launcher.cleanupRequests {
      assert i < |s.down| ==> down[i] == s.down[i];
    }
    hide WorkerHolds;
  }

  lemma CancelQuiet(l: Launcher, delivery: Delivery)
    ensures Quiet(l, Cancel(l, delivery)) && (RequestsHold(l) ==> RequestsHold(Cancel(l, delivery).launcher))
    ensures Quiet(l, FailProtocol(l, delivery)) && FailProtocol(l, delivery).launcher.active == l.active
    ensures Cancel(l, delivery).launcher.active == l.active && Cancel(l, delivery).launcher.cleanupRequests == l.cleanupRequests
  {
  }

  lemma StartQuiet(l: Launcher, inTime: bool, delivery: Delivery, cancelDelivery: Delivery)
    ensures var step := Start(l, inTime, delivery, cancelDelivery);
      Quiet(l, step) && step.launcher.active == l.active && step.launcher.cleanupRequests == l.cleanupRequests
  {
    assert Jobs([JobMessage]) == 1 by { assert [JobMessage][1..] == []; }
    assert Jobs([CancelMessage]) == 0;
  }

  lemma {:induction false} NoJobs(messages: seq<ToWorker>)
    requires forall i | 0 <= i < |messages| :: !messages[i].JobMessage?
    ensures Jobs(messages) == 0
  {
    if messages != [] {
      NoJobs(messages[1..]);
    }
  }

  lemma RetryQuiet(l: Launcher, cancelDelivery: Delivery, delivery: Delivery)
    requires RequestsHold(l) && l.active == None
    ensures var (step, r) := BeginRetry(l, cancelDelivery, delivery);
      && Quiet(l, step) && RequestsHold(step.launcher) && (r == RetryWaits <==> step.launcher.active.Some?)
  {
    RetryLauncher(l, cancelDelivery, delivery);
    RetryMessages(l, cancelDelivery, delivery);
    hide BeginRetry, Jobs;
    NoJobs(BeginRetry(l, cancelDelivery, delivery).0.messages);
  }

  lemma RetryLauncher(l: Launcher, cancelDelivery: Delivery, delivery: Delivery)
    requires RequestsHold(l) && l.active == None
    ensures var (step, r) := BeginRetry(l, cancelDelivery, delivery);
      && step.launcher == l.(canceledOnce := step.launcher.canceledOnce, killed := step.launcher.killed,
                             cleanupRequests := step.launcher.cleanupRequests, active := step.launcher.active)
      && (if r == RetryWaits then step.launcher.cleanupRequests == l.cleanupRequests + 1 <= MAXIMUM_CLEANUP_REQUESTS
                                  && step.launcher.active == Some(Request(step.launcher.cleanupRequests, None))
          else step.launcher == l)
  {
    var asked := l.(cleanupRequests := l.cleanupRequests + 1, active := Some(Request(l.cleanupRequests + 1, None)));
    var canceled := Send(asked, CancelMessage, cancelDelivery, cancelDelivery).launcher;
    SendKeeps(asked, CancelMessage, cancelDelivery, cancelDelivery);
    SendKeeps(canceled, CleanupMessage(l.cleanupRequests + 1), delivery, delivery);
    hide Send, IsClosed;
  }

  /** Sending changes no more than the cancel flags. */
  lemma SendKeeps(l: Launcher, message: ToWorker, delivery: Delivery, cancelDelivery: Delivery)
    ensures var step := Send(l, message, delivery, cancelDelivery);
      step.launcher == l.(canceledOnce := step.launcher.canceledOnce, killed := step.launcher.killed)
  {
  }

  lemma RetryMessages(l: Launcher, cancelDelivery: Delivery, delivery: Delivery)
    ensures var (step, r) := BeginRetry(l, cancelDelivery, delivery);
      forall i | 0 <= i < |step.messages| :: step.messages[i] == CancelMessage || (r == RetryWaits && step.messages[i] == CleanupMessage(step.launcher.cleanupRequests))
  {
  }

  /** Reading a message learns only what the worker told. */
  lemma ReadKeeps(s: System, delivery: Delivery)
    requires SystemHolds(s) && s.up != []
    ensures SystemHolds(Next(s, LauncherReads(delivery)))
  {
    var message := s.up[0];
    var rest := s.(up := s.up[1..]);
    var step := Launchers.Receive(s.launcher, message, delivery);
    ReadFirst(s);
    if step == FailProtocol(s.launcher, delivery) {
      CancelQuiet(s.launcher, delivery);
      hide SystemHolds, Launchers.Receive;
      FailKeeps(rest, delivery);
    } else {
      LearnKeeps(s.launcher, s.worker, message, delivery);
      assert step.messages == [] && s.down + [] == s.down;
      hide WorkerHolds, KnowledgeHolds, AllTell, Launchers.Receive;
    }
  }

  lemma ReadFirst(s: System)
    requires SystemHolds(s) && s.up != []
    ensures Tells(s.worker, s.up[0]) && SystemHolds(s.(up := s.up[1..]))
  {
    hide WorkerHolds, KnowledgeHolds, DownHolds, Tells;
  }

  lemma FailKeeps(s: System, delivery: Delivery)
    requires SystemHolds(s)
    ensures SystemHolds(Launched(s, FailProtocol(s.launcher, delivery)))
  {
    CancelQuiet(s.launcher, delivery);
    CancelQuiet(s.launcher.(protocolFailed := true), delivery);
    hide WorkerHolds, KnowledgeHolds, DownHolds, AllTell, Quiet;
    QuietKeeps(s, FailProtocol(s.launcher, delivery), s.retrying);
  }

  lemma LearnKeeps(l: Launcher, w: Worker, message: ToLauncher, delivery: Delivery)
    requires WorkerHolds(w) && KnowledgeHolds(l, w) && RequestsHold(l) && Tells(w, message)
    requires Launchers.Receive(l, message, delivery) != FailProtocol(l, delivery)
    ensures var l' := Launchers.Receive(l, message, delivery).launcher;
      && KnowledgeHolds(l', w) && RequestsHold(l') && (l'.active.Some? <==> l.active.Some?)
      && l'.jobSent == l.jobSent && l'.cleanupRequests == l.cleanupRequests
  {
  }

  // ---------------------------------------------------------------------------------- the worker's steps

  lemma WorkerKeeps(s: System, step: Replied, down: seq<ToWorker>)
    requires SystemHolds(s) && WorkerHolds(step.worker) && WorkerFollows(s.worker, step.worker) && AllTell(step.worker, step.messages)
    requires DownHolds(s.launcher, step.worker, down) && (s.launcher.closed ==> step.worker.exitCode == s.worker.exitCode)
    ensures SystemHolds(Answered(s.(down := down), step))
  {
    ToldForGood(s.worker, step.worker, s.up);
    hide WorkerHolds, Tells;
  }

  lemma WorkerReadsKeeps(s: System)
    requires SystemHolds(s) && s.down != [] && s.worker.connected && s.worker.exitCode == None
    ensures SystemHolds(Next(s, WorkerReads))
  {
    var message := s.down[0];
    var step := Workers.Take(s.worker, message);
    assert s.down == [message] + s.down[1..];
    JobsJoin([message], s.down[1..]);
    assert Jobs([message]) == (if message.JobMessage? then 1 else 0);
    assert message.JobMessage? ==> !s.worker.entered;
    EntersAtMostOnce(s.worker, message);
    TakeTells(s.worker, message);
    forall i | 0 <= i < |s.down[1..]| && s.down[1..][i].CleanupMessage? ensures 1 <= s.down[1..][i].requestId <= s.launcher.cleanupRequests {
      assert s.down[1..][i] == s.down[i + 1];
    }
    assert DownHolds(s.launcher, step.worker, s.down[1..]) by { hide WorkerHolds, AllTell, KnowledgeHolds; }
    WorkerKeeps(s, step, s.down[1..]);
  }

  lemma NextKeeps(s: System, event: Event)
    requires SystemHolds(s)
    ensures SystemHolds(Next(s, event))
  {
    match event
    case LauncherStarts(inTime, delivery, cancelDelivery) => StartKeeps(s, inTime, delivery, cancelDelivery);
    case LauncherCancels(delivery) => CancelKeeps(s, delivery);
    case LauncherReads(delivery) => if s.up != [] { ReadKeeps(s, delivery); }
    case OutputArrives(bytes, delivery) => OutputKeeps(s, bytes, delivery);
    case ChildFails(delivery) => FailKeeps(s, delivery);
    case CloseArrives => CloseKeeps(s);
    case RetryBegins(cancelDelivery, delivery) => if !s.retrying { RetryKeeps(s, cancelDelivery, delivery); }
    case RetryEnds => EndKeeps(s);
    case WorkerReads => if s.down != [] && s.worker.connected && s.worker.exitCode == None { WorkerReadsKeeps(s); }
    case WorkerSettles(cleanup, valid, fits) => SettleKeeps(s, cleanup, valid, fits);
    case WorkerServes(id, released, fits) => ServeKeeps(s, id, released, fits);
    case WorkerMaintains(released) => AloneKeeps(s, event);
    case ChannelBreaks => AloneKeeps(s, event);
    case WorkerExits(code) => AloneKeeps(s, event);
  }

  lemma StartKeeps(s: System, inTime: bool, delivery: Delivery, cancelDelivery: Delivery)
    requires SystemHolds(s)
    ensures SystemHolds(Launched(s, Start(s.launcher, inTime, delivery, cancelDelivery)))
  {
    StartQuiet(s.launcher, inTime, delivery, cancelDelivery);
    hide WorkerHolds, KnowledgeHolds, DownHolds, AllTell, Quiet, Start;
    QuietKeeps(s, Start(s.launcher, inTime, delivery, cancelDelivery), s.retrying);
  }

  lemma CancelKeeps(s: System, delivery: Delivery)
    requires SystemHolds(s)
    ensures SystemHolds(Launched(s, Cancel(s.launcher, delivery)))
  {
    CancelQuiet(s.launcher, delivery);
    hide WorkerHolds, KnowledgeHolds, DownHolds, AllTell, Quiet, Cancel;
    QuietKeeps(s, Cancel(s.launcher, delivery), s.retrying);
  }

  lemma OutputKeeps(s: System, bytes: nat, delivery: Delivery)
    requires SystemHolds(s)
    ensures SystemHolds(Launched(s, Output(s.launcher, bytes, delivery)))
  {
    OutputQuiet(s.launcher, bytes, delivery);
    hide WorkerHolds, KnowledgeHolds, DownHolds, AllTell, Quiet, Output;
    QuietKeeps(s, Output(s.launcher, bytes, delivery), s.retrying);
  }

  lemma OutputQuiet(l: Launcher, bytes: nat, delivery: Delivery)
    ensures var step := Output(l, bytes, delivery);
      Quiet(l, step) && step.launcher.active == l.active && step.launcher.cleanupRequests == l.cleanupRequests
  {
    NoJobs(Output(l, bytes, delivery).messages);
  }

  lemma CloseKeeps(s: System)
    requires SystemHolds(s)
    ensures SystemHolds(Next(s, CloseArrives))
  {
    hide WorkerHolds, AllTell, Jobs;
  }

  lemma RetryKeeps(s: System, cancelDelivery: Delivery, delivery: Delivery)
    requires SystemHolds(s) && !s.retrying
    ensures SystemHolds(Next(s, RetryBegins(cancelDelivery, delivery)))
  {
    RetryQuiet(s.launcher, cancelDelivery, delivery);
    hide WorkerHolds, KnowledgeHolds, DownHolds, AllTell, Quiet, BeginRetry;
    var (step, r) := BeginRetry(s.launcher, cancelDelivery, delivery);
    QuietKeeps(s, step, r == RetryWaits);
  }

  lemma EndKeeps(s: System)
    requires SystemHolds(s)
    ensures SystemHolds(Next(s, RetryEnds))
  {
    assert s.down + [] == s.down;
    assert Quiet(s.launcher, Sent(EndWait(s.launcher).0, []));
    hide WorkerHolds, KnowledgeHolds, DownHolds, AllTell, Quiet;
    QuietKeeps(s, Sent(EndWait(s.launcher).0, []), false);
  }

  /** The worker's steps that say nothing. */
  lemma AloneKeeps(s: System, event: Event)
    requires SystemHolds(s) && (event.WorkerMaintains? || event.ChannelBreaks? || event.WorkerExits?)
    ensures SystemHolds(Next(s, event))
  {
    var w := Next(s, event).worker;
    if event.WorkerMaintains? { MaintainKeeps(s.worker, event.released); }
    assert WorkerHolds(w) && WorkerFollows(s.worker, w) by { hide DownHolds, KnowledgeHolds, AllTell; }
    ToldForGood(s.worker, w, s.up);
    hide WorkerHolds, AllTell, Jobs;
  }

  lemma SettleKeeps(s: System, cleanup: Status, valid: bool, fits: bool)
    requires SystemHolds(s)
    ensures SystemHolds(Next(s, WorkerSettles(cleanup, valid, fits)))
  {
    SettleTells(s.worker, cleanup, valid, fits);
    if s.worker.exitCode == None {
      assert DownHolds(s.launcher, Settle(s.worker, cleanup, valid, fits).worker, s.down);
      WorkerKeeps(s, Settle(s.worker, cleanup, valid, fits), s.down);
    }
  }

  lemma ServeKeeps(s: System, id: nat, released: bool, fits: bool)
    requires SystemHolds(s)
    ensures SystemHolds(Next(s, WorkerServes(id, released, fits)))
  {
    ServeTells(s.worker, id, released, fits);
    if s.worker.exitCode == None {
      assert DownHolds(s.launcher, Serve(s.worker, id, released, fits).worker, s.down);
      WorkerKeeps(s, Serve(s.worker, id, released, fits), s.down);
    }
  }

  lemma {:induction false} RunKeeps(events: seq<Event>)
    ensures SystemHolds(Run(FRESH_SYSTEM, events))
  {
    if events != [] {
      hide SystemHolds, Next;
      RunKeeps(events[..|events| - 1]);
      NextKeeps(Run(FRESH_SYSTEM, events[..|events| - 1]), events[|events| - 1]);
    } else {
      FreshHolds();
    }
  }

  lemma FreshHolds()
    ensures SystemHolds(FRESH_SYSTEM)
  {
  }

  // ---------------------------------------------------------------------------------- theorems

  /** The launcher reports `closed` only of a worker that never had a job, or that settled, released everything and exited 0. */
  lemma ClosedIsTruthful(events: seq<Event>)
    requires IsClosed(Run(FRESH_SYSTEM, events).launcher)
    ensures var s := Run(FRESH_SYSTEM, events);
      && !s.worker.held && s.worker.exitCode.Some?
      && if !s.launcher.jobSent then !s.worker.entered
         else s.worker.operation == Settled && s.worker.cleanupClosed && s.worker.exitCode == Some(0)
  {
    RunKeeps(events);
  }

  /** Whatever is lost, late or repeated, the worker enters at most one job, and at most 64 cleanups are ever asked for. */
  lemma OneJobOnly(events: seq<Event>)
    ensures Run(FRESH_SYSTEM, events).worker.entries <= 1 && Run(FRESH_SYSTEM, events).launcher.cleanupRequests <= MAXIMUM_CLEANUP_REQUESTS
  {
    RunKeeps(events);
  }

  /** A request resolves by the worker's answer to that very request, or as pending because the worker is gone. */
  lemma AnswersAreOwn(events: seq<Event>)
    requires var active := Run(FRESH_SYSTEM, events).launcher.active; active.Some? && active.value.answer.Some?
    ensures var s := Run(FRESH_SYSTEM, events); var request := s.launcher.active.value;
      && ((request.id, request.answer.value) in s.worker.answered || (s.launcher.closed && request.answer.value == CleanupPending))
      && (request.answer == Some(CleanupClosed) ==> s.worker.cleanupClosed)
  {
    RunKeeps(events);
  }

  /** The launcher after these messages, each with the fate of the cancel it may cause. */
  function ReceiveAll(l: Launcher, messages: seq<(ToLauncher, Delivery)>): Launcher
    decreases |messages|
  {
    if messages == [] then l else ReceiveAll(Launchers.Receive(l, messages[0].0, messages[0].1).launcher, messages[1..])
  }

  function FirstAnswer(messages: seq<(ToLauncher, Delivery)>, id: nat): Option<Status> {
    if messages == [] then None
    else if messages[0].0.CleanupAnswer? && messages[0].0.requestId == id then Some(messages[0].0.status)
    else FirstAnswer(messages[1..], id)
  }

  /** What no message changes, and what only an answer does. */
  lemma ReceiveOne(l: Launcher, message: ToLauncher, delivery: Delivery)
    ensures var l' := Launchers.Receive(l, message, delivery).launcher;
      && l'.jobSent == l.jobSent && l'.closed == l.closed && l'.cleanupRequests == l.cleanupRequests
      && if message.CleanupAnswer? && 1 <= message.requestId <= l.cleanupRequests
         then l'.active == Resolve(l.active, message.requestId, message.status)
              && l'.cleanupAcknowledged == (l.cleanupAcknowledged || message.status == CleanupClosed)
         else l'.active == l.active && l'.cleanupAcknowledged == l.cleanupAcknowledged
  {
    CancelQuiet(l, delivery);
    CancelQuiet(l.(protocolFailed := true), delivery);
    assert FailProtocol(l, delivery).launcher.jobSent == l.jobSent && FailProtocol(l, delivery).launcher.closed == l.closed;
    hide FailProtocol, Resolve;
  }

  /** Whatever else arrives, late, malformed or repeated, a waiting request takes the first answer to its own id. */
  lemma {:induction false} FirstAnswerDecides(l: Launcher, messages: seq<(ToLauncher, Delivery)>)
    requires RequestsHold(l) && l.active.Some?
    ensures var answer := if l.active.value.answer.Some? then l.active.value.answer else FirstAnswer(messages, l.active.value.id);
      ReceiveAll(l, messages).active == Some(Request(l.active.value.id, answer))
    decreases |messages|
  {
    if messages != [] {
      ReceiveOne(l, messages[0].0, messages[0].1);
      hide Launchers.Receive;
      FirstAnswerDecides(Launchers.Receive(l, messages[0].0, messages[0].1).launcher, messages[1..]);
    }
  }

  /** An entered worker that ends with 0 has released what it held, even when the launcher was gone long before. */
  lemma CleanExitReleases(events: seq<Event>)
    requires Run(FRESH_SYSTEM, events).worker.exitCode == Some(0)
    ensures !Run(FRESH_SYSTEM, events).worker.held
  {
    RunKeeps(events);
  }

  // ---------------------------------------------------------------------------------- closing is reached

  lemma {:induction false} RunJoin(s: System, first: seq<Event>, second: seq<Event>)
    ensures Run(s, first + second) == Run(Run(s, first), second)
  {
    hide Next;
    if second == [] {
      assert first + second == first;
    } else {
      var all := first + second;
      assert all[..|all| - 1] == first + second[..|second| - 1];
      RunJoin(s, first, second[..|second| - 1]);
    }
  }

  lemma RunOne(s: System, event: Event)
    ensures Run(s, [event]) == Next(s, event)
  {
    assert [event][..0] == [];
    hide Next;
  }

  lemma {:induction false} RunHolds(s: System, events: seq<Event>)
    requires SystemHolds(s)
    ensures SystemHolds(Run(s, events))
  {
    hide SystemHolds, Next;
    if events != [] {
      RunHolds(s, events[..|events| - 1]);
      NextKeeps(Run(s, events[..|events| - 1]), events[|events| - 1]);
    }
  }

  lemma LauncherTakes(s: System, message: ToLauncher)
    requires s.up != [] && s.up[0] == message
    ensures Next(s, LauncherReads(Delivered)) == Launched(s.(up := s.up[1..]), Launchers.Receive(s.launcher, message, Delivered))
  {
    hide Launchers.Receive;
  }

  /** The worker takes the next message of a channel that has no second job in it. */
  lemma WorkerTakesOne(s: System)
    requires SystemHolds(s) && s.down != [] && s.worker.connected && s.worker.exitCode == None
    ensures var t := Next(s, WorkerReads); var w := t.worker;
      && t == s.(down := s.down[1..], worker := w)
      && w.connected && w.exitCode == None
      && (w.entered || Jobs(t.down) > 0 <==> s.worker.entered || Jobs(s.down) > 0)
      && (s.worker.operation == Settled ==> w.operation == Settled)
      && s.worker.waiting <= w.waiting && (s.down[0].CleanupMessage? ==> s.down[0].requestId in w.waiting)
  {
    assert s.up + [] == s.up;
    assert Jobs(s.down) == (if s.down[0].JobMessage? then 1 else 0) + Jobs(s.down[1..]);
  }

  /** The worker takes everything that was sent to it. */
  lemma {:induction false} WorkerDrains(s: System) returns (more: seq<Event>)
    requires SystemHolds(s) && s.worker.connected && s.worker.exitCode == None
    ensures var t := Run(s, more); var w := t.worker;
      && SystemHolds(t) && t == s.(down := [], worker := w)
      && w.connected && w.exitCode == None
      && (w.entered <==> s.worker.entered || Jobs(s.down) > 0)
      && (s.worker.operation == Settled ==> w.operation == Settled)
      && s.worker.waiting <= w.waiting
      && forall i | 0 <= i < |s.down| && s.down[i].CleanupMessage? :: s.down[i].requestId in w.waiting
    decreases |s.down|
  {
    if s.down == [] {
      more := [];
    } else {
      NextKeeps(s, WorkerReads);
      WorkerTakesOne(s);
      hide SystemHolds, Next, Run;
      var rest := WorkerDrains(Next(s, WorkerReads));
      RunOne(s, WorkerReads);
      RunJoin(s, [WorkerReads], rest);
      more := [WorkerReads] + rest;
      assert forall i | 0 < i < |s.down| :: s.down[i] == s.down[1..][i - 1];
    }
  }

  /** Some message tells the launcher that a cleanup it asked for has closed. */
  predicate ClosedTold(l: Launcher, up: seq<ToLauncher>) {
    exists i :: 0 <= i < |up| && up[i].CleanupAnswer? && 1 <= up[i].requestId <= l.cleanupRequests && up[i].status == CleanupClosed
  }

  lemma LauncherTakesOne(s: System)
    requires s.up != []
    ensures var t := Next(s, LauncherReads(Delivered));
      && t.up == s.up[1..] && t.worker == s.worker && t.launcher.jobSent == s.launcher.jobSent && t.launcher.closed == s.launcher.closed
      && (s.launcher.cleanupAcknowledged || ClosedTold(s.launcher, s.up) ==> t.launcher.cleanupAcknowledged || ClosedTold(t.launcher, t.up))
  {
    LauncherTakes(s, s.up[0]);
    ReceiveOne(s.launcher, s.up[0], Delivered);
    hide Next, Launchers.Receive, Resolve;
    if i :| 0 < i < |s.up| && s.up[i].CleanupAnswer? && 1 <= s.up[i].requestId <= s.launcher.cleanupRequests && s.up[i].status == CleanupClosed {
      assert s.up[1..][i - 1] == s.up[i];
    }
  }

  /** The launcher takes everything the worker said. */
  lemma {:induction false} LauncherDrains(s: System) returns (more: seq<Event>)
    ensures var t := Run(s, more);
      && t.worker == s.worker && t.launcher.jobSent == s.launcher.jobSent && t.launcher.closed == s.launcher.closed
      && (s.launcher.cleanupAcknowledged || ClosedTold(s.launcher, s.up) ==> t.launcher.cleanupAcknowledged)
    decreases |s.up|
  {
    if s.up == [] {
      more := [];
    } else {
      LauncherTakesOne(s);
      hide Next, Run, ClosedTold;
      var rest := LauncherDrains(Next(s, LauncherReads(Delivered)));
      RunOne(s, LauncherReads(Delivered));
      RunJoin(s, [LauncherReads(Delivered)], rest);
      more := [LauncherReads(Delivered)] + rest;
    }
  }

  /** The worker exits with nothing left to do, and the launcher hears of it. */
  lemma Exits(s: System)
    requires !s.worker.connected && !s.worker.maintained && s.worker.operation == Settled && s.worker.exitCode == None
    requires !s.launcher.closed && s.launcher.cleanupAcknowledged
    ensures IsClosed(Next(Next(s, WorkerExits(Some(0))), CloseArrives).launcher)
  {
    hide Start, Cancel, Launchers.Receive, Output, FailProtocol, BeginRetry, EndWait, Workers.Take, Settle, Serve, Maintain, Disconnected;
  }

  /** A worker whose operation is settled and whose cleanup is not, and a launcher that may still ask for it. */
  ghost predicate MayAsk(s: System) {
    && SystemHolds(s) && s.worker.connected && s.worker.exitCode == None && s.worker.operation == Settled
    && !s.launcher.closed && s.launcher.cleanupRequests < MAXIMUM_CLEANUP_REQUESTS
  }

  lemma Asks(s: System)
    requires MayAsk(s) && !s.retrying
    ensures var t := Next(s, RetryBegins(Delivered, Delivered)); var id := s.launcher.cleanupRequests + 1;
      && t.worker == s.worker && t.down == s.down + [CancelMessage, CleanupMessage(id)]
      && !t.launcher.closed && t.launcher.jobSent && t.launcher.cleanupRequests == id
  {
    hide Cancel;
    assert [CancelMessage] + [CleanupMessage(s.launcher.cleanupRequests + 1)] == [CancelMessage, CleanupMessage(s.launcher.cleanupRequests + 1)];
  }

  lemma Serves(s: System, id: nat)
    requires SystemHolds(s) && s.worker.connected && s.worker.exitCode == None && s.worker.operation == Settled && id in s.worker.waiting
    ensures var t := Next(s, WorkerServes(id, true, true)); var w := t.worker;
      && t.launcher == s.launcher && t.up == s.up + [CleanupAnswer(id, CleanupClosed)]
      && !w.connected && !w.maintained && w.operation == Settled && w.exitCode == None
  {
  }

  /** A request, everything read, the cleanup served, everything read, the exit. */
  lemma AskedCloses(s: System) returns (more: seq<Event>)
    requires MayAsk(s) && !s.retrying
    ensures IsClosed(Run(s, more).launcher)
  {
    var asks := RetryBegins(Delivered, Delivered);
    var id := s.launcher.cleanupRequests + 1;
    Asks(s);
    NextKeeps(s, asks);
    hide SystemHolds, Next, Run, IsClosed, ClosedTold;
    var asked := Next(s, asks);
    assert asked.down[|s.down| + 1] == CleanupMessage(id);
    var takes := WorkerDrains(asked);
    var drained := Run(asked, takes);
    Serves(drained, id);
    var served := Next(drained, WorkerServes(id, true, true));
    assert ClosedTold(served.launcher, served.up) by { assert served.up[|drained.up|] == CleanupAnswer(id, CleanupClosed); }
    var hears := LauncherDrains(served);
    var heard := Run(served, hears);
    Exits(heard);
    var ends := [WorkerExits(Some(0))] + [CloseArrives];
    RunOne(heard, WorkerExits(Some(0)));
    RunOne(Next(heard, WorkerExits(Some(0))), CloseArrives);
    RunJoin(heard, [WorkerExits(Some(0))], [CloseArrives]);
    RunJoin(served, hears, ends);
    RunOne(drained, WorkerServes(id, true, true));
    RunJoin(drained, [WorkerServes(id, true, true)], hears + ends);
    RunJoin(asked, takes, [WorkerServes(id, true, true)] + (hears + ends));
    RunOne(s, asks);
    more := [asks] + (takes + ([WorkerServes(id, true, true)] + (hears + ends)));
    RunJoin(s, [asks], takes + ([WorkerServes(id, true, true)] + (hears + ends)));
  }

  lemma SettlesPending(s: System)
    requires SystemHolds(s) && s.worker.connected && s.worker.exitCode == None && s.worker.operation == Running
    ensures var t := Next(s, WorkerSettles(CleanupPending, true, true));
      t.launcher == s.launcher && t.retrying == s.retrying && t.worker.connected && t.worker.exitCode == None && t.worker.operation == Settled
  {
  }

  lemma EndsWait(s: System)
    requires s.retrying
    ensures var t := Next(s, RetryEnds);
      !t.retrying && t.worker == s.worker && t.launcher.closed == s.launcher.closed && t.launcher.cleanupRequests == s.launcher.cleanupRequests
  {
  }

  /** A step more in front of a continuation. */
  lemma StepFirst(s: System, event: Event, rest: seq<Event>) returns (more: seq<Event>)
    ensures Run(s, more) == Run(Next(s, event), rest)
  {
    RunOne(s, event);
    RunJoin(s, [event], rest);
    more := [event] + rest;
  }

  /** From a settled operation, whether or not a request is still being waited for. */
  lemma SettledCloses(s: System) returns (more: seq<Event>)
    requires MayAsk(s)
    ensures IsClosed(Run(s, more).launcher)
  {
    if s.retrying {
      NextKeeps(s, RetryEnds);
      EndsWait(s);
      hide SystemHolds, Next, Run, IsClosed;
      var rest := AskedCloses(Next(s, RetryEnds));
      more := StepFirst(s, RetryEnds, rest);
    } else {
      more := AskedCloses(s);
    }
  }

  /** From a job entered or still on its way. */
  lemma EnteredCloses(s: System) returns (more: seq<Event>)
    requires SystemHolds(s) && s.worker.connected && s.worker.exitCode == None && (s.worker.entered || Jobs(s.down) > 0)
    requires !s.launcher.closed && s.launcher.cleanupRequests < MAXIMUM_CLEANUP_REQUESTS
    ensures IsClosed(Run(s, more).launcher)
  {
    var takes := WorkerDrains(s);
    var t := Run(s, takes);
    var settles := WorkerSettles(CleanupPending, true, true);
    var rest;
    if t.worker.operation == Running {
      SettlesPending(t);
      NextKeeps(t, settles);
      hide Next, Run, IsClosed;
      rest := SettledCloses(Next(t, settles));
      rest := StepFirst(t, settles, rest);
    } else {
      rest := SettledCloses(t);
    }
    RunJoin(s, takes, rest);
    more := takes + rest;
  }

  /** A worker that never had a job need only end. */
  lemma UnsentCloses(s: System) returns (more: seq<Event>)
    requires s.worker.exitCode == None && !s.launcher.closed && !s.launcher.jobSent
    ensures IsClosed(Run(s, more).launcher)
  {
    var exits := WorkerExits(Some(1));
    more := [exits] + [CloseArrives];
    RunOne(s, exits);
    RunOne(Next(s, exits), CloseArrives);
    RunJoin(s, [exits], [CloseArrives]);
  }

  // ---------------------------------------------------------------------------------- a lost job is never closed

  /** Once a job was sent, no step puts another one on the way. */
  lemma NoSecondJob(s: System, event: Event)
    requires SystemHolds(s) && s.launcher.jobSent
    ensures var t := Next(s, event); t.launcher.jobSent && Jobs(t.down) + t.worker.entries <= Jobs(s.down) + s.worker.entries
  {
    match event
    case LauncherStarts(inTime, delivery, cancelDelivery) =>
      StartQuiet(s.launcher, inTime, delivery, cancelDelivery);
      QuietJobs(s, Start(s.launcher, inTime, delivery, cancelDelivery));
    case LauncherCancels(delivery) =>
      CancelQuiet(s.launcher, delivery);
      QuietJobs(s, Cancel(s.launcher, delivery));
    case LauncherReads(delivery) =>
      if s.up != [] {
        ReceiveOne(s.launcher, s.up[0], delivery);
        CancelQuiet(s.launcher, delivery);
        ReceiveJobs(s.launcher, s.up[0], delivery);
        JobsJoin(s.down, Launchers.Receive(s.launcher, s.up[0], delivery).messages);
      }
    case OutputArrives(bytes, delivery) =>
      OutputQuiet(s.launcher, bytes, delivery);
      QuietJobs(s, Output(s.launcher, bytes, delivery));
    case ChildFails(delivery) =>
      CancelQuiet(s.launcher, delivery);
      QuietJobs(s, FailProtocol(s.launcher, delivery));
    case RetryBegins(cancelDelivery, delivery) =>
      if !s.retrying {
        RetryQuiet(s.launcher, cancelDelivery, delivery);
        QuietJobs(s, BeginRetry(s.launcher, cancelDelivery, delivery).0);
      }
    case CloseArrives =>
    case RetryEnds =>
    case WorkerReads =>
      if s.down != [] && s.worker.connected && s.worker.exitCode == None { TakesJob(s.worker, s.down[0]); }
    case WorkerSettles(_, _, _) =>
    case WorkerServes(_, _, _) =>
    case WorkerMaintains(_) =>
    case ChannelBreaks =>
    case WorkerExits(_) =>
  }

  lemma QuietJobs(s: System, step: Sent)
    requires Quiet(s.launcher, step) && s.launcher.jobSent
    ensures step.launcher.jobSent && Jobs(s.down + step.messages) == Jobs(s.down)
  {
    JobsJoin(s.down, step.messages);
  }

  lemma ReceiveJobs(l: Launcher, message: ToLauncher, delivery: Delivery)
    requires l.jobSent
    ensures Jobs(Launchers.Receive(l, message, delivery).messages) == 0
  {
    CancelQuiet(l, delivery);
  }

  lemma TakesJob(w: Worker, message: ToWorker)
    ensures Workers.Take(w, message).worker.entries <= w.entries + if message.JobMessage? then 1 else 0
  {
  }

  /** A job that was sent and lost before the worker entered it. */
  predicate Lost(s: System) {
    s.launcher.jobSent && !s.worker.entered && Jobs(s.down) == 0
  }

  lemma {:induction false} LostForGood(s: System, more: seq<Event>)
    requires SystemHolds(s) && Lost(s)
    ensures Lost(Run(s, more)) && !IsClosed(Run(s, more).launcher)
  {
    RunHolds(s, more);
    if more != [] {
      var init := more[..|more| - 1];
      RunHolds(s, init);
      LostForGood(s, init);
      NoSecondJob(Run(s, init), more[|more| - 1]);
    }
    hide Next, Run;
  }

  /**
   Closing is reached: while the worker runs connected, the launcher has not seen it end and a request is still allowed,
   the launch can come to be reported closed, whatever has happened before, exactly when its job was never sent, is still
   on its way or was entered. A job lost on the way is never reported closed.
   */
  lemma ClosingIsReached(events: seq<Event>)
    requires var s := Run(FRESH_SYSTEM, events);
      s.worker.connected && s.worker.exitCode == None && !s.launcher.closed && s.launcher.cleanupRequests < MAXIMUM_CLEANUP_REQUESTS
    ensures var s := Run(FRESH_SYSTEM, events);
      (exists more :: IsClosed(Run(FRESH_SYSTEM, events + more).launcher)) <==> !s.launcher.jobSent || Jobs(s.down) > 0 || s.worker.entered
  {
    var s := Run(FRESH_SYSTEM, events);
    RunKeeps(events);
    hide SystemHolds, Next, Run, IsClosed;
    if Lost(s) {
      forall more ensures !IsClosed(Run(FRESH_SYSTEM, events + more).launcher) {
        RunJoin(FRESH_SYSTEM, events, more);
        LostForGood(s, more);
      }
    } else {
      var more;
      if s.launcher.jobSent { more := EnteredCloses(s); } else { more := UnsentCloses(s); }
      RunJoin(FRESH_SYSTEM, events, more);
    }
  }
}
