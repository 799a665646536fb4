/** Single-flight releases, and the ordered release built from them: preparation, host, allocations, executable. */
module Releases {
  import opened Wrappers

  // ---------------------------------------------------------------------------------- one release

  /** `nativeRelease`: `active` counts the runs of its action in flight, `successes` those that succeeded. */
  datatype Latch = Latch(released: bool, pending: bool, active: nat, successes: nat)

  const FRESH_LATCH := Latch(false, false, 0, 0)

  function Call(l: Latch): Latch {
    if l.released || l.pending then l else l.(pending := true, active := l.active + 1)
  }

  /** The action in flight ends; after a failure the next call runs it again. */
  function Finish(l: Latch, ok: bool): Latch {
    if l.active == 0 then l
    else if ok then l.(released := true, active := l.active - 1, successes := l.successes + 1)
    else l.(pending := false, active := l.active - 1)
  }

  ghost predicate LatchHolds(l: Latch) {
    && l.active == (if l.pending && !l.released then 1 else 0)
    && l.successes == (if l.released then 1 else 0)
  }

  datatype LatchEvent = Called | Finished(ok: bool)

  function LatchRun(l: Latch, events: seq<LatchEvent>): Latch {
    if events == [] then l
    else
      var before := LatchRun(l, events[..|events| - 1]);
      match events[|events| - 1]
      case Called => Call(before)
      case Finished(ok) => Finish(before, ok)
  }

  /** Under any overlapping calls and failures the action never runs twice at a time and succeeds at most once. */
  lemma {:induction false} SingleFlight(events: seq<LatchEvent>)
    ensures LatchHolds(LatchRun(FRESH_LATCH, events))
    ensures LatchRun(FRESH_LATCH, events).active <= 1 && LatchRun(FRESH_LATCH, events).successes <= 1
  {
    if events != [] {
      SingleFlight(events[..|events| - 1]);
    }
  }

  /** The closure `nativeRelease` returns. */
  class NativeRelease {
    var released: bool
    var pending: bool
    ghost var active: nat
    ghost var successes: nat

    ghost function State(): Latch
      reads this
    {
      Latch(released, pending, active, successes)
    }

    constructor ()
      ensures State() == FRESH_LATCH
    {
      released, pending, active, successes := false, false, 0, 0;
    }

    /** Returns whether the action is started now. */
    method Release() returns (started: bool)
      modifies this
      ensures State() == Call(old(State()))
      ensures started <==> State() != old(State())
    {
      started := false;
      if released {
        return;
      }
      if !pending {
        pending := true;
        active := active + 1;
        started := true;
      }
    }

    /** The action settled. */
    method Settle(ok: bool)
      requires LatchHolds(State()) && active == 1
      modifies this
      ensures State() == Finish(old(State()), ok) && LatchHolds(State())
    {
      if ok {
        released := true;
        successes := successes + 1;
      } else {
        pending := false;
      }
      active := active - 1;
    }
  }

  // ---------------------------------------------------------------------------------- the ordered release

  /** What one promise awaited by `Promise.allSettled` came to. */
  datatype Wait = Waiting | Fulfilled | Rejected

  datatype Stage = Idle | Preparation | Host | Allocations(waits: seq<Wait>) | Executable

  /** The releases one operation owns, and where its own release stands; a part that was never acquired is `None`. */
  datatype Cleanup = Cleanup(own: Latch, stage: Stage, preparation: Option<Latch>, host: Option<Latch>, allocations: seq<Latch>, executable: Option<Latch>)

  /** Calls and settlements, also by others than this release: allocations are released by their users as well. */
  datatype Event =
    | Ask
    | Advance
    | PreparationSettles(ok: bool)
    | HostCalled
    | HostSettles(ok: bool)
    | AllocationCalled(i: nat)
    | AllocationSettles(i: nat, ok: bool)
    | ExecutableSettles(ok: bool)

  predicate Done(part: Option<Latch>) {
    part == None || part.value.released
  }

  function CallPart(part: Option<Latch>): Option<Latch> {
    if part == None then None else Some(Call(part.value))
  }

  function FinishPart(part: Option<Latch>, ok: bool): Option<Latch> {
    if part == None then None else Some(Finish(part.value, ok))
  }

  function CallAll(allocations: seq<Latch>): seq<Latch> {
    seq(|allocations|, i requires 0 <= i < |allocations| => Call(allocations[i]))
  }

  function Waits(allocations: seq<Latch>): seq<Wait> {
    seq(|allocations|, i requires 0 <= i < |allocations| => if allocations[i].released then Fulfilled else Waiting)
  }

  function Fail(c: Cleanup): Cleanup {
    c.(own := Finish(c.own, false), stage := Idle)
  }

  /** The action of the release takes its next step once what it awaits is there. */
  function Proceed(c: Cleanup): Cleanup {
    match c.stage
    case Idle => c
    case Preparation => if Done(c.preparation) then c.(stage := Host, host := CallPart(c.host)) else c
    case Host =>
      if Done(c.host) then c.(stage := Allocations(Waits(c.allocations)), allocations := CallAll(c.allocations)) else c
    case Allocations(waits) =>
      if exists i :: 0 <= i < |waits| && waits[i] == Waiting then c
      else if exists i :: 0 <= i < |waits| && waits[i] == Rejected then Fail(c)
      else c.(stage := Executable, executable := CallPart(c.executable))
    case Executable => if Done(c.executable) then c.(own := Finish(c.own, true), stage := Idle) else c
  }

  function Next(c: Cleanup, event: Event): Cleanup {
    match event
    case Ask =>
      var own := Call(c.own);
      if own == c.own then c else c.(own := own, stage := Preparation, preparation := CallPart(c.preparation))
    case Advance => Proceed(c)
    case PreparationSettles(ok) =>
      if c.preparation == None || c.preparation.value.active == 0 then c
      else
        var settled := c.(preparation := FinishPart(c.preparation, ok));
        if !ok && c.stage == Preparation then Fail(settled) else settled
    case HostCalled => c.(host := CallPart(c.host))
    case HostSettles(ok) =>
      if c.host == None || c.host.value.active == 0 then c
      else
        var settled := c.(host := FinishPart(c.host, ok));
        if !ok && c.stage == Host then Fail(settled) else settled
    case AllocationCalled(i) => if i < |c.allocations| then c.(allocations := c.allocations[i := Call(c.allocations[i])]) else c
    case AllocationSettles(i, ok) =>
      if i >= |c.allocations| || c.allocations[i].active == 0 then c
      else
        var settled := c.(allocations := c.allocations[i := Finish(c.allocations[i], ok)]);
        if c.stage.Allocations? && i < |c.stage.waits| && c.stage.waits[i] == Waiting
        then settled.(stage := Allocations(c.stage.waits[i := if ok then Fulfilled else Rejected])) else settled
    case ExecutableSettles(ok) =>
      if c.executable == None || c.executable.value.active == 0 then c
      else
        var settled := c.(executable := FinishPart(c.executable, ok));
        if !ok && c.stage == Executable then Fail(settled) else settled
  }

  function Run(c: Cleanup, events: seq<Event>): Cleanup {
    if events == [] then c else Next(Run(c, events[..|events| - 1]), events[|events| - 1])
  }

  ghost predicate AllReleased(allocations: seq<Latch>) {
    forall i | 0 <= i < |allocations| :: allocations[i].released
  }

  ghost predicate PartHolds(part: Option<Latch>) {
    part.Some? ==> LatchHolds(part.value)
  }

  /** Everything before the executable is released. */
  ghost predicate Cleared(c: Cleanup) {
    Done(c.preparation) && Done(c.host) && AllReleased(c.allocations)
  }

  ghost predicate WaitsHold(waits: seq<Wait>, allocations: seq<Latch>) {
    |waits| == |allocations| && forall i | 0 <= i < |waits| && waits[i] == Fulfilled :: allocations[i].released
  }

  ghost predicate CleanupHolds(c: Cleanup) {
    && LatchHolds(c.own) && PartHolds(c.preparation) && PartHolds(c.host) && PartHolds(c.executable)
    && (forall i | 0 <= i < |c.allocations| :: LatchHolds(c.allocations[i]))
    && (c.stage != Idle <==> c.own.active == 1)
    && (c.stage.Host? || c.stage.Allocations? || c.stage.Executable? ==> Done(c.preparation))
    && (c.stage.Allocations? || c.stage.Executable? ==> Done(c.host))
    && (c.stage.Allocations? ==> WaitsHold(c.stage.waits, c.allocations))
    && (c.stage.Executable? ==> AllReleased(c.allocations))
    && (c.executable.Some? && c.executable.value != FRESH_LATCH ==> Cleared(c))
    && (c.own.released ==> Cleared(c) && Done(c.executable))
  }

  lemma ProceedHolds(c: Cleanup)
    requires CleanupHolds(c)
    ensures CleanupHolds(Proceed(c))
  {
    match c.stage
    case Allocations(waits) =>
      if (forall i | 0 <= i < |waits| :: waits[i] != Waiting) && (forall i | 0 <= i < |waits| :: waits[i] != Rejected) {
        forall i | 0 <= i < |waits| ensures waits[i] == Fulfilled {
          assert waits[i] != Waiting && waits[i] != Rejected;
        }
      }
    case _ =>
  }

  lemma NextHolds(c: Cleanup, event: Event)
    requires CleanupHolds(c)
    ensures CleanupHolds(Next(c, event))
  {
    if event == Advance { ProceedHolds(c); }
  }

  lemma {:induction false} RunHolds(c: Cleanup, events: seq<Event>)
    requires CleanupHolds(c)
    ensures CleanupHolds(Run(c, events))
  {
    if events != [] {
      hide CleanupHolds, Next;
      RunHolds(c, events[..|events| - 1]);
      NextHolds(Run(c, events[..|events| - 1]), events[|events| - 1]);
    }
  }

  /** What an operation starts with: nothing released, nothing under way. */
  predicate Fresh(c: Cleanup) {
    && c.own == FRESH_LATCH && c.stage == Idle
    && (c.preparation.Some? ==> c.preparation.value == FRESH_LATCH) && (c.host.Some? ==> c.host.value == FRESH_LATCH)
    && (c.executable.Some? ==> c.executable.value == FRESH_LATCH)
    && forall i | 0 <= i < |c.allocations| :: c.allocations[i] == FRESH_LATCH
  }

  /** The executable's release is not even started before preparation, host and every allocation are released. */
  lemma ExecutableGoesLast(c: Cleanup, events: seq<Event>)
    requires Fresh(c) && Run(c, events).executable.Some? && Run(c, events).executable.value != FRESH_LATCH
    ensures Cleared(Run(c, events))
  {
    RunHolds(c, events);
  }

  /** Every part succeeds at most once and never runs twice at a time, and a release that succeeded has released everything. */
  lemma EachPartOnce(c: Cleanup, events: seq<Event>)
    requires Fresh(c)
    ensures var d := Run(c, events);
      && (forall part | part in [d.preparation, d.host, d.executable, Some(d.own)] && part.Some? :: part.value.active <= 1 && part.value.successes <= 1)
      && (forall i | 0 <= i < |d.allocations| :: d.allocations[i].active <= 1 && d.allocations[i].successes <= 1)
      && (d.own.released ==> Cleared(d) && Done(d.executable))
  {
    RunHolds(c, events);
  }

  // ---------------------------------------------------------------------------------- a failed release can be retried

  predicate Still(part: Option<Latch>) {
    part.Some? ==> part.value.active == 0
  }

  /** No release of any part is under way. */
  predicate AllStill(c: Cleanup) {
    c.stage == Idle && Still(c.preparation) && Still(c.host) && Still(c.executable)
    && forall i | 0 <= i < |c.allocations| :: c.allocations[i].active == 0
  }

  function SettleAllocations(n: nat): seq<Event> {
    seq(n, i requires 0 <= i < n => AllocationSettles(i, true))
  }

  lemma {:induction false} RunJoin(c: Cleanup, first: seq<Event>, second: seq<Event>)
    ensures Run(c, first + second) == Run(Run(c, first), second)
  {
    hide Next;
    if second == [] {
      assert first + second == first;
    } else {
      RunJoin(c, first, second[..|second| - 1]);
      assert (first + second)[..|first + second| - 1] == first + second[..|second| - 1];
    }
  }

  /** Each allocation waited for is released already or under way. */
  ghost predicate Waited(c: Cleanup, from: nat) {
    && c.stage.Allocations? && |c.stage.waits| == |c.allocations| && from <= |c.allocations|
    && forall i | 0 <= i < |c.allocations| ::
      c.stage.waits[i] == Fulfilled || (i >= from && c.stage.waits[i] == Waiting && c.allocations[i].active == 1)
  }

  lemma {:induction false} AllocationsSettle(c: Cleanup, n: nat)
    requires Waited(c, 0) && n <= |c.allocations|
    ensures var d := Run(c, SettleAllocations(n));
      Waited(d, n) && |d.allocations| == |c.allocations| && d == c.(stage := d.stage, allocations := d.allocations)
  {
    if n > 0 {
      AllocationsSettle(c, n - 1);
      assert SettleAllocations(n)[..n - 1] == SettleAllocations(n - 1);
      var before := Run(c, SettleAllocations(n - 1));
      assert before.stage.waits[n - 1] == Fulfilled || before.allocations[n - 1].active == 1;
      assert Run(c, SettleAllocations(n)) == Next(before, AllocationSettles(n - 1, true));
    }
  }

  /** What a retry goes through when every part it awaits succeeds. */
  function Retry(c: Cleanup): seq<Event> {
    [Ask, PreparationSettles(true), Advance] + [HostSettles(true), Advance] + SettleAllocations(|c.allocations|) + [Advance, ExecutableSettles(true), Advance]
  }

  lemma RunThree(c: Cleanup, events: seq<Event>)
    requires |events| == 3
    ensures Run(c, events) == Next(Next(Next(c, events[0]), events[1]), events[2])
  {
    hide Next;
    RunJoin(c, events[..1], events[1..2]);
    RunJoin(c, events[..2], events[2..]);
    assert events[..2] == events[..1] + events[1..2] && events == events[..2] + events[2..];
    RunOne(c, events[0]);
    RunOne(Run(c, events[..1]), events[1]);
    RunOne(Run(c, events[..2]), events[2]);
    assert events[..1] == [events[0]] && events[1..2] == [events[1]] && events[2..] == [events[2]];
  }

  lemma RunOne(c: Cleanup, event: Event)
    ensures Run(c, [event]) == Next(c, event)
  {
    assert [event][..0] == [];
  }

  lemma StartsRetry(c: Cleanup)
    requires CleanupHolds(c) && AllStill(c) && !c.own.released
    ensures var d := Next(Next(Next(c, Ask), PreparationSettles(true)), Advance);
      && d.stage == Host && d.own == Call(c.own) && d.allocations == c.allocations && d.executable == c.executable
      && (d.host.Some? ==> d.host.value.released || d.host.value.active == 1)
  {
  }

  lemma ReachesAllocations(c: Cleanup)
    requires c.stage == Host && (c.host.Some? ==> c.host.value.released || c.host.value.active == 1)
    requires forall i | 0 <= i < |c.allocations| :: LatchHolds(c.allocations[i]) && c.allocations[i].active == 0
    ensures var d := Next(Next(c, HostSettles(true)), Advance);
      Waited(d, 0) && d.own == c.own && d.executable == c.executable && |d.allocations| == |c.allocations|
  {
  }

  lemma FinishesRetry(c: Cleanup)
    requires Waited(c, |c.allocations|) && c.own.active == 1 && PartHolds(c.executable) && Still(c.executable)
    ensures Next(Next(Next(c, Advance), ExecutableSettles(true)), Advance).own.released
  {
  }

  /** However often it failed before, a release asked again succeeds once every part does. */
  lemma RetrySucceeds(c: Cleanup)
    requires CleanupHolds(c) && AllStill(c) && !c.own.released
    ensures Run(c, Retry(c)).own.released && Cleared(Run(c, Retry(c))) && Done(Run(c, Retry(c)).executable)
  {
    RunHolds(c, Retry(c));
    StartsRetry(c);
    var started := Next(Next(Next(c, Ask), PreparationSettles(true)), Advance);
    ReachesAllocations(started);
    var waiting := Next(Next(started, HostSettles(true)), Advance);
    AllocationsSettle(waiting, |c.allocations|);
    var waited := Run(waiting, SettleAllocations(|c.allocations|));
    FinishesRetry(waited);
    hide Next, Run;
    var first, second := [Ask, PreparationSettles(true), Advance], [HostSettles(true), Advance];
    var third, last := SettleAllocations(|c.allocations|), [Advance, ExecutableSettles(true), Advance];
    RunThree(c, first);
    RunThree(waited, last);
    RunJoin(started, [HostSettles(true)], [Advance]);
    RunOne(started, HostSettles(true));
    RunOne(Next(started, HostSettles(true)), Advance);
    assert [HostSettles(true)] + [Advance] == second;
    RunJoin(c, first, second);
    RunJoin(c, first + second, third);
    RunJoin(c, first + second + third, last);
  }
}
