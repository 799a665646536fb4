/** The six turns of a qualified mode against its replayed sessions, and what that says about any instant. */
module QualifiedTurns {
  import opened Collections
  import opened SessionReplay
  import opened Wrappers

  datatype Purpose = Ordinary | Admission | ChildWork | Completion | CancellationAdmission | CancellationChild
  datatype Outcome = Completed | Canceled | Failed | PendingRequest | Uncertain

  datatype Turn = Turn(role: Role, purpose: Purpose, sessionId: string, turnId: string, enteredAt: real, providerStartedAt: Option<real>,
                       terminalAt: Option<real>, settledAt: real, outcome: Outcome, catalogRevision: nat, configurationVerifiedAt: real)

  datatype Report = Report(turns: seq<Turn>, sessions: seq<SessionEvent>, elapsedMs: real, cleanupMs: real, revision: Option<nat>)

  const MODE_MS := 300_000.0
  const ORDINARY_MS := 90_000.0
  const PURPOSES := [Ordinary, Admission, ChildWork, Completion, CancellationAdmission, CancellationChild]

  // ---------------------------------------------------------------------------------- the checks

  /** What `parseTurn` asks of one turn's times and role. */
  predicate TurnParses(t: Turn) {
    && t.role != ComparisonRole
    && t.enteredAt <= t.settledAt && t.configurationVerifiedAt <= t.enteredAt
    && (t.providerStartedAt.Some? ==> t.enteredAt <= t.providerStartedAt.value <= t.settledAt)
    && (t.terminalAt.Some? ==> t.providerStartedAt.Some? && t.providerStartedAt.value <= t.terminalAt.value
                               && (t.purpose == CancellationChild || t.terminalAt.value <= t.settledAt))
  }

  function OfPurpose(turns: seq<Turn>, purpose: Purpose): seq<Turn> {
    if turns == [] then [] else OfPurpose(turns[..|turns| - 1], purpose) + if turns[|turns| - 1].purpose == purpose then [turns[|turns| - 1]] else []
  }

  /** `turnFor`: the one turn of a purpose. */
  function TurnFor(turns: seq<Turn>, purpose: Purpose): Option<Turn> {
    if |OfPurpose(turns, purpose)| == 1 then Some(OfPurpose(turns, purpose)[0]) else None
  }

  function ExpectedRole(purpose: Purpose): Role {
    if purpose == ChildWork || purpose == CancellationChild then ChildRole else ParentRole
  }

  function Later(a: real, b: real): real {
    if a < b then b else a
  }

  predicate TurnQualifies(r: Report, t: Turn) {
    && t.providerStartedAt.Some? && t.terminalAt.Some? && t.settledAt <= MODE_MS
    && Later(t.settledAt, t.terminalAt.value) <= r.elapsedMs && r.revision == Some(t.catalogRevision)
    && t.outcome == (if t.purpose == CancellationChild then Canceled else Completed)
    && t.role == ExpectedRole(t.purpose)
  }

  predicate ParentTurn(t: Turn, ordinary: Turn) {
    t.sessionId == ordinary.sessionId && t.settledAt - t.enteredAt <= ORDINARY_MS
  }

  /** The order of the six turns. */
  predicate Ordered(ordinary: Turn, admission: Turn, child: Turn, completion: Turn, cancelAdmission: Turn, cancelChild: Turn)
    requires child.providerStartedAt.Some? && cancelChild.providerStartedAt.Some?
  {
    && ordinary.settledAt <= admission.enteredAt && admission.settledAt < child.providerStartedAt.value
    && child.settledAt <= completion.enteredAt && completion.settledAt <= cancelAdmission.enteredAt
    && cancelAdmission.settledAt < cancelChild.providerStartedAt.value
    && child.sessionId != ordinary.sessionId && cancelChild.sessionId != ordinary.sessionId
  }

  predicate Distinct(turns: seq<Turn>) {
    forall i, j | 0 <= i < j < |turns| :: turns[i].turnId != turns[j].turnId
  }

  /** A turn lies within the span of its session, which had its role. */
  predicate WithinSession(closed: map<string, Span>, t: Turn)
    requires t.terminalAt.Some?
  {
    t.sessionId in closed && closed[t.sessionId].role == t.role
    && closed[t.sessionId].openedAt <= t.enteredAt && closed[t.sessionId].closedAt >= Later(t.settledAt, t.terminalAt.value)
  }

  predicate HasSix(turns: seq<Turn>) {
    forall p | p in PURPOSES :: TurnFor(turns, p).Some?
  }

  predicate TurnsQualify(r: Report)
    requires forall i | 0 <= i < |r.turns| :: TurnParses(r.turns[i])
  {
    && HasSix(r.turns) && Distinct(r.turns)
    && (forall i | 0 <= i < |r.turns| :: TurnQualifies(r, r.turns[i]))
    && var ordinary := TurnFor(r.turns, Ordinary); var admission := TurnFor(r.turns, Admission); var child := TurnFor(r.turns, ChildWork);
       var completion := TurnFor(r.turns, Completion); var cancelAdmission := TurnFor(r.turns, CancellationAdmission);
       var cancelChild := TurnFor(r.turns, CancellationChild);
       && ordinary.Some? && admission.Some? && child.Some? && completion.Some? && cancelAdmission.Some? && cancelChild.Some?
       && (forall t | t in [ordinary.value, admission.value, completion.value, cancelAdmission.value] :: ParentTurn(t, ordinary.value))
       && child.value.providerStartedAt.Some? && cancelChild.value.providerStartedAt.Some?
       && Ordered(ordinary.value, admission.value, child.value, completion.value, cancelAdmission.value, cancelChild.value)
  }

  /** The comparisons: one closed before the child's provider ran, one opened after it ended. */
  ghost predicate Compared(closed: map<string, Span>, child: Turn)
    requires child.providerStartedAt.Some? && child.terminalAt.Some?
  {
    && (exists id :: id in closed && closed[id].role == ComparisonRole && closed[id].closedAt < child.providerStartedAt.value)
    && (exists id :: id in closed && closed[id].role == ComparisonRole && closed[id].openedAt > child.terminalAt.value)
  }

  // ---------------------------------------------------------------------------------- what an accepted mode means

  /** The log has the turn's session in its role, open before the turn was entered and closed after everything it did. */
  ghost predicate TurnInSession(events: seq<SessionEvent>, t: Turn) {
    var own := OfSession(events, t.sessionId);
    && t.terminalAt.Some? && |own| == 3 && own[0].role == t.role
    && own[1].at <= t.enteredAt && Later(t.settledAt, t.terminalAt.value) <= own[2].at
  }

  /** The session compared and was closed before the instant. */
  ghost predicate ClosedBefore(events: seq<SessionEvent>, id: string, at: real) {
    id in ComparisonIds(events) && |OfSession(events, id)| == 3 && OfSession(events, id)[2].at < at
  }

  /** The session compared and was opened after the instant. */
  ghost predicate OpenedAfter(events: seq<SessionEvent>, id: string, at: real) {
    id in ComparisonIds(events) && |OfSession(events, id)| == 3 && OfSession(events, id)[1].at > at
  }

  /** The six turns qualify, the log is replayable, every turn lies in its session, and the child lies between two comparisons. */
  ghost predicate ModeTimesQualify(r: Report)
    requires forall i | 0 <= i < |r.turns| :: TurnParses(r.turns[i])
  {
    && TurnsQualify(r) && Replayable(r.sessions, r.elapsedMs + r.cleanupMs)
    && (forall i | 0 <= i < |r.turns| :: TurnInSession(r.sessions, r.turns[i]))
    && var child := TurnFor(r.turns, ChildWork);
       && child.Some? && child.value.providerStartedAt.Some? && child.value.terminalAt.Some?
       && (exists id :: ClosedBefore(r.sessions, id, child.value.providerStartedAt.value))
       && (exists id :: OpenedAfter(r.sessions, id, child.value.terminalAt.value))
  }

  /** A span is what the log says of its session. */
  lemma SpanIs(events: seq<SessionEvent>, closed: map<string, Span>, id: string)
    requires Tracks(events, map[], closed)
    ensures id in closed <==> |OfSession(events, id)| == 3
    ensures id in closed ==>
              var own := OfSession(events, id);
              closed[id] == Span(own[0].role, own[1].at, own[2].at) && (id in ComparisonIds(events) <==> own[0].role == ComparisonRole)
  {
    assert Tracked(OfSession(events, id), Lookup(map[], id), Lookup(closed, id));
    AllClosed(events, closed);
    assert id in ComparisonIds(events) <==> id in ComparisonSpans(closed);
  }

  lemma WithinIsInSession(events: seq<SessionEvent>, closed: map<string, Span>, t: Turn)
    requires Tracks(events, map[], closed) && t.terminalAt.Some?
    ensures WithinSession(closed, t) <==> TurnInSession(events, t)
  {
    SpanIs(events, closed, t.sessionId);
  }

  lemma ComparedInLog(events: seq<SessionEvent>, closed: map<string, Span>, child: Turn)
    requires Tracks(events, map[], closed) && child.providerStartedAt.Some? && child.terminalAt.Some?
    ensures Compared(closed, child) <==>
            (exists id :: ClosedBefore(events, id, child.providerStartedAt.value)) && (exists id :: OpenedAfter(events, id, child.terminalAt.value))
  {
    forall id
      ensures ClosedBefore(events, id, child.providerStartedAt.value) <==>
              id in closed && closed[id].role == ComparisonRole && closed[id].closedAt < child.providerStartedAt.value
      ensures OpenedAfter(events, id, child.terminalAt.value) <==>
              id in closed && closed[id].role == ComparisonRole && closed[id].openedAt > child.terminalAt.value
    {
      SpanIs(events, closed, id);
    }
  }

  /** The timing part of `assertQualifiedNativeMode` accepts exactly the modes whose times qualify. */
  method AssertModeTimes(r: Report) returns (ok: bool)
    requires forall i | 0 <= i < |r.turns| :: TurnParses(r.turns[i])
    requires forall i | 0 <= i < |r.sessions| :: r.sessions[i].at >= 0.0
    ensures ok <==> ModeTimesQualify(r)
  {
    hide Replayable, Tracks, TurnsQualify, TurnFor, TurnInSession;
    if !TurnsQualify(r) {
      return false;
    }
    var closed;
    ok, closed := ReplaySessions(r.sessions, r.elapsedMs + r.cleanupMs);
    if !ok {
      return;
    }
    SixFacts(r, ChildWork);
    var child := TurnFor(r.turns, ChildWork).value;
    ComparedInLog(r.sessions, closed, child);
    hide ClosedBefore, OpenedAfter;
    var spans := closed.Values;
    if !(exists s | s in spans :: s.role == ComparisonRole && s.closedAt < child.providerStartedAt.value)
       || !(exists s | s in spans :: s.role == ComparisonRole && s.openedAt > child.terminalAt.value) {
      return false;
    }
    for i := 0 to |r.turns|
      invariant forall j | 0 <= j < i :: TurnInSession(r.sessions, r.turns[j])
    {
      AllHaveTerminal(r, i);
      WithinIsInSession(r.sessions, closed, r.turns[i]);
      if !WithinSession(closed, r.turns[i]) {
        return false;
      }
    }
  }

  lemma AllHaveTerminal(r: Report, i: nat)
    requires (forall i | 0 <= i < |r.turns| :: TurnParses(r.turns[i])) && TurnsQualify(r) && i < |r.turns|
    ensures r.turns[i].terminalAt.Some?
  {
    assert TurnQualifies(r, r.turns[i]);
  }

  lemma {:induction false} OfPurposeIn(turns: seq<Turn>, purpose: Purpose)
    ensures forall t | t in OfPurpose(turns, purpose) :: t in turns && t.purpose == purpose
  {
    if turns != [] {
      OfPurposeIn(turns[..|turns| - 1], purpose);
    }
  }

  lemma TurnIsIn(turns: seq<Turn>, purpose: Purpose)
    requires TurnFor(turns, purpose).Some?
    ensures TurnFor(turns, purpose).value in turns && TurnFor(turns, purpose).value.purpose == purpose
  {
    OfPurposeIn(turns, purpose);
    assert OfPurpose(turns, purpose)[0] in OfPurpose(turns, purpose);
  }

  // ---------------------------------------------------------------------------------- six turns, one provider at a time

  lemma {:induction false} PurposesCount(turns: seq<Turn>)
    ensures |turns| == |OfPurpose(turns, Ordinary)| + |OfPurpose(turns, Admission)| + |OfPurpose(turns, ChildWork)|
                       + |OfPurpose(turns, Completion)| + |OfPurpose(turns, CancellationAdmission)| + |OfPurpose(turns, CancellationChild)|
  {
    if turns != [] {
      PurposesCount(turns[..|turns| - 1]);
    }
  }

  /** A qualified mode has exactly six turns. */
  lemma ExactlySixTurns(r: Report)
    requires (forall i | 0 <= i < |r.turns| :: TurnParses(r.turns[i])) && TurnsQualify(r)
    ensures |r.turns| == 6
  {
    PurposesCount(r.turns);
    assert PURPOSES[0] in PURPOSES && PURPOSES[1] in PURPOSES && PURPOSES[2] in PURPOSES;
    assert PURPOSES[3] in PURPOSES && PURPOSES[4] in PURPOSES && PURPOSES[5] in PURPOSES;
  }

  /** A turn's provider runs between these two instants. */
  predicate Running(t: Turn, at: real) {
    t.providerStartedAt.Some? && t.providerStartedAt.value < at < t.settledAt
  }

  lemma SixFacts(r: Report, p: Purpose)
    requires (forall i | 0 <= i < |r.turns| :: TurnParses(r.turns[i])) && TurnsQualify(r)
    ensures TurnFor(r.turns, p).Some? && TurnParses(TurnFor(r.turns, p).value) && TurnQualifies(r, TurnFor(r.turns, p).value)
    ensures TurnFor(r.turns, p).value in r.turns && TurnFor(r.turns, p).value.purpose == p
  {
    assert PURPOSES[0] == Ordinary && PURPOSES[1] == Admission && PURPOSES[2] == ChildWork;
    assert PURPOSES[3] == Completion && PURPOSES[4] == CancellationAdmission && PURPOSES[5] == CancellationChild;
    assert p in PURPOSES;
    TurnIsIn(r.turns, p);
  }

  /** The providers of two different purposes never run at the same instant. */
  lemma OneProviderAtATime(r: Report, p: Purpose, q: Purpose, at: real)
    requires (forall i | 0 <= i < |r.turns| :: TurnParses(r.turns[i])) && TurnsQualify(r) && p != q
    ensures TurnFor(r.turns, p).Some? && TurnFor(r.turns, q).Some?
    ensures !(Running(TurnFor(r.turns, p).value, at) && Running(TurnFor(r.turns, q).value, at))
  {
    SixFacts(r, Ordinary);
    SixFacts(r, Admission);
    SixFacts(r, ChildWork);
    SixFacts(r, Completion);
    SixFacts(r, CancellationAdmission);
    SixFacts(r, CancellationChild);
    hide TurnFor, HasSix, Distinct;
  }

  // ---------------------------------------------------------------------------------- never three sessions at an instant

  /** Strictly between a session's opening and its close. */
  ghost predicate StrictlyInside(events: seq<SessionEvent>, id: string, at: real) {
    var own := OfSession(events, id);
    |own| == 3 && own[0].at < at < own[2].at
  }

  lemma {:induction false} OwnJoin(first: seq<SessionEvent>, second: seq<SessionEvent>, id: string)
    ensures OfSession(first + second, id) == OfSession(first, id) + OfSession(second, id)
  {
    if second == [] {
      assert first + second == first;
    } else {
      var init := second[..|second| - 1];
      OwnJoin(first, init, id);
      assert (first + second)[..|first + second| - 1] == first + init;
    }
  }

  /** The events before an instant. */
  function CountBefore(events: seq<SessionEvent>, at: real): (n: nat)
    ensures n <= |events|
    ensures forall i | 0 <= i < n :: events[i].at < at
    ensures n < |events| ==> events[n].at >= at
  {
    if events == [] || events[0].at >= at then 0 else 1 + CountBefore(events[1..], at)
  }

  /** The events of a session before an instant, and those not before it. */
  lemma OwnCut(events: seq<SessionEvent>, end: real, id: string, at: real)
    requires InOrder(events, end)
    ensures var n := CountBefore(events, at);
      && OfSession(events, id) == OfSession(events[..n], id) + OfSession(events[n..], id)
      && (forall e | e in OfSession(events[..n], id) :: e.at < at)
      && (forall e | e in OfSession(events[n..], id) :: e.at >= at)
  {
    var n := CountBefore(events, at);
    var first, second := events[..n], events[n..];
    assert first + second == events;
    OwnJoin(first, second, id);
    OwnEvents(first, id);
    OwnEvents(second, id);
    CutSides(events, end, at);
    hide OfSession, Ids, InOrder;
  }

  lemma CutSides(events: seq<SessionEvent>, end: real, at: real)
    requires InOrder(events, end)
    ensures forall e | e in events[..CountBefore(events, at)] :: e.at < at
    ensures forall e | e in events[CountBefore(events, at)..] :: e.at >= at
  {
    var n := CountBefore(events, at);
    assert forall i | n <= i < |events| :: events[n].at <= events[i].at;
  }

  lemma Straddles(before: seq<SessionEvent>, after: seq<SessionEvent>, at: real)
    requires |before + after| == 3 && (forall e | e in before :: e.at < at) && (forall e | e in after :: e.at >= at)
    ensures before == [] ==> (before + after)[0].at >= at
    ensures after == [] ==> (before + after)[2].at < at
  {
  }

  lemma InsideIsLive(events: seq<SessionEvent>, end: real, id: string, at: real)
    requires InOrder(events, end) && StrictlyInside(events, id, at)
    ensures id in LiveIds(events[..CountBefore(events, at)])
  {
    var n := CountBefore(events, at);
    OwnCut(events, end, id, at);
    Straddles(OfSession(events[..n], id), OfSession(events[n..], id), at);
    OwnEvents(events[..n], id);
    hide OfSession, CountBefore;
    assert id in Ids(events[..n]);
  }

  /** No three sessions are strictly open at one instant. */
  lemma NeverThree(events: seq<SessionEvent>, end: real, a: string, b: string, c: string, at: real)
    requires Replayable(events, end) && a != b && b != c && a != c
    ensures !(StrictlyInside(events, a, at) && StrictlyInside(events, b, at) && StrictlyInside(events, c, at))
  {
    if StrictlyInside(events, a, at) && StrictlyInside(events, b, at) && StrictlyInside(events, c, at) {
      var n := CountBefore(events, at);
      InsideIsLive(events, end, a, at);
      InsideIsLive(events, end, b, at);
      InsideIsLive(events, end, c, at);
      hide Complete, InOrder, LiveIds, StrictlyInside, CountBefore, ComparisonIds;
      assert TwoLiveAt(events, n);
      TooMany(LiveIds(events[..n]), a, b, c);
    }
  }

  lemma TooMany(live: set<string>, a: string, b: string, c: string)
    requires {a, b, c} <= live && a != b && b != c && a != c
    ensures |live| >= 3
  {
    assert |{a, b, c}| == 3;
    SubsetCount({a, b, c}, live);
  }

  /** While the child's provider runs, its session and the parent's are open, and so no comparison session is. */
  lemma NoComparisonDuringChild(r: Report, id: string, at: real)
    requires (forall i | 0 <= i < |r.turns| :: TurnParses(r.turns[i])) && ModeTimesQualify(r)
    requires Running(TurnFor(r.turns, ChildWork).value, at) && id in ComparisonIds(r.sessions)
    ensures !StrictlyInside(r.sessions, id, at)
  {
    var end := r.elapsedMs + r.cleanupMs;
    SixFacts(r, Ordinary);
    SixFacts(r, Admission);
    SixFacts(r, ChildWork);
    SixFacts(r, Completion);
    SixFacts(r, CancellationAdmission);
    var ordinary, child, last := TurnFor(r.turns, Ordinary).value, TurnFor(r.turns, ChildWork).value, TurnFor(r.turns, CancellationAdmission).value;
    assert TurnInSession(r.sessions, ordinary) && TurnInSession(r.sessions, child) && TurnInSession(r.sessions, last);
    assert [ordinary, TurnFor(r.turns, Admission).value, TurnFor(r.turns, Completion).value, last][3] == last;
    assert ParentTurn(last, ordinary);
    assert StrictlyInside(r.sessions, ordinary.sessionId, at) by { OwnInOrder(r.sessions, end, ordinary.sessionId); }
    assert StrictlyInside(r.sessions, child.sessionId, at) by { OwnInOrder(r.sessions, end, child.sessionId); }
    OneRole(r.sessions, end, id);
    hide Replayable, TurnFor, StrictlyInside, OfSession;
    NeverThree(r.sessions, end, ordinary.sessionId, child.sessionId, id, at);
  }

  lemma ComparisonEvent(events: seq<SessionEvent>, id: string) returns (e: SessionEvent)
    requires id in ComparisonIds(events)
    ensures e in events && e.role == ComparisonRole && e.sessionId == id && id in Ids(events)
  {
    e :| e in events && e.role == ComparisonRole && e.sessionId == id;
  }

  lemma SameRole(own: seq<SessionEvent>, e: SessionEvent)
    requires Complete(own) && e in own
    ensures |own| == 3 && own[0].role == e.role
  {
  }

  lemma IsComplete(events: seq<SessionEvent>, end: real, id: string)
    requires Replayable(events, end) && id in Ids(events)
    ensures Complete(OfSession(events, id))
  {
    hide OfSession, InOrder, TwoLive, ComparisonIds, Complete;
  }

  /** A session that compares has no other role. */
  lemma OneRole(events: seq<SessionEvent>, end: real, id: string)
    requires Replayable(events, end) && id in ComparisonIds(events)
    ensures |OfSession(events, id)| == 3 && OfSession(events, id)[0].role == ComparisonRole
  {
    hide *;
    var e := ComparisonEvent(events, id);
    IsComplete(events, end, id);
    Included(events, e);
    SameRole(OfSession(events, id), e);
  }

  lemma {:induction false} OwnInOrder(events: seq<SessionEvent>, end: real, id: string)
    requires InOrder(events, end)
    ensures forall i, j | 0 <= i < j < |OfSession(events, id)| :: OfSession(events, id)[i].at <= OfSession(events, id)[j].at
  {
    if events != [] {
      var init, last := events[..|events| - 1], events[|events| - 1];
      OwnInOrder(init, end, id);
      OwnEvents(init, id);
      var own := OfSession(init, id);
      forall i | 0 <= i < |own| ensures own[i].at <= last.at {
        assert own[i] in own;
        var k :| 0 <= k < |init| && init[k] == own[i];
      }
    }
  }
}
