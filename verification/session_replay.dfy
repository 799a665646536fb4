/** The offline replay of a mode's session log and of its six turns, and what an accepted report says about time. */
module SessionReplay {
  import opened Collections
  import opened Wrappers

  datatype Role = ParentRole | ChildRole | ComparisonRole
  datatype Kind = Opening | Opened | Closed
  datatype SessionEvent = SessionEvent(sessionId: string, role: Role, kind: Kind, at: real)

  // ---------------------------------------------------------------------------------- what the log has to say

  /** The events of one session, in order. */
  function OfSession(events: seq<SessionEvent>, id: string): seq<SessionEvent> {
    if events == [] then []
    else OfSession(events[..|events| - 1], id) + if events[|events| - 1].sessionId == id then [events[|events| - 1]] else []
  }

  /** A session opens, is open and closes, once each and in one role. */
  predicate Complete(events: seq<SessionEvent>) {
    |events| == 3 && Begun(events)
  }

  /** The first steps of a session that may still go on. */
  predicate Begun(events: seq<SessionEvent>) {
    && |events| <= 3
    && (|events| > 0 ==> events[0].kind == Opening)
    && (|events| > 1 ==> events[1].kind == Opened && events[1].role == events[0].role)
    && (|events| > 2 ==> events[2].kind == Closed && events[2].role == events[0].role)
  }

  function Ids(events: seq<SessionEvent>): set<string> {
    set e | e in events :: e.sessionId
  }

  /** Sessions opening or open after these events. */
  function LiveIds(events: seq<SessionEvent>): set<string> {
    set e | e in events && |OfSession(events, e.sessionId)| < 3 :: e.sessionId
  }

  function ComparisonIds(events: seq<SessionEvent>): set<string> {
    set e | e in events && e.role == ComparisonRole :: e.sessionId
  }

  ghost predicate InOrder(events: seq<SessionEvent>, end: real) {
    && (forall i | 0 <= i < |events| :: 0.0 <= events[i].at <= end)
    && forall i, j | 0 <= i < j < |events| :: events[i].at <= events[j].at
  }

  predicate TwoLiveAt(events: seq<SessionEvent>, n: nat)
    requires n <= |events|
  {
    |LiveIds(events[..n])| <= 2
  }

  ghost predicate TwoLive(events: seq<SessionEvent>) {
    forall n | 0 <= n <= |events| :: TwoLiveAt(events, n)
  }

  /** The declarative meaning of an accepted session log. */
  ghost predicate Replayable(events: seq<SessionEvent>, end: real) {
    && InOrder(events, end)
    && (forall id | id in Ids(events) :: Complete(OfSession(events, id)))
    && TwoLive(events)
    && |ComparisonIds(events)| >= 2
  }

  // ---------------------------------------------------------------------------------- the replay

  datatype Active = Active(role: Role, openedAt: Option<real>)
  datatype Span = Span(role: Role, openedAt: real, closedAt: real)

  /** The replay's maps are what the events so far say of each session. */
  ghost predicate Tracks(events: seq<SessionEvent>, active: map<string, Active>, closed: map<string, Span>) {
    forall id :: Tracked(OfSession(events, id), Lookup(active, id), Lookup(closed, id))
  }

  predicate Tracked(own: seq<SessionEvent>, a: Option<Active>, s: Option<Span>) {
    if own == [] then a == None && s == None
    else if a.Some? then s == None && TracksActive(own, a.value)
    else s.Some? && TracksClosed(own, s.value)
  }

  predicate TracksActive(own: seq<SessionEvent>, a: Active) {
    && Begun(own) && own != [] && own[0].role == a.role
    && if a.openedAt == None then |own| == 1 else |own| == 2 && own[1].at == a.openedAt.value
  }

  predicate TracksClosed(own: seq<SessionEvent>, s: Span) {
    Complete(own) && own[0].role == s.role && own[1].at == s.openedAt && own[2].at == s.closedAt
  }

  lemma {:induction false} OwnEvents(events: seq<SessionEvent>, id: string)
    ensures OfSession(events, id) == [] <==> id !in Ids(events)
    ensures forall e | e in OfSession(events, id) :: e in events && e.sessionId == id
  {
    if events != [] {
      var init, last := events[..|events| - 1], events[|events| - 1];
      OwnEvents(init, id);
      assert events == init + [last];
      assert Ids(events) == Ids(init) + {last.sessionId};
    }
  }

  lemma {:induction false} OwnPrefix(events: seq<SessionEvent>, n: nat, id: string)
    requires n <= |events|
    ensures OfSession(events[..n], id) <= OfSession(events, id)
  {
    if n < |events| {
      var init := events[..|events| - 1];
      assert init[..n] == events[..n];
      OwnPrefix(init, n, id);
    } else {
      assert events[..n] == events;
    }
  }

  lemma Appended(events: seq<SessionEvent>, e: SessionEvent, id: string)
    ensures OfSession(events + [e], id) == OfSession(events, id) + if e.sessionId == id then [e] else []
    ensures Ids(events + [e]) == Ids(events) + {e.sessionId}
  {
    assert (events + [e])[..|events|] == events;
  }

  /** The active sessions are the live ones. */
  lemma TrackedLive(events: seq<SessionEvent>, active: map<string, Active>, closed: map<string, Span>)
    requires Tracks(events, active, closed)
    ensures LiveIds(events) == active.Keys
  {
    forall id ensures id in LiveIds(events) <==> id in active.Keys {
      assert Tracked(OfSession(events, id), Lookup(active, id), Lookup(closed, id));
      OwnEvents(events, id);
      assert id in LiveIds(events) <==> id in Ids(events) && |OfSession(events, id)| < 3;
    }
  }

  /** What one event may be, given the sessions so far: the replay's three branches. */
  predicate Allowed(active: map<string, Active>, closed: map<string, Span>, e: SessionEvent) {
    match e.kind
    case Opening => e.sessionId !in active && e.sessionId !in closed
    case Opened => e.sessionId in active && active[e.sessionId].role == e.role && active[e.sessionId].openedAt == None
    case Closed => e.sessionId in active && active[e.sessionId].role == e.role && active[e.sessionId].openedAt.Some?
  }

  function NextActive(active: map<string, Active>, e: SessionEvent): map<string, Active> {
    match e.kind
    case Opening => active[e.sessionId := Active(e.role, None)]
    case Opened => active[e.sessionId := Active(e.role, Some(e.at))]
    case Closed => active - {e.sessionId}
  }

  function NextClosed(active: map<string, Active>, closed: map<string, Span>, e: SessionEvent): map<string, Span>
    requires Allowed(active, closed, e)
  {
    if e.kind == Closed then closed[e.sessionId := Span(e.role, active[e.sessionId].openedAt.value, e.at)] else closed
  }

  /** An allowed event is exactly one that keeps its session's steps in order. */
  lemma AllowedIsBegun(events: seq<SessionEvent>, active: map<string, Active>, closed: map<string, Span>, e: SessionEvent)
    requires Tracks(events, active, closed)
    ensures Allowed(active, closed, e) <==> Begun(OfSession(events + [e], e.sessionId))
  {
    var id := e.sessionId;
    Appended(events, e, id);
    assert Tracked(OfSession(events, id), Lookup(active, id), Lookup(closed, id));
  }

  lemma NextTracks(events: seq<SessionEvent>, active: map<string, Active>, closed: map<string, Span>, e: SessionEvent)
    requires Tracks(events, active, closed) && Allowed(active, closed, e)
    ensures Tracks(events + [e], NextActive(active, e), NextClosed(active, closed, e))
  {
    var active', closed' := NextActive(active, e), NextClosed(active, closed, e);
    AllowedIsBegun(events, active, closed, e);
    forall id ensures Tracked(OfSession(events + [e], id), Lookup(active', id), Lookup(closed', id)) {
      Appended(events, e, id);
      assert Tracked(OfSession(events, id), Lookup(active, id), Lookup(closed, id));
      if id == e.sessionId {
        OneTracked(OfSession(events, id), active, closed, e);
      } else {
        assert OfSession(events, id) + [] == OfSession(events, id);
        assert Lookup(active', id) == Lookup(active, id) && Lookup(closed', id) == Lookup(closed, id);
      }
    }
  }

  lemma OneTracked(own: seq<SessionEvent>, active: map<string, Active>, closed: map<string, Span>, e: SessionEvent)
    requires Tracked(own, Lookup(active, e.sessionId), Lookup(closed, e.sessionId)) && Allowed(active, closed, e)
    ensures Tracked(own + [e], Lookup(NextActive(active, e), e.sessionId), Lookup(NextClosed(active, closed, e), e.sessionId))
  {
  }

  /** The replay fails for good at an event that is not allowed. */
  lemma NotAllowedFails(events: seq<SessionEvent>, i: nat, active: map<string, Active>, closed: map<string, Span>)
    requires i < |events| && Tracks(events[..i], active, closed) && !Allowed(active, closed, events[i])
    ensures !forall id | id in Ids(events) :: Complete(OfSession(events, id))
  {
    hide *;
    var id := events[i].sessionId;
    assert events[..i] + [events[i]] == events[..i + 1];
    AllowedIsBegun(events[..i], active, closed, events[i]);
    OwnPrefix(events, i + 1, id);
    OwnId(events, i);
    if Complete(OfSession(events, id)) {
      BegunPrefix(OfSession(events[..i + 1], id), OfSession(events, id));
    }
  }

  lemma OwnId(events: seq<SessionEvent>, i: nat)
    requires i < |events|
    ensures events[i].sessionId in Ids(events)
  {
    assert events[i] in events;
  }

  lemma BegunPrefix(own: seq<SessionEvent>, all: seq<SessionEvent>)
    requires own <= all && Complete(all)
    ensures Begun(own)
  {
  }

  function ComparisonSpans(closed: map<string, Span>): set<string> {
    set id | id in closed && closed[id].role == ComparisonRole
  }

  /** At the end everything closed is everything there was. */
  lemma AllClosed(events: seq<SessionEvent>, closed: map<string, Span>)
    requires Tracks(events, map[], closed)
    ensures forall id | id in Ids(events) :: Complete(OfSession(events, id))
    ensures ComparisonIds(events) == ComparisonSpans(closed)
  {
    forall id | id in Ids(events) ensures Complete(OfSession(events, id)) {
      OwnEvents(events, id);
      assert Tracked(OfSession(events, id), Lookup(map[], id), Lookup(closed, id));
    }
    forall e | e in events ensures e.sessionId in closed && closed[e.sessionId].role == e.role {
      var own := OfSession(events, e.sessionId);
      Included(events, e);
      assert Tracked(own, Lookup(map[], e.sessionId), Lookup(closed, e.sessionId));
      assert TracksClosed(own, closed[e.sessionId]);
      var k :| 0 <= k < |own| && own[k] == e;
    }
    forall id | id in ComparisonSpans(closed) ensures id in ComparisonIds(events) {
      OwnEvents(events, id);
      assert Tracked(OfSession(events, id), Lookup(map[], id), Lookup(closed, id));
      assert OfSession(events, id)[0] in OfSession(events, id);
    }
  }

  lemma {:induction false} Included(events: seq<SessionEvent>, e: SessionEvent)
    requires e in events
    ensures e in OfSession(events, e.sessionId)
  {
    var init, last := events[..|events| - 1], events[|events| - 1];
    if e != last {
      assert events == init + [last];
      Included(init, e);
    }
  }

  /** Something still active is something incomplete. */
  lemma SomeActive(events: seq<SessionEvent>, active: map<string, Active>, closed: map<string, Span>)
    requires Tracks(events, active, closed) && active != map[]
    ensures !forall id | id in Ids(events) :: Complete(OfSession(events, id))
  {
    var id :| id in active;
    OwnEvents(events, id);
    assert Tracked(OfSession(events, id), Lookup(active, id), Lookup(closed, id));
  }

  lemma NothingTracked()
    ensures Tracks([], map[], map[])
  {
  }

  lemma NextActiveKeys(active: map<string, Active>, closed: map<string, Span>, e: SessionEvent)
    requires Allowed(active, closed, e) && |active.Keys| <= 2 && e.kind != Opening
    ensures |NextActive(active, e).Keys| <= 2
  {
    if e.kind == Opened {
      assert NextActive(active, e).Keys == active.Keys;
    } else {
      assert NextActive(active, e).Keys == active.Keys - {e.sessionId};
    }
  }

  lemma MoreLive(events: seq<SessionEvent>, i: nat)
    requires i < |events| && TwoLive(events[..i]) && |LiveIds(events[..i + 1])| <= 2
    ensures TwoLive(events[..i + 1])
  {
    hide LiveIds;
    var next := events[..i + 1];
    forall n | 0 <= n <= |next| ensures TwoLiveAt(next, n) {
      assert next[..n] == events[..n];
      if n <= i {
        assert events[..i][..n] == events[..n];
        assert TwoLiveAt(events[..i], n);
      }
    }
  }

  /** The replay loop accepts exactly the logs that mean what they should, and returns every session's span. */
  method ReplaySessions(events: seq<SessionEvent>, end: real) returns (ok: bool, closed: map<string, Span>)
    requires forall i | 0 <= i < |events| :: events[i].at >= 0.0
    ensures ok <==> Replayable(events, end)
    ensures ok ==> Tracks(events, map[], closed)
  {
    hide Tracks, Complete, LiveIds, ComparisonIds, NextActive, NextClosed, Allowed, TwoLive, Ids;
    var active: map<string, Active> := map[];
    closed := map[];
    var previousAt := 0.0;
    NothingTracked();
    NoneLive();
    for i := 0 to |events|
      invariant Tracks(events[..i], active, closed) && |active.Keys| <= 2
      invariant previousAt == (if i == 0 then 0.0 else events[i - 1].at)
      invariant InOrder(events[..i], end) && TwoLive(events[..i])
    {
      var e := events[i];
      assert events[..i + 1] == events[..i] + [e];
      if e.at < previousAt || e.at > end {
        return false, closed;
      }
      if !Allowed(active, closed, e) {
        NotAllowedFails(events, i, active, closed);
        return false, closed;
      }
      NextTracks(events[..i], active, closed, e);
      if e.kind != Opening { NextActiveKeys(active, closed, e); }
      closed := NextClosed(active, closed, e);
      active := NextActive(active, e);
      TrackedLive(events[..i + 1], active, closed);
      if e.kind == Opening && |active.Keys| > 2 {
        ThreeLive(events, i + 1);
        return false, closed;
      }
      MoreLive(events, i);
      previousAt := e.at;
    }
    assert events[..|events|] == events;
    if active != map[] {
      SomeActive(events, active, closed);
      return false, closed;
    }
    AllClosed(events, closed);
    ok := |ComparisonSpans(closed)| >= 2;
  }

  lemma NoneLive()
    ensures TwoLive([])
  {
    assert LiveIds([][..0]) == {};
  }

  lemma ThreeLive(events: seq<SessionEvent>, n: nat)
    requires n <= |events| && |LiveIds(events[..n])| > 2
    ensures !TwoLive(events)
  {
    assert !TwoLiveAt(events, n);
  }
}
