/**
 * The session recorder (src/hooks/useSessionRecorder.ts): three mutable
 * references hold the current session, the start time of the open hold
 * and its side. The wall clock (`Date.now()`) is passed in as `now`.
 *
 * `After...` give the recorder's state after each operation; the class
 * `SessionRecorder` keeps that state in fields and updates it in place.
 */
module Recorder {
  import opened Types
  import Summary

  datatype RecorderState = RecorderState(
    session: Option<Session>,
    segmentStart: Option<int>,
    currentSide: Option<Side>)

  /** A fresh recorder: no session, no open hold. */
  const EMPTY: RecorderState := RecorderState(None, None, None)

  /**
   * Whether ending a hold records anything: a session exists, an open
   * start time exists and is not 0 (0 is falsy in the source's test), and
   * a side is set.
   */
  predicate CanEndSegment(st: RecorderState) {
    st.session.Some? && st.segmentStart.Some? && st.segmentStart.value != 0 && st.currentSide.Some?
  }

  /** The segments recorded so far, empty without a session. */
  function Recorded(st: RecorderState): seq<Segment> {
    if st.session.Some? then st.session.value.segments else []
  }

  /** A new, empty session starting now replaces any earlier one; an open hold is kept. */
  function AfterStartSession(st: RecorderState, now: int): (r: RecorderState)
    ensures r.session == Some(Session(now, []))
    ensures r.segmentStart == st.segmentStart && r.currentSide == st.currentSide
  {
    st.(session := Some(Session(now, [])))
  }

  /** A hold on `side` opens now, replacing any open one; nothing is recorded. */
  function AfterStartSegment(st: RecorderState, side: Side, now: int): (r: RecorderState)
    ensures r.session == st.session
    ensures r.segmentStart == Some(now) && r.currentSide == Some(side)
  {
    st.(currentSide := Some(side), segmentStart := Some(now))
  }

  /**
   * Closing the open hold appends one segment, of the open side and the
   * time elapsed since it opened, and clears the open hold. Without a
   * session, an open start or a side nothing happens.
   */
  function AfterEndSegment(st: RecorderState, now: int): (r: RecorderState)
    ensures !CanEndSegment(st) ==> r == st
    ensures CanEndSegment(st) ==>
      && r.session.Some?
      && r.session.value.startedAt == st.session.value.startedAt
      && Recorded(r) == Recorded(st) + [Segment(st.currentSide.value, now - st.segmentStart.value)]
      && r.segmentStart == None && r.currentSide == None
    ensures !CanEndSegment(r)
  {
    if !CanEndSegment(st) then st
    else
      var seg := Segment(st.currentSide.value, now - st.segmentStart.value);
      RecorderState(Some(st.session.value.(segments := st.session.value.segments + [seg])), None, None)
  }

  /** Ending the session closes the open hold and hands out the session, if there is one. */
  function EndSessionResult(st: RecorderState, now: int): (s: Option<Session>)
    ensures s.None? <==> st.session.None?
    ensures s.Some? ==> s.value.startedAt == st.session.value.startedAt
    ensures s.Some? ==>
      s.value.segments == Recorded(st) +
        (if CanEndSegment(st) then [Segment(st.currentSide.value, now - st.segmentStart.value)] else [])
  {
    AfterEndSegment(st, now).session
  }

  /** Ending a hold twice records it once: the second call changes nothing. */
  lemma EndSegmentIdempotent(st: RecorderState, now1: int, now2: int)
    ensures AfterEndSegment(AfterEndSegment(st, now1), now2) == AfterEndSegment(st, now1)
  {
  }

  // ---------- runs of operations ----------

  /** One call into the recorder, with the clock reading it sees. */
  datatype Call =
    | StartSession(now: int)
    | StartSegment(side: Side, now: int)
    | EndSegment(now: int)
    | EndSession(now: int)

  /**
   * One call. Only `startSession` discards recorded segments; every other
   * call keeps the session and its start and appends at most one segment.
   */
  function Apply(st: RecorderState, c: Call): (r: RecorderState)
    ensures c.StartSession? ==> Recorded(r) == []
    ensures !c.StartSession? ==> Recorded(st) <= Recorded(r) && |Recorded(r)| <= |Recorded(st)| + 1
    ensures !c.StartSession? && st.session.Some? ==>
      r.session.Some? && r.session.value.startedAt == st.session.value.startedAt
  {
    match c
    case StartSession(now) => AfterStartSession(st, now)
    case StartSegment(side, now) => AfterStartSegment(st, side, now)
    case EndSegment(now) => AfterEndSegment(st, now)
    case EndSession(now) => AfterEndSegment(st, now)
  }

  /** The state after a sequence of calls, first to last. */
  function Run(st: RecorderState, calls: seq<Call>): (r: RecorderState)
    ensures |Recorded(r)| <= |Recorded(st)| + |calls|
    decreases |calls|
  {
    if calls == [] then st else Run(Apply(st, calls[0]), calls[1..])
  }

  /** The clock readings of the calls never go back and start no earlier than `clock`. */
  predicate ClockFrom(calls: seq<Call>, clock: int)
    decreases |calls|
  {
    calls == [] || (calls[0].now >= clock && ClockFrom(calls[1..], calls[0].now))
  }

  /** The last clock reading of a run. */
  function LastClock(calls: seq<Call>, clock: int): int
    decreases |calls|
  {
    if calls == [] then clock else LastClock(calls[1..], calls[0].now)
  }

  predicate NoRestart(calls: seq<Call>) {
    forall i :: 0 <= i < |calls| ==> !calls[i].StartSession?
  }

  /** Every recorded duration is non-negative and an open hold did not start after `clock`. */
  predicate Sound(st: RecorderState, clock: int) {
    && (forall i :: 0 <= i < |Recorded(st)| ==> Recorded(st)[i].durationMs >= 0)
    && (st.segmentStart.Some? ==> st.segmentStart.value <= clock)
  }

  lemma ApplyKeepsSound(st: RecorderState, clock: int, c: Call)
    requires Sound(st, clock) && c.now >= clock
    ensures Sound(Apply(st, c), c.now)
  {
    if c.EndSegment? || c.EndSession? {
      if CanEndSegment(st) {
        var r := Apply(st, c);
        forall i | 0 <= i < |Recorded(r)|
          ensures Recorded(r)[i].durationMs >= 0
        {
          if i < |Recorded(st)| {
            assert Recorded(r)[i] == Recorded(st)[i];
          } else {
            assert Recorded(r)[i] == Segment(st.currentSide.value, c.now - st.segmentStart.value);
          }
        }
      }
    } else {
      assert Recorded(Apply(st, c)) == if c.StartSession? then [] else Recorded(st);
    }
  }

  /** With a clock that never goes back, no recorded hold has a negative duration. */
  lemma {:induction false} DurationsNonNegative(st: RecorderState, clock: int, calls: seq<Call>)
    requires Sound(st, clock) && ClockFrom(calls, clock)
    ensures Sound(Run(st, calls), LastClock(calls, clock))
    decreases |calls|
  {
    if calls != [] {
      ApplyKeepsSound(st, clock, calls[0]);
      DurationsNonNegative(Apply(st, calls[0]), calls[0].now, calls[1..]);
    }
  }

  /** Segment operations keep the session and its start time, and only ever append. */
  lemma {:induction false} SegmentsOnlyGrow(st: RecorderState, calls: seq<Call>)
    requires st.session.Some? && NoRestart(calls)
    ensures Run(st, calls).session.Some?
    ensures Run(st, calls).session.value.startedAt == st.session.value.startedAt
    ensures Recorded(st) <= Recorded(Run(st, calls))
    decreases |calls|
  {
    if calls != [] {
      var next := Apply(st, calls[0]);
      assert NoRestart(calls[1..]) by {
        forall i | 0 <= i < |calls[1..]| ensures !calls[1..][i].StartSession? {
          assert calls[1..][i] == calls[i + 1];
        }
      }
      SegmentsOnlyGrow(next, calls[1..]);
    }
  }

  /** The recorded plank time, as the summary totals it. */
  function TotalMs(segs: seq<Segment>): int {
    Summary.Sum(Summary.Durations(segs))
  }

  lemma TotalAppend(segs: seq<Segment>, seg: Segment)
    ensures TotalMs(segs + [seg]) == TotalMs(segs) + seg.durationMs
  {
    assert Summary.Durations(segs + [seg]) == Summary.Durations(segs) + [seg.durationMs];
    Summary.SumSnoc(Summary.Durations(segs), seg.durationMs);
  }

  /**
   * Within one session: the session has started no later than `clock`,
   * an open hold started inside the session, and the recorded time fits
   * between the session start and the open hold (or the clock).
   */
  predicate WithinSession(st: RecorderState, clock: int) {
    && st.session.Some?
    && st.session.value.startedAt <= clock
    && (st.segmentStart.Some? ==> st.session.value.startedAt <= st.segmentStart.value <= clock)
    && TotalMs(Recorded(st)) <= (if st.segmentStart.Some? then st.segmentStart.value else clock) - st.session.value.startedAt
  }

  lemma ApplyKeepsWithin(st: RecorderState, clock: int, c: Call)
    requires WithinSession(st, clock) && c.now >= clock && !c.StartSession?
    ensures WithinSession(Apply(st, c), c.now)
  {
    if (c.EndSegment? || c.EndSession?) && CanEndSegment(st) {
      TotalAppend(Recorded(st), Segment(st.currentSide.value, c.now - st.segmentStart.value));
    }
  }

  lemma {:induction false} RunKeepsWithin(st: RecorderState, clock: int, calls: seq<Call>)
    requires WithinSession(st, clock) && ClockFrom(calls, clock) && NoRestart(calls)
    ensures WithinSession(Run(st, calls), LastClock(calls, clock))
    decreases |calls|
  {
    if calls != [] {
      ApplyKeepsWithin(st, clock, calls[0]);
      assert NoRestart(calls[1..]) by {
        forall i | 0 <= i < |calls[1..]| ensures !calls[1..][i].StartSession? {
          assert calls[1..][i] == calls[i + 1];
        }
      }
      RunKeepsWithin(Apply(st, calls[0]), calls[0].now, calls[1..]);
    }
  }

  /**
   * A session started on a fresh recorder, with a clock that never goes
   * back and no restart: the recorded time never exceeds the time elapsed
   * since the session started.
   */
  lemma RecordedWithinElapsed(t0: int, calls: seq<Call>)
    requires ClockFrom(calls, t0) && NoRestart(calls)
    ensures TotalMs(Recorded(Run(AfterStartSession(EMPTY, t0), calls)))
         <= LastClock(calls, t0) - t0
  {
    RunKeepsWithin(AfterStartSession(EMPTY, t0), t0, calls);
    SegmentsOnlyGrow(AfterStartSession(EMPTY, t0), calls);
  }

  /**
   * Without the "fresh recorder" condition the bound fails: a hold opened
   * before the session started is charged to it in full.
   */
  lemma HoldOpenedBeforeSessionOvercounts()
    ensures var r := Run(EMPTY, [StartSegment(Front, 100), StartSession(200), EndSegment(300)]);
      && Recorded(r) == [Segment(Front, 200)]
      && TotalMs(Recorded(r)) > 300 - 200
  {
    var r1 := AfterStartSegment(EMPTY, Front, 100);
    var r2 := AfterStartSession(r1, 200);
    var r3 := AfterEndSegment(r2, 300);
    assert Run(EMPTY, [StartSegment(Front, 100), StartSession(200), EndSegment(300)]) == r3 by {
      var calls := [StartSegment(Front, 100), StartSession(200), EndSegment(300)];
      assert calls[1..] == [StartSession(200), EndSegment(300)];
      assert calls[1..][1..] == [EndSegment(300)];
      assert calls[1..][1..][1..] == [];
    }
    assert Recorded(r3) == [Segment(Front, 200)];
    TotalAppend([], Segment(Front, 200));
    assert [] + [Segment(Front, 200)] == [Segment(Front, 200)];
  }

  /** A hold opened at clock reading 0 is never recorded (0 counts as "no start"). */
  lemma HoldOpenedAtZeroIsDropped(t0: int, side: Side, now: int)
    ensures Recorded(AfterEndSegment(AfterStartSegment(AfterStartSession(EMPTY, t0), side, 0), now)) == []
  {
  }

  // ---------- the recorder's references, updated in place ----------

  class SessionRecorder {
    var session: Option<Session>
    var segmentStart: Option<int>
    var currentSide: Option<Side>

    function State(): RecorderState
      reads this
    {
      RecorderState(session, segmentStart, currentSide)
    }

    constructor ()
      ensures State() == EMPTY
    {
      session := None;
      segmentStart := None;
      currentSide := None;
    }

    method StartSession(now: int)
      modifies this
      ensures State() == AfterStartSession(old(State()), now)
    {
      session := Some(Session(now, []));
    }

    method StartSegment(side: Side, now: int)
      modifies this
      ensures State() == AfterStartSegment(old(State()), side, now)
    {
      currentSide := Some(side);
      segmentStart := Some(now);
    }

    method EndSegment(now: int)
      modifies this
      ensures State() == AfterEndSegment(old(State()), now)
      ensures CanEndSegment(old(State())) ==> |Recorded(State())| == |Recorded(old(State()))| + 1
      ensures !CanEndSegment(old(State())) ==> unchanged(this)
    {
      if session.None? || segmentStart.None? || segmentStart.value == 0 || currentSide.None? {
        return;
      }
      var durationMs := now - segmentStart.value;
      session := Some(session.value.(segments := session.value.segments + [Segment(currentSide.value, durationMs)]));
      segmentStart := None;
      currentSide := None;
    }

    method EndSession(now: int) returns (s: Option<Session>)
      modifies this
      ensures State() == AfterEndSegment(old(State()), now)
      ensures s == EndSessionResult(old(State()), now)
    {
      EndSegment(now);
      s := session;
    }
  }
}
