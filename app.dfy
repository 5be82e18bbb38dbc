/**
 * The workout phase state machine of the timer screen (src/App.tsx).
 *
 * The state is the five fields the screen updates (phase, currentIndex,
 * timeLeft, isPaused, confirmAbort) plus the selected level, from which
 * the timing configuration is derived. The functions `After...` give the
 * state after each user action and after one second of the timer; the
 * class `WorkoutTimer` holds the state in mutable fields and its methods
 * perform the same steps in place. The debug time scale is fixed at 1.
 */
module App {
  import opened Difficulty
  import Catalog

  datatype Phase = Idle | Config | Countdown | Exercise | Break | Finished

  datatype TimerState = TimerState(
    phase: Phase,
    currentIndex: int,
    timeLeft: int,
    isPaused: bool,
    confirmAbort: bool,
    level: Level)

  /** Number of exercises in the workout (the length of the catalog). */
  const N: int := 10

  lemma CatalogHasNExercises()
    ensures |Catalog.WORKOUT| == N
  {
    Catalog.CatalogShape();
  }

  /** Seconds of countdown before the first exercise. */
  const COUNTDOWN_SECONDS: int := 10

  /** The value `timeLeft` holds while idle. */
  const IDLE_SECONDS: int := 5

  /** The break that follows the exercise at this index is the long one. */
  const LONG_BREAK_INDEX: int := 4

  /** The screen keeps its own copy of the level tables. */
  const APP_LEVEL_LABELS: seq<string> := ["Beginner", "Novice", "Intermediate", "Advanced", "Expert"]
  const APP_EXERCISE_BY_LEVEL: seq<int> := [35, 40, 45, 60, 70]
  const APP_SHORT_BREAK_BY_LEVEL: seq<int> := [20, 18, 15, 12, 10]
  const APP_LONG_BREAK_BY_LEVEL: seq<int> := [70, 65, 60, 50, 45]

  /** The private copy agrees with the shared tables entry for entry, so the model uses the shared one. */
  lemma AppTablesAgree()
    ensures APP_LEVEL_LABELS == LEVEL_LABELS
    ensures APP_EXERCISE_BY_LEVEL == EXERCISE_BY_LEVEL
    ensures APP_SHORT_BREAK_BY_LEVEL == SHORT_BREAK_BY_LEVEL
    ensures APP_LONG_BREAK_BY_LEVEL == LONG_BREAK_BY_LEVEL
  {
  }

  /** The phases in which the one-second timer runs. */
  predicate Running(p: Phase) {
    p == Countdown || p == Exercise || p == Break
  }

  /**
   * What holds of every state the screen can reach: the index addresses
   * the catalog, a break is never after the last exercise, time is never
   * negative, and a running phase always has time left (the zero check
   * fires in the same step that reaches zero).
   */
  predicate Consistent(s: TimerState) {
    && 0 <= s.currentIndex < N
    && s.timeLeft >= 0
    && (s.phase == Break ==> s.currentIndex < N - 1)
    && (Running(s.phase) ==> s.timeLeft > 0)
  }

  const INITIAL: TimerState := TimerState(Idle, 0, IDLE_SECONDS, false, false, DEFAULT_LEVEL)

  lemma InitialIsConsistent()
    ensures Consistent(INITIAL)
  {
  }

  // ---------- derived values ----------

  /** `Math.ceil(n / 2)` on an integer. */
  function CeilHalf(n: int): (r: int)
    ensures n <= 2 * r < n + 2
  {
    (n + 1) / 2
  }

  /** Length of the rest that follows the exercise at `index`. */
  function BreakDuration(c: WorkoutConfig, index: int): (d: int)
    ensures c.shortBreak < c.longBreak ==> (d == c.longBreak <==> index == LONG_BREAK_INDEX)
    ensures d == c.longBreak || d == c.shortBreak
  {
    if index == LONG_BREAK_INDEX then c.longBreak else c.shortBreak
  }

  /**
   * The exercise shown on screen: the first one during the countdown, the
   * coming one during a break, otherwise the current one. It always exists.
   */
  function DisplayExercise(s: TimerState): (e: Catalog.Exercise)
    requires Consistent(s)
    ensures e in Catalog.WORKOUT
    ensures s.phase == Countdown ==> e.id == 1
    ensures s.phase == Break ==> e.id == s.currentIndex + 2
    ensures s.phase != Countdown && s.phase != Break ==> e.id == s.currentIndex + 1
  {
    Catalog.CatalogShape();
    if s.phase == Countdown then Catalog.WORKOUT[0]
    else if s.phase == Break then Catalog.WORKOUT[s.currentIndex + 1]
    else Catalog.WORKOUT[s.currentIndex]
  }

  /** The hold is in its second half (at most half its length, rounded up, remains). */
  function IsPastHalfway(s: TimerState): (b: bool)
    ensures b <==> s.phase == Exercise && 2 * s.timeLeft <= ConfigFromLevel(s.level).exerciseDuration + 1
  {
    s.phase == Exercise && s.timeLeft <= CeilHalf(ConfigFromLevel(s.level).exerciseDuration)
  }

  /** The last five seconds of a hold. */
  function IsEnding(s: TimerState): (b: bool)
    ensures Consistent(s) ==> (b <==> s.phase == Exercise && s.timeLeft <= 5)
  {
    s.phase == Exercise && s.timeLeft > 0 && s.timeLeft <= 5
  }

  // ---------- user actions ----------

  function AfterGoToConfig(s: TimerState): (r: TimerState)
    ensures r.phase == Config
    ensures r == s.(phase := r.phase)
    ensures Consistent(s) ==> Consistent(r)
  {
    s.(phase := Config)
  }

  /** Moving the difficulty slider selects a level and nothing else. */
  function AfterSetLevel(s: TimerState, level: Level): (r: TimerState)
    ensures r.level == level
    ensures r == s.(level := r.level)
    ensures Consistent(s) ==> Consistent(r)
  {
    s.(level := level)
  }

  /** Starting a workout resets everything to the start of the countdown; the level is kept. */
  function AfterBeginWorkout(s: TimerState): (r: TimerState)
    ensures r.phase == Countdown && r.currentIndex == 0 && r.timeLeft == COUNTDOWN_SECONDS
    ensures !r.isPaused && !r.confirmAbort && r.level == s.level
    ensures Consistent(r)
  {
    s.(currentIndex := 0, timeLeft := COUNTDOWN_SECONDS, isPaused := false, confirmAbort := false, phase := Countdown)
  }

  /** Pausing flips the pause flag and drops a pending abort confirmation; nothing else changes. */
  function AfterTogglePause(s: TimerState): (r: TimerState)
    ensures r.isPaused == !s.isPaused && !r.confirmAbort
    ensures r == s.(isPaused := r.isPaused, confirmAbort := r.confirmAbort)
    ensures Consistent(s) ==> Consistent(r)
  {
    s.(isPaused := !s.isPaused, confirmAbort := false)
  }

  /** Skip forward: a no-op on the last exercise; otherwise the next exercise starts afresh. */
  function AfterNext(s: TimerState): (r: TimerState)
    ensures s.currentIndex >= N - 1 ==> r == s
    ensures s.currentIndex < N - 1 ==>
      && r.currentIndex == s.currentIndex + 1
      && r.phase == Exercise
      && r.timeLeft == ConfigFromLevel(s.level).exerciseDuration
      && !r.confirmAbort
      && r.isPaused == s.isPaused && r.level == s.level
    ensures Consistent(s) ==> Consistent(r)
  {
    if s.currentIndex < N - 1 then
      s.(currentIndex := s.currentIndex + 1, phase := Exercise,
         timeLeft := ConfigFromLevel(s.level).exerciseDuration, confirmAbort := false)
    else
      s
  }

  /** Skip back: a no-op on the first exercise; otherwise the previous exercise starts afresh. */
  function AfterPrevious(s: TimerState): (r: TimerState)
    ensures s.currentIndex <= 0 ==> r == s
    ensures s.currentIndex > 0 ==>
      && r.currentIndex == s.currentIndex - 1
      && r.phase == Exercise
      && r.timeLeft == ConfigFromLevel(s.level).exerciseDuration
      && !r.confirmAbort
      && r.isPaused == s.isPaused && r.level == s.level
    ensures Consistent(s) ==> Consistent(r)
  {
    if s.currentIndex > 0 then
      s.(currentIndex := s.currentIndex - 1, phase := Exercise,
         timeLeft := ConfigFromLevel(s.level).exerciseDuration, confirmAbort := false)
    else
      s
  }

  /**
   * Ending a workout takes two taps: the first only asks for confirmation,
   * the second returns to the idle screen.
   */
  function AfterAbortWorkout(s: TimerState): (r: TimerState)
    ensures !s.confirmAbort ==> r == s.(confirmAbort := true)
    ensures s.confirmAbort ==> r == TimerState(Idle, 0, IDLE_SECONDS, false, false, s.level)
    ensures Consistent(s) ==> Consistent(r)
  {
    if !s.confirmAbort then
      s.(confirmAbort := true)
    else
      s.(phase := Idle, currentIndex := 0, timeLeft := IDLE_SECONDS, isPaused := false, confirmAbort := false)
  }

  function AfterCancelAbortConfirm(s: TimerState): (r: TimerState)
    ensures !r.confirmAbort
    ensures r == s.(confirmAbort := r.confirmAbort)
    ensures Consistent(s) ==> Consistent(r)
  {
    s.(confirmAbort := false)
  }

  // ---------- the timer ----------

  /**
   * The zero check: once time is up and the workout is not paused, the
   * countdown gives way to the first hold, a hold to a break (or to the
   * end after the last exercise), and a break to the next hold.
   */
  function ZeroCheck(s: TimerState): (r: TimerState)
    ensures s.timeLeft != 0 || s.isPaused || !Running(s.phase) ==> r == s
    ensures r.level == s.level && r.isPaused == s.isPaused && r.confirmAbort == s.confirmAbort
    ensures r.currentIndex == s.currentIndex || r.currentIndex == s.currentIndex + 1
    ensures !s.isPaused && s.timeLeft >= 0 && Running(r.phase) ==> r.timeLeft > 0
  {
    if s.timeLeft != 0 || s.isPaused then s
    else
      match s.phase
      case Countdown =>
        s.(phase := Exercise, timeLeft := ConfigFromLevel(s.level).exerciseDuration)
      case Exercise =>
        if s.currentIndex == N - 1 then s.(phase := Finished)
        else s.(phase := Break, timeLeft := BreakDuration(ConfigFromLevel(s.level), s.currentIndex))
      case Break =>
        s.(currentIndex := s.currentIndex + 1, phase := Exercise,
           timeLeft := ConfigFromLevel(s.level).exerciseDuration)
      case _ => s
  }

  /**
   * One second of the timer: outside the running phases, or while paused,
   * nothing happens; otherwise the time drops by one (never below zero)
   * and the zero check runs.
   */
  function AfterTick(s: TimerState): (r: TimerState)
    ensures r.level == s.level && r.isPaused == s.isPaused && r.confirmAbort == s.confirmAbort
    ensures r.currentIndex == s.currentIndex || r.currentIndex == s.currentIndex + 1
    ensures s.timeLeft >= 0 ==> r.timeLeft >= 0
    ensures Consistent(s) ==> Consistent(r)
  {
    if !Running(s.phase) || s.isPaused then s
    else
      var t := if s.timeLeft - 1 > 0 then s.timeLeft - 1 else 0;
      ZeroCheck(s.(timeLeft := t))
  }

  /**
   * What one second does. Frozen when paused or not running; otherwise
   * one second comes off the clock, and when that reaches zero the
   * phase advances: countdown to the first hold, a hold to the rest
   * after it (long after index 4, short otherwise) or to the end after
   * the last exercise, a rest to the next hold.
   */
  lemma TickOutcome(s: TimerState)
    ensures !Running(s.phase) || s.isPaused ==> AfterTick(s) == s
    ensures Running(s.phase) && !s.isPaused && s.timeLeft > 1 ==> AfterTick(s) == s.(timeLeft := s.timeLeft - 1)
    ensures s.phase == Countdown && !s.isPaused && s.timeLeft <= 1 ==>
      AfterTick(s) == s.(phase := Exercise, timeLeft := ConfigFromLevel(s.level).exerciseDuration)
    ensures s.phase == Exercise && !s.isPaused && s.timeLeft <= 1 && s.currentIndex == N - 1 ==>
      AfterTick(s) == s.(phase := Finished, timeLeft := 0)
    ensures s.phase == Exercise && !s.isPaused && s.timeLeft <= 1 && s.currentIndex != N - 1 ==>
      AfterTick(s) == s.(phase := Break, timeLeft := BreakDuration(ConfigFromLevel(s.level), s.currentIndex))
    ensures s.phase == Break && !s.isPaused && s.timeLeft <= 1 ==>
      AfterTick(s) == s.(phase := Exercise, currentIndex := s.currentIndex + 1,
                         timeLeft := ConfigFromLevel(s.level).exerciseDuration)
  {
  }

  /** The state after `k` seconds of the timer with no user action. */
  function Ticks(s: TimerState, k: nat): (r: TimerState)
    ensures r.level == s.level && r.isPaused == s.isPaused && r.confirmAbort == s.confirmAbort
    decreases k
  {
    if k == 0 then s else Ticks(AfterTick(s), k - 1)
  }

  /** However many seconds pass, the time left never goes negative and the state stays consistent. */
  lemma {:induction false} TicksKeepConsistent(s: TimerState, k: nat)
    ensures s.timeLeft >= 0 ==> Ticks(s, k).timeLeft >= 0
    ensures Consistent(s) ==> Consistent(Ticks(s, k))
    decreases k
  {
    if k > 0 {
      TicksKeepConsistent(AfterTick(s), k - 1);
    }
  }

  lemma {:induction false} TicksSplit(s: TimerState, a: nat, b: nat)
    ensures Ticks(s, a + b) == Ticks(Ticks(s, a), b)
    decreases a
  {
    if a > 0 {
      TicksSplit(AfterTick(s), a - 1, b);
    }
  }

  /** While paused, or outside the running phases, time stands still and no transition fires. */
  lemma {:induction false} TicksFrozen(s: TimerState, k: nat)
    requires !Running(s.phase) || s.isPaused
    ensures Ticks(s, k) == s
    decreases k
  {
    if k > 0 {
      TickOutcome(s);
      TicksFrozen(s, k - 1);
    }
  }

  /** Before time is up, each second takes exactly one second off the clock. */
  lemma {:induction false} TicksCountDown(s: TimerState, k: nat)
    requires Running(s.phase) && !s.isPaused && k < s.timeLeft
    ensures Ticks(s, k) == s.(timeLeft := s.timeLeft - k)
    decreases k
  {
    if k > 0 {
      TickOutcome(s);
      var s' := s.(timeLeft := s.timeLeft - 1);
      TicksCountDown(s', k - 1);
      assert s'.(timeLeft := s'.timeLeft - (k - 1)) == s.(timeLeft := s.timeLeft - k);
    }
  }

  /** After exactly `timeLeft` seconds the zero check fires, once. */
  lemma RunOut(s: TimerState)
    requires Running(s.phase) && !s.isPaused && s.timeLeft >= 1
    ensures Ticks(s, s.timeLeft) == ZeroCheck(s.(timeLeft := 0))
  {
    var last := s.(timeLeft := 1);
    var before: nat := s.timeLeft - 1;
    TicksCountDown(s, before);
    assert Ticks(s, before) == last;
    TicksCompose(s, before, last, 1, s.timeLeft);
    assert Ticks(last, 1) == AfterTick(last);
    assert AfterTick(last) == ZeroCheck(s.(timeLeft := 0));
  }

  /**
   * Seconds from the start of the hold at index `i` to the end of the
   * workout: every remaining hold and every break between them.
   */
  function SecondsToFinish(c: WorkoutConfig, i: int): (t: int)
    requires 0 <= i < N
    requires Positive(c)
    ensures t >= c.exerciseDuration > 0
    decreases N - i
  {
    c.exerciseDuration + (if i == N - 1 then 0 else BreakDuration(c, i) + SecondsToFinish(c, i + 1))
  }

  /** A hold left to run ends in the rest that follows it, or in the end of the workout. */
  lemma HoldEnds(s: TimerState)
    requires s.phase == Exercise && !s.isPaused
    requires s.timeLeft == ConfigFromLevel(s.level).exerciseDuration
    ensures s.currentIndex == N - 1 ==> Ticks(s, s.timeLeft) == s.(phase := Finished, timeLeft := 0)
    ensures s.currentIndex != N - 1 ==>
      Ticks(s, s.timeLeft) == s.(phase := Break, timeLeft := BreakDuration(ConfigFromLevel(s.level), s.currentIndex))
  {
    RunOut(s);
  }

  /** A rest left to run ends in the next hold. */
  lemma BreakEnds(s: TimerState)
    requires s.phase == Break && !s.isPaused && s.timeLeft >= 1
    ensures Ticks(s, s.timeLeft)
         == s.(phase := Exercise, currentIndex := s.currentIndex + 1, timeLeft := ConfigFromLevel(s.level).exerciseDuration)
  {
    RunOut(s);
  }

  /**
   * Left alone, a hold at index `i` runs through all later breaks and
   * holds and is finished after `k` = SecondsToFinish seconds
   * (`HoldRunningBefore`: and not earlier).
   */
  lemma {:induction false} HoldRunsToFinish(s: TimerState, k: nat)
    requires s.phase == Exercise && !s.isPaused && 0 <= s.currentIndex < N
    requires s.timeLeft == ConfigFromLevel(s.level).exerciseDuration
    requires k == SecondsToFinish(ConfigFromLevel(s.level), s.currentIndex)
    ensures Ticks(s, k) == s.(phase := Finished, currentIndex := N - 1, timeLeft := 0)
    decreases N - s.currentIndex
  {
    var i := s.currentIndex;
    if i == N - 1 {
      HoldEnds(s);
    } else {
      var e := s.(currentIndex := i + 1);
      var rest: nat := SecondsToFinish(ConfigFromLevel(s.level), i + 1);
      HoldStep(s, e, k, rest);
      HoldRunsToFinish(e, rest);
      assert e.(phase := Finished, currentIndex := N - 1, timeLeft := 0)
          == s.(phase := Finished, currentIndex := N - 1, timeLeft := 0);
    }
  }

  /** Before those `k` seconds are up, the timer is still in a running phase. */
  lemma {:induction false} HoldRunningBefore(s: TimerState, k: nat, j: nat)
    requires s.phase == Exercise && !s.isPaused && 0 <= s.currentIndex < N
    requires s.timeLeft == ConfigFromLevel(s.level).exerciseDuration
    requires k == SecondsToFinish(ConfigFromLevel(s.level), s.currentIndex)
    requires j < k
    ensures Running(Ticks(s, j).phase)
    decreases N - s.currentIndex
  {
    var c := ConfigFromLevel(s.level);
    var i := s.currentIndex;
    if j < c.exerciseDuration {
      TicksCountDown(s, j);
    } else {
      assert i < N - 1;
      var d := BreakDuration(c, i);
      SecondsToFinishUnfold(c, i);
      if j < c.exerciseDuration + d {
        var b := s.(phase := Break, timeLeft := d);
        HoldEnds(s);
        var m: nat := j - c.exerciseDuration;
        TicksCompose(s, c.exerciseDuration, b, m, j);
        TicksCountDown(b, m);
      } else {
        var e := s.(currentIndex := i + 1);
        var first: nat := c.exerciseDuration + d;
        var m: nat := j - first;
        HoldThenBreak(s, first);
        TicksCompose(s, first, e, m, j);
        HoldRunningBefore(e, SecondsToFinish(c, i + 1), m);
      }
    }
  }

  /** A full hold that is not the last, and the rest after it, lead to a full hold of the next exercise. */
  lemma HoldThenBreak(s: TimerState, k: nat)
    requires s.phase == Exercise && !s.isPaused && 0 <= s.currentIndex < N - 1
    requires s.timeLeft == ConfigFromLevel(s.level).exerciseDuration
    requires k == ConfigFromLevel(s.level).exerciseDuration + BreakDuration(ConfigFromLevel(s.level), s.currentIndex)
    ensures Ticks(s, k) == s.(currentIndex := s.currentIndex + 1)
  {
    var c := ConfigFromLevel(s.level);
    var b := s.(phase := Break, timeLeft := BreakDuration(c, s.currentIndex));
    HoldEnds(s);
    BreakEnds(b);
    TicksThen(s, c.exerciseDuration, b, BreakDuration(c, s.currentIndex), s.(currentIndex := s.currentIndex + 1));
  }

  /**
   * Running on from a hold that is not the last is running on from the
   * next hold, one hold and one rest later.
   */
  lemma HoldStep(s: TimerState, e: TimerState, total: nat, rest: nat)
    requires s.phase == Exercise && !s.isPaused && 0 <= s.currentIndex < N - 1
    requires s.timeLeft == ConfigFromLevel(s.level).exerciseDuration
    requires e == s.(currentIndex := s.currentIndex + 1)
    requires total == SecondsToFinish(ConfigFromLevel(s.level), s.currentIndex)
    requires rest == SecondsToFinish(ConfigFromLevel(s.level), s.currentIndex + 1)
    ensures Ticks(s, total) == Ticks(e, rest)
  {
    var c := ConfigFromLevel(s.level);
    var first: nat := c.exerciseDuration + BreakDuration(c, s.currentIndex);
    HoldThenBreak(s, first);
    SecondsToFinishUnfold(c, s.currentIndex);
    TicksCompose(s, first, e, rest, total);
  }

  lemma TicksCompose(s: TimerState, a: nat, x: TimerState, b: nat, total: nat)
    requires Ticks(s, a) == x && total == a + b
    ensures Ticks(s, total) == Ticks(x, b)
  {
    TicksSplit(s, a, b);
  }

  lemma SecondsToFinishUnfold(c: WorkoutConfig, i: int)
    requires Positive(c) && 0 <= i < N - 1
    ensures SecondsToFinish(c, i) == c.exerciseDuration + BreakDuration(c, i) + SecondsToFinish(c, i + 1)
  {
  }

  lemma TicksThen(s: TimerState, a: nat, x: TimerState, b: nat, y: TimerState)
    requires Ticks(s, a) == x && Ticks(x, b) == y
    ensures Ticks(s, a + b) == y
  {
    TicksSplit(s, a, b);
  }

  /** A workout left to run from "Begin" reaches the finished screen after the countdown and every hold and break. */
  lemma WholeWorkout(s: TimerState, k: nat)
    requires k == COUNTDOWN_SECONDS + SecondsToFinish(ConfigFromLevel(s.level), 0)
    ensures Ticks(AfterBeginWorkout(s), k) == TimerState(Finished, N - 1, 0, false, false, s.level)
  {
    var b := AfterBeginWorkout(s);
    var e := b.(phase := Exercise, timeLeft := ConfigFromLevel(s.level).exerciseDuration);
    var rest: nat := SecondsToFinish(ConfigFromLevel(s.level), 0);
    RunOut(b);
    assert ZeroCheck(b.(timeLeft := 0)) == e;
    HoldRunsToFinish(e, rest);
    TicksCompose(b, COUNTDOWN_SECONDS, e, rest, k);
    assert e.(phase := Finished, currentIndex := N - 1, timeLeft := 0) == TimerState(Finished, N - 1, 0, false, false, s.level);
  }

  /** Before those seconds are up, the workout started by "begin" is still running. */
  lemma WholeWorkoutRunningBefore(s: TimerState, k: nat, j: nat)
    requires k == COUNTDOWN_SECONDS + SecondsToFinish(ConfigFromLevel(s.level), 0)
    requires j < k
    ensures Running(Ticks(AfterBeginWorkout(s), j).phase)
  {
    var b := AfterBeginWorkout(s);
    if j < COUNTDOWN_SECONDS {
      TicksCountDown(b, j);
    } else {
      var e := b.(phase := Exercise, timeLeft := ConfigFromLevel(s.level).exerciseDuration);
      var m: nat := j - COUNTDOWN_SECONDS;
      RunOut(b);
      assert ZeroCheck(b.(timeLeft := 0)) == e;
      TicksCompose(b, COUNTDOWN_SECONDS, e, m, j);
      HoldRunningBefore(e, SecondsToFinish(ConfigFromLevel(s.level), 0), m);
    }
  }

  /** At the default level: a 10 s countdown, ten 45 s holds, eight 15 s rests and one 60 s rest. */
  lemma DefaultWorkoutLength()
    ensures COUNTDOWN_SECONDS + SecondsToFinish(ConfigFromLevel(DEFAULT_LEVEL), 0) == 640
  {
    var c := ConfigFromLevel(DEFAULT_LEVEL);
    assert SecondsToFinish(c, 9) == 45;
    assert SecondsToFinish(c, 8) == 105;
    assert SecondsToFinish(c, 7) == 165;
    assert SecondsToFinish(c, 6) == 225;
    assert SecondsToFinish(c, 5) == 285;
    assert SecondsToFinish(c, 4) == 390;
    assert SecondsToFinish(c, 3) == 450;
    assert SecondsToFinish(c, 2) == 510;
    assert SecondsToFinish(c, 1) == 570;
  }

  /**
   * At the default level a workout left to run from "begin" takes exactly
   * 640 s: running at every second before, finished at 640 s.
   */
  lemma DefaultWorkoutTakes640(s: TimerState)
    requires s.level == DEFAULT_LEVEL
    ensures forall j: nat :: j < 640 ==> Running(Ticks(AfterBeginWorkout(s), j).phase)
    ensures Ticks(AfterBeginWorkout(s), 640) == TimerState(Finished, N - 1, 0, false, false, s.level)
  {
    DefaultWorkoutLength();
    WholeWorkout(s, 640);
    forall j: nat | j < 640 ensures Running(Ticks(AfterBeginWorkout(s), j).phase) {
      WholeWorkoutRunningBefore(s, 640, j);
    }
  }

  /**
   * Starting a workout: after the countdown the first hold begins, and
   * after that hold the first (short) rest.
   */
  lemma OpeningSequence(s: TimerState)
    ensures Ticks(AfterBeginWorkout(s), COUNTDOWN_SECONDS)
         == AfterBeginWorkout(s).(phase := Exercise, timeLeft := ConfigFromLevel(s.level).exerciseDuration)
    ensures Ticks(AfterBeginWorkout(s), COUNTDOWN_SECONDS + ConfigFromLevel(s.level).exerciseDuration)
         == AfterBeginWorkout(s).(phase := Break, timeLeft := ConfigFromLevel(s.level).shortBreak)
  {
    var b := AfterBeginWorkout(s);
    var c := ConfigFromLevel(s.level);
    RunOut(b);
    var e := b.(phase := Exercise, timeLeft := c.exerciseDuration);
    HoldEnds(e);
    TicksThen(b, COUNTDOWN_SECONDS, e, c.exerciseDuration, e.(phase := Break, timeLeft := c.shortBreak));
  }

  /** At the default level the rest after the fifth hold (index 4) is the 60 s one. */
  lemma DefaultLevelLongBreak(s: TimerState)
    requires s.level == DEFAULT_LEVEL && s.phase == Exercise && s.currentIndex == 4
    requires s.timeLeft == 45 && !s.isPaused
    ensures Ticks(s, 45) == s.(phase := Break, timeLeft := 60)
  {
    HoldEnds(s);
  }

  /** The rest after the ninth hold (index 8), the one before the last exercise, is a short one. */
  lemma DefaultLevelBreakBeforeLast(s: TimerState)
    requires s.level == DEFAULT_LEVEL && s.phase == Exercise && s.currentIndex == 8
    requires s.timeLeft == 45 && !s.isPaused
    ensures Ticks(s, 45) == s.(phase := Break, timeLeft := 15)
  {
    HoldEnds(s);
  }

  // ---------- the screen's state, updated in place ----------

  class WorkoutTimer {
    var phase: Phase
    var isPaused: bool
    var currentIndex: int
    var timeLeft: int
    var confirmAbort: bool
    var level: Level

    function State(): TimerState
      reads this
    {
      TimerState(phase, currentIndex, timeLeft, isPaused, confirmAbort, level)
    }

    ghost predicate Valid()
      reads this
    {
      Consistent(State())
    }

    /** The timing derived from the selected level. */
    function CurrentConfig(): WorkoutConfig
      reads this
    {
      ConfigFromLevel(level)
    }

    constructor ()
      ensures Valid()
      ensures State() == INITIAL
    {
      phase := Idle;
      isPaused := false;
      currentIndex := 0;
      timeLeft := IDLE_SECONDS;
      confirmAbort := false;
      level := DEFAULT_LEVEL;
    }

    method GoToConfig()
      requires Valid()
      modifies this
      ensures Valid()
      ensures State() == AfterGoToConfig(old(State()))
    {
      phase := Config;
    }

    method SetLevel(l: Level)
      requires Valid()
      modifies this
      ensures Valid()
      ensures State() == AfterSetLevel(old(State()), l)
    {
      level := l;
    }

    method BeginWorkout()
      requires Valid()
      modifies this
      ensures Valid()
      ensures State() == AfterBeginWorkout(old(State()))
    {
      currentIndex := 0;
      timeLeft := COUNTDOWN_SECONDS;
      isPaused := false;
      confirmAbort := false;
      phase := Countdown;
    }

    method TogglePause()
      requires Valid()
      modifies this
      ensures Valid()
      ensures State() == AfterTogglePause(old(State()))
    {
      isPaused := !isPaused;
      confirmAbort := false;
    }

    method Next()
      requires Valid()
      modifies this
      ensures Valid()
      ensures State() == AfterNext(old(State()))
    {
      if currentIndex < N - 1 {
        currentIndex := currentIndex + 1;
        phase := Exercise;
        timeLeft := CurrentConfig().exerciseDuration;
        confirmAbort := false;
      }
    }

    method Previous()
      requires Valid()
      modifies this
      ensures Valid()
      ensures State() == AfterPrevious(old(State()))
    {
      if currentIndex > 0 {
        currentIndex := currentIndex - 1;
        phase := Exercise;
        timeLeft := CurrentConfig().exerciseDuration;
        confirmAbort := false;
      }
    }

    method AbortWorkout()
      requires Valid()
      modifies this
      ensures Valid()
      ensures State() == AfterAbortWorkout(old(State()))
    {
      if !confirmAbort {
        confirmAbort := true;
        return;
      }
      phase := Idle;
      currentIndex := 0;
      timeLeft := IDLE_SECONDS;
      isPaused := false;
      confirmAbort := false;
    }

    method CancelAbortConfirm()
      requires Valid()
      modifies this
      ensures Valid()
      ensures State() == AfterCancelAbortConfirm(old(State()))
    {
      confirmAbort := false;
    }

    /** One second of the interval timer followed by the zero check, as one step. */
    method Tick()
      requires Valid()
      modifies this
      ensures Valid()
      ensures State() == AfterTick(old(State()))
    {
      if phase == Idle || phase == Config || phase == Finished || isPaused {
        return;
      }
      timeLeft := if timeLeft - 1 > 0 then timeLeft - 1 else 0;

      if timeLeft != 0 || isPaused {
        return;
      }
      if phase == Countdown {
        phase := Exercise;
        timeLeft := CurrentConfig().exerciseDuration;
        return;
      }
      if phase == Exercise {
        if currentIndex == N - 1 {
          phase := Finished;
          return;
        }
        phase := Break;
        timeLeft := BreakDuration(CurrentConfig(), currentIndex);
        return;
      }
      if phase == Break {
        currentIndex := currentIndex + 1;
        phase := Exercise;
        timeLeft := CurrentConfig().exerciseDuration;
      }
    }
  }
}
