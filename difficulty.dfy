/**
 * Difficulty levels and the timing each one selects
 * (src/domain/workoutConfig.ts). Three parallel tables are indexed by
 * the level; a harder level means longer holds and shorter rests.
 */
module Difficulty {

  /** The five positions of the difficulty slider, 0 = Beginner .. 4 = Expert. */
  type Level = l: int | 0 <= l < 5

  const LEVEL_LABELS: seq<string> := ["Beginner", "Novice", "Intermediate", "Advanced", "Expert"]

  /** Seconds of work and of rest, one entry per level. */
  const EXERCISE_BY_LEVEL: seq<int> := [35, 40, 45, 60, 70]
  const SHORT_BREAK_BY_LEVEL: seq<int> := [20, 18, 15, 12, 10]
  const LONG_BREAK_BY_LEVEL: seq<int> := [70, 65, 60, 50, 45]

  /** The level the application starts with ("Intermediate"). */
  const DEFAULT_LEVEL: Level := 2

  datatype WorkoutConfig = WorkoutConfig(exerciseDuration: int, shortBreak: int, longBreak: int)

  /** Every duration of the configuration is a positive number of seconds. */
  predicate Positive(c: WorkoutConfig) {
    c.exerciseDuration > 0 && c.shortBreak > 0 && c.longBreak > 0
  }

  /** The configuration of a level: the level-th entry of each table. */
  function ConfigFromLevel(level: Level): (c: WorkoutConfig)
    ensures Positive(c)
    ensures c.shortBreak < c.longBreak
  {
    WorkoutConfig(EXERCISE_BY_LEVEL[level], SHORT_BREAK_BY_LEVEL[level], LONG_BREAK_BY_LEVEL[level])
  }

  /** Each entry is at most the next one. */
  predicate StepsUp(t: seq<int>) {
    forall i :: 0 <= i < |t| - 1 ==> t[i] <= t[i + 1]
  }

  /** Each entry is at least the next one. */
  predicate StepsDown(t: seq<int>) {
    forall i :: 0 <= i < |t| - 1 ==> t[i] >= t[i + 1]
  }

  lemma {:induction false} StepsUpIsMonotone(t: seq<int>, i: int, j: int)
    requires StepsUp(t) && 0 <= i <= j < |t|
    ensures t[i] <= t[j]
    decreases j - i
  {
    if i < j {
      StepsUpIsMonotone(t, i, j - 1);
      assert t[j - 1] <= t[j];
    }
  }

  lemma {:induction false} StepsDownIsMonotone(t: seq<int>, i: int, j: int)
    requires StepsDown(t) && 0 <= i <= j < |t|
    ensures t[i] >= t[j]
    decreases j - i
  {
    if i < j {
      StepsDownIsMonotone(t, i, j - 1);
      assert t[j - 1] >= t[j];
    }
  }

  /**
   * What the comment on the tables (src/domain/workoutConfig.ts:11)
   * promises, harder meaning longer work and shorter rest: raising the
   * level never shortens the hold and never lengthens either rest.
   */
  lemma ConfigMonotone(a: Level, b: Level)
    requires a <= b
    ensures ConfigFromLevel(a).exerciseDuration <= ConfigFromLevel(b).exerciseDuration
    ensures ConfigFromLevel(a).shortBreak >= ConfigFromLevel(b).shortBreak
    ensures ConfigFromLevel(a).longBreak >= ConfigFromLevel(b).longBreak
  {
    assert StepsUp(EXERCISE_BY_LEVEL);
    assert StepsDown(SHORT_BREAK_BY_LEVEL);
    assert StepsDown(LONG_BREAK_BY_LEVEL);
    StepsUpIsMonotone(EXERCISE_BY_LEVEL, a, b);
    StepsDownIsMonotone(SHORT_BREAK_BY_LEVEL, a, b);
    StepsDownIsMonotone(LONG_BREAK_BY_LEVEL, a, b);
  }

  /** The default level gives 45 s holds, 15 s short rests and a 60 s long rest. */
  lemma DefaultLevelConfig()
    ensures ConfigFromLevel(DEFAULT_LEVEL) == WorkoutConfig(45, 15, 60)
  {
  }

  /** One label per level, from "Beginner" to "Expert", all different. */
  lemma LabelsCoverLevels()
    ensures |LEVEL_LABELS| == 5
    ensures LEVEL_LABELS[0] == "Beginner" && LEVEL_LABELS[4] == "Expert"
    ensures forall i, j :: 0 <= i < j < |LEVEL_LABELS| ==> LEVEL_LABELS[i] != LEVEL_LABELS[j]
  {
  }
}
