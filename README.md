# Plank workout timer — a verified model

This project models the logic of a browser plank-workout timer. The user picks a difficulty level (Beginner to Expert). A 10-second countdown runs, then ten exercises from a fixed catalog follow. Each hold lasts as long as the level's exercise duration. A rest follows each hold but the last: the long rest after the hold at index 4, the short rest otherwise. The last hold goes straight to the finished screen. The user can pause, skip forward or back, and abort with a two-tap confirmation. Beside the timer there are two more parts:

- a session recorder that notes the side and duration of each hold;
- a post-workout summary that gives the total plank time, the longest hold, a calorie estimate and an `m:ss` rendering.

Modules, one per source file:

| module | file | models |
|---|---|---|
| `Types` | `types.dfy` | the session and preferences records (`src/types/session.ts`, `src/types/preferences.ts`) |
| `Difficulty` | `difficulty.dfy` | the level tables and `configFromLevel` (`src/domain/workoutConfig.ts`) |
| `Catalog` | `workout.dfy` | the ten-exercise catalog (`src/data/workout.ts`) |
| `App` | `app.dfy` | the phase state machine of the timer screen (`src/App.tsx`) |
| `Recorder` | `session_recorder.dfy` | the session recorder hook (`src/hooks/useSessionRecorder.ts`) |
| `Summary` | `session_summary.dfy` | `computeSessionSummary` (`src/services/sessionSummary.ts`) |
| `Format` | `format.dfy` | `formatMs` (`src/components/SessionSummary.tsx`) |

How each part is modelled:

- **Timer state.** Each action of the timer screen is a pure function `After…` on a `TimerState` value. The class `App.WorkoutTimer` holds the same state in mutable fields. Each method's `ensures` ties the new state to that function applied to the old state, and keeps the invariant `Consistent`.
- **The tick.** The screen reacts to a clock tick in two effects: the one-second interval (`src/App.tsx:119-134`) and the zero check (`src/App.tsx:136-164`). The second runs straight after the first. The model folds them into one atomic step, `AfterTick` / `WorkoutTimer.Tick`. `Ticks(s, k)` is `k` such steps.
- **Timings.** The configuration is always `ConfigFromLevel(level)`. The time scale is 1.
- **Recorder.** Its three references are fields of the class `Recorder.SessionRecorder`. The clock reading `Date.now()` is a parameter `now` of every operation.
- **Summary.** The loop of `computeSessionSummary` is a `for` loop. It is verified against the recursive functions `Sum` and `Longest`.

Three behaviours of the code a reader may not expect:

- **Long rest.** The long rest follows whichever hold sits at index 4 (`src/App.tsx:81`), whatever the position of the last exercise. With ten exercises, the rest after index 8, just before the last hold, is a short one (`App.DefaultLevelBreakBeforeLast`).
- **Level range.** `src/App.tsx:19` types the level as `0 | 1 | 2`, while the slider and the shared tables of `src/domain/workoutConfig.ts` cover 0..4. The model takes `Level` as 0..4.
- **Recorded time.** Recorded plank time stays within the time elapsed since `startSession` from any state that already meets the bound and whose open hold, if any, started inside the session, with a clock that never goes back and no restart (`Recorder.RunKeepsWithin`; from a fresh recorder, `Recorder.RecordedWithinElapsed`). The bound fails only when a hold is opened before `startSession`: that hold is charged in full to the new session (`Recorder.HoldOpenedBeforeSessionOvercounts`).

## Model

| member | source | states |
|---|---|---|
| Difficulty.ConfigFromLevel | src/domain/workoutConfig.ts:22-28 | every level's configuration has positive durations and a short rest strictly shorter than the long rest |
| Difficulty.ConfigMonotone | src/domain/workoutConfig.ts:11-14 | a higher level never shortens the hold and never lengthens the short or the long rest |
| Difficulty.DefaultLevelConfig | src/domain/workoutConfig.ts:12-14 | the default level 2 gives a 45 s hold, a 15 s short rest and a 60 s long rest |
| Difficulty.LabelsCoverLevels | src/domain/workoutConfig.ts:3-9 | five labels, one per level, "Beginner" first and "Expert" last, pairwise distinct |
| Catalog.CatalogShape | src/data/workout.ts:9-73 | the catalog has ten entries; entry i has id i + 1 and nominal duration 45 |
| Catalog.MirroredExercises | src/data/workout.ts:9-73 | an exercise can be mirrored exactly when its index is 3, 5 or 7 |
| Catalog.NamesDistinct | src/data/workout.ts:9-73 | exercise names are pairwise different |
| App.CatalogHasNExercises | src/App.tsx:148 | the catalog length used as the last-index bound is N = 10 |
| App.AppTablesAgree | src/App.tsx:21-32 | the screen's private label and timing tables equal the shared ones entry for entry |
| App.InitialIsConsistent | src/App.tsx:46-51 | the initial state (idle, index 0, 5 s, not paused, no pending abort, level 2) satisfies the invariant |
| App.CeilHalf | src/App.tsx:65 | the result is the ceiling of half its argument: n <= 2r < n + 2 |
| App.BreakDuration | src/App.tsx:80-82 | the rest is one of the two configured rests, and it is the long one exactly when the index is 4 |
| App.DisplayExercise | src/App.tsx:54-61 | in every consistent state the shown exercise exists: the first one during the countdown, the next one during a rest, the current one otherwise |
| App.IsPastHalfway | src/App.tsx:63-65 | true exactly in a hold with at most half of the hold (rounded up) left |
| App.IsEnding | src/App.tsx:67 | in a consistent state, true exactly in a hold with at most 5 s left |
| App.AfterGoToConfig | src/App.tsx:167-169 | the phase becomes config and nothing else changes; the invariant is kept |
| App.AfterSetLevel | src/App.tsx:298-303 | the slider sets a level in 0..4 and only the level changes (the configuration follows it, as the effect at src/App.tsx:69-71 does); the invariant is kept |
| App.AfterBeginWorkout | src/App.tsx:171-177 | countdown at index 0 with 10 s, not paused, no pending abort, level kept; always consistent |
| App.AfterTogglePause | src/App.tsx:179-187 | only the pause flag flips and a pending abort is dropped; phase, index and time are unchanged |
| App.AfterNext | src/App.tsx:189-196 | a no-op on the last exercise; otherwise the index rises by one and a fresh hold starts, no pending abort, pause flag kept |
| App.AfterPrevious | src/App.tsx:198-205 | a no-op on the first exercise; otherwise the index drops by one and a fresh hold starts, no pending abort, pause flag kept |
| App.AfterAbortWorkout | src/App.tsx:207-218 | the first tap only sets the confirmation; a tap while it is set gives idle, index 0, 5 s, unpaused, cleared |
| App.AfterCancelAbortConfirm | src/App.tsx:219-221 | only the confirmation flag is cleared |
| App.TickOutcome | src/App.tsx:119-164 | a tick is frozen when paused or not running; otherwise takes one second off; on reaching zero countdown goes to a hold, a hold to its rest or to finished after the last exercise, a rest to the next hold |
| App.ZeroCheck | src/App.tsx:136-164 | fires only at zero and unpaused in a running phase; keeps level, pause and confirmation; moves the index by at most one; a running phase it leaves, or enters, always has time left |
| App.AfterTick | src/App.tsx:119-164 | keeps level, pause and confirmation; moves the index by at most one; never makes the time negative; keeps the invariant (index in range, no rest after the last exercise, running phases have time left) |
| App.Ticks | src/App.tsx:119-164 | any number of seconds keep the level, the pause flag and the confirmation |
| App.TicksKeepConsistent | src/App.tsx:119-164 | any number of ticks keep the time non-negative and the invariant |
| App.TicksFrozen | src/App.tsx:120-127 | while paused or idle/config/finished, ticks change nothing at all |
| App.TicksCountDown | src/App.tsx:130 | before time is up each tick takes exactly one second off and changes nothing else |
| App.TicksSplit | src/App.tsx:119-164 | a + b seconds are a seconds followed by b seconds |
| App.RunOut | src/App.tsx:136-137 | after exactly timeLeft seconds the zero check fires once |
| App.SecondsToFinish | src/App.tsx:146-163 | the time remaining from the start of hold i to the end is at least one hold |
| App.HoldEnds | src/App.tsx:147-155 | a full hold ends in finished (last exercise, time 0) or in the rest that follows it |
| App.BreakEnds | src/App.tsx:159-163 | a rest ends in a full hold of the next exercise |
| App.HoldThenBreak | src/App.tsx:146-163 | a full hold that is not the last, followed by its rest, leads to a full hold of the next exercise |
| App.HoldStep | src/App.tsx:146-163 | running on from a hold that is not the last is running on from the next hold, one hold and one rest later |
| App.HoldRunsToFinish | src/App.tsx:146-163 | left alone, a hold at index i is finished at index N-1 after SecondsToFinish seconds |
| App.HoldRunningBefore | src/App.tsx:146-163 | before those SecondsToFinish seconds are up, the timer is still in a running phase, not finished |
| App.WholeWorkout | src/App.tsx:136-177 | after "begin", the countdown plus every hold and rest lead to finished at the last exercise, unpaused, level kept |
| App.WholeWorkoutRunningBefore | src/App.tsx:136-177 | before 10 + SecondsToFinish seconds after "begin" are up, the workout is still running |
| App.DefaultWorkoutLength | src/App.tsx:80-82 | at the default level the countdown, holds and rests add up to 640 s |
| App.DefaultWorkoutTakes640 | src/App.tsx:136-177 | at the default level the workout started by "begin" is running at every second before 640 s and finished at 640 s |
| App.OpeningSequence | src/App.tsx:139-155 | after the countdown the first hold starts; after the first hold the first (short) rest starts |
| App.DefaultLevelLongBreak | src/App.tsx:80-82 | at the default level the hold at index 4 is followed by the 60 s rest |
| App.DefaultLevelBreakBeforeLast | src/App.tsx:80-82 | at the default level the hold at index 8 is followed by a 15 s rest, not the long one |
| App.WorkoutTimer.constructor | src/App.tsx:46-51 | the fields start in the initial state, which is consistent |
| App.WorkoutTimer.GoToConfig | src/App.tsx:167-169 | in-place update equal to AfterGoToConfig, invariant kept |
| App.WorkoutTimer.SetLevel | src/App.tsx:298-303 | in-place update equal to AfterSetLevel, invariant kept |
| App.WorkoutTimer.BeginWorkout | src/App.tsx:171-177 | in-place update equal to AfterBeginWorkout, invariant kept |
| App.WorkoutTimer.TogglePause | src/App.tsx:179-187 | in-place update equal to AfterTogglePause, invariant kept |
| App.WorkoutTimer.Next | src/App.tsx:189-196 | in-place update equal to AfterNext, invariant kept |
| App.WorkoutTimer.Previous | src/App.tsx:198-205 | in-place update equal to AfterPrevious, invariant kept |
| App.WorkoutTimer.AbortWorkout | src/App.tsx:207-218 | in-place update equal to AfterAbortWorkout, invariant kept |
| App.WorkoutTimer.CancelAbortConfirm | src/App.tsx:219-221 | in-place update equal to AfterCancelAbortConfirm, invariant kept |
| App.WorkoutTimer.Tick | src/App.tsx:119-164 | the interval step and the zero check performed in place equal AfterTick, invariant kept |
| Recorder.AfterStartSession | src/hooks/useSessionRecorder.ts:9-14 | a new empty session starting now replaces any earlier one; the open hold is untouched |
| Recorder.AfterStartSegment | src/hooks/useSessionRecorder.ts:16-19 | side and start time are set, replacing an open hold; the session is untouched |
| Recorder.AfterEndSegment | src/hooks/useSessionRecorder.ts:21-39 | without session, non-zero start or side nothing happens; otherwise exactly one segment (side, now - start) is appended at the end, startedAt kept, the open hold cleared |
| Recorder.EndSessionResult | src/hooks/useSessionRecorder.ts:41-44 | null exactly when no session was started; otherwise the same start time and the recorded segments, followed by the open hold (its side, now minus its start) when it can be closed |
| Recorder.EndSegmentIdempotent | src/hooks/useSessionRecorder.ts:21-39 | ending twice records at most one segment: the second call changes nothing |
| Recorder.Apply | src/hooks/useSessionRecorder.ts:9-44 | only startSession discards recorded segments; every other call keeps the session and its start time and appends at most one segment |
| Recorder.Run | src/hooks/useSessionRecorder.ts:9-44 | a run of calls records at most one segment per call |
| Recorder.ApplyKeepsSound | src/hooks/useSessionRecorder.ts:30-35 | one call with a later clock keeps durations non-negative and the open start not in the future |
| Recorder.DurationsNonNegative | src/hooks/useSessionRecorder.ts:30-35 | with a clock that never goes back, every recorded duration is non-negative |
| Recorder.SegmentsOnlyGrow | src/hooks/useSessionRecorder.ts:16-39 | without a restart, the session stays, startedAt never changes and recorded segments are only appended to |
| Recorder.TotalAppend | src/hooks/useSessionRecorder.ts:32-35 | appending a segment adds its duration to the total |
| Recorder.ApplyKeepsWithin | src/hooks/useSessionRecorder.ts:16-39 | one call keeps the recorded time within the time since the session started |
| Recorder.RunKeepsWithin | src/hooks/useSessionRecorder.ts:16-39 | a run without restart keeps the recorded time within the elapsed session time |
| Recorder.RecordedWithinElapsed | src/hooks/useSessionRecorder.ts:9-39 | on a fresh recorder, total recorded time never exceeds the time elapsed since startSession |
| Recorder.HoldOpenedBeforeSessionOvercounts | src/hooks/useSessionRecorder.ts:16-39 | a hold opened before startSession is charged in full, exceeding the session's elapsed time |
| Recorder.HoldOpenedAtZeroIsDropped | src/hooks/useSessionRecorder.ts:22-28 | a hold opened at clock reading 0 is never recorded |
| Recorder.SessionRecorder.constructor | src/hooks/useSessionRecorder.ts:5-7 | all three references start empty |
| Recorder.SessionRecorder.StartSession | src/hooks/useSessionRecorder.ts:9-14 | in-place update equal to AfterStartSession |
| Recorder.SessionRecorder.StartSegment | src/hooks/useSessionRecorder.ts:16-19 | in-place update equal to AfterStartSegment |
| Recorder.SessionRecorder.EndSegment | src/hooks/useSessionRecorder.ts:21-39 | in-place update equal to AfterEndSegment: one more segment, or no change at all |
| Recorder.SessionRecorder.EndSession | src/hooks/useSessionRecorder.ts:41-44 | closes the open hold in place and returns the session (None when none exists) |
| Summary.Round | src/services/sessionSummary.ts:26 | Math.round: the nearest integer, a half rounded up |
| Summary.Calories | src/services/sessionSummary.ts:24-26 | never negative for a non-negative time and weight; zero when either is zero |
| Summary.Durations | src/services/sessionSummary.ts:19-21 | one duration per segment, in order |
| Summary.LongestNonNegative | src/services/sessionSummary.ts:17-22 | the running maximum starts at 0 and never falls below it |
| Summary.SumSnoc | src/services/sessionSummary.ts:20 | one more segment adds its duration to the total |
| Summary.LongestSnoc | src/services/sessionSummary.ts:21 | one more segment replaces the longest hold only when it is longer |
| Summary.SumRemove | src/services/sessionSummary.ts:19-20 | the total is the total without any one segment plus that segment |
| Summary.LongestRemove | src/services/sessionSummary.ts:19-21 | the longest hold is the larger of the longest without any one segment and that segment |
| Summary.SummaryStep | src/services/sessionSummary.ts:19-22 | one loop iteration moves the total and the longest hold from a prefix to the prefix one longer |
| Summary.SummaryBounds | src/services/sessionSummary.ts:16-26 | the summary's longest hold is at least 0 and at least every segment, and at most the total when no duration is negative |
| Summary.LongestIsUpperBound | src/services/sessionSummary.ts:17-22 | the longest hold is at least 0 and at least every segment's duration |
| Summary.LongestIsAttained | src/services/sessionSummary.ts:17-22 | the longest hold is 0 or one of the durations; for a non-empty list of non-negative durations it is one of them |
| Summary.LongestAtMostTotal | src/services/sessionSummary.ts:16-22 | with non-negative durations the longest hold never exceeds the total |
| Summary.PermutationInvariant | src/services/sessionSummary.ts:19-22 | sum and maximum depend only on the multiset of durations |
| Summary.SummaryIgnoresOrderAndSide | src/services/sessionSummary.ts:12-33 | reordering segments or changing their sides does not change the summary |
| Summary.CaloriesMonotone | src/services/sessionSummary.ts:24-26 | for a fixed non-negative weight, more plank time never gives fewer calories |
| Summary.ExampleSummary | src/services/sessionSummary.ts:16-26 | holds of 20000 and 15000 ms at 70 kg give 35000 ms, 20000 ms and 2 kcal |
| Summary.EmptySummary | src/services/sessionSummary.ts:16-26 | no segments give total 0, longest 0 and 0 kcal |
| Summary.ComputeSessionSummary | src/services/sessionSummary.ts:12-33 | the loop computes the sum and the running maximum of the durations and the rounded calorie estimate; the longest hold bounds every segment and, for non-negative durations, is at most the total |
| Format.NatToString | src/components/SessionSummary.tsx:12 | decimal digits without a leading zero, one digit exactly below 10 |
| Format.NatToStringValue | src/components/SessionSummary.tsx:12 | the digits read back as the number |
| Format.IntToString | src/components/SessionSummary.tsx:12 | a minus sign exactly for a negative number, and digits that read back as the magnitude |
| Format.PadStart | src/components/SessionSummary.tsx:12 | padStart: the string, preceded by fill characters up to the width |
| Format.JsRem | src/components/SessionSummary.tsx:11 | JavaScript `%`: the dividend minus the divisor times the quotient rounded toward zero, smaller than the divisor in size and with the dividend's sign |
| Format.PaddedSeconds | src/components/SessionSummary.tsx:11-12 | seconds 0..59 always take exactly two digits after padding, denoting the same number |
| Format.FormatMs | src/components/SessionSummary.tsx:8-13 | a non-empty text that starts with a minus sign exactly when the duration is negative |
| Format.FormatNonNegative | src/components/SessionSummary.tsx:8-13 | for ms >= 0 the text is minutes, a colon and padded seconds of the whole seconds |
| Format.MinutesOfSeconds | src/components/SessionSummary.tsx:9-10 | whole minutes of whole seconds equal floor(ms / 60000) |
| Format.FormatMsRoundTrip | src/components/SessionSummary.tsx:8-13 | for ms >= 0 the text parses back as minutes = floor(ms / 60000) and seconds in 0..59 with 60 * minutes + seconds = floor(ms / 1000) |
| Format.FormatMsDropsMilliseconds | src/components/SessionSummary.tsx:9 | sub-second milliseconds never show: formatMs(ms) = formatMs(1000 * floor(ms / 1000)) |
| Format.FormatMsSameText | src/components/SessionSummary.tsx:8-13 | two non-negative durations give the same text exactly when they have the same whole seconds |
| Format.FormatMsExamples | src/components/SessionSummary.tsx:8-13 | 0, 999, 59999, 60000 and 754000 ms show as "0:00", "0:00", "0:59", "1:00" and "12:34" |
| Format.FormatMsNegative | src/components/SessionSummary.tsx:9-12 | -1 ms shows as "-1:-1": minutes floored, seconds with the dividend's sign |

## Left out

- JSX rendering of every screen, including the settings form, the exercise guide and the idle screen. It is presentation only. The disabled states of the skip buttons are covered by the no-op cases of `AfterNext` and `AfterPrevious`.
- Sound and vibration (`playSound`, `vibrate`, the feedback effects and `prevPhase`). These are browser side effects with swallowed failures and do not change the modelled state.
- Preferences storage in `localStorage` and its JSON parsing. This is I/O. Only `weightKg` enters the model, and `Types.DEFAULT_PREFERENCES` is a constant.
- `setInterval`/`clearInterval` and React's effect and re-render scheduling. They are replaced by the explicit atomic `Tick` step, and the two timer effects are assumed to run back to back.
- The debug time scale 0.2 and its floating-point `Math.ceil`. The scale is fixed at 1, so every duration is used as is.
- The transient `configFromLevel(1)` before the level effect first runs. The configuration is always taken as `ConfigFromLevel(level)`.
- The `image` field of catalog entries. It plays no part in any logic.
- The "Number(...) || 70" input parsing of the settings form. It is UI parsing.
- Summary.Calories: computed over exact reals (3.3 exactly, `Math.round` as floor(x + 1/2)), not IEEE doubles. Results can differ where a double rounding lands exactly on a half.
- Recorder.SessionRecorder.EndSession: the returned session is a value. The source returns the live object, which later `endSegment` calls would keep mutating. That aliasing is not modelled.
- Format.NatToString: the exponent notation that JavaScript uses for integers of 10^21 and above is not modelled. Durations never reach that size.
- Format.JsRem: only positive divisors are modelled. The source divides by the constant 60, so `NaN` from a zero divisor cannot arise.
- Format.FormatMs: milliseconds are integers, as every duration the recorder produces is a difference of clock readings. Fractional milliseconds are not modelled.
- App.DisplayExercise: requires a consistent state. Outside it the source would index past the catalog and yield `undefined`, which no reachable state does.
