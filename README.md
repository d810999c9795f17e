# zenbreathe in Dafny

zenbreathe is a guided-breathing web app. The user picks a breathing pattern. A pattern is four phase lengths in seconds: inhale, hold at the top, exhale, hold at the bottom.

A phase engine then walks the four phases in a cycle:
- Every 100 ms a tick recomputes the time left in the phase.
- The engine skips phases of length zero.
- It announces each phase by voice and vibration.

The player screen stops the session when the target duration is reached. It logs the session once in the browser's key-value store. The statistics page derives these from the stored sessions and breath-hold attempts:
- minutes per day for the last week;
- a breath-hold chart;
- the ten most recent sessions.

Smaller parts modelled:
- the settings store;
- the per-exercise duration table;
- the custom-pattern editor;
- the breath-cycles dialog;
- the exercise card;
- the progress ring;
- the breathing circle;
- the breath-hold test page.

The model follows the program's structure:

| file | module | models |
|---|---|---|
| `engine.dfy` | `BreathingEngine` | the phase engine; `Engine` is a class with the engine's clocks as fields and a ghost log of speech and vibration cues |
| `guards.dfy` | `DurationGuards` | target-duration validation and the auto-stop condition |
| `player.dfy` | `PlayerScreen` | duration loading, one-shot session logging (`Player` class), countdown and phase label |
| `patterns.dfy` | `Patterns` | the pattern record and the three presets |
| `store.dfy`, `local_store.dfy` | `Store`, `LocalStore` | the key-value store as a `map` in a `Storage` object; record lists and the duration table |
| `settings.dfy` | `Settings` | ambient mode, ambient volume, guided-meditation switch |
| `per_exercise.dfy` | `PerExercise` | the in-memory per-exercise duration table |
| `stats.dfy`, `stats_page.dfy`, `session_list.dfy` | `StatsDerivations`, `StatsPage`, `SessionListView` | weekly minutes, in-place sorts, top ten, the statistics page and the session list |
| `custom_pattern_form.dfy`, `cycles_dialog.dfy`, `home_card.dfy`, `segments.dfy`, `breathing_circle.dfy`, `breath_hold_test.dfy` | one module each | the UI state machines and formatters |
| `jsmath.dfy`, `text.dfy`, `wrappers.dfy` | `JsMath`, `Text`, `Wrappers` | JavaScript arithmetic and string functions, and `Option` |

## Modelling choices

- **Times and durations.**
  - Instants are integer milliseconds, as `Date.now()` returns them.
  - Phase lengths and elapsed times are exact `real` seconds.
  - `Math.floor`, `Math.ceil` and `Math.round` are written out (round is floor of x + 0.5). So is the `%` operator, whose remainder takes the sign of the dividend.
  - NaN and the infinities appear only where the code tests for them, through the `JsNumber` datatype.
- **Formatters are checked by reading their output back.**
  - `toString`, `padStart`, `parseInt` and `split` are defined over strings.
  - Each clock-style formatter is proved to read back, through a digit-field parser, as the numbers it was meant to show.
  - The settings setters are proved to read back through the getters.
- **Storage.**
  - The store is a `Storage` object with an `items` map and a `blocked` flag. The flag stands for storage that throws on every access.
  - Stored record lists and the duration table are kept decoded.
  - `OtherJson` is stored text that parses to some other JSON value (null, a scalar, an object), kept as text with its kind.
  - `Text` holds any other stored string: text `JSON.parse` rejects, or a settings value.
- **Engine.**
  - Timers are explicit `Tick(now)` calls. A tick is allowed only while the one interval exists, which is while running and not paused.
  - The zero-skip recursion becomes a loop over at most four phases, entered only when some phase is non-zero.
  - When all four phases are 0, the source's recursion overflows the stack. The error is thrown before any cue or state update, so a due tick on such a pattern changes nothing, and the player stays at inhale with 0 s left.
- **Per-exercise table.** Missing entries default to 300, so a stored 0 is kept (the code uses `??`).
- **One formatter.** The statistics page has its own copy of the 'Xm Ys' formatter (src/frontend/src/pages/Stats.tsx:23-28). It is identical to the session list's, so the model defines it once, as `SessionListView.FormatDuration`.
- **Day boundaries.** The seven day windows are given as eight strictly increasing local-midnight instants.

## Model

| member | source | states |
|---|---|---|
| BreathingEngine.NextPhase | src/frontend/src/hooks/useBreathingEngine.ts:37-41 | the cycle inhale → holdTop → exhale → holdBottom → inhale |
| BreathingEngine.AdvanceFour | src/frontend/src/hooks/useBreathingEngine.ts:37-41 | four steps return to the starting phase |
| BreathingEngine.AdvanceCoversAll | src/frontend/src/hooks/useBreathingEngine.ts:37-41 | from any phase, every phase is reached within four steps |
| BreathingEngine.PhaseGuidance | src/frontend/src/hooks/useBreathingEngine.ts:52-59 | the spoken prompt per phase; both holds say "Hold" |
| BreathingEngine.FirstNonZeroIsFirst | src/frontend/src/hooks/useBreathingEngine.ts:61-69 | the zero skip enters the first phase whose length is not exactly 0; all phases before it are 0 |
| BreathingEngine.EnteredPhaseSpec | src/frontend/src/hooks/useBreathingEngine.ts:61-69 | a phase is entered iff some length is non-zero; it is at most three skips away; a negative length is not skipped |
| BreathingEngine.PhaseCues | src/frontend/src/hooks/useBreathingEngine.ts:71-82 | the prompt is spoken iff guided mode (default on) and volume/100 > 0 (default 80); a 50 ms vibration always comes last |
| BreathingEngine.Engine.constructor | src/frontend/src/hooks/useBreathingEngine.ts:22-35 | the initial state: inhale, the inhale length, not running, elapsed 0, clocks at 0 |
| BreathingEngine.Engine.TotalElapsedAt | src/frontend/src/hooks/useBreathingEngine.ts:176-178 | elapsed seconds × 1000 = now − start − total paused |
| BreathingEngine.Engine.TimeRemainingAt | src/frontend/src/hooks/useBreathingEngine.ts:179-181 | the remaining time is never negative, is at most the full phase length, and is measured from the phase start |
| BreathingEngine.Engine.TransitionToPhase | src/frontend/src/hooks/useBreathingEngine.ts:61-91 | enters `EnteredPhase`; sets phase and remaining := length; other state fields unchanged; phase start := now; logs the phase cues |
| BreathingEngine.Engine.Start | src/frontend/src/hooks/useBreathingEngine.ts:93-116 | {inhale, inhale length, running, not paused, 0}; clocks reset; announces inhale even when its length is 0 |
| BreathingEngine.Engine.Pause | src/frontend/src/hooks/useBreathingEngine.ts:118-133 | sets only isPaused; records the pause instant; cancels speech; no interval left |
| BreathingEngine.Engine.Resume | src/frontend/src/hooks/useBreathingEngine.ts:135-148 | adds the pause to the paused total when the pause instant > 0; rebases the phase start, so the phase restarts at full length |
| BreathingEngine.Engine.Stop | src/frontend/src/hooks/useBreathingEngine.ts:150-164 | clears running and paused; keeps phase, remaining and elapsed; cancels speech |
| BreathingEngine.Engine.Tick | src/frontend/src/hooks/useBreathingEngine.ts:166-201 | at zero remaining, enters the next non-zero phase and leaves elapsed as it was, or changes nothing when every phase is 0; otherwise updates only remaining and elapsed |
| BreathingEngine.EqualBreathingFirstTransition | src/frontend/src/hooks/useBreathingEngine.ts:175-193 | equal breathing after 4 s: holdTop is skipped, exhale has 4 s left, elapsed still shows 3.9 s |
| BreathingEngine.PausedTimeExcluded | src/frontend/src/hooks/useBreathingEngine.ts:135-140 | time spent paused adds nothing to elapsed |
| BreathingEngine.AllZeroPatternStaysFrozen | src/frontend/src/hooks/useBreathingEngine.ts:61-69 | with every phase 0, ticks after the start leave {inhale, 0 s, running, not paused, elapsed 0} and add no cue to the first |
| BreathingEngine.ResumeRestartsPhase | src/frontend/src/hooks/useBreathingEngine.ts:142-181 | after a resume the phase counts down from its full length |
| DurationGuards.ValidateDuration | src/frontend/src/lib/playerDurationGuards.ts:14-37 | the result is in [30, 3600]; inputs in range are kept; undefined, null, NaN, the infinities and out-of-range values give 300, not the nearer bound |
| DurationGuards.ValidateDurationIdempotent | src/frontend/src/lib/playerDurationGuards.ts:14-37 | validating twice equals validating once |
| DurationGuards.ShouldAllowAutoStop | src/frontend/src/lib/playerDurationGuards.ts:43-56 | true only when elapsed ≥ target; exactly that for targets ≤ 60; false for targets > 60 with elapsed < 5; in fact always equal to elapsed ≥ target |
| DurationGuards.AutoStopMonotone | src/frontend/src/lib/playerDurationGuards.ts:43-56 | once allowed, stays allowed as elapsed grows |
| Patterns.PresetPatterns | src/frontend/src/lib/breathingPatterns.ts:11-39 | three presets; lengths non-negative; inhale positive; distinct ids; equal has zero holds and sum 8; box is all 4s with sum 16; 4-7-8 has no bottom hold and sum 19 |
| PlayerScreen.LoadedTargetDuration | src/frontend/src/pages/Player.tsx:74-89 | the target is in [30, 3600]; values in range are kept; missing, NaN, ≤ 0, out of range or infinite gives 300, not the nearer bound |
| PlayerScreen.Player.LoadDuration | src/frontend/src/pages/Player.tsx:74-89 | the loading effect sets the target to that value |
| PlayerScreen.Player.constructor | src/frontend/src/pages/Player.tsx:37-55 | the engine gets voice volume 80 and the stored guided switch; nothing logged; session start 0 |
| PlayerScreen.Player.SetVoiceVolume | src/frontend/src/pages/Player.tsx:105-108 | the engine's voice volume becomes the slider value, other options unchanged; at 0 or below no prompt is spoken; above 0 prompts follow the guided switch |
| PlayerScreen.Player.AutoStopCheck | src/frontend/src/pages/Player.tsx:115-133 | acts only when running, not paused, target > 0, auto-stop allowed and nothing logged; then stops; logs exactly one record of floor(elapsed·1000) ms if a session is open, then closes the one-shot; the store changes as `addBreathingSession` says; at most one record per start |
| PlayerScreen.Player.HandleClose | src/frontend/src/pages/Player.tsx:165-180 | logs cancelSpeech, then stops a running engine (a second cancelSpeech; phase, remaining and elapsed kept), else leaves its state alone; logs only if a session is open, nothing is logged yet and elapsed > 0; never a second record after an auto-stop |
| PlayerScreen.Player.HandleStart | src/frontend/src/pages/Player.tsx:182-186 | session start := now and the logged flag cleared, then the engine starts |
| PlayerScreen.SessionDurationMs | src/frontend/src/pages/Player.tsx:127 | the logged milliseconds are elapsed·1000 floored |
| PlayerScreen.FormatCountdownReadsBack | src/frontend/src/pages/Player.tsx:199-203 | for t ≥ 0 the text reads back as [floor(t) div 60, floor(t) mod 60]; both fields are at least two characters and the seconds exactly two |
| PlayerScreen.CountdownArithmetic | src/frontend/src/pages/Player.tsx:200-201 | floor(t/60) and floor(t % 60) are the quotient and remainder of floor(t) |
| PlayerScreen.RemainingTime | src/frontend/src/pages/Player.tsx:206 | never negative; equals target − elapsed until the target is reached |
| PlayerScreen.PhaseLabel | src/frontend/src/pages/Player.tsx:209-223 | '' when not running; 'breathe in' iff inhale; 'breathe out' iff exhale; 'hold' iff a hold |
| PlayerScreen.AutoStopThenCloseLogsOnce | src/frontend/src/pages/Player.tsx:125-131 | start, auto-stop at a 30 s target, then close: exactly one 30 000 ms session is stored |
| StatsDerivations.SessionsIn | src/frontend/src/lib/statsDerivations.ts:23-25 | a session is kept iff start ≤ timestamp < end |
| StatsDerivations.TotalDuration | src/frontend/src/lib/statsDerivations.ts:27 | the sum is non-negative when all durations are |
| StatsDerivations.DayMinutes | src/frontend/src/lib/statsDerivations.ts:27-28 | a day's rounded minutes are non-negative when all durations are |
| StatsDerivations.Last7DaysMinutes | src/frontend/src/lib/statsDerivations.ts:8-37 | exactly 7 entries, oldest first; entry k is the rounded minutes of window [day k, day k+1) |
| StatsDerivations.SplitWindow | src/frontend/src/lib/statsDerivations.ts:23-25 | half-open windows split totals exactly: nothing counted twice, nothing missed |
| StatsDerivations.DaysTileWindow | src/frontend/src/lib/statsDerivations.ts:12-25 | the day totals add up to the total of the whole window; sessions outside it count nowhere |
| StatsDerivations.SortBy | src/frontend/src/lib/statsDerivations.ts:40-41 | the in-place sort leaves the array ordered by the key and a permutation of its old contents |
| StatsDerivations.HoldSeconds | src/frontend/src/lib/statsDerivations.ts:44 | seconds = duration/1000 rounded half up |
| StatsDerivations.ChartPoints | src/frontend/src/lib/statsDerivations.ts:42-45 | one point per record, in order |
| StatsDerivations.BreathHoldChartData | src/frontend/src/lib/statsDerivations.ts:39-46 | sorts the caller's array oldest first (a permutation) and returns one point per record, ascending |
| StatsDerivations.Last10Sessions | src/frontend/src/lib/statsDerivations.ts:48-52 | sorts the caller's array newest first (a permutation) and returns its first min(10, n); every one returned is at least as recent as every one omitted |
| LocalStore.GetBreathHoldRecords | src/frontend/src/lib/localStorageStore.ts:4-11 | the stored list, or [] when missing, unreadable, unparsable or not a list |
| LocalStore.AddBreathHoldRecord | src/frontend/src/lib/localStorageStore.ts:13-24 | appends exactly {now, duration}, earlier records unchanged; unparsable text becomes a one-element list; only its own key changes; a throwing store, or stored JSON that is not a list (`push` throws), is left unchanged |
| LocalStore.GetBreathingSessions | src/frontend/src/lib/localStorageStore.ts:26-33 | the stored list, or [] when missing, unreadable, unparsable or not a list |
| LocalStore.AddBreathingSession | src/frontend/src/lib/localStorageStore.ts:35-47 | appends exactly {now, name, duration}, earlier sessions unchanged; unparsable text becomes a one-element list; only its own key changes; a throwing store, or stored JSON that is not a list, is left unchanged |
| LocalStore.GetPerExerciseDurations | src/frontend/src/lib/localStorageStore.ts:49-56 | the stored table, or {} |
| LocalStore.SetPerExerciseDuration | src/frontend/src/lib/localStorageStore.ts:58-66 | upserts one id; a later get returns it; other ids and keys unchanged; a throwing store, stored null or a scalar (assignment throws), or a stored list with an id that is neither an array index nor `length` (`stringify` drops the property) is left unchanged |
| LocalStore.PresetIdsAsArrayKeys | src/frontend/src/lib/breathingPatterns.ts:13-31 | the preset id '478' is an array index, so upserting it into a stored list is not lost; 'equal' and 'box' are plain names |
| Store.StorageKeys | src/frontend/src/lib/storageKeys.ts:1-8 | the six keys are pairwise distinct |
| Settings.GetStorageItem | src/frontend/src/lib/settingsStore.ts:6-13 | the stored text whatever it holds, or the default when missing or throwing |
| Settings.SetStorageItem | src/frontend/src/lib/settingsStore.ts:16-22 | writes the text, or changes nothing when storage throws |
| Settings.ParseAmbientMode | src/frontend/src/lib/settingsStore.ts:25-31 | whitelisted names are kept; anything else is off |
| Settings.GetAmbientMode | src/frontend/src/lib/settingsStore.ts:25-31 | off when missing; otherwise the stored text parsed as a mode; a non-off mode only if exactly its name is stored |
| Settings.SetAmbientMode | src/frontend/src/lib/settingsStore.ts:33-35 | a later get returns the mode written |
| Settings.AmbientModeRoundTrip | src/frontend/src/lib/settingsStore.ts:25-35 | every mode survives being written and read |
| Settings.ClampVolume | src/frontend/src/lib/settingsStore.ts:42 | the result is in [0, 100]; values already in range are kept |
| Settings.ParseAmbientVolume | src/frontend/src/lib/settingsStore.ts:38-43 | the result is in [0, 100]; 50 when `parseInt` gives NaN; otherwise the parsed integer clamped to [0, 100] |
| Settings.GetAmbientVolume | src/frontend/src/lib/settingsStore.ts:38-43 | the result is in [0, 100]; 50 when missing or a stored list or table; otherwise the stored text parsed as a volume |
| Settings.NonNumericVolumeReadsDefault | src/frontend/src/lib/settingsStore.ts:40-41 | text starting with neither a space, a digit nor a sign parses to NaN and reads as 50 |
| Settings.DefaultVolumeParses | src/frontend/src/lib/settingsStore.ts:39 | the default text '50' reads as 50 |
| Settings.AmbientVolumeText | src/frontend/src/lib/settingsStore.ts:45-48 | the stored text is a canonical decimal |
| Settings.AmbientVolumeRoundTrip | src/frontend/src/lib/settingsStore.ts:38-48 | what the setter writes reads back as clamp(round(v)) |
| Settings.SetAmbientVolume | src/frontend/src/lib/settingsStore.ts:45-48 | a later get returns clamp(round(v)) |
| Settings.BoolText | src/frontend/src/lib/settingsStore.ts:57 | 'true' iff true |
| Settings.GetGuidedMeditationEnabled | src/frontend/src/lib/settingsStore.ts:51-54 | true iff the stored text is 'true' or nothing readable is stored |
| Settings.SetGuidedMeditationEnabled | src/frontend/src/lib/settingsStore.ts:56-58 | a later get returns the value written |
| PerExercise.PerExerciseDuration.constructor | src/frontend/src/hooks/usePerExerciseDuration.ts:8-10 | the in-memory table equals the persisted one |
| PerExercise.PerExerciseDuration.GetDuration | src/frontend/src/hooks/usePerExerciseDuration.ts:12-15 | the stored value for a known id, 300 otherwise |
| PerExercise.PerExerciseDuration.SetDuration | src/frontend/src/hooks/usePerExerciseDuration.ts:17-21 | getDuration(id) = d afterwards; other ids unchanged; the same entry is persisted |
| PerExercise.StoredZeroIsKept | src/frontend/src/hooks/usePerExerciseDuration.ts:14 | a stored 0 is returned as 0, not 300 |
| CustomPatternForm.CoerceInput | src/frontend/src/components/CustomPatternForm.tsx:28 | NaN becomes 0 |
| CustomPatternForm.HandleChange | src/frontend/src/components/CustomPatternForm.tsx:11-16 | the edited length is max(0, value) and never negative; all other fields unchanged |
| CustomPatternForm.EditsKeepNonNegative | src/frontend/src/components/CustomPatternForm.tsx:11-16 | any sequence of edits keeps a non-negative pattern non-negative |
| CustomPatternForm.AllZeroReachable | src/frontend/src/components/CustomPatternForm.tsx:11-16 | four unparsable inputs make every length zero, the pattern whose ticks freeze the engine |
| CyclesDialog.BreathCyclesDialog.constructor | src/frontend/src/components/BreathCyclesDurationDialog.tsx:26 | starts at 4 cycles |
| CyclesDialog.BreathCyclesDialog.TotalDurationSeconds | src/frontend/src/components/BreathCyclesDurationDialog.tsx:35-36 | non-negative for non-negative cycle lengths |
| CyclesDialog.BreathCyclesDialog.Open | src/frontend/src/components/BreathCyclesDurationDialog.tsx:29-33 | opening resets to 4 |
| CyclesDialog.BreathCyclesDialog.Increment | src/frontend/src/components/BreathCyclesDurationDialog.tsx:44-46 | adds exactly 1 |
| CyclesDialog.BreathCyclesDialog.Decrement | src/frontend/src/components/BreathCyclesDurationDialog.tsx:48-50 | max(1, n − 1); never below 1 |
| CyclesDialog.BreathCyclesDialog.Preset | src/frontend/src/components/BreathCyclesDurationDialog.tsx:52-54 | sets 2, 6 or 10; at least one cycle always holds |
| CyclesDialog.BreathCyclesDialog.Save | src/frontend/src/components/BreathCyclesDurationDialog.tsx:56-59 | emits cycles × cycle length, then closes |
| CyclesDialog.BreathCyclesDialog.Cancel | src/frontend/src/components/BreathCyclesDurationDialog.tsx:61-63 | closes without emitting |
| CyclesDialog.DecrementFloorScenario | src/frontend/src/components/BreathCyclesDurationDialog.tsx:44-50 | four decrements from 4 stop at 1; one increment then saves 2 cycles |
| HomeCard.FormatDuration | src/frontend/src/components/HomeExerciseCard.tsx:72 | 0 is shown as '5 min' |
| HomeCard.FormatWholeMinutes | src/frontend/src/components/HomeExerciseCard.tsx:73-75 | whole minutes read 'N min' |
| HomeCard.FormatMinutesSeconds | src/frontend/src/components/HomeExerciseCard.tsx:73-76 | otherwise 'M:SS'; reads back as [s div 60, s mod 60]; seconds always two digits |
| HomeCard.CoerceDurationInput | src/frontend/src/components/HomeExerciseCard.tsx:144 | NaN or 0 becomes 300; anything else is kept |
| HomeCard.ExerciseCard.constructor | src/frontend/src/components/HomeExerciseCard.tsx:37-38 | the dialog is closed and its copy is the current duration |
| HomeCard.ExerciseCard.SetDurationProp | src/frontend/src/components/HomeExerciseCard.tsx:31 | a new duration from the parent leaves the dialog's copy alone |
| HomeCard.ExerciseCard.OpenDialog | src/frontend/src/components/HomeExerciseCard.tsx:40-44 | opening resets the dialog's copy to the current duration |
| HomeCard.ExerciseCard.TypeDuration | src/frontend/src/components/HomeExerciseCard.tsx:144 | typing stores the coerced input |
| HomeCard.ExerciseCard.SaveDuration | src/frontend/src/components/HomeExerciseCard.tsx:46-51 | forwards the value only when > 0; closes in every case |
| HomeCard.ExerciseCard.CancelDialog | src/frontend/src/components/HomeExerciseCard.tsx:152 | closes |
| Segments.TotalSegments | src/frontend/src/components/SegmentedCircumferenceProgress.tsx:16 | the ceiling of total/8; at least 1 for a positive total |
| Segments.FilledSegments | src/frontend/src/components/SegmentedCircumferenceProgress.tsx:17 | 0 ≤ filled ≤ total; full once elapsed ≥ 8·total; otherwise floor(elapsed/8) |
| Segments.FilledMonotone | src/frontend/src/components/SegmentedCircumferenceProgress.tsx:17 | filled is non-decreasing in elapsed |
| Segments.FirstSegmentEmpty | src/frontend/src/components/SegmentedCircumferenceProgress.tsx:49 | the filled ring is not drawn in the first 8 s |
| BreathingCircle.ProgressRingShown | src/frontend/src/components/BreathingCircle.tsx:64 | the ring is drawn iff the engine runs and the session length gives at least one segment |
| BreathingCircle.ProgressRingStartsEmpty | src/frontend/src/components/BreathingCircle.tsx:64-71 | a ring drawn in the first 8 s of a session has at least one segment and none filled |
| BreathingCircle.PhaseDefaultColor | src/frontend/src/components/BreathingCircle.tsx:19-29 | one colour per phase; both holds share one |
| BreathingCircle.PhaseColor | src/frontend/src/components/BreathingCircle.tsx:12-30 | the theme colour iff it is given and non-empty and the engine runs; otherwise the phase colour |
| BreathingCircle.AnimationClass | src/frontend/src/components/BreathingCircle.tsx:32-47 | no class iff not running or paused |
| BreathingCircle.AnimationClassPerPhase | src/frontend/src/components/BreathingCircle.tsx:35-46 | while animating, classes are equal iff phases are equal |
| BreathingCircle.AnimationDurationSeconds | src/frontend/src/components/BreathingCircle.tsx:79 | 0 unless running and not paused; then the remaining time |
| BreathingCircle.FormatTime | src/frontend/src/components/BreathingCircle.tsx:49-51 | the remaining seconds rounded up, as a canonical decimal |
| BreathingCircle.DisplayTextAsWritten | src/frontend/src/components/BreathingCircle.tsx:57-59 | idle without an override, the literal as written is shown |
| BreathingCircle.DisplayText | src/frontend/src/components/BreathingCircle.tsx:57-59 | the override if given; else the rounded-up remaining time while running; else a single em dash |
| BreathingCircle.PlaceholderIsMisdecodedEmDash | src/frontend/src/components/BreathingCircle.tsx:59 | the literal is the em dash's UTF-8 bytes read as Windows-1252, so it differs from the intended text |
| BreathHoldTest.MaxDuration | src/frontend/src/pages/Test.tsx:18 | the maximum stored duration: it is attained and bounds all the others |
| BreathHoldTest.InitialRecord | src/frontend/src/pages/Test.tsx:15-21 | the record starts at the maximum stored duration, or 0 when none |
| BreathHoldTest.FormatTimeReadsBack | src/frontend/src/pages/Test.tsx:64-71 | hh:mm:ss reads back as h, m < 60 and s < 60 with h·3600 + m·60 + s = floor(ms/1000); mm and ss exactly two digits; hh at least two |
| BreathHoldTest.ClockArithmetic | src/frontend/src/pages/Test.tsx:65-68 | the three fields recombine to the whole seconds |
| BreathHoldTest.FormatTimeFields | src/frontend/src/pages/Test.tsx:64-68 | the fields computed for a non-negative time |
| BreathHoldTest.ClockTextReadsBack | src/frontend/src/pages/Test.tsx:70 | two-digit-padded fields read back as their values |
| BreathHoldTest.BreathHoldPage.constructor | src/frontend/src/pages/Test.tsx:15-21 | not running; elapsed 0; the record comes from the store |
| BreathHoldTest.BreathHoldPage.HandleStart | src/frontend/src/pages/Test.tsx:46-49 | elapsed reset to 0; running; stopwatch start := now |
| BreathHoldTest.BreathHoldPage.Tick | src/frontend/src/pages/Test.tsx:34-37 | elapsed = now − start |
| BreathHoldTest.BreathHoldPage.HandleStop | src/frontend/src/pages/Test.tsx:51-62 | an attempt is stored only if elapsed > 0; the record becomes max(record, elapsed) and never decreases; it bounds every attempt stopped here |
| SessionListView.FormatDurationReadsBack | src/frontend/src/components/SessionList.tsx:14-19 | 'Xm Ys' reads back as [floor(ms/1000) div 60, floor(ms/1000) mod 60]; floored, not rounded; no padding |
| SessionListView.RenderSessionList | src/frontend/src/components/SessionList.tsx:30-56 | only the placeholder iff there are no sessions; otherwise one row per session in input order |
| StatsPage.LoadStats | src/frontend/src/pages/Stats.tsx:14-103 | 7 weekly entries, entry k the minutes of day k; the hold card is the chart of the stored records reordered oldest first, absent iff there are none; the recent list renders the first min(10, n) of the stored sessions reordered newest first |
| Text.ParseIntOfToString | src/frontend/src/lib/settingsStore.ts:40-47 | `parseInt` reads back what `toString` writes |

## Left out

- Speech, vibration and wake lock are browser calls. The engine records `speak`, `cancelSpeech` and `vibrate(50)` only as cues in a ghost log. The voice module's own volume (`setVoiceVolume(v / 100)` and its clamp, src/frontend/src/pages/Player.tsx:99-102) is not modelled; the slider's effect on the engine is.
- Ambient audio is not modelled: the audio controller and the ambient effects of the player screen (src/frontend/src/pages/Player.tsx:136-163). Playback is asynchronous and may be refused, so "playing" cannot be stated.
- Timers and React are not modelled:
  - `setInterval`/`clearInterval`, effect re-runs and `setState` batching are replaced by explicit calls.
  - The engine's tick requires running and not paused.
  - The auto-stop effect is a method the caller runs after state changes.
  - Parsing the pattern from the route (JSON) and navigating away are not modelled. The player is constructed with the already-parsed pattern.
- Locale date formatting and the day arithmetic (`toLocaleDateString`, `setDate`, `setHours`) are not modelled. Days are named by their midnight instant, and the eight midnights are a parameter.
- `getCycleLengthSeconds` is not part of this model. The cycles dialog takes the cycle length as a value.
- Floating-point geometry is not modelled: ring circumference, dash and gap lengths, and the charts. The dialog's fractional `formatTime` is not modelled either.
- Real-number text (`${timeRemaining}s`) is not modelled: the animation length is kept as a number.
- PlayerScreen.LoadedTargetDuration: takes the value of `Number(search.duration)` as its input. `Number`'s string grammar is not modelled.
- CustomPatternForm.CoerceInput: takes `parseFloat`'s result as its input. An infinite input is not modelled, because pattern lengths are reals.
- Settings.SetAmbientVolume: a NaN volume, which the source stores as the text "NaN" and reads back as 50, is not modelled, because volumes are reals.
- Settings.GetStorageItem: a stored list or table is represented by its first character, '[' or '{'. That character is all the settings getters depend on.
- BreathingEngine.Engine.Tick: the stack overflow on an all-zero pattern is modelled as a tick that changes nothing. The `RangeError` itself, and the console report of it, are not modelled.
- LocalStore.GetBreathHoldRecords: stored JSON that is not the expected list is read as []. The source would hand it back untyped, for example a list of sessions stored under the hold-record key.
- LocalStore.GetBreathingSessions: stored JSON that is not a list of sessions is read as []. The source would hand it back untyped, for example a list of hold records stored under the session key.
- LocalStore.GetPerExerciseDurations: stored JSON that is not a table of numbers is read as {}. The source would hand it back untyped, for example a list, whose elements `getDuration` would then read by index.
- LocalStore.AddBreathHoldRecord: a list of sessions stored under the hold-record key is replaced by a one-record list, where the source appends to it. A list mixing both kinds is not representable, and neither are JSON arrays of any other elements.
- LocalStore.AddBreathingSession: a list of hold records stored under the session key is replaced by a one-session list, where the source appends to it. Mixed lists and arrays of other elements are not represented.
- LocalStore.SetPerExerciseDuration: a stored JSON object that is not a table of numbers is replaced by a one-entry table, where the source adds the entry to it.
- LocalStore.SetPerExerciseDuration: for a stored list and an id that is an array index (such as the preset '478') or `length`, the source sets that element or the length and writes the array back, padded with nulls. The model writes a one-entry table instead, so the id still reads back as the duration, but the list's records and its other indices are not kept. The `RangeError` an invalid `length` throws is not modelled.
- StatsDerivations.SortBy: sorts by key but does not state stability. The browser sort is stable, and the insertion sort happens to be stable too.
- HomeCard.FormatDuration: takes whole seconds. A fractional duration (reachable only through the cycles dialog) is not formatted.
- Console warnings in the duration guards and in the player's loading effect are not modelled.
- Static content and pure UI are not modelled: the info pages, the settings page, routing, the home grid and tiles. The ambient volume slider belongs to the ambient audio left out above.

## Findings

| source | as written | input that shows it | evidently intended | confidence | as-written member | corrected member |
|---|---|---|---|---|---|---|
| src/frontend/src/components/BreathingCircle.tsx:59 | the idle placeholder is the three characters U+00E2 U+20AC U+201D ("â€”") | any state that is not running, with no override text | an em dash (U+2014); the literal is its UTF-8 bytes E2 80 94 decoded as Windows-1252 | high; not executed | BreathingCircle.DisplayTextAsWritten (shown by BreathingCircle.PlaceholderIsMisdecodedEmDash) | BreathingCircle.DisplayText |
