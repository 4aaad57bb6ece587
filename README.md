# tunggu.in timer core in Dafny

This project models the core of tunggu.in, a single-page timer app, and proves properties of the model. Times are whole numbers of seconds, or of milliseconds for the date countdown. The text formatters take non-negative seconds only, and numbers are unbounded integers rather than doubles; "## Left out" lists what this leaves aside.

**Timer store.** `TimerStore.Store` maps timer ids to `Timer` records and keeps an `activeTimerId`.
- Each store action replaces the map with a copy that differs in at most one entry.
- That per-timer change is a pure function: `NewTimer`, `Started`, `Paused`, `Reset`, `Patched` or `Ticked`.
- `tick` picks the target stage with a loop. The loop is proved equal to the prefix walk `WalkStages`.

**Timer hook.** `UseTimer.TimerBinding` models the `useTimer` hook:
- it builds the timer configuration from the caller's options;
- it files the timer in the store on mount;
- `Step` runs the per-second callback once: the stopwatch branch, or the countdown branch, which calls `tick` and then the hook's own modulo stage check on the snapshot taken before the tick;
- it offers `start`, `pause`/`resume`, `reset` and `setDuration`.

Sounds, notifications, vibration, the tab-title animation and the caller's callbacks are appended, in order, to an `effects` log.

**Time helpers.** `TimeUtils` holds the pure helpers:
- `formatTime` and `parseTime`, with JavaScript's `trim`, `split` and `parseInt` written out; the round trip between them is proved;
- progress, remaining time and the human-readable duration.

**Peripheral state.**
- `HistoryStore`: the session history, capped at 1000 sessions, and its statistics.
- `SettingsStore`: the user settings.
- `ThemeService`: the theme service.

**Pages.** Each page's state is a class, and its handlers are methods:
- HIIT;
- Pomodoro and 52/17, whose work/break alternation is shared in `SessionCycle`;
- box breathing;
- meditation;
- stopwatch laps;
- countdown to a date;
- board-game turns;
- the five-second rule;
- dough proofing.

**Places where the code does something other than what it suggests.** The model follows the code and proves the consequence:
- `UseTimer.AdvanceDisagreesWithWalk`: the hook's modulo stage check and the store's stage walk can disagree, so the stage index can move forward and then back.
- `BoxBreathing.PhaseIsItsOwnStart`: box breathing's `handleTick` derives the phase from the phase it already shows, so the phase never advances.
- `UseTimer.TimerBinding.SetDuration`: `setDuration` does not clear a completion.

## Model

| member | source | states |
|---|---|---|
| TimerStore.WalkStages | src/stores/timerStore.ts:144-164 | the stage the walk chooses is never past the end of the stage list |
| TimerStore.TargetStageIndex | src/stores/timerStore.ts:144-164 | the `for` loop with its early `break` returns exactly the prefix walk's stage |
| TimerStore.WalkStagesIsFirstFit | src/stores/timerStore.ts:144-164 | the chosen stage is the first whose cumulative end is at or after the elapsed time; every earlier stage ends before it |
| TimerStore.WalkStagesBeyondAll | src/stores/timerStore.ts:150-163 | the walk runs off the end (and `tick` keeps the old index) exactly when every stage ends before the elapsed time |
| TimerStore.LastStageEndIsTotal | src/stores/timerStore.ts:144-158 | the cumulative end of the last stage is the summed duration of all stages |
| TimerStore.WalkStagesMonotone | src/stores/timerStore.ts:144-164 | more elapsed time never moves the walk to an earlier stage |
| TimerStore.NewTimer | src/stores/timerStore.ts:29-43 | a new timer: nothing elapsed, all of the given duration remaining (copied, not summed from the stages), all three flags false, stage index present exactly when stages are; well formed for a non-negative duration |
| TimerStore.Started | src/stores/timerStore.ts:60-69 | running, not paused, started now; counters, completion and stage index unchanged; keeps a timer well formed |
| TimerStore.Paused | src/stores/timerStore.ts:80-84 | stopped and paused; elapsed, remaining, completion and stage index unchanged; keeps a timer well formed |
| TimerStore.Reset | src/stores/timerStore.ts:96-106 | nothing elapsed, the whole duration remaining, all flags off, stage index 0 exactly when stages exist, start and completion times cleared |
| TimerStore.Ticked | src/stores/timerStore.ts:137-174 | one more second elapsed; remaining is what is left of the duration, never negative, and elapsed + remaining = duration while within it; completed exactly when nothing remains, and then no longer running; stage index moved to the walk's stage when it exists, else kept; keeps a running timer well formed |
| TimerStore.Patched | src/stores/timerStore.ts:126-129 | for elapsed, remaining, duration, stage index and stages, the value the patch carries wins and a missing one keeps the timer's; the empty patch changes nothing |
| TimerStore.Store.constructor | src/stores/timerStore.ts:24-25 | no timers and no active timer |
| TimerStore.Store.CreateTimer | src/stores/timerStore.ts:27-52 | exactly one entry is added, under the fresh id; every other entry and the active id are unchanged; the id is returned |
| TimerStore.Store.StartTimer | src/stores/timerStore.ts:54-72 | a known timer is started and becomes the active one; an unknown id changes nothing |
| TimerStore.Store.PauseTimer | src/stores/timerStore.ts:74-88 | a known timer is paused and nothing else changes; an unknown id changes nothing |
| TimerStore.Store.ResetTimer | src/stores/timerStore.ts:90-110 | a known timer is reset and nothing else changes; an unknown id changes nothing |
| TimerStore.Store.DeleteTimer | src/stores/timerStore.ts:112-121 | the id is removed; the active id is cleared only when it was that id |
| TimerStore.Store.UpdateTimer | src/stores/timerStore.ts:123-132 | a known timer takes the patch and nothing else changes; an unknown id changes nothing |
| TimerStore.Store.Tick | src/stores/timerStore.ts:134-179 | a running timer takes one `Ticked` step, its stage found by the loop; a missing or stopped timer and everything else are unchanged; the store stays well formed |
| TimerStore.Store.GetTimer | src/stores/timerStore.ts:181-183 | the timer filed under the id, or none exactly when the id is unknown |
| TimerStore.Store.GetActiveTimer | src/stores/timerStore.ts:185-188 | the active timer, or none when there is no (or an empty) active id or it names no timer |
| UseTimer.BuildStages | src/hooks/useTimer.ts:76-84 | one stage per interval, stage k with id "stage-k", name "Work k+1" or "Rest k+1", and the interval's duration and type |
| UseTimer.StageIdsDistinct | src/hooks/useTimer.ts:76-84 | different stages get different ids |
| UseTimer.BuildConfig | src/hooks/useTimer.ts:68-88 | stopwatch or countdown type, and the name "Stopwatch" or "Timer", from the mode; productivity category; with non-empty intervals the stages are built from them and the duration is their sum, overriding the given duration; otherwise no stages and a duration of 0 (stopwatch) or the given duration, 60 by default |
| UseTimer.StagesSumToReduce | src/hooks/useTimer.ts:82-86 | the built stages' durations add up to the `reduce` over the intervals |
| UseTimer.SumFromShift | src/hooks/useTimer.ts:82-86 | the `reduce` may be started from any accumulator |
| UseTimer.DurationsAgree | src/hooks/useTimer.ts:76-86 | two lists with the same durations position by position have the same total |
| UseTimer.StopwatchStep | src/hooks/useTimer.ts:117-122 | the stopwatch step: one more second elapsed, nothing remaining, completion and running flags and stage index untouched |
| UseTimer.CountdownStep | src/hooks/useTimer.ts:125-155 | `tick`, then, when the snapshot's elapsed time is a positive multiple of its stage's duration and a next stage exists, the index after the snapshot's overrides the walk's; keeps a timer well formed |
| UseTimer.StepTimer | src/hooks/useTimer.ts:117-155 | one step keeps the duration and stages; it adds one second in stopwatch mode or to a running countdown; the stopwatch step leaves nothing remaining and the completion flag alone; a countdown that is not running and whose stage check does not fire is unchanged; the countdown step keeps a timer well formed |
| UseTimer.StepEffects | src/hooks/useTimer.ts:114-190 | no effects at all when the stage lookup throws; in stopwatch mode only `onTick` with the updated timer, when it is set; otherwise `onTick` with the updated timer appears exactly when it is set |
| UseTimer.StepEffectsWhen | src/hooks/useTimer.ts:139-190 | `onComplete` runs in a step exactly in countdown mode, when the stage lookup does not throw, the updated timer is completed and the callback is set; the interval-change sound plays exactly when the hook's own advance fires |
| UseTimer.StopwatchNeverCompletes | src/hooks/useTimer.ts:117-122 | the stopwatch step never completes a timer and never runs `onComplete` |
| UseTimer.AdvanceDisagreesWithWalk | src/hooks/useTimer.ts:128-143 | with stages of 10, 20 and 10 seconds, 20 seconds elapsed in the second stage, the walk places second 21 in the second stage but the hook moves to the third, and the next step moves back to the second |
| UseTimer.Progress | src/hooks/useTimer.ts:284-290 | 0 without a timer, in stopwatch mode or for a non-positive duration; never negative; at most 100 exactly when elapsed is within the duration |
| UseTimer.ProgressIsCalculateProgress | src/hooks/useTimer.ts:284-290 | within the duration, the hook's progress is `calculateProgress` |
| UseTimer.CurrentInterval | src/hooks/useTimer.ts:293-294 | the stage index plus one, and 0 exactly when there is no timer or no index |
| UseTimer.TotalIntervals | src/hooks/useTimer.ts:295 | the number of stages, or 0 without a timer or stages |
| UseTimer.TitleLabel | src/hooks/useTimer.ts:215-217 | "00:00" without a timer |
| UseTimer.TitleLabelIsMmSs | src/hooks/useTimer.ts:218-228 | the tab-title text is `formatTime` in "mm:ss" of the elapsed (stopwatch) or remaining (countdown) time |
| UseTimer.Retargeted | src/hooks/useTimer.ts:265-281 | `setDuration(s)` then `reset()`: an idle timer of length s, all of it remaining, with the same id, type and stages; well formed for s at least 0 |
| UseTimer.TimerBinding.constructor | src/hooks/useTimer.ts:34-42 | mode defaults to countdown; no timer id and no effects yet |
| UseTimer.TimerBinding.CurrentTimer | src/hooks/useTimer.ts:106 | the store's timer under the binding's id, present exactly when the id is set, non-empty and known |
| UseTimer.TimerBinding.Mount | src/hooks/useTimer.ts:90-95 | the timer built from the options is filed under the new id, and started (becoming active) when `autoStart` is set |
| UseTimer.TimerBinding.Unmount | src/hooks/useTimer.ts:97-102 | the bound timer is removed from the store, and the active id is cleared exactly when it was that timer's; without a bound timer nothing changes; the store stays well formed |
| UseTimer.TimerBinding.Step | src/hooks/useTimer.ts:113-192 | without a bound timer nothing changes; otherwise the bound timer takes the mode's step from the snapshot and the effects grow by exactly that step's effects; the store stays well formed in countdown mode |
| UseTimer.TimerBinding.StepFound | src/hooks/useTimer.ts:114-190 | once the timer is read: the store update, then the effects of the step, in order |
| UseTimer.TimerBinding.UpdateStore | src/hooks/useTimer.ts:117-155 | the store half of a step; it throws exactly when the snapshot's stage index is past its stage list |
| UseTimer.TimerBinding.CheckStage | src/hooks/useTimer.ts:128-155 | the hook's modulo stage check on the snapshot, with its interval-change sound and notification |
| UseTimer.TimerBinding.NotifyAfterStep | src/hooks/useTimer.ts:159-190 | `onTick` with the updated timer, then, in countdown mode with a completed timer and `onComplete` set, the completion sound, notification, title stop, vibration and `onComplete` |
| UseTimer.TimerBinding.Start | src/hooks/useTimer.ts:207-263 | `start` and `resume`: the bound timer is started and made active, the start sound plays and the title animation starts; an unknown id changes no timer and not the active id, and only the start sound plays |
| UseTimer.TimerBinding.Pause | src/hooks/useTimer.ts:233-237 | the bound timer is paused and the title animation stops |
| UseTimer.TimerBinding.Reset | src/hooks/useTimer.ts:265-269 | the bound timer is reset and the title animation stops |
| UseTimer.TimerBinding.SetDuration | src/hooks/useTimer.ts:271-281 | no change in stopwatch mode or without a bound timer; otherwise duration and remaining become the new length and elapsed 0, with the flags untouched |
| UseTimer.TimerBinding.Retarget | src/hooks/useTimer.ts:265-281 | `setDuration` then `reset` leave the bound timer `Retargeted` and the store well formed |
| TimeUtils.FormatTimeShape | src/utils/time.ts:11-30 | only digits and colons: two colons and at least 8 characters for "hh:mm:ss", one colon and at least 5 for "mm:ss" |
| TimeUtils.FormatsBelowAnHour | src/utils/time.ts:11-30 | below an hour, the "hh:mm:ss" text is "00:" followed by the "mm:ss" text |
| TimeUtils.TrimStartDropsWhitespace | src/utils/time.ts:39 | `trim` drops exactly the leading whitespace: what is left is a suffix of the input that does not start with whitespace |
| TimeUtils.TrimEndDropsWhitespace | src/utils/time.ts:39 | `trim` drops exactly the trailing whitespace: what is left is a prefix of the input that does not end with whitespace |
| TimeUtils.TrimIsMiddle | src/utils/time.ts:39 | `input.trim()` is a middle slice of the input, with only whitespace before and after it, and it neither starts nor ends with whitespace |
| TimeUtils.ParseTimeSkipsWhitespace | src/utils/time.ts:38-39 | whitespace in front of the input does not change what `parseTime` returns |
| TimeUtils.ParseTimeShapes | src/utils/time.ts:38-67 | a result is returned only for a bare digit run or for two or three colon-separated fields; a single field that is not all digits ("5s", "", "-5") is null |
| TimeUtils.Split | src/utils/time.ts:47 | `split(":")` always yields at least one piece |
| TimeUtils.SplitTwo | src/utils/time.ts:47 | two colon-free fields split into exactly those two pieces |
| TimeUtils.SplitThree | src/utils/time.ts:47 | three colon-free fields split into exactly those three pieces |
| TimeUtils.LeadingDigitsIsLongest | src/utils/time.ts:47 | the digits `parseInt` reads are the longest digit prefix of what follows the sign |
| TimeUtils.ParseIntNeedsADigit | src/utils/time.ts:47-50 | `parseInt` is NaN unless the text holds a digit |
| TimeUtils.ParseIntStopsAtNonDigit | src/utils/time.ts:47 | `parseInt` reads a digit run and stops at the first other character, so "12abc" reads as 12 |
| TimeUtils.ParseIntNegative | src/utils/time.ts:47 | a minus sign in front of a digit run negates its value |
| TimeUtils.ParseIntSkipsWhitespace | src/utils/time.ts:47 | `parseInt` skips whitespace in front of the number |
| TimeUtils.ParseIntOfDigits | src/utils/time.ts:43-47 | `parseInt` reads a non-empty digit string as its decimal value |
| TimeUtils.ParseAll | src/utils/time.ts:47-52 | one number per piece, or null when any piece is not a number |
| TimeUtils.FieldsToSeconds | src/utils/time.ts:54-67 | two fields are accepted exactly when the seconds are below 60, three exactly when minutes and seconds are; any other count is rejected |
| TimeUtils.ParseTimeByFields | src/utils/time.ts:38-67 | trimmed text that is not a bare number is read field by field |
| TimeUtils.ParseTimeTwoFields | src/utils/time.ts:55-59 | digit fields "x:y" with y below 60 parse as x minutes and y seconds |
| TimeUtils.ParseTimeThreeFields | src/utils/time.ts:60-64 | digit fields "x:y:z" with y and z below 60 parse as hours, minutes and seconds |
| TimeUtils.FormatHhMmSsFields | src/utils/time.ts:15-23 | "hh:mm:ss" is three digit fields of at least two characters, minutes and seconds below 60, adding back up to the input |
| TimeUtils.FormatMmSsFields | src/utils/time.ts:25-29 | "mm:ss" is the whole number of minutes, with the hours folded in and no cap at 59, then the seconds below 60 |
| TimeUtils.HmsDecomposition | src/utils/time.ts:15-17 | the hours/minutes/seconds split keeps minutes and seconds below 60 and adds back up to the input |
| TimeUtils.ParseFormatRoundTrip | src/utils/time.ts:11-67 | `parseTime(formatTime(s, f)) == s` for every whole number of seconds and both formats |
| TimeUtils.HhMmSsRoundTrip | src/utils/time.ts:11-67 | the "hh:mm:ss" text parses back to its seconds |
| TimeUtils.MmSsRoundTrip | src/utils/time.ts:11-67 | the "mm:ss" text parses back to its seconds |
| TimeUtils.CalculateProgress | src/utils/time.ts:76-79 | 0 for a zero total, never above 100, never negative for a positive total, and the plain percentage within the total |
| TimeUtils.GetRemainingTime | src/utils/time.ts:87-89 | never negative; either 0 or total minus elapsed, and elapsed plus it is the total when elapsed is within the total |
| TimeUtils.DurationParts | src/utils/time.ts:123-139 | hours then minutes, with zero parts left out and seconds dropped whenever there are hours; or minutes then seconds |
| TimeUtils.HumanReadableDuration | src/utils/time.ts:118-142 | with h hours, m minutes and s seconds: below a minute "N second" for exactly 1 and "N seconds" otherwise; with hours, "h hour(s)" followed by " m minute(s)" only when m > 0, the seconds dropped; without hours, "m minute(s)" followed by " s second(s)" only when s > 0; each unit singular exactly for 1 |
| Decimal.NatToString | src/utils/time.ts:21 | `toString` of a non-negative integer: digits only, no leading zero |
| Decimal.DigitsValueOfNatToString | src/utils/time.ts:21 | reading back the digits of `toString` gives the number |
| Decimal.NatToStringInjective | src/utils/time.ts:21 | different numbers are written differently |
| Decimal.Pad2 | src/utils/time.ts:21 | `toString().padStart(2, "0")`: at least two digits, reading back to the number |
| Decimal.Pad2IsPadStart | src/utils/time.ts:21 | `Pad2` is `padStart(2, "0")` applied to `toString` |
| Decimal.JsRem | src/hooks/useTimer.ts:134 | JavaScript's `%`: for a non-negative dividend the ordinary remainder, and in every case smaller in size than the divisor |
| HistoryStore.History.constructor | src/stores/historyStore.ts:24 | the history starts empty |
| HistoryStore.History.AddSession | src/stores/historyStore.ts:26-30 | the new session comes first and at most 1000 sessions are kept, the oldest dropped |
| HistoryStore.History.ClearHistory | src/stores/historyStore.ts:32-34 | the history is empty |
| HistoryStore.History.DeleteSession | src/stores/historyStore.ts:36-40 | the history becomes the old one with that id filtered out (see `WithoutIdCounts` and `WithoutIdAppend`) |
| HistoryStore.WithoutIdCounts | src/stores/historyStore.ts:38 | a session stays exactly when its id differs, every copy of it kept |
| HistoryStore.WithoutIdOne | src/stores/historyStore.ts:38 | a single session is kept exactly when its id differs |
| HistoryStore.WithoutIdAppend | src/stores/historyStore.ts:38 | the filter keeps the order: filtering a concatenation concatenates the filtered parts |
| HistoryStore.DeleteIsIdempotent | src/stores/historyStore.ts:36-40 | deleting an id twice is deleting it once |
| HistoryStore.History.SessionsByType | src/stores/historyStore.ts:42-44 | exactly the sessions of that type, every copy kept, in history order |
| HistoryStore.OfTypeCounts | src/stores/historyStore.ts:43 | a session is kept exactly when it has that type, every copy of it kept |
| HistoryStore.OfTypeOne | src/stores/historyStore.ts:43 | a single session is kept exactly when it has that type |
| HistoryStore.OfTypeAppend | src/stores/historyStore.ts:43 | the filter keeps the order: filtering a concatenation concatenates the filtered parts |
| HistoryStore.History.RecentSessions | src/stores/historyStore.ts:46-48 | a prefix of the history, of length min(limit, size) with the limit 10 by default |
| HistoryStore.SliceEnd | src/stores/historyStore.ts:47 | `slice(0, limit)`'s end: the limit capped at the length, or counted back from the end for a negative limit |
| HistoryStore.Cutoff | src/stores/historyStore.ts:53-61 | no cutoff exactly for the "all" range; every other range's cutoff lies before now |
| HistoryStore.SessionsSinceCounts | src/stores/historyStore.ts:61-64 | a session is counted exactly when it completed at or after the cutoff, every copy of it counted |
| HistoryStore.SessionsSinceOne | src/stores/historyStore.ts:61-64 | a single session is counted exactly when it completed at or after the cutoff |
| HistoryStore.SessionsSinceAppend | src/stores/historyStore.ts:61-64 | the filter keeps the order: filtering a concatenation concatenates the filtered parts |
| HistoryStore.AllRangeKeepsEverything | src/stores/historyStore.ts:58-64 | the "all" range keeps every session |
| HistoryStore.History.GetStatistics | src/stores/historyStore.ts:50-123 | over the sessions of the range: their count, summed duration, completed count and abandoned = total - completed; per-type count and time records keyed exactly by the types met; the favourite picked in key order; the newest session's date |
| HistoryStore.Accumulate | src/stores/historyStore.ts:66-77 | the `forEach` pass yields the per-type records, their key order, the total time and the completed count |
| HistoryStore.PickFavorite | src/stores/historyStore.ts:79-87 | the favourite loop returns the reference favourite |
| HistoryStore.FavoriteIsFirstMaximum | src/stores/historyStore.ts:79-87 | the favourite is the first type in key order with the greatest count, and there is none exactly when no type has a positive count |
| HistoryStore.TypesInOrder | src/stores/historyStore.ts:66-77 | the record's keys: each type met, once |
| HistoryStore.CountsSumToTotal | src/stores/historyStore.ts:66-77 | the per-type counts add up to the number of sessions |
| HistoryStore.ByTypeMapsAgree | src/stores/historyStore.ts:66-77 | both records have a key exactly for the types met, holding that type's count and summed duration |
| HistoryStore.CompletedCount | src/stores/historyStore.ts:73-75 | never more completed sessions than sessions |
| SettingsStore.Defaults | src/stores/settingsStore.ts:16-23 | system theme, sound on, volume 0.7, notifications off, vibration on |
| SettingsStore.ClampVolume | src/stores/settingsStore.ts:51 | the result lies in [0, 1]; a value inside is kept, one below becomes 0 and one above becomes 1 |
| SettingsStore.Toggled | src/stores/settingsStore.ts:38-48 | exactly the chosen switch flips; the other switches, the theme and the volume are kept |
| SettingsStore.ToggleTwiceRestores | src/stores/settingsStore.ts:38-48 | toggling the same switch twice restores the settings |
| SettingsStore.MergeChangesOnlyGiven | src/stores/settingsStore.ts:30-32 | an update changes exactly the fields it carries |
| SettingsStore.EmptyPatchKeeps | src/stores/settingsStore.ts:30-32 | an empty update changes nothing |
| SettingsStore.MergeComposes | src/stores/settingsStore.ts:30-32 | two updates in a row are one update in which the later value of each field wins |
| SettingsStore.MergeIdempotent | src/stores/settingsStore.ts:30-32 | applying the same update twice is applying it once |
| SettingsStore.Store.constructor | src/stores/settingsStore.ts:28 | the store starts from the defaults |
| SettingsStore.Store.UpdateSettings | src/stores/settingsStore.ts:30-32 | the settings become the old ones merged with the update |
| SettingsStore.Store.ResetSettings | src/stores/settingsStore.ts:34-36 | the settings are the defaults again |
| SettingsStore.Store.ToggleSound | src/stores/settingsStore.ts:38-40 | the sound switch flips and nothing else changes |
| SettingsStore.Store.ToggleNotifications | src/stores/settingsStore.ts:42-44 | the notification switch flips and nothing else changes |
| SettingsStore.Store.ToggleVibration | src/stores/settingsStore.ts:46-48 | the vibration switch flips and nothing else changes |
| SettingsStore.Store.SetVolume | src/stores/settingsStore.ts:50-52 | the clamped volume is stored, so the volume lies in [0, 1] afterwards whatever was given |
| SettingsStore.Store.SetTheme | src/stores/settingsStore.ts:54-56 | only the theme changes |
| ThemeService.SystemTheme | src/services/themeService.ts:76-81 | dark exactly when a media query exists and matches |
| ThemeService.Resolve | src/services/themeService.ts:39-49 | "system" resolves to the system theme and any other setting to itself |
| ThemeService.NextSetting | src/services/themeService.ts:87-101 | light goes to dark, dark to system and system to light, so a toggle always changes the setting |
| ThemeService.ToggleCycle | src/services/themeService.ts:87-101 | three toggles return to the start, passing through all three settings |
| ThemeService.LabelsAndIconsDistinct | src/services/themeService.ts:105-134 | different settings show different labels and icons |
| ThemeService.Service.constructor | src/services/themeService.ts:9-30 | the stored setting is applied at once |
| ThemeService.Service.ApplyTheme | src/services/themeService.ts:39-52 | the applied theme is the setting resolved against the system preference |
| ThemeService.Service.HandleSystemThemeChange | src/services/themeService.ts:32-37 | the applied theme follows the system only under the "system" setting; otherwise it is unchanged |
| ThemeService.Service.ToggleTheme | src/services/themeService.ts:87-102 | the stored setting moves one step round the cycle, nothing else in the settings changes, and the new setting is applied |
| SessionCycle.CompletionsAlternate | src/pages/timers/fitness/PomodoroTimer.tsx:39-53 | after 2n completions from a reset, n work sessions are counted and work runs; after 2n - 1 the n-th break runs |
| SessionCycle.CountAfterCompletions | src/pages/timers/productivity/FiftyTwoSeventeen.tsx:32-37 | after k completions, (k + 1) / 2 work sessions are counted, and work runs exactly after an even number |
| PomodoroTimer.SessionDuration | src/pages/timers/fitness/PomodoroTimer.tsx:28-37 | 25 minutes for work; for a break, 15 minutes exactly when a positive multiple of four pomodoros is done, else 5 |
| PomodoroTimer.SessionTitle | src/pages/timers/fitness/PomodoroTimer.tsx:60-69 | "Work Session" exactly for work, "Long Break" exactly after a positive multiple of four pomodoros, "Short Break" for every other break |
| PomodoroTimer.TitleMatchesDuration | src/pages/timers/fitness/PomodoroTimer.tsx:60-69 | the title names exactly the kind of session the duration is for |
| PomodoroTimer.NthBreakIsLong | src/pages/timers/fitness/PomodoroTimer.tsx:28-53 | from a reset, the n-th break is long exactly when n is a multiple of four |
| PomodoroTimer.Page.constructor | src/pages/timers/fitness/PomodoroTimer.tsx:23-26 | no pomodoros, a work session, no quote, 25 minutes |
| PomodoroTimer.Page.SessionChanged | src/pages/timers/fitness/PomodoroTimer.tsx:56-58 | the shown duration follows the session |
| PomodoroTimer.Page.HandleComplete | src/pages/timers/fitness/PomodoroTimer.tsx:39-53 | after work the count goes up, a break with the drawn quote follows; after a break, work with no quote and the same count; the duration follows |
| PomodoroTimer.Page.ResetPomodoro | src/pages/timers/fitness/PomodoroTimer.tsx:71-76 | no pomodoros, a work session, no quote, 25 minutes |
| HiitTimer.BuildIntervals | src/pages/timers/fitness/HIITTimer.tsx:45-55 | 2r - 1 entries for r rounds, work and rest alternating, starting and ending with work |
| HiitTimer.TotalDurationOfRounds | src/pages/timers/fitness/HIITTimer.tsx:57-60 | the total is r * work + (r - 1) * rest |
| HiitTimer.HookDurationMatches | src/pages/timers/fitness/HIITTimer.tsx:45-60 | the duration the hook computes from the list is the page's total |
| HiitTimer.PhaseAt | src/pages/timers/fitness/HIITTimer.tsx:71-89 | the round shown is at least 1 and, with any rounds, at most the round count; rest is shown only before the last round |
| HiitTimer.DerivePhase | src/pages/timers/fitness/HIITTimer.tsx:71-89 | the loop's round and phase are the closed-form round and phase of the elapsed time |
| HiitTimer.PhaseInWork | src/pages/timers/fitness/HIITTimer.tsx:75-80 | a second in the work block of round i + 1 shows round i + 1, work |
| HiitTimer.PhaseInRest | src/pages/timers/fitness/HIITTimer.tsx:81-87 | a second in the rest block of round i + 1, not the last round, shows round i + 1, rest |
| HiitTimer.PhaseAfterLastWork | src/pages/timers/fitness/HIITTimer.tsx:72-89 | from the end of the last work block on (the last round has no rest), round 1 and work are shown |
| HiitTimer.PhaseWithoutRounds | src/pages/timers/fitness/HIITTimer.tsx:72-75 | with no rounds, round 1 and work are shown throughout |
| HiitTimer.PeriodsTotalIsProduct | src/pages/timers/fitness/HIITTimer.tsx:81-88 | subtracting i whole rounds removes i * (work + rest) seconds |
| HiitTimer.ClampedInput | src/pages/timers/fitness/HIITTimer.tsx:173 | the work, rest and rounds inputs (also lines 187 and 201): at least 1; a number of at least 1 is kept; not-a-number or anything smaller gives 1 |
| HiitTimer.Page.constructor | src/pages/timers/fitness/HIITTimer.tsx:35-41 | 20 s work, 10 s rest, 8 rounds, round 1 work, configuring, "Tabata" |
| HiitTimer.Page.HandlePresetSelect | src/pages/timers/fitness/HIITTimer.tsx:62-67 | the preset's three numbers and its name, nothing else |
| HiitTimer.Page.SetWorkTimeInput | src/pages/timers/fitness/HIITTimer.tsx:172-174 | the work time is the clamped input |
| HiitTimer.Page.SetRestTimeInput | src/pages/timers/fitness/HIITTimer.tsx:186-188 | the rest time is the clamped input |
| HiitTimer.Page.SetRoundsInput | src/pages/timers/fitness/HIITTimer.tsx:200-202 | the round count is the clamped input |
| HiitTimer.Page.HandleTick | src/pages/timers/fitness/HIITTimer.tsx:69-101 | the shown round and phase follow the elapsed time, and a cue sounds exactly when they change |
| HiitTimer.Page.HandleComplete | src/pages/timers/fitness/HIITTimer.tsx:103-110 | a cue, then round 1, work |
| HiitTimer.Page.StartWorkout | src/pages/timers/fitness/HIITTimer.tsx:112-116 | running, round 1, work |
| HiitTimer.Page.ResetWorkout | src/pages/timers/fitness/HIITTimer.tsx:118-122 | configuring, round 1, work |
| BoxBreathing.PrefixDurationValues | src/pages/timers/fitness/BoxBreathing.tsx:6-26 | phase k starts 4k seconds into the cycle |
| BoxBreathing.CycleLength | src/pages/timers/fitness/BoxBreathing.tsx:43-46 | one breath lasts 16 seconds |
| BoxBreathing.FindPhase | src/pages/timers/fitness/BoxBreathing.tsx:55-64 | the first phase whose end lies beyond the cycle offset, or phase 0 when none does |
| BoxBreathing.PhaseIsItsOwnStart | src/pages/timers/fitness/BoxBreathing.tsx:47-64 | the phase found for the offset of the current phase's start is the current phase |
| BoxBreathing.Page.constructor | src/pages/timers/fitness/BoxBreathing.tsx:29-32 | inactive, phase 0, no breaths, 5 minutes |
| BoxBreathing.Page.HandleTick | src/pages/timers/fitness/BoxBreathing.tsx:41-72 | the phase and breath count never change |
| BoxBreathing.Page.HandleComplete | src/pages/timers/fitness/BoxBreathing.tsx:74-77 | inactive, phase 0; the breath count stays |
| BoxBreathing.Page.StartSession | src/pages/timers/fitness/BoxBreathing.tsx:79-83 | active, phase 0, no breaths |
| BoxBreathing.Page.StopSession | src/pages/timers/fitness/BoxBreathing.tsx:85-89 | inactive, phase 0, no breaths |
| BoxBreathing.Page.SelectDuration | src/pages/timers/fitness/BoxBreathing.tsx:142 | only the session length changes |
| MeditationTimer.BellRings | src/pages/timers/fitness/MeditationTimer.tsx:38-44 | a bell rings only with bells on, at least one interval elapsed, and at a second not already rung |
| MeditationTimer.NoBellTwice | src/pages/timers/fitness/MeditationTimer.tsx:38-44 | a bell never rings twice at the same elapsed second |
| MeditationTimer.BellOnMultiples | src/pages/timers/fitness/MeditationTimer.tsx:37-44 | with bells on, a bell rings on every positive multiple of the interval not yet rung |
| MeditationTimer.Page.constructor | src/pages/timers/fitness/MeditationTimer.tsx:26-33 | inactive, 10 minutes, bells on every 5 minutes, no sessions |
| MeditationTimer.Page.HandleTick | src/pages/timers/fitness/MeditationTimer.tsx:35-50 | a bell exactly when bells are on, the interval is positive and the elapsed time is a new positive multiple of it; the rung second is remembered |
| MeditationTimer.Page.HandleComplete | src/pages/timers/fitness/MeditationTimer.tsx:52-61 | one more session, its duration added to the total, the closing bell |
| MeditationTimer.Page.StartMeditation | src/pages/timers/fitness/MeditationTimer.tsx:63-66 | active, and the bell memory back to 0 |
| MeditationTimer.Page.StopMeditation | src/pages/timers/fitness/MeditationTimer.tsx:68-70 | inactive, nothing else changes |
| MeditationTimer.Page.SelectBellInterval | src/pages/timers/fitness/MeditationTimer.tsx:184-186 | the interval is the chosen minutes times 60 |
| MeditationTimer.Page.ToggleBells | src/pages/timers/fitness/MeditationTimer.tsx:163 | the bell switch flips |
| MeditationTimer.Page.SelectDuration | src/pages/timers/fitness/MeditationTimer.tsx:139 | only the session length changes |
| Stopwatch.SplitsSumToLastTime | src/pages/timers/productivity/Stopwatch.tsx:26-36 | the splits add up to the latest lap's time |
| Stopwatch.BestLap | src/pages/timers/productivity/Stopwatch.tsx:44-47 | none exactly without laps, otherwise one of the laps |
| Stopwatch.WorstLap | src/pages/timers/productivity/Stopwatch.tsx:49-52 | none exactly without laps, otherwise one of the laps |
| Stopwatch.BestLapIsEarliestMinimum | src/pages/timers/productivity/Stopwatch.tsx:44-47 | the best lap is the earliest lap with the smallest split, and there is none exactly without laps |
| Stopwatch.WorstLapIsEarliestMaximum | src/pages/timers/productivity/Stopwatch.tsx:49-52 | the worst lap is the earliest lap with the largest split, and there is none exactly without laps |
| Stopwatch.ExtendEarliestMinimum | src/pages/timers/productivity/Stopwatch.tsx:46 | a new lap takes over as best only with a strictly smaller split |
| Stopwatch.ExtendEarliestMaximum | src/pages/timers/productivity/Stopwatch.tsx:51 | a new lap takes over as worst only with a strictly larger split |
| Stopwatch.Page.constructor | src/pages/timers/productivity/Stopwatch.tsx:16-19 | a stopwatch binding and no laps |
| Stopwatch.Page.HandleLap | src/pages/timers/productivity/Stopwatch.tsx:23-37 | nothing unless running past 0; otherwise a lap with the next id, the current time and its split since the previous lap; the laps stay well formed |
| Stopwatch.Page.HandleReset | src/pages/timers/productivity/Stopwatch.tsx:39-42 | the timer is reset and the laps are gone; no other timer changes, the active id is kept, and the only effect is stopping the title animation when a timer is bound |
| FiftyTwoSeventeen.TargetTime | src/pages/timers/productivity/FiftyTwoSeventeen.tsx:28 | positive, and the 52-minute work time exactly for a work session |
| FiftyTwoSeventeen.TipFor | src/pages/timers/productivity/FiftyTwoSeventeen.tsx:45-49 | one of the eight tips, chosen by the session count modulo 8 |
| FiftyTwoSeventeen.SessionsAfterCompletions | src/pages/timers/productivity/FiftyTwoSeventeen.tsx:28-49 | from a reset, after k completions the target is 52 minutes exactly when k is even, and the tip has moved on once per finished work session |
| FiftyTwoSeventeen.Page.constructor | src/pages/timers/productivity/FiftyTwoSeventeen.tsx:24-26 | work, no sessions, the first tip |
| FiftyTwoSeventeen.Page.SessionEffect | src/pages/timers/productivity/FiftyTwoSeventeen.tsx:40-43 | the bound timer is set afresh to the target time; no other timer changes, the active id is kept, and the only effect is stopping the title animation when a timer is bound |
| FiftyTwoSeventeen.Page.TipEffect | src/pages/timers/productivity/FiftyTwoSeventeen.tsx:45-49 | the tip follows the session count |
| FiftyTwoSeventeen.Page.OnComplete | src/pages/timers/productivity/FiftyTwoSeventeen.tsx:32-49 | a finished work session is counted, work and break always swap, the timer is set for the next session, and the tip follows the count; the active id is kept and the only effect is stopping the title animation when a timer is bound |
| FiftyTwoSeventeen.Page.ResetTimer | src/pages/timers/productivity/FiftyTwoSeventeen.tsx:40-54 | the timer is reset, or set afresh to 52 minutes when the page was on a break; the active id is kept and the only effects are one title-animation stop per hook call when a timer is bound |
| FiftyTwoSeventeen.Page.HandleReset | src/pages/timers/productivity/FiftyTwoSeventeen.tsx:51-55 | work, no sessions, the first tip, and the timer reset (set to 52 minutes when coming from a break); the active id is kept and the only effects are the title-animation stops of those hook calls |
| CountdownToDate.Remaining | src/pages/timers/productivity/CountdownToDate.tsx:44-76 | all zero once the target is reached; otherwise whole days, hours below 24, minutes and seconds below 60, and the difference as the total |
| CountdownToDate.RemainingAccountsForDifference | src/pages/timers/productivity/CountdownToDate.tsx:61-75 | the fields account for the whole difference except the milliseconds of the current second, and the total is 0 exactly when the target is reached |
| CountdownToDate.ModOfMod | src/pages/timers/productivity/CountdownToDate.tsx:63-67 | a remainder by a multiple of m, taken by m, is the remainder by m |
| CountdownToDate.WithoutId | src/pages/timers/productivity/CountdownToDate.tsx:103 | an entry stays exactly when its id differs |
| CountdownToDate.WithoutIdCounts | src/pages/timers/productivity/CountdownToDate.tsx:103 | every copy of an entry with another id is kept, and none with this id |
| CountdownToDate.WithoutIdOne | src/pages/timers/productivity/CountdownToDate.tsx:103 | a single entry is kept exactly when its id differs |
| CountdownToDate.WithoutIdAppend | src/pages/timers/productivity/CountdownToDate.tsx:103 | the filter keeps the order: filtering a concatenation concatenates the filtered parts |
| CountdownToDate.DeleteTwiceKeeps | src/pages/timers/productivity/CountdownToDate.tsx:102-110 | deleting an id twice is deleting it once |
| CountdownToDate.Page.constructor | src/pages/timers/productivity/CountdownToDate.tsx:21-39 | empty inputs, the stored list, no active event, nothing remaining |
| CountdownToDate.Page.Refresh | src/pages/timers/productivity/CountdownToDate.tsx:41-82 | nothing without an active event; else completion exactly when the target is reached, and the split of what remains |
| CountdownToDate.Page.HandleSaveCountdown | src/pages/timers/productivity/CountdownToDate.tsx:84-100 | nothing without a name and a date; else the event is appended, made active, and both inputs cleared |
| CountdownToDate.Page.HandleDeleteCountdown | src/pages/timers/productivity/CountdownToDate.tsx:102-110 | the entries with that id go, and the active event goes exactly when it had that id |
| CountdownToDate.Page.SelectCountdown | src/pages/timers/productivity/CountdownToDate.tsx:311 | the chosen event is active |
| CountdownToDate.Page.ClearActive | src/pages/timers/productivity/CountdownToDate.tsx:209 | the back buttons (also line 285): no active event |
| BoardGameTimer.FormatClockRoundTrip | src/pages/timers/games/BoardGameTimer.tsx:78-82 | the clock text reads back, as "m:ss", to its seconds |
| BoardGameTimer.FormatClockVsMmSs | src/pages/timers/games/BoardGameTimer.tsx:78-82 | from ten minutes on the clock text is the shared "mm:ss" `formatTime`; below that it lacks the leading zero |
| BoardGameTimer.NextSeat | src/pages/timers/games/BoardGameTimer.tsx:47 | moving one seat on from seat a mod n is seat (a + 1) mod n |
| BoardGameTimer.Page.constructor | src/pages/timers/games/BoardGameTimer.tsx:16-22 | 60-second turns, two players, player 0, stopped, no history |
| BoardGameTimer.Page.HandleNextPlayer | src/pages/timers/games/BoardGameTimer.tsx:41-50 | the time taken is recorded, the next player (wrapping round) moves with a full clock, the clock runs, and history entry k belongs to player k mod the player count |
| BoardGameTimer.Page.Tick | src/pages/timers/games/BoardGameTimer.tsx:27-35 | on the last second the turn passes and the clock refills; otherwise one second less |
| BoardGameTimer.Page.HandleTap | src/pages/timers/games/BoardGameTimer.tsx:52-58 | starts a stopped clock, and otherwise passes the turn |
| BoardGameTimer.Page.HandleReset | src/pages/timers/games/BoardGameTimer.tsx:60-65 | stopped, a full clock, player 0, no history |
| BoardGameTimer.Page.HandleSettingsChange | src/pages/timers/games/BoardGameTimer.tsx:67-76 | the new player count and turn length, the panel closed, and a reset game |
| BoardGameTimer.Page.ToggleSettings | src/pages/timers/games/BoardGameTimer.tsx:112 | the settings panel flips |
| FiveSecondRule.PickNewPrompt | src/pages/timers/games/FiveSecondRule.tsx:94-100 | the first drawn index that differs from the current prompt |
| FiveSecondRule.Page.constructor | src/pages/timers/games/FiveSecondRule.tsx:37-43 | 5 seconds, stopped, the first prompt shown, sound on, calm |
| FiveSecondRule.Page.Tick | src/pages/timers/games/FiveSecondRule.tsx:45-83 | on the last second the round stops at 0 with "time's up" and a beep when sound is on; otherwise one second less, urgency turned on on the way to 2 seconds and never cleared; the clock stays within 0 to 5 |
| FiveSecondRule.Page.HandleStart | src/pages/timers/games/FiveSecondRule.tsx:85-91 | 5 seconds, running, calm, no "time's up", the prompt shown |
| FiveSecondRule.Page.HandleNewPrompt | src/pages/timers/games/FiveSecondRule.tsx:93-107 | a different prompt and a stopped, full, calm clock |
| FiveSecondRule.Page.HandleReset | src/pages/timers/games/FiveSecondRule.tsx:109-114 | a stopped, full, calm clock with no "time's up" |
| FiveSecondRule.Page.ToggleSound | src/pages/timers/games/FiveSecondRule.tsx:258 | the sound switch flips and nothing else changes |
| DoughProofing.FormatLongTimeShowsHours | src/pages/timers/kitchen/DoughProofing.tsx:78-87 | the hours field, with its 'h', appears exactly from one hour on |
| DoughProofing.FormatLongTimeInjective | src/pages/timers/kitchen/DoughProofing.tsx:78-87 | different durations give different long-time texts, so the text determines the hours, minutes and seconds |
| DoughProofing.MinSecTextInjective | src/pages/timers/kitchen/DoughProofing.tsx:86 | "{m}m {s}s" determines m and s |
| DoughProofing.HoursTextInjective | src/pages/timers/kitchen/DoughProofing.tsx:84 | "{h}h …" determines h and the rest |
| DoughProofing.HoursTextIsNotMinSec | src/pages/timers/kitchen/DoughProofing.tsx:83-86 | a text with hours is never a text without them |
| DoughProofing.CustomMinutes | src/pages/timers/kitchen/DoughProofing.tsx:247 | a non-zero number kept as parsed; not-a-number or 0 gives 1 |
| DoughProofing.Page.constructor | src/pages/timers/kitchen/DoughProofing.tsx:48-52 | the "First Rise" stage, 60 custom minutes, custom off |
| DoughProofing.Page.TimeLeft | src/pages/timers/kitchen/DoughProofing.tsx:75 | the bound timer's remaining seconds, or 0 without a timer |
| DoughProofing.Page.HandleStageSelect | src/pages/timers/kitchen/DoughProofing.tsx:62-67 | the stage is chosen, custom is off, and the timer is set afresh to the stage's duration; without a known bound timer no timer changes, the active id is kept, and the only effect is stopping the title animation when a timer is bound |
| DoughProofing.Page.HandleCustomDuration | src/pages/timers/kitchen/DoughProofing.tsx:69-73 | custom is on and the timer is set afresh to the custom minutes times 60; without a known bound timer no timer changes, the active id is kept, and the only effect is stopping the title animation when a timer is bound |
| DoughProofing.Page.SetCustomDuration | src/pages/timers/kitchen/DoughProofing.tsx:246-248 | the custom minutes are the input's fallback value |

## Left out

- Scheduling is not modelled: `setInterval`/`clearInterval`, `intervalRef`, React effects and their dependency lists, and remounting. Each per-second callback is a `Tick`/`Step`/`HandleTick` method for the caller to invoke, and each effect a page runs on a state change is a method the handler calls.
- React batching and stale closures are not modelled. Handlers read the current state. Two places in the board-game page behave differently from the model because of this:
  - its per-second callback calls `handleNextPlayer` with the `currentTime` captured when the interval started;
  - `handleSettingsChange` runs `handleReset`, whose `setCurrentTime(timePerTurn)` uses the turn length from before the change.
- Clock readings, ids and random draws are parameters: `Date.now()`, the random id suffix, the prompt draws and the quote pick.
- Sounds, notifications, vibration and the title animation are not produced. The hook appends them to an effect log; the pages count bells, cues and beeps. The `soundManager` and `notificationService` services are not part of this model.
- Persistence is not modelled: zustand `persist`, local storage and the JSON list of saved countdowns, which the model takes as a constructor argument.
- The history streak loop (src/stores/historyStore.ts:89-110) is not modelled, because it depends on calendar-date arithmetic.
- CountdownToDate does not parse date text. The target instant is a parameter.
- The theme service's DOM work is not modelled: the class list, the meta tag, the `theme-changed` event and the media-query listener registration. The system preference is an input.
- The label and icon fallback in `getThemeLabel`/`getThemeIcon` is unreachable, because the setting is a three-value datatype.
- `formatTimeWithMillis` is not modelled (fractional seconds). Progress and animation sizes are `real` or left out.
- `defaultTimerSettings` is not modelled, nor the `theme`/`sound` fields of `TimerConfig`, which no core operation reads.
- The volume is a `real`, not an IEEE double.
- `SettingsStore.Store.UpdateSettings`: store validity (volume in [0, 1]) is promised only for an update whose volume is in range, because `updateSettings` applies no clamp.
- `TimerStore.Store.CreateTimer`: store validity is promised only for a non-negative duration, because the store copies whatever duration it is given.
- `UseTimer.TimerBinding.SetDuration`: store validity is promised only for a timer that is not completed, because `setDuration` leaves `isCompleted` set while making the remaining time positive. `Retarget`, which adds `reset()` as the pages do, keeps it in every case.
- `UseTimer.TimerBinding.Step`: in stopwatch mode, store validity is promised only for a zero duration. The stopwatch step sets `remaining` to 0, which contradicts a positive duration.
- `DoughProofing.Page.HandleCustomDuration`: store validity is promised only for positive custom minutes. The input fallback keeps a negative number as typed.
- `HiitTimer.Page.HandleTick` follows the timer's elapsed seconds and models the `for` loop exactly. The hook-driven timer that feeds it is not tied to the page in the model.
- `TimeUtils.HumanReadableDuration` takes a non-negative whole number of seconds. Negative or fractional input is not modelled.
- `TimeUtils.FormatTime` takes a non-negative whole number of seconds. JavaScript's `Math.floor` and `%` on a negative or fractional number are not modelled.
- `DoughProofing.FormatLongTime` takes non-negative seconds only. The page also calls `formatLongTime(timeLeft)` (src/pages/timers/kitchen/DoughProofing.tsx:183) with the remaining time of a timer built from negative custom minutes, which the input fallback lets through; the negative-number text is not modelled.
- `BoardGameTimer.FormatClock` takes non-negative seconds only; the page's clock never goes below 0.
- `TimeUtils.ParseFormatRoundTrip` is proved for unbounded integers. `parseInt` and the arithmetic in `parseTime` work on doubles, which lose precision above 2^53 seconds; that limit is not modelled.
- The theme service's subscription to the settings store (src/services/themeService.ts:27-29), which applies the theme again on every settings change, is not modelled. `ThemeService.Service.ToggleTheme` applies the new setting itself; a theme set on the settings store by other code is not applied in the model.
- The pages' presentation is not modelled: progress rings, colours, motion and the JSX around the handlers.
