/**
 * The binding controller of `src/hooks/useTimer.ts`: it builds a timer
 * configuration (stages from `intervals`), files the timer in the store on
 * mount, runs one step per second, and offers start, pause, resume, reset
 * and `setDuration` plus the derived progress and interval numbers.
 *
 * Sounds, notifications, the tab-title animation, vibration and the
 * caller's `onTick`/`onComplete` callbacks are recorded as an ordered list
 * of effects. `setInterval` itself is not modelled: `Step` is one run of
 * the per-second callback, called by whoever drives the clock.
 */
module UseTimer {
  import opened Wrappers
  import opened Decimal
  import opened TimerTypes
  import opened TimerStore
  import TimeUtils

  datatype Mode = CountdownMode | StopwatchMode

  datatype IntervalKind = WorkInterval | RestInterval

  /** One entry of the `intervals` option. */
  datatype IntervalSpec = IntervalSpec(duration: int, kind: IntervalKind)

  /** `UseTimerOptions`; the two callbacks are reduced to whether they are set. */
  datatype Options = Options(
    mode: Option<Mode>,
    duration: Option<int>,
    hasOnComplete: bool,
    hasOnTick: bool,
    autoStart: Option<bool>,
    intervals: Option<seq<IntervalSpec>>)

  datatype Sound = TimerStartSound | TimerCompleteSound | IntervalChangeSound

  /** What the hook does outside the store, in the order it does it. */
  datatype Effect =
    | PlaySound(sound: Sound)
    | ShowIntervalChange(fromStage: string, toStage: string)
    | ShowTimerComplete(timerName: string)
    | StartTitleAnimation(timerName: string)
    | StopTitleAnimation
    | Vibrate
    | OnTick(timer: Timer)
    | OnComplete

  // ------------------------------------------------------- configuration

  /** Stage `k` built from interval `k`. */
  function StageOf(interval: IntervalSpec, k: nat): TimerStage {
    var prefix := if interval.kind == WorkInterval then "Work " else "Rest ";
    TimerStage("stage-" + NatToString(k), prefix + NatToString(k + 1), interval.duration,
               if interval.kind == WorkInterval then Work else Rest)
  }

  /** `intervals.map((interval, index) => ...)`. */
  function BuildStages(intervals: seq<IntervalSpec>): (stages: seq<TimerStage>)
    ensures |stages| == |intervals|
    ensures forall k :: 0 <= k < |stages| ==> stages[k] == StageOf(intervals[k], k)
  {
    seq(|intervals|, k requires 0 <= k < |intervals| => StageOf(intervals[k], k))
  }

  /** `intervals.reduce((sum, interval) => sum + interval.duration, acc)`. */
  function SumFrom(acc: int, intervals: seq<IntervalSpec>): int
    decreases intervals
  {
    if intervals == [] then acc else SumFrom(acc + intervals[0].duration, intervals[1..])
  }

  /** The configuration the hook hands to `createTimer` on mount. */
  function BuildConfig(options: Options): (config: TimerConfig)
    ensures var mode := options.mode.GetOr(CountdownMode);
      && config.timerType == (if mode == StopwatchMode then TimerTypes.Stopwatch else TimerTypes.Countdown)
      && config.name == (if mode == StopwatchMode then "Stopwatch" else "Timer")
      && config.category == Productivity
      && (options.intervals.Some? && |options.intervals.value| > 0 ==>
            && config.stages == Some(BuildStages(options.intervals.value))
            && config.duration == TotalDuration(config.stages.value))
      && (!(options.intervals.Some? && |options.intervals.value| > 0) ==>
            && config.stages.None?
            && config.duration == (if mode == StopwatchMode then 0 else options.duration.GetOr(60)))
  {
    var mode := options.mode.GetOr(CountdownMode);
    var base := TimerConfig(
      if mode == StopwatchMode then TimerTypes.Stopwatch else TimerTypes.Countdown,
      if mode == StopwatchMode then "Stopwatch" else "Timer",
      Productivity,
      if mode == StopwatchMode then 0 else options.duration.GetOr(60),
      None);
    if options.intervals.Some? && |options.intervals.value| > 0 then
      var intervals := options.intervals.value;
      StagesSumToReduce(intervals);
      base.(stages := Some(BuildStages(intervals)), duration := SumFrom(0, intervals))
    else
      base
  }

  /** Summing the built stages' durations gives the `reduce` over the intervals. */
  lemma {:induction false} StagesSumToReduce(intervals: seq<IntervalSpec>)
    ensures TotalDuration(BuildStages(intervals)) == SumFrom(0, intervals)
  {
    SumFromShift(0, intervals);
    var stages := BuildStages(intervals);
    assert forall k :: 0 <= k < |stages| ==> stages[k].duration == intervals[k].duration;
    DurationsAgree(stages, intervals);
  }

  /** The fold may be started from any accumulator. */
  lemma {:induction false} SumFromShift(acc: int, intervals: seq<IntervalSpec>)
    ensures SumFrom(acc, intervals) == acc + SumFrom(0, intervals)
    decreases intervals
  {
    if intervals != [] {
      SumFromShift(acc + intervals[0].duration, intervals[1..]);
      SumFromShift(intervals[0].duration, intervals[1..]);
    }
  }

  lemma {:induction false} DurationsAgree(stages: seq<TimerStage>, intervals: seq<IntervalSpec>)
    requires |stages| == |intervals|
    requires forall k :: 0 <= k < |stages| ==> stages[k].duration == intervals[k].duration
    ensures TotalDuration(stages) == SumFrom(0, intervals)
  {
    if stages != [] {
      DurationsAgree(stages[1..], intervals[1..]);
      SumFromShift(intervals[0].duration, intervals[1..]);
    }
  }

  /** Different stages get different ids. */
  lemma StageIdsDistinct(intervals: seq<IntervalSpec>, i: nat, j: nat)
    requires i < j < |intervals|
    ensures BuildStages(intervals)[i].id != BuildStages(intervals)[j].id
  {
    var stages := BuildStages(intervals);
    if stages[i].id == stages[j].id {
      var p := "stage-";
      assert stages[i].id[|p|..] == NatToString(i);
      assert stages[j].id[|p|..] == NatToString(j);
      NatToStringInjective(i, j);
    }
  }

  // ------------------------------------------------------------ one step

  /**
   * The hook's own stage check on the snapshot taken before `tick`: the
   * elapsed time is a positive multiple of the current stage's duration and
   * a next stage exists. A zero duration gives `NaN`, which is never 0.
   */
  predicate AdvanceFires(snap: Timer) {
    && snap.stages.Some? && snap.currentStageIndex.Some?
    && snap.currentStageIndex.value < |snap.stages.value|
    && var d := snap.stages.value[snap.currentStageIndex.value].duration;
    && d != 0 && JsRem(snap.elapsed, d) == 0 && snap.elapsed > 0
    && snap.currentStageIndex.value + 1 < |snap.stages.value|
  }

  /**
   * The snapshot names a stage index past the end of its stages: reading
   * that stage's duration throws, and the rest of the callback is skipped.
   */
  predicate StageLookupFails(snap: Timer) {
    snap.stages.Some? && snap.currentStageIndex.Some?
    && snap.currentStageIndex.value >= |snap.stages.value|
  }

  /** The stopwatch branch: one more second, nothing remaining, `tick` not called. */
  function StopwatchStep(snap: Timer): (r: Timer)
    ensures r.elapsed == snap.elapsed + 1 && r.remaining == 0
    ensures r.isCompleted == snap.isCompleted && r.isRunning == snap.isRunning
    ensures r.completedAt == snap.completedAt && r.currentStageIndex == snap.currentStageIndex
    ensures r.duration == snap.duration && r.stages == snap.stages
    ensures WellFormed(snap) && snap.duration == 0 ==> WellFormed(r)
  {
    Patched(snap, NoChange.(elapsed := Some(snap.elapsed + 1), remaining := Some(0)))
  }

  /**
   * The countdown branch: `tick`, then the hook's own advance to the stage
   * after the snapshot's, which overrides whatever the walk chose.
   */
  function CountdownStep(snap: Timer, now: int): (r: Timer)
    ensures var ticked := if snap.isRunning then Ticked(snap, now) else snap;
      && r == ticked.(currentStageIndex := r.currentStageIndex)
      && r.currentStageIndex
         == (if AdvanceFires(snap) then Some(snap.currentStageIndex.value + 1)
             else ticked.currentStageIndex)
    ensures WellFormed(snap) ==> WellFormed(r)
  {
    var ticked := if snap.isRunning then Ticked(snap, now) else snap;
    if AdvanceFires(snap) then
      Patched(ticked, NoChange.(currentStageIndex := Some(Some(snap.currentStageIndex.value + 1))))
    else
      ticked
  }

  /** The timer after one run of the per-second callback, from the snapshot it read. */
  function StepTimer(mode: Mode, snap: Timer, now: int): (r: Timer)
    ensures r.duration == snap.duration && r.stages == snap.stages
    ensures mode == StopwatchMode || snap.isRunning ==> r.elapsed == snap.elapsed + 1
    ensures mode == StopwatchMode ==> r.remaining == 0 && r.isCompleted == snap.isCompleted
    ensures mode == CountdownMode && !snap.isRunning && !AdvanceFires(snap) ==> r == snap
    ensures mode == CountdownMode && WellFormed(snap) ==> WellFormed(r)
  {
    if mode == StopwatchMode then StopwatchStep(snap) else CountdownStep(snap, now)
  }

  /** The completion effects, with the vibration only when enabled and supported. */
  function CompletionEffects(name: string, vibrationEnabled: bool, vibrateSupported: bool): seq<Effect> {
    [PlaySound(TimerCompleteSound), ShowTimerComplete(name), StopTitleAnimation]
    + (if vibrationEnabled && vibrateSupported then [Vibrate] else [])
    + [OnComplete]
  }

  /** The sound and notification of the hook's own stage advance. */
  function AdvanceEffects(mode: Mode, snap: Timer): seq<Effect> {
    if mode == CountdownMode && AdvanceFires(snap) then
      var stages := snap.stages.value;
      [PlaySound(IntervalChangeSound),
       ShowIntervalChange(stages[snap.currentStageIndex.value].name,
                          stages[snap.currentStageIndex.value + 1].name)]
    else []
  }

  /** `onTick` with the updated timer, then (countdown only) the completion effects. */
  function AfterEffects(options: Options, mode: Mode, updated: Timer,
                        vibrationEnabled: bool, vibrateSupported: bool): seq<Effect> {
    (if options.hasOnTick then [OnTick(updated)] else [])
    + (if mode == CountdownMode && updated.isCompleted && options.hasOnComplete then
         CompletionEffects(updated.name, vibrationEnabled, vibrateSupported)
       else [])
  }

  /** The effects of one step, given the snapshot and the timer after the store updates. */
  function StepEffects(options: Options, mode: Mode, snap: Timer, updated: Timer,
                       vibrationEnabled: bool, vibrateSupported: bool): (r: seq<Effect>)
    ensures mode == CountdownMode && StageLookupFails(snap) ==> r == []
    ensures mode == StopwatchMode ==> r == (if options.hasOnTick then [OnTick(updated)] else [])
    ensures !(mode == CountdownMode && StageLookupFails(snap)) ==>
      (OnTick(updated) in r <==> options.hasOnTick)
  {
    if mode == CountdownMode && StageLookupFails(snap) then []
    else AdvanceEffects(mode, snap) + AfterEffects(options, mode, updated, vibrationEnabled, vibrateSupported)
  }

  /**
   * `onComplete` runs in a step exactly when the mode is countdown, the
   * updated timer is completed and the callback is set (and the stage lookup
   * did not throw); the interval-change sound plays exactly when the hook's
   * own advance fires.
   */
  lemma StepEffectsWhen(options: Options, mode: Mode, snap: Timer, updated: Timer,
                        vibrationEnabled: bool, vibrateSupported: bool)
    ensures var fx := StepEffects(options, mode, snap, updated, vibrationEnabled, vibrateSupported);
      && (OnComplete in fx <==>
            mode == CountdownMode && !StageLookupFails(snap) && updated.isCompleted && options.hasOnComplete)
      && (PlaySound(IntervalChangeSound) in fx <==> mode == CountdownMode && AdvanceFires(snap))
  {
    var fx := StepEffects(options, mode, snap, updated, vibrationEnabled, vibrateSupported);
    if !(mode == CountdownMode && StageLookupFails(snap)) {
      var a := AdvanceEffects(mode, snap);
      var b := AfterEffects(options, mode, updated, vibrationEnabled, vibrateSupported);
      assert fx == a + b;
      assert OnComplete !in a;
      assert PlaySound(IntervalChangeSound) !in b;
    }
  }

  /** A step's effects: none when the lookup throws, else the advance's and then the notifications'. */
  lemma StepEffectsSplit(options: Options, mode: Mode, snap: Timer, updated: Timer,
                         vibrationEnabled: bool, vibrateSupported: bool)
    ensures var fx := StepEffects(options, mode, snap, updated, vibrationEnabled, vibrateSupported);
      && (mode == CountdownMode && StageLookupFails(snap) ==> fx == [] && AdvanceEffects(mode, snap) == [])
      && (!(mode == CountdownMode && StageLookupFails(snap)) ==>
            fx == AdvanceEffects(mode, snap) + AfterEffects(options, mode, updated, vibrationEnabled, vibrateSupported))
  {
  }

  // ------------------------------------------------------- derived values

  /** `progress`: 0 without a timer, in stopwatch mode or for a non-positive duration. */
  function Progress(mode: Mode, timer: Option<Timer>): (r: real)
    ensures timer.None? || mode == StopwatchMode || timer.value.duration <= 0 ==> r == 0.0
    ensures r >= 0.0
    ensures timer.Some? && mode == CountdownMode && timer.value.duration > 0 ==>
      (r <= 100.0 <==> timer.value.elapsed <= timer.value.duration)
  {
    if timer.None? || mode == StopwatchMode then 0.0
    else
      var t := timer.value;
      if t.duration > 0 then
        var p := (t.elapsed as real / t.duration as real) * 100.0;
        assert p <= 100.0 <==> t.elapsed as real <= t.duration as real;
        p
      else 0.0
  }

  /** `currentInterval`: the stage number counted from one, or 0 without a stage index. */
  function CurrentInterval(timer: Option<Timer>): (r: nat)
    ensures r == 0 <==> timer.None? || timer.value.currentStageIndex.None?
    ensures r > 0 ==> r - 1 == timer.value.currentStageIndex.value
  {
    if timer.Some? && timer.value.currentStageIndex.Some? then timer.value.currentStageIndex.value + 1 else 0
  }

  /** `totalIntervals`: the number of stages, or 0 without stages. */
  function TotalIntervals(timer: Option<Timer>): (r: nat)
    ensures timer.Some? && timer.value.stages.Some? ==> r == |timer.value.stages.value|
    ensures timer.None? || timer.value.stages.None? ==> r == 0
  {
    if timer.Some? && timer.value.stages.Some? then |timer.value.stages.value| else 0
  }

  /**
   * The tab-title text: whole minutes and the remaining seconds, each
   * padded to two characters, of the elapsed (stopwatch) or remaining
   * (countdown) time; "00:00" without a timer.
   */
  function TitleLabel(mode: Mode, timer: Option<Timer>): (r: string)
    ensures timer.None? ==> r == "00:00"
  {
    if timer.None? then "00:00"
    else
      var x := if mode == StopwatchMode then timer.value.elapsed else timer.value.remaining;
      PadStart2(IntToString(x / 60)) + ":" + PadStart2(IntToString(JsRem(x, 60)))
  }

  // ---------------------------------------------------------------- lemmas

  /** For a non-negative time the title text is `formatTime(x, "mm:ss")`. */
  lemma TitleLabelIsMmSs(mode: Mode, t: Timer)
    requires mode == CountdownMode ==> t.remaining >= 0
    ensures TitleLabel(mode, Some(t))
         == TimeUtils.FormatTime(if mode == StopwatchMode then t.elapsed else t.remaining, TimeUtils.MmSs)
  {
    var x: nat := if mode == StopwatchMode then t.elapsed else t.remaining;
    Pad2IsPadStart(x / 60);
    Pad2IsPadStart(x % 60);
  }

  /** In countdown mode, with the elapsed time within the duration, progress is `calculateProgress`. */
  lemma ProgressIsCalculateProgress(t: Timer)
    requires t.duration > 0 && t.elapsed <= t.duration
    ensures Progress(CountdownMode, Some(t)) == TimeUtils.CalculateProgress(t.elapsed, t.duration)
  {
  }

  /** The stopwatch step never completes a timer that was not complete. */
  lemma StopwatchNeverCompletes(snap: Timer, options: Options, vibrationEnabled: bool, vibrateSupported: bool)
    requires !snap.isCompleted
    ensures !StepTimer(StopwatchMode, snap, 0).isCompleted
    ensures OnComplete !in StepEffects(options, StopwatchMode, snap, StepTimer(StopwatchMode, snap, 0),
                                       vibrationEnabled, vibrateSupported)
  {
  }

  /**
   * The hook's modulo check and the store's walk disagree. Stages of 10, 20
   * and 10 seconds, running in the second stage with 20 seconds elapsed:
   * the walk puts second 21 in the second stage, but the hook jumps to the
   * third, and the next step puts the timer back into the second.
   */
  lemma {:induction false} AdvanceDisagreesWithWalk()
    ensures var stages := [TimerStage("stage-0", "Work 1", 10, Work),
                           TimerStage("stage-1", "Rest 2", 20, Rest),
                           TimerStage("stage-2", "Work 3", 10, Work)];
      var snap := Timer("t", TimerTypes.Countdown, "Timer", Productivity, 40, 20, 20,
                        true, false, false, Some(stages), Some(1), 0, Some(0), None);
      var next := CountdownStep(snap, 0);
      && WalkStages(stages, 21) == 1
      && next.elapsed == 21 && next.currentStageIndex == Some(2)
      && CountdownStep(next, 0).currentStageIndex == Some(1)
  {
    var stages := [TimerStage("stage-0", "Work 1", 10, Work),
                   TimerStage("stage-1", "Rest 2", 20, Rest),
                   TimerStage("stage-2", "Work 3", 10, Work)];
    assert stages[1..] == [stages[1], stages[2]];
    assert WalkStages(stages[1..], 11) == 0;
    assert WalkStages(stages, 21) == 1;
    assert WalkStages(stages, 22) == 1 by {
      assert WalkStages(stages[1..], 12) == 0;
    }
    var snap := Timer("t", TimerTypes.Countdown, "Timer", Productivity, 40, 20, 20,
                      true, false, false, Some(stages), Some(1), 0, Some(0), None);
    assert AdvanceFires(snap);
    var next := CountdownStep(snap, 0);
    assert next.elapsed == 21 && next.currentStageIndex == Some(2);
    assert !AdvanceFires(next) by {
      assert JsRem(21, 10) == 1;
    }
  }

  /**
   * What `setDuration(seconds)` followed by `reset()` leaves of a countdown
   * timer: a fresh, idle timer of the new length that keeps its identity
   * and its stages. (The pages that retarget a timer always call the two
   * together.)
   */
  function Retargeted(t: Timer, seconds: int): (r: Timer)
    ensures r.duration == seconds && r.remaining == seconds && r.elapsed == 0
    ensures !r.isRunning && !r.isPaused && !r.isCompleted && r.completedAt.None?
    ensures r.id == t.id && r.timerType == t.timerType && r.stages == t.stages
    ensures seconds >= 0 ==> TimerStore.WellFormed(r)
  {
    TimerStore.Reset(t.(duration := seconds, remaining := seconds, elapsed := 0))
  }

  // ------------------------------------------------------------- the hook

  class TimerBinding {
    const store: Store
    const options: Options
    const mode: Mode
    /** The `timerId` state: set once the timer is created on mount. */
    var timerId: Option<string>
    /** Everything the hook has done outside the store, oldest first. */
    var effects: seq<Effect>

    constructor(store: Store, options: Options)
      ensures this.store == store && this.options == options
      ensures mode == options.mode.GetOr(CountdownMode)
      ensures timerId == None && effects == []
    {
      this.store := store;
      this.options := options;
      this.mode := options.mode.GetOr(CountdownMode);
      timerId := None;
      effects := [];
    }

    /** `timerId` is truthy: present and not the empty string. */
    predicate HasId()
      reads this
    {
      timerId.Some? && timerId.value != ""
    }

    /** `timerId ? getTimer(timerId) : null`. */
    function CurrentTimer(): (r: Option<Timer>)
      reads this, store
      ensures r.Some? ==> HasId() && timerId.value in store.timers && r.value == store.timers[timerId.value]
      ensures HasId() && timerId.value in store.timers ==> r.Some?
    {
      if HasId() then store.GetTimer(timerId.value) else None
    }

    /** The mount effect: create the timer from the options and start it when `autoStart` is set. */
    method Mount(id: string, now: int)
      modifies this, store
      ensures timerId == Some(id) && effects == old(effects)
      ensures var created := NewTimer(BuildConfig(options), id, now);
        if options.autoStart.GetOr(false) then
          store.timers == old(store.timers)[id := Started(created, now)] && store.activeTimerId == Some(id)
        else
          store.timers == old(store.timers)[id := created] && store.activeTimerId == old(store.activeTimerId)
    {
      var config := BuildConfig(options);
      var created := store.CreateTimer(config, id, now);
      timerId := Some(created);
      if options.autoStart.GetOr(false) {
        store.StartTimer(created, now);
      }
    }

    /** The unmount clean-up: the timer is deleted from the store. */
    method Unmount()
      modifies store
      ensures timerId.Some? ==> store.timers == old(store.timers) - {timerId.value}
      ensures timerId.Some? ==>
        store.activeTimerId == (if old(store.activeTimerId) == timerId then None else old(store.activeTimerId))
      ensures timerId.None? ==> store.timers == old(store.timers) && store.activeTimerId == old(store.activeTimerId)
      ensures old(store.Valid()) ==> store.Valid()
    {
      if timerId.Some? {
        store.DeleteTimer(timerId.value);
      }
    }

    /**
     * One run of the per-second callback. Stopwatch mode writes the elapsed
     * time itself; countdown mode calls `tick` and then the hook's own stage
     * check on the snapshot it read first. Then `onTick`, then, in countdown
     * mode only, the completion effects and `onComplete`.
     */
    method Step(now: int, vibrationEnabled: bool, vibrateSupported: bool)
      modifies this, store
      ensures timerId == old(timerId) && store.activeTimerId == old(store.activeTimerId)
      ensures !(HasId() && timerId.value in old(store.timers)) ==>
        store.timers == old(store.timers) && effects == old(effects)
      ensures HasId() && timerId.value in old(store.timers) ==>
        var snap := old(store.timers)[timerId.value];
        && store.timers == old(store.timers)[timerId.value := StepTimer(mode, snap, now)]
        && effects == old(effects)
                      + StepEffects(options, mode, snap, StepTimer(mode, snap, now),
                                    vibrationEnabled, vibrateSupported)
      ensures old(store.Valid()) && (mode == CountdownMode || (HasId() && timerId.value in old(store.timers) &&
                                       old(store.timers)[timerId.value].duration == 0))
              ==> store.Valid()
    {
      if !HasId() {
        return;
      }
      var id := timerId.value;
      var current := store.GetTimer(id);
      if current.None? {
        return;
      }
      StepFound(id, current.value, now, vibrationEnabled, vibrateSupported);
    }

    /** A step once the timer has been read from the store: the store updates, then the notifications. */
    method StepFound(id: string, snap: Timer, now: int, vibrationEnabled: bool, vibrateSupported: bool)
      requires id in store.timers && store.timers[id] == snap
      modifies this, store
      ensures timerId == old(timerId) && store.activeTimerId == old(store.activeTimerId)
      ensures store.timers == old(store.timers)[id := StepTimer(mode, snap, now)]
      ensures effects == old(effects)
                         + StepEffects(options, mode, snap, StepTimer(mode, snap, now), vibrationEnabled, vibrateSupported)
      ensures old(store.Valid()) && (mode == CountdownMode || snap.duration == 0) ==> store.Valid()
    {
      ghost var effectsBefore := effects;
      var thrown := UpdateStore(id, snap, now);
      ghost var updated := StepTimer(mode, snap, now);
      StepEffectsSplit(options, mode, snap, updated, vibrationEnabled, vibrateSupported);
      if thrown {
        return;
      }
      assert store.timers[id] == updated;
      NotifyAfterStep(id, vibrationEnabled, vibrateSupported);
    }

    /** The store half of a step: the stopwatch patch, or `tick` and the stage check. */
    method UpdateStore(id: string, snap: Timer, now: int) returns (thrown: bool)
      requires id in store.timers && store.timers[id] == snap
      modifies this, store
      ensures thrown <==> mode == CountdownMode && StageLookupFails(snap)
      ensures timerId == old(timerId) && store.activeTimerId == old(store.activeTimerId)
      ensures store.timers == old(store.timers)[id := StepTimer(mode, snap, now)]
      ensures effects == old(effects) + AdvanceEffects(mode, snap)
      ensures old(store.Valid()) && (mode == CountdownMode || snap.duration == 0) ==> store.Valid()
    {
      ghost var before, wasValid := store.timers, store.Valid();
      thrown := false;
      if mode == StopwatchMode {
        store.UpdateTimer(id, NoChange.(elapsed := Some(snap.elapsed + 1), remaining := Some(0)));
      } else {
        store.Tick(id, now);
        assert !snap.isRunning ==> before[id := snap] == before;
        thrown := CheckStage(id, snap, now);
      }
      if wasValid && (mode == CountdownMode || snap.duration == 0) {
        ReplaceKeepsWellFormed(before, id, StepTimer(mode, snap, now));
      }
    }

    /**
     * The hook's own stage check after `tick`, on the snapshot: throws
     * (reported as `thrown`) when the snapshot's stage does not exist.
     */
    method CheckStage(id: string, snap: Timer, now: int) returns (thrown: bool)
      requires mode == CountdownMode
      requires id in store.timers && store.timers[id] == (if snap.isRunning then Ticked(snap, now) else snap)
      modifies this, store
      ensures thrown <==> StageLookupFails(snap)
      ensures timerId == old(timerId) && store.activeTimerId == old(store.activeTimerId)
      ensures store.timers == old(store.timers)[id := CountdownStep(snap, now)]
      ensures effects == old(effects) + AdvanceEffects(mode, snap)
    {
      thrown := false;
      if snap.stages.Some? && snap.currentStageIndex.Some? {
        var index := snap.currentStageIndex.value;
        if index >= |snap.stages.value| {
          // the stage is undefined: reading its duration throws
          thrown := true;
          return;
        }
        var currentStage := snap.stages.value[index];
        if currentStage.duration != 0 && JsRem(snap.elapsed, currentStage.duration) == 0
           && snap.elapsed > 0 {
          var nextIndex := index + 1;
          if nextIndex < |snap.stages.value| {
            store.UpdateTimer(id, NoChange.(currentStageIndex := Some(Some(nextIndex))));
            effects := effects + [PlaySound(IntervalChangeSound),
                                  ShowIntervalChange(currentStage.name, snap.stages.value[nextIndex].name)];
            return;
          }
        }
      }
      assert store.timers[id] == CountdownStep(snap, now);
      assert store.timers == old(store.timers)[id := CountdownStep(snap, now)];
    }

    /** The tail of the callback: `onTick`, then the completion check of countdown mode. */
    method NotifyAfterStep(id: string, vibrationEnabled: bool, vibrateSupported: bool)
      requires id in store.timers
      modifies this
      ensures timerId == old(timerId)
      ensures effects == old(effects)
                         + AfterEffects(options, mode, store.timers[id], vibrationEnabled, vibrateSupported)
    {
      if options.hasOnTick {
        var updated := store.GetTimer(id);
        effects := effects + [OnTick(updated.value)];
      }
      if mode == CountdownMode {
        var updated := store.GetTimer(id);
        if updated.value.isCompleted && options.hasOnComplete {
          effects := effects + CompletionEffects(updated.value.name, vibrationEnabled, vibrateSupported);
        }
      }
    }

    /** `start` (and `resume`, whose code is the same): start the timer, play the start sound, animate the title. */
    method Start(now: int)
      modifies this, store
      ensures timerId == old(timerId)
      ensures !HasId() ==> store.timers == old(store.timers) && effects == old(effects)
                           && store.activeTimerId == old(store.activeTimerId)
      ensures HasId() && timerId.value in old(store.timers) ==>
        && store.timers == old(store.timers)[timerId.value := Started(old(store.timers)[timerId.value], now)]
        && store.activeTimerId == Some(timerId.value)
        && effects == old(effects) + [PlaySound(TimerStartSound),
                                      StartTitleAnimation(old(store.timers)[timerId.value].name)]
      ensures HasId() && timerId.value !in old(store.timers) ==>
        && store.timers == old(store.timers) && store.activeTimerId == old(store.activeTimerId)
        && effects == old(effects) + [PlaySound(TimerStartSound)]
      ensures old(store.Valid()) ==> store.Valid()
    {
      if !HasId() {
        return;
      }
      var id := timerId.value;
      store.StartTimer(id, now);
      effects := effects + [PlaySound(TimerStartSound)];
      var current := store.GetTimer(id);
      if current.Some? {
        effects := effects + [StartTitleAnimation(current.value.name)];
      }
    }

    /** `pause`. */
    method Pause()
      modifies this, store
      ensures timerId == old(timerId) && store.activeTimerId == old(store.activeTimerId)
      ensures !HasId() ==> store.timers == old(store.timers) && effects == old(effects)
      ensures HasId() ==> effects == old(effects) + [StopTitleAnimation]
      ensures HasId() && timerId.value in old(store.timers) ==>
        store.timers == old(store.timers)[timerId.value := Paused(old(store.timers)[timerId.value])]
      ensures HasId() && timerId.value !in old(store.timers) ==> store.timers == old(store.timers)
      ensures old(store.Valid()) ==> store.Valid()
    {
      if !HasId() {
        return;
      }
      store.PauseTimer(timerId.value);
      effects := effects + [StopTitleAnimation];
    }

    /** `reset`. */
    method Reset()
      modifies this, store
      ensures timerId == old(timerId) && store.activeTimerId == old(store.activeTimerId)
      ensures !HasId() ==> store.timers == old(store.timers) && effects == old(effects)
      ensures HasId() ==> effects == old(effects) + [StopTitleAnimation]
      ensures HasId() && timerId.value in old(store.timers) ==>
        store.timers == old(store.timers)[timerId.value := TimerStore.Reset(old(store.timers)[timerId.value])]
      ensures HasId() && timerId.value !in old(store.timers) ==> store.timers == old(store.timers)
      ensures old(store.Valid()) ==> store.Valid()
    {
      if !HasId() {
        return;
      }
      store.ResetTimer(timerId.value);
      effects := effects + [StopTitleAnimation];
    }

    /**
     * `setDuration(seconds)`: a new duration, all of it remaining, nothing
     * elapsed; ignored in stopwatch mode and before the timer exists. The
     * flags (including a completion) are left as they were.
     */
    method SetDuration(seconds: int)
      modifies store
      ensures store.activeTimerId == old(store.activeTimerId)
      ensures !HasId() || mode == StopwatchMode || timerId.value !in old(store.timers) ==>
        store.timers == old(store.timers)
      ensures HasId() && mode == CountdownMode && timerId.value in old(store.timers) ==>
        var t := old(store.timers)[timerId.value];
        store.timers == old(store.timers)[timerId.value :=
          t.(duration := seconds, remaining := seconds, elapsed := 0)]
      ensures old(store.Valid()) && seconds >= 0 && !(HasId() && timerId.value in old(store.timers) &&
                                                      old(store.timers)[timerId.value].isCompleted)
              ==> store.Valid()
    {
      if !HasId() || mode == StopwatchMode {
        return;
      }
      store.UpdateTimer(timerId.value, NoChange.(duration := Some(seconds), remaining := Some(seconds),
                                                 elapsed := Some(0)));
    }

    /**
     * `setDuration(seconds)` then `reset()`, as the countdown pages call them:
     * the bound timer becomes `Retargeted` to the new length, and the store
     * stays well formed for a length of at least 0 even when the timer had
     * completed.
     */
    method Retarget(seconds: int)
      requires mode == CountdownMode
      modifies this, store
      ensures timerId == old(timerId) && store.activeTimerId == old(store.activeTimerId)
      ensures HasId() && timerId.value in old(store.timers) ==>
        store.timers == old(store.timers)[timerId.value := Retargeted(old(store.timers)[timerId.value], seconds)]
      ensures !(HasId() && timerId.value in old(store.timers)) ==> store.timers == old(store.timers)
      ensures effects == old(effects) + (if HasId() then [StopTitleAnimation] else [])
      ensures old(store.Valid()) && seconds >= 0 ==> store.Valid()
    {
      ghost var before := store.timers;
      SetDuration(seconds);
      Reset();
      if HasId() && timerId.value in before {
        var id := timerId.value;
        assert store.timers == before[id := Retargeted(before[id], seconds)];
        if old(store.Valid()) && seconds >= 0 {
          ReplaceKeepsWellFormed(before, id, Retargeted(before[id], seconds));
        }
      }
    }
  }
}
