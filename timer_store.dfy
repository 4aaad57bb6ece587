/**
 * The timer entity store of `src/stores/timerStore.ts`: a map from timer id
 * to `Timer` and the id of the active timer. Each action of the store
 * replaces the map with a copy in which at most one entry differs; the
 * per-timer change is a pure function here (`NewTimer`, `Started`,
 * `Paused`, `Reset`, `Patched`, `Ticked`) and the class applies it.
 * `Date.now()` and the random id suffix are parameters.
 */
module TimerStore {
  import opened Wrappers
  import opened TimerTypes

  // ------------------------------------------------------------ the stage walk

  /** The summed duration of the stages, first to last. */
  function TotalDuration(stages: seq<TimerStage>): int {
    if stages == [] then 0 else stages[0].duration + TotalDuration(stages[1..])
  }

  /**
   * The stage `tick` moves to for `elapsed` seconds: skip stages while the
   * elapsed time is still beyond them, subtracting each one's duration;
   * `|stages|` when the elapsed time is beyond them all.
   */
  function WalkStages(stages: seq<TimerStage>, elapsed: int): (r: nat)
    ensures r <= |stages|
  {
    if stages == [] then 0
    else if elapsed <= stages[0].duration then 0
    else 1 + WalkStages(stages[1..], elapsed - stages[0].duration)
  }

  /**
   * The loop of `tick` that finds the target stage, with its early `break`.
   * It computes exactly `WalkStages`.
   */
  method TargetStageIndex(stages: seq<TimerStage>, elapsed: int) returns (target: nat)
    ensures target == WalkStages(stages, elapsed)
  {
    var stageElapsed := elapsed;
    target := 0;
    var i := 0;
    while i < |stages|
      invariant 0 <= i <= |stages| && target == i
      invariant WalkStages(stages, elapsed) == i + WalkStages(stages[i..], stageElapsed)
    {
      var stageDuration := stages[i].duration;
      if stageElapsed <= stageDuration {
        target := i;
        break;
      }
      assert stages[i..][1..] == stages[i + 1..];
      stageElapsed := stageElapsed - stageDuration;
      target := i + 1;
      i := i + 1;
    }
  }

  /** The time at which stage `j` ends: the durations of stages 0 to `j` added up. */
  function StageEnd(stages: seq<TimerStage>, j: nat): int
    requires j < |stages|
  {
    stages[0].duration + (if j == 0 then 0 else StageEnd(stages[1..], j - 1))
  }

  /**
   * The walk picks the first stage that ends at or after the elapsed time:
   * every earlier stage ends before it, and the chosen one (when there is
   * one) ends at or after it.
   */
  lemma {:induction false} WalkStagesIsFirstFit(stages: seq<TimerStage>, elapsed: int)
    ensures var i := WalkStages(stages, elapsed);
      && (forall j :: 0 <= j < i ==> StageEnd(stages, j) < elapsed)
      && (i < |stages| ==> elapsed <= StageEnd(stages, i))
  {
    if stages != [] && elapsed > stages[0].duration {
      var rest := stages[1..];
      var e' := elapsed - stages[0].duration;
      WalkStagesIsFirstFit(rest, e');
      var i := WalkStages(stages, elapsed);
      forall j | 0 < j < i
        ensures StageEnd(stages, j) < elapsed
      {
        assert StageEnd(rest, j - 1) < e';
      }
    }
  }

  /** The walk runs off the end exactly when every stage ends before the elapsed time. */
  lemma WalkStagesBeyondAll(stages: seq<TimerStage>, elapsed: int)
    ensures WalkStages(stages, elapsed) == |stages|
        <==> forall j :: 0 <= j < |stages| ==> StageEnd(stages, j) < elapsed
  {
    WalkStagesIsFirstFit(stages, elapsed);
  }

  /** The last stage ends at the total duration. */
  lemma {:induction false} LastStageEndIsTotal(stages: seq<TimerStage>)
    requires |stages| > 0
    ensures StageEnd(stages, |stages| - 1) == TotalDuration(stages)
  {
    if |stages| > 1 {
      LastStageEndIsTotal(stages[1..]);
    } else {
      assert stages[1..] == [];
    }
  }

  /** More elapsed time never moves the walk to an earlier stage. */
  lemma {:induction false} WalkStagesMonotone(stages: seq<TimerStage>, e1: int, e2: int)
    requires e1 <= e2
    ensures WalkStages(stages, e1) <= WalkStages(stages, e2)
  {
    if stages != [] && e1 > stages[0].duration {
      WalkStagesMonotone(stages[1..], e1 - stages[0].duration, e2 - stages[0].duration);
    }
  }

  // ------------------------------------------------------- per-timer changes

  /**
   * What every action of the store keeps true of a timer: remaining is what
   * is left of the duration, a completion time is recorded exactly for a
   * completed timer, a timer is never running and paused at once, and the
   * stage index exists exactly when stages do and points into a non-empty
   * stage list.
   */
  predicate WellFormed(t: Timer) {
    && t.duration >= 0
    && t.remaining == (if t.duration - t.elapsed > 0 then t.duration - t.elapsed else 0)
    && (t.isCompleted ==> t.remaining == 0)
    && (t.isCompleted <==> t.completedAt.Some?)
    && !(t.isRunning && t.isPaused)
    && (t.currentStageIndex.Some? <==> t.stages.Some?)
    && (t.currentStageIndex.Some? && |t.stages.value| > 0 ==>
          t.currentStageIndex.value < |t.stages.value|)
  }

  /** The timer `createTimer` builds: nothing elapsed, idle, the duration copied as given. */
  function NewTimer(config: TimerConfig, id: string, now: int): (t: Timer)
    ensures t.id == id && t.duration == config.duration && t.stages == config.stages
    ensures t.elapsed == 0 && t.remaining == config.duration
    ensures !t.isRunning && !t.isPaused && !t.isCompleted
    ensures t.currentStageIndex.Some? <==> config.stages.Some?
    ensures config.duration >= 0 ==> WellFormed(t)
  {
    Timer(id, config.timerType, config.name, config.category, config.duration, 0, config.duration,
          false, false, false, config.stages,
          if config.stages.Some? then Some(0) else None,
          now, None, None)
  }

  /** `startTimer`'s change: running, not paused, started now; nothing else. */
  function Started(t: Timer, now: int): (r: Timer)
    ensures r.isRunning && !r.isPaused && r.startedAt == Some(now)
    ensures r.elapsed == t.elapsed && r.remaining == t.remaining
    ensures r.isCompleted == t.isCompleted && r.currentStageIndex == t.currentStageIndex
    ensures WellFormed(t) ==> WellFormed(r)
  {
    t.(isRunning := true, isPaused := false, startedAt := Some(now))
  }

  /** `pauseTimer`'s change: stopped and paused; the counters stay as they were. */
  function Paused(t: Timer): (r: Timer)
    ensures !r.isRunning && r.isPaused
    ensures r.elapsed == t.elapsed && r.remaining == t.remaining
    ensures r.currentStageIndex == t.currentStageIndex && r.isCompleted == t.isCompleted
    ensures WellFormed(t) ==> WellFormed(r)
  {
    t.(isRunning := false, isPaused := true)
  }

  /** `resetTimer`'s change: back to the state of a new timer with the same duration and stages. */
  function Reset(t: Timer): (r: Timer)
    ensures r.elapsed == 0 && r.remaining == t.duration
    ensures !r.isRunning && !r.isPaused && !r.isCompleted
    ensures r.currentStageIndex.Some? <==> t.stages.Some?
    ensures r.startedAt.None? && r.completedAt.None?
    ensures t.duration >= 0 ==> WellFormed(r)
  {
    t.(elapsed := 0, remaining := t.duration, isRunning := false, isPaused := false,
       isCompleted := false, currentStageIndex := if t.stages.Some? then Some(0) else None,
       startedAt := None, completedAt := None)
  }

  /**
   * `tick`'s change to a running timer: one more second elapsed, the
   * remaining time clamped at zero, completion exactly when nothing remains,
   * and the stage index moved to the walk's stage when that stage exists.
   */
  function Ticked(t: Timer, now: int): (r: Timer)
    ensures r.elapsed == t.elapsed + 1 && r.remaining >= 0
    ensures r.elapsed <= t.duration ==> r.elapsed + r.remaining == t.duration
    ensures r.isCompleted <==> r.remaining == 0
    ensures r.isCompleted <==> r.elapsed >= t.duration
    ensures r.isRunning == !r.isCompleted && r.isPaused == t.isPaused
    ensures r.completedAt == (if r.isCompleted then Some(now) else None)
    ensures r.duration == t.duration && r.stages == t.stages && r.startedAt == t.startedAt
    ensures t.stages.Some? && t.currentStageIndex.Some? && WalkStages(t.stages.value, r.elapsed) < |t.stages.value|
            ==> r.currentStageIndex == Some(WalkStages(t.stages.value, r.elapsed))
    ensures !(t.stages.Some? && t.currentStageIndex.Some? && WalkStages(t.stages.value, r.elapsed) < |t.stages.value|)
            ==> r.currentStageIndex == t.currentStageIndex
    ensures WellFormed(t) && t.isRunning ==> WellFormed(r)
  {
    var elapsed := t.elapsed + 1;
    var remaining := if t.duration - elapsed > 0 then t.duration - elapsed else 0;
    var isCompleted := remaining == 0;
    var currentStageIndex :=
      if t.stages.Some? && t.currentStageIndex.Some? then
        var target := WalkStages(t.stages.value, elapsed);
        if target < |t.stages.value| then Some(target) else t.currentStageIndex
      else t.currentStageIndex;
    t.(elapsed := elapsed, remaining := remaining, isCompleted := isCompleted,
       isRunning := !isCompleted, completedAt := if isCompleted then Some(now) else None,
       currentStageIndex := currentStageIndex)
  }

  /**
   * `Partial<Timer>`: a field left out is `None`; for the optional fields
   * `Some(None)` writes `undefined` over the old value.
   */
  datatype TimerPatch = TimerPatch(
    id: Option<string>,
    timerType: Option<TimerType>,
    name: Option<string>,
    category: Option<TimerCategory>,
    duration: Option<int>,
    elapsed: Option<nat>,
    remaining: Option<int>,
    isRunning: Option<bool>,
    isPaused: Option<bool>,
    isCompleted: Option<bool>,
    stages: Option<Option<seq<TimerStage>>>,
    currentStageIndex: Option<Option<nat>>,
    createdAt: Option<int>,
    startedAt: Option<Option<int>>,
    completedAt: Option<Option<int>>)

  /** A patch that writes nothing. */
  const NoChange := TimerPatch(None, None, None, None, None, None, None, None, None, None,
                               None, None, None, None, None)

  /** `{ ...timer, ...updates }`: each field the patch carries wins. */
  function Patched(t: Timer, p: TimerPatch): (r: Timer)
    ensures p == NoChange ==> r == t
    ensures r.elapsed == p.elapsed.GetOr(t.elapsed) && r.remaining == p.remaining.GetOr(t.remaining)
    ensures r.duration == p.duration.GetOr(t.duration)
    ensures r.currentStageIndex == p.currentStageIndex.GetOr(t.currentStageIndex)
    ensures r.stages == p.stages.GetOr(t.stages)
  {
    Timer(p.id.GetOr(t.id), p.timerType.GetOr(t.timerType), p.name.GetOr(t.name),
          p.category.GetOr(t.category), p.duration.GetOr(t.duration),
          p.elapsed.GetOr(t.elapsed), p.remaining.GetOr(t.remaining),
          p.isRunning.GetOr(t.isRunning), p.isPaused.GetOr(t.isPaused),
          p.isCompleted.GetOr(t.isCompleted), p.stages.GetOr(t.stages),
          p.currentStageIndex.GetOr(t.currentStageIndex), p.createdAt.GetOr(t.createdAt),
          p.startedAt.GetOr(t.startedAt), p.completedAt.GetOr(t.completedAt))
  }

  // ------------------------------------------------------------------ the store

  /** Every timer is filed under its own id and is well formed. */
  ghost predicate AllWellFormed(timers: map<string, Timer>) {
    forall k :: k in timers ==> timers[k].id == k && WellFormed(timers[k])
  }

  /** Filing a well-formed timer under its own id keeps the whole map well formed. */
  lemma ReplaceKeepsWellFormed(timers: map<string, Timer>, id: string, t: Timer)
    requires AllWellFormed(timers) && t.id == id && WellFormed(t)
    ensures AllWellFormed(timers[id := t])
  {
  }

  class Store {
    var timers: map<string, Timer>
    var activeTimerId: Option<string>

    ghost predicate Valid()
      reads this
    {
      AllWellFormed(timers)
    }

    constructor()
      ensures timers == map[] && activeTimerId == None
      ensures Valid()
    {
      timers := map[];
      activeTimerId := None;
    }

    /** `createTimer`: files a new timer under the (fresh) id and returns the id. */
    method CreateTimer(config: TimerConfig, id: string, now: int) returns (r: string)
      modifies this
      ensures r == id
      ensures timers == old(timers)[id := NewTimer(config, id, now)]
      ensures activeTimerId == old(activeTimerId)
      ensures id !in old(timers) ==> |timers| == |old(timers)| + 1
      ensures old(Valid()) && config.duration >= 0 ==> Valid()
    {
      var timer := NewTimer(config, id, now);
      timers := timers[id := timer];
      r := id;
    }

    /** `startTimer`: starts the timer and makes it the active one; an unknown id changes nothing. */
    method StartTimer(id: string, now: int)
      modifies this
      ensures id in old(timers) ==>
        timers == old(timers)[id := Started(old(timers)[id], now)] && activeTimerId == Some(id)
      ensures id !in old(timers) ==> timers == old(timers) && activeTimerId == old(activeTimerId)
      ensures old(Valid()) ==> Valid()
    {
      if id in timers {
        timers := timers[id := Started(timers[id], now)];
        activeTimerId := Some(id);
      }
    }

    /** `pauseTimer`: an unknown id changes nothing. */
    method PauseTimer(id: string)
      modifies this
      ensures id in old(timers) ==> timers == old(timers)[id := Paused(old(timers)[id])]
      ensures id !in old(timers) ==> timers == old(timers)
      ensures activeTimerId == old(activeTimerId)
      ensures old(Valid()) ==> Valid()
    {
      if id in timers {
        timers := timers[id := Paused(timers[id])];
      }
    }

    /** `resetTimer`: an unknown id changes nothing. */
    method ResetTimer(id: string)
      modifies this
      ensures id in old(timers) ==> timers == old(timers)[id := Reset(old(timers)[id])]
      ensures id !in old(timers) ==> timers == old(timers)
      ensures activeTimerId == old(activeTimerId)
      ensures old(Valid()) ==> Valid()
    {
      if id in timers {
        timers := timers[id := Reset(timers[id])];
      }
    }

    /** `deleteTimer`: drops the id, and the active id only if it was this one. */
    method DeleteTimer(id: string)
      modifies this
      ensures timers == old(timers) - {id}
      ensures activeTimerId == (if old(activeTimerId) == Some(id) then None else old(activeTimerId))
      ensures old(Valid()) ==> Valid()
    {
      timers := timers - {id};
      if activeTimerId == Some(id) {
        activeTimerId := None;
      }
    }

    /** `updateTimer`: merges the patch into the timer; an unknown id changes nothing. */
    method UpdateTimer(id: string, updates: TimerPatch)
      modifies this
      ensures id in old(timers) ==> timers == old(timers)[id := Patched(old(timers)[id], updates)]
      ensures id !in old(timers) ==> timers == old(timers)
      ensures activeTimerId == old(activeTimerId)
    {
      if id in timers {
        timers := timers[id := Patched(timers[id], updates)];
      }
    }

    /**
     * `tick`: one second on a running timer, the stage found by the walk
     * loop; a missing or stopped timer is left alone.
     */
    method Tick(id: string, now: int)
      modifies this
      ensures id in old(timers) && old(timers)[id].isRunning ==>
        timers == old(timers)[id := Ticked(old(timers)[id], now)]
      ensures !(id in old(timers) && old(timers)[id].isRunning) ==> timers == old(timers)
      ensures activeTimerId == old(activeTimerId)
      ensures old(Valid()) ==> Valid()
    {
      if id !in timers || !timers[id].isRunning {
        return;
      }
      var timer := timers[id];
      var elapsed := timer.elapsed + 1;
      var remaining := if timer.duration - elapsed > 0 then timer.duration - elapsed else 0;
      var isCompleted := remaining == 0;
      var currentStageIndex := timer.currentStageIndex;
      if timer.stages.Some? && currentStageIndex.Some? {
        var targetStageIndex := TargetStageIndex(timer.stages.value, elapsed);
        if targetStageIndex < |timer.stages.value| {
          currentStageIndex := Some(targetStageIndex);
        }
      }
      timers := timers[id := timer.(elapsed := elapsed, remaining := remaining,
                                    isCompleted := isCompleted, isRunning := !isCompleted,
                                    completedAt := if isCompleted then Some(now) else None,
                                    currentStageIndex := currentStageIndex)];
    }

    /** `getTimer`. */
    function GetTimer(id: string): (r: Option<Timer>)
      reads this
      ensures r.Some? <==> id in timers
      ensures r.Some? ==> r.value == timers[id]
    {
      if id in timers then Some(timers[id]) else None
    }

    /** `getActiveTimer`: nothing when there is no active id, or it is the empty (falsy) string. */
    function GetActiveTimer(): (r: Option<Timer>)
      reads this
      ensures r.Some? <==> activeTimerId.Some? && activeTimerId.value != "" && activeTimerId.value in timers
      ensures r.Some? ==> r == GetTimer(activeTimerId.value)
    {
      if activeTimerId.Some? && activeTimerId.value != "" then GetTimer(activeTimerId.value) else None
    }
  }
}
