/**
 * The 52/17 page of `src/pages/timers/productivity/FiftyTwoSeventeen.tsx`:
 * a countdown binding that alternates 52-minute work sessions with
 * 17-minute breaks, counts finished work sessions and shows one of eight
 * tips chosen by that count. The page's two effects are written out as
 * methods that run when their dependencies change.
 */
module FiftyTwoSeventeen {
  import opened Wrappers
  import opened TimerTypes
  import TimerStore
  import opened UseTimer
  import opened SessionCycle

  const WorkTime: int := 52 * 60
  const BreakTime: int := 17 * 60

  const Tips: seq<string> := [
    "Focus on one task at a time for maximum productivity",
    "Turn off notifications during your work session",
    "Keep a water bottle nearby to stay hydrated",
    "Use your break to stretch and move around",
    "Write down distracting thoughts to address later",
    "Set a clear goal for each work session",
    "Take your breaks seriously - they boost productivity",
    "Consider using noise-cancelling headphones"]

  /** `targetTime`. */
  function TargetTime(isWorkSession: bool): (r: int)
    ensures r > 0
    ensures r == WorkTime <==> isWorkSession
  {
    if isWorkSession then WorkTime else BreakTime
  }

  /** The tip shown after `sessionCount` finished work sessions. */
  function TipFor(sessionCount: nat): (tip: string)
    ensures tip in Tips
    ensures tip == Tips[sessionCount % |Tips|]
  {
    Tips[sessionCount % |Tips|]
  }

  /**
   * From a reset, after `k` completions the timer is set for work exactly
   * when `k` is even, and the tip has moved on once per finished work session.
   */
  lemma SessionsAfterCompletions(k: nat)
    ensures var (count, isWork) := AfterCompletions(k);
      count == (k + 1) / 2
      && TargetTime(isWork) == (if k % 2 == 0 then WorkTime else BreakTime)
      && TipFor(count) == Tips[((k + 1) / 2) % 8]
  {
    CountAfterCompletions(k);
  }

  class Page {
    const binding: TimerBinding
    var isWorkSession: bool
    var sessionCount: nat
    var currentTip: string

    constructor(binding: TimerBinding)
      requires binding.mode == CountdownMode
      ensures this.binding == binding
      ensures isWorkSession && sessionCount == 0 && currentTip == Tips[0]
      ensures Valid()
    {
      this.binding := binding;
      isWorkSession, sessionCount, currentTip := true, 0, Tips[0];
    }

    /** The page drives a countdown, and its tip always follows its session count. */
    ghost predicate Valid()
      reads this
    {
      binding.mode == CountdownMode && currentTip == TipFor(sessionCount)
    }

    /** The bound timer, when the binding has an id in the store. */
    predicate Bound()
      reads this, binding, binding.store
    {
      binding.HasId() && binding.timerId.value in binding.store.timers
    }

    /** The first effect: `setDuration(targetTime)` then `reset()`. */
    method SessionEffect()
      requires binding.mode == CountdownMode
      modifies binding, binding.store
      ensures binding.timerId == old(binding.timerId)
      ensures old(Bound()) ==>
        binding.store.timers == old(binding.store.timers)[binding.timerId.value :=
          Retargeted(old(binding.store.timers)[binding.timerId.value], TargetTime(isWorkSession))]
      ensures !old(Bound()) ==> binding.store.timers == old(binding.store.timers)
      ensures binding.store.activeTimerId == old(binding.store.activeTimerId)
      ensures binding.effects == old(binding.effects) + (if binding.HasId() then [StopTitleAnimation] else [])
      ensures old(binding.store.Valid()) ==> binding.store.Valid()
    {
      binding.Retarget(TargetTime(isWorkSession));
    }

    /** The second effect: the tip for the session count. */
    method TipEffect()
      modifies this
      ensures currentTip == TipFor(sessionCount)
      ensures isWorkSession == old(isWorkSession) && sessionCount == old(sessionCount)
    {
      currentTip := Tips[sessionCount % |Tips|];
    }

    /**
     * `onComplete`: a finished work session is counted, work and break
     * swap, the timer is set for the next session, and the tip follows a
     * changed count.
     */
    method OnComplete()
      requires Valid()
      modifies this, binding, binding.store
      ensures (sessionCount, isWorkSession) == Completed((old(sessionCount), old(isWorkSession)))
      ensures sessionCount == old(sessionCount) + (if old(isWorkSession) then 1 else 0)
      ensures isWorkSession == !old(isWorkSession)
      ensures binding.timerId == old(binding.timerId)
      ensures old(Bound()) ==>
        binding.store.timers == old(binding.store.timers)[binding.timerId.value :=
          Retargeted(old(binding.store.timers)[binding.timerId.value], TargetTime(isWorkSession))]
      ensures !old(Bound()) ==> binding.store.timers == old(binding.store.timers)
      ensures binding.store.activeTimerId == old(binding.store.activeTimerId)
      ensures binding.effects == old(binding.effects) + (if binding.HasId() then [StopTitleAnimation] else [])
      ensures old(binding.store.Valid()) ==> binding.store.Valid()
      ensures Valid()
    {
      var countBefore := sessionCount;
      if isWorkSession {
        sessionCount := sessionCount + 1;
      }
      isWorkSession := !isWorkSession;
      SessionEffect();
      if sessionCount != countBefore {
        TipEffect();
      }
    }

    /**
     * The timer half of `handleReset`: `reset()`, then, when the page was on
     * a break, the session effect for the work session it switches back to.
     */
    method ResetTimer(fromBreak: bool)
      requires binding.mode == CountdownMode
      modifies binding, binding.store
      ensures binding.timerId == old(binding.timerId)
      ensures old(Bound()) ==>
        var t := old(binding.store.timers)[binding.timerId.value];
        binding.store.timers == old(binding.store.timers)[binding.timerId.value :=
          if fromBreak then Retargeted(t, WorkTime) else TimerStore.Reset(t)]
      ensures !old(Bound()) ==> binding.store.timers == old(binding.store.timers)
      ensures binding.store.activeTimerId == old(binding.store.activeTimerId)
      ensures binding.effects == old(binding.effects)
        + (if !binding.HasId() then [] else if fromBreak then [StopTitleAnimation, StopTitleAnimation] else [StopTitleAnimation])
      ensures old(binding.store.Valid()) ==> binding.store.Valid()
    {
      ghost var before := binding.store.timers;
      binding.Reset();
      if fromBreak {
        binding.Retarget(TargetTime(true));
        if binding.HasId() && binding.timerId.value in before {
          var t := before[binding.timerId.value];
          assert Retargeted(TimerStore.Reset(t), WorkTime) == Retargeted(t, WorkTime);
        }
      }
    }

    /** `handleReset`: the timer is reset, then work with no sessions counted, and the effects that change. */
    method HandleReset()
      requires Valid()
      modifies this, binding, binding.store
      ensures isWorkSession && sessionCount == 0 && currentTip == Tips[0]
      ensures binding.timerId == old(binding.timerId)
      ensures old(Bound()) ==>
        var t := old(binding.store.timers)[binding.timerId.value];
        binding.store.timers == old(binding.store.timers)[binding.timerId.value :=
          if old(isWorkSession) then TimerStore.Reset(t) else Retargeted(t, WorkTime)]
      ensures !old(Bound()) ==> binding.store.timers == old(binding.store.timers)
      ensures binding.store.activeTimerId == old(binding.store.activeTimerId)
      ensures binding.effects == old(binding.effects)
        + (if !binding.HasId() then [] else if old(isWorkSession) then [StopTitleAnimation] else [StopTitleAnimation, StopTitleAnimation])
      ensures old(binding.store.Valid()) ==> binding.store.Valid()
      ensures Valid()
    {
      var wasWork, oldCount := isWorkSession, sessionCount;
      ResetTimer(!wasWork);
      isWorkSession, sessionCount := true, 0;
      if oldCount != 0 {
        TipEffect();
      }
    }
  }
}
