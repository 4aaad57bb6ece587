/**
 * The box-breathing page of `src/pages/timers/fitness/BoxBreathing.tsx`:
 * four phases of four seconds (inhale, hold, exhale, hold). On each tick
 * the page recomputes the phase from its own phase and breath count, not
 * from the timer's elapsed time, and so always lands on the phase it
 * already shows.
 */
module BoxBreathing {
  import opened Decimal

  datatype BreathPhase = BreathPhase(name: string, duration: int, instruction: string)

  const BreathPhases: seq<BreathPhase> := [
    BreathPhase("Inhale", 4, "Breathe in slowly"),
    BreathPhase("Hold", 4, "Hold your breath"),
    BreathPhase("Exhale", 4, "Breathe out slowly"),
    BreathPhase("Hold", 4, "Hold empty")]

  /** Summed duration of the first `k` phases: `BREATH_PHASES.slice(0, k).reduce(...)`. */
  function PrefixDuration(k: nat): int {
    if k == 0 then 0
    else if k > |BreathPhases| then PrefixDuration(|BreathPhases|)
    else PrefixDuration(k - 1) + BreathPhases[k - 1].duration
  }

  /** The second at which phase `j` ends. */
  function PhaseEnd(j: nat): int {
    PrefixDuration(j + 1)
  }

  /** Every phase starts four seconds after the one before it. */
  lemma PrefixDurationValues(k: nat)
    requires k <= |BreathPhases|
    ensures PrefixDuration(k) == 4 * k
  {
    if k > 0 {
      PrefixDurationValues(k - 1);
    }
  }

  /** `totalCycleTime`: one whole breath lasts 16 seconds. */
  function CycleLength(): (c: int)
    ensures c == 16
  {
    PrefixDurationValues(|BreathPhases|);
    PrefixDuration(|BreathPhases|)
  }

  /** `elapsedInCycle` for a breath count and a phase. */
  function ElapsedInCycle(breathCount: nat, currentPhase: nat): int {
    (breathCount * CycleLength() + PrefixDuration(currentPhase)) % CycleLength()
  }

  /**
   * The loop over the phases: the first phase whose end lies beyond the
   * cycle offset, or phase 0 when none does.
   */
  method FindPhase(elapsedInCycle: int) returns (phaseIndex: nat)
    ensures phaseIndex < |BreathPhases|
    ensures elapsedInCycle < PrefixDuration(|BreathPhases|) ==>
      elapsedInCycle < PhaseEnd(phaseIndex)
      && forall j :: 0 <= j < phaseIndex ==> PhaseEnd(j) <= elapsedInCycle
    ensures elapsedInCycle >= PrefixDuration(|BreathPhases|) ==> phaseIndex == 0
  {
    phaseIndex := 0;
    var accumulated := 0;
    var i := 0;
    while i < |BreathPhases|
      invariant 0 <= i <= |BreathPhases|
      invariant accumulated == PrefixDuration(i)
      invariant forall j :: 0 <= j < i ==> PhaseEnd(j) <= elapsedInCycle
      invariant phaseIndex == 0
    {
      accumulated := accumulated + BreathPhases[i].duration;
      if elapsedInCycle < accumulated {
        phaseIndex := i;
        return;
      }
      i := i + 1;
    }
    assert PhaseEnd(|BreathPhases| - 1) <= elapsedInCycle;
  }

  /** From any breath count, the offset of a phase's start is its own phase. */
  lemma PhaseIsItsOwnStart(breathCount: nat, currentPhase: nat, phaseIndex: nat)
    requires currentPhase < |BreathPhases| && phaseIndex < |BreathPhases|
    requires var e := ElapsedInCycle(breathCount, currentPhase);
      e < PhaseEnd(phaseIndex) && forall j :: 0 <= j < phaseIndex ==> PhaseEnd(j) <= e
    ensures phaseIndex == currentPhase
  {
    var e := ElapsedInCycle(breathCount, currentPhase);
    PrefixDurationValues(currentPhase);
    PrefixDurationValues(phaseIndex + 1);
    DivModUnique(breathCount * 16 + 4 * currentPhase, 16, breathCount, 4 * currentPhase);
    assert e == 4 * currentPhase;
    PrefixDurationValues(currentPhase + 1);
    assert PhaseEnd(currentPhase) > e;
  }

  class Page {
    var isActive: bool
    var currentPhase: nat
    var breathCount: nat
    var sessionDuration: int

    ghost predicate Valid()
      reads this
    {
      currentPhase < |BreathPhases|
    }

    constructor()
      ensures !isActive && currentPhase == 0 && breathCount == 0 && sessionDuration == 5 * 60
      ensures Valid()
    {
      isActive, currentPhase, breathCount, sessionDuration := false, 0, 0, 5 * 60;
    }

    /**
     * `handleTick`: the phase is recomputed, and a changed phase (with a new
     * breath on phase 0) would be stored; the recomputed phase is always
     * the current one, so nothing changes.
     */
    method HandleTick()
      requires Valid()
      modifies this
      ensures isActive == old(isActive) && sessionDuration == old(sessionDuration)
      ensures currentPhase == old(currentPhase) && breathCount == old(breathCount)
    {
      var elapsedInCycle := ElapsedInCycle(breathCount, currentPhase);
      PrefixDurationValues(currentPhase);
      PrefixDurationValues(|BreathPhases|);
      var phaseIndex := FindPhase(elapsedInCycle);
      ghost var phaseBefore, countBefore := currentPhase, breathCount;
      if phaseIndex != currentPhase {
        currentPhase := phaseIndex;
        if phaseIndex == 0 {
          breathCount := breathCount + 1;
        }
      }
      assert elapsedInCycle < PrefixDuration(|BreathPhases|);
      PhaseIsItsOwnStart(countBefore, phaseBefore, phaseIndex);
    }

    /** `handleComplete`: the session ends on phase 0; the breath count stays. */
    method HandleComplete()
      modifies this
      ensures !isActive && currentPhase == 0
      ensures breathCount == old(breathCount) && sessionDuration == old(sessionDuration)
      ensures Valid()
    {
      isActive, currentPhase := false, 0;
    }

    /** `startSession`. */
    method StartSession()
      modifies this
      ensures isActive && currentPhase == 0 && breathCount == 0 && sessionDuration == old(sessionDuration)
      ensures Valid()
    {
      isActive, currentPhase, breathCount := true, 0, 0;
    }

    /** `stopSession`. */
    method StopSession()
      modifies this
      ensures !isActive && currentPhase == 0 && breathCount == 0 && sessionDuration == old(sessionDuration)
      ensures Valid()
    {
      isActive, currentPhase, breathCount := false, 0, 0;
    }

    /** The duration buttons. */
    method SelectDuration(seconds: int)
      modifies this
      ensures sessionDuration == seconds
      ensures isActive == old(isActive) && currentPhase == old(currentPhase) && breathCount == old(breathCount)
    {
      sessionDuration := seconds;
    }
  }
}
