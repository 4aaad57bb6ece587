/**
 * The meditation page of `src/pages/timers/fitness/MeditationTimer.tsx`:
 * an optional bell every few minutes during a session, remembered by the
 * elapsed second it last rang at, and running totals of finished
 * sessions. A bell is counted rather than played.
 */
module MeditationTimer {
  import opened TimerTypes

  /** Whether a tick at `elapsed` rings the interval bell. */
  predicate BellRings(enableBells: bool, bellInterval: int, elapsed: int, lastBellTime: int)
    ensures BellRings(enableBells, bellInterval, elapsed, lastBellTime) ==>
      enableBells && bellInterval <= elapsed && elapsed != lastBellTime
  {
    enableBells && bellInterval > 0 && elapsed > 0 && elapsed % bellInterval == 0 && elapsed != lastBellTime
  }

  /** Once a bell has rung at a second, another tick at that same second does not ring again. */
  lemma NoBellTwice(enableBells: bool, bellInterval: int, elapsed: int)
    ensures !BellRings(enableBells, bellInterval, elapsed, elapsed)
  {
  }

  /** With bells on, the bell rings on every positive multiple of the interval not yet rung. */
  lemma BellOnMultiples(bellInterval: int, k: int, lastBellTime: int)
    requires bellInterval > 0 && k > 0 && k * bellInterval != lastBellTime
    ensures BellRings(true, bellInterval, k * bellInterval, lastBellTime)
  {
    assert k * bellInterval > 0;
    assert (k * bellInterval) % bellInterval == 0;
  }

  class Page {
    var isActive: bool
    var selectedDuration: int
    var enableBells: bool
    var bellInterval: int
    var sessionCount: nat
    var totalMeditationTime: int
    var lastBellTime: int
    var bells: nat

    constructor()
      ensures !isActive && selectedDuration == 10 * 60 && enableBells && bellInterval == 5 * 60
      ensures sessionCount == 0 && totalMeditationTime == 0 && lastBellTime == 0 && bells == 0
    {
      isActive, selectedDuration, enableBells, bellInterval := false, 10 * 60, true, 5 * 60;
      sessionCount, totalMeditationTime, lastBellTime, bells := 0, 0, 0, 0;
    }

    /** `handleTick`: a bell on each new multiple of the interval, remembered in `lastBellTime`. */
    method HandleTick(timer: Timer)
      modifies this
      ensures var rings := BellRings(old(enableBells), old(bellInterval), timer.elapsed, old(lastBellTime));
        && lastBellTime == (if rings then timer.elapsed else old(lastBellTime))
        && bells == old(bells) + (if rings then 1 else 0)
      ensures isActive == old(isActive) && selectedDuration == old(selectedDuration)
      ensures enableBells == old(enableBells) && bellInterval == old(bellInterval)
      ensures sessionCount == old(sessionCount) && totalMeditationTime == old(totalMeditationTime)
    {
      if enableBells && bellInterval > 0 {
        var elapsed := timer.elapsed;
        if elapsed > 0 && elapsed % bellInterval == 0 && elapsed != lastBellTime {
          lastBellTime := elapsed;
          bells := bells + 1;
        }
      }
    }

    /** `handleComplete`: one more session and its duration added to the total, then the closing bell. */
    method HandleComplete()
      modifies this
      ensures !isActive
      ensures sessionCount == old(sessionCount) + 1
      ensures totalMeditationTime == old(totalMeditationTime) + old(selectedDuration)
      ensures bells == old(bells) + 1
      ensures selectedDuration == old(selectedDuration) && enableBells == old(enableBells)
      ensures bellInterval == old(bellInterval) && lastBellTime == old(lastBellTime)
    {
      isActive := false;
      sessionCount := sessionCount + 1;
      totalMeditationTime := totalMeditationTime + selectedDuration;
      bells := bells + 1;
    }

    /** `startMeditation`: the bell memory starts again from 0. */
    method StartMeditation()
      modifies this
      ensures isActive && lastBellTime == 0
      ensures selectedDuration == old(selectedDuration) && enableBells == old(enableBells)
      ensures bellInterval == old(bellInterval) && bells == old(bells)
      ensures sessionCount == old(sessionCount) && totalMeditationTime == old(totalMeditationTime)
    {
      isActive := true;
      lastBellTime := 0;
    }

    /** `stopMeditation`. */
    method StopMeditation()
      modifies this
      ensures !isActive
      ensures selectedDuration == old(selectedDuration) && enableBells == old(enableBells)
      ensures bellInterval == old(bellInterval) && bells == old(bells) && lastBellTime == old(lastBellTime)
      ensures sessionCount == old(sessionCount) && totalMeditationTime == old(totalMeditationTime)
    {
      isActive := false;
    }

    /** The bell-interval select: `parseInt(value) * 60`. */
    method SelectBellInterval(minutes: int)
      modifies this
      ensures bellInterval == minutes * 60
      ensures isActive == old(isActive) && selectedDuration == old(selectedDuration)
      ensures enableBells == old(enableBells) && bells == old(bells) && lastBellTime == old(lastBellTime)
      ensures sessionCount == old(sessionCount) && totalMeditationTime == old(totalMeditationTime)
    {
      bellInterval := minutes * 60;
    }

    /** The bell switch. */
    method ToggleBells()
      modifies this
      ensures enableBells == !old(enableBells)
      ensures isActive == old(isActive) && selectedDuration == old(selectedDuration)
      ensures bellInterval == old(bellInterval) && bells == old(bells) && lastBellTime == old(lastBellTime)
      ensures sessionCount == old(sessionCount) && totalMeditationTime == old(totalMeditationTime)
    {
      enableBells := !enableBells;
    }

    /** A preset button. */
    method SelectDuration(seconds: int)
      modifies this
      ensures selectedDuration == seconds
      ensures isActive == old(isActive) && enableBells == old(enableBells)
      ensures bellInterval == old(bellInterval) && bells == old(bells) && lastBellTime == old(lastBellTime)
      ensures sessionCount == old(sessionCount) && totalMeditationTime == old(totalMeditationTime)
    {
      selectedDuration := seconds;
    }
  }
}
