/**
 * The HIIT page of `src/pages/timers/fitness/HIITTimer.tsx`: a work/rest
 * interval list for a number of rounds (no rest after the last round),
 * and the round and phase shown for an elapsed time. The page holds its
 * settings and the shown round and phase as fields; an audio cue is
 * counted rather than played.
 */
module HiitTimer {
  import opened Wrappers
  import opened Decimal
  import opened TimerTypes
  import opened UseTimer
  import TimeUtils

  /** Entry `k` of the interval list: work at even positions, rest at odd ones. */
  function IntervalAt(k: nat, workTime: int, restTime: int): IntervalSpec {
    if k % 2 == 0 then IntervalSpec(workTime, WorkInterval) else IntervalSpec(restTime, RestInterval)
  }

  /** The length of the interval list for `rounds` rounds: `2 * rounds - 1`, or none for no rounds. */
  function IntervalCount(rounds: int): nat {
    if rounds <= 0 then 0 else 2 * rounds - 1
  }

  predicate IsIntervalList(s: seq<IntervalSpec>, workTime: int, restTime: int, rounds: int) {
    |s| == IntervalCount(rounds) && forall k :: 0 <= k < |s| ==> s[k] == IntervalAt(k, workTime, restTime)
  }

  /** The `intervals` memo: one work entry per round, each but the last followed by a rest entry. */
  method BuildIntervals(workTime: int, restTime: int, rounds: int) returns (result: seq<IntervalSpec>)
    ensures IsIntervalList(result, workTime, restTime, rounds)
    ensures rounds >= 1 ==> result[0].kind == WorkInterval && result[|result| - 1].kind == WorkInterval
  {
    result := [];
    var i := 0;
    while i < rounds
      invariant 0 <= i <= (if rounds < 0 then 0 else rounds)
      invariant |result| == (if i == 0 then 0 else if i < rounds then 2 * i else 2 * i - 1)
      invariant forall k :: 0 <= k < |result| ==> result[k] == IntervalAt(k, workTime, restTime)
    {
      result := result + [IntervalSpec(workTime, WorkInterval)];
      if i < rounds - 1 {
        result := result + [IntervalSpec(restTime, RestInterval)];
      }
      i := i + 1;
    }
  }

  /** `totalDuration`, the `reduce` over the interval list, is `rounds * work + (rounds - 1) * rest`. */
  lemma {:induction false} TotalDurationOfRounds(s: seq<IntervalSpec>, workTime: int, restTime: int, rounds: int)
    requires IsIntervalList(s, workTime, restTime, rounds)
    ensures SumFrom(0, s) == if rounds <= 0 then 0 else rounds * workTime + (rounds - 1) * restTime
    decreases |s|
  {
    if rounds == 1 {
      assert s == [IntervalSpec(workTime, WorkInterval)];
    } else if rounds > 1 {
      var rest := s[2..];
      forall k | 0 <= k < |rest|
        ensures rest[k] == IntervalAt(k, workTime, restTime)
      {
        assert rest[k] == s[k + 2];
      }
      TotalDurationOfRounds(rest, workTime, restTime, rounds - 1);
      assert s[0] == IntervalSpec(workTime, WorkInterval) && s[1] == IntervalSpec(restTime, RestInterval);
      assert s[1..][1..] == rest;
      SumFromShift(workTime, s[1..]);
      SumFromShift(restTime, rest);
    }
  }

  /** The page hands both the list and its total to the hook, and the hook's own sum agrees. */
  lemma HookDurationMatches(s: seq<IntervalSpec>, workTime: int, restTime: int, rounds: int, options: Options)
    requires rounds >= 1 && IsIntervalList(s, workTime, restTime, rounds)
    requires options.intervals == Some(s)
    ensures BuildConfig(options).duration == rounds * workTime + (rounds - 1) * restTime
  {
    StagesSumToReduce(s);
    TotalDurationOfRounds(s, workTime, restTime, rounds);
  }

  // ------------------------------------------------------- round and phase

  /**
   * The round and phase at `elapsed` seconds, in closed form: a round is a
   * work block followed by a rest block; the last round has no rest, and
   * past the end the defaults (round 1, work) are kept.
   */
  function PhaseAt(elapsed: nat, workTime: int, restTime: int, rounds: int): (r: (int, bool))
    requires workTime >= 1 && restTime >= 1
    ensures r.0 >= 1
    ensures rounds >= 1 ==> r.0 <= rounds
    ensures !r.1 ==> r.0 < rounds
  {
    var period := workTime + restTime;
    var i := elapsed / period;
    var offset := elapsed % period;
    if i < rounds && offset < workTime then (i + 1, true)
    else if i < rounds - 1 then (i + 1, false)
    else (1, true)
  }

  /** Work second `offset` of round `i + 1`. */
  lemma PhaseInWork(i: nat, offset: int, workTime: int, restTime: int, rounds: int)
    requires workTime >= 1 && restTime >= 1
    requires i < rounds && 0 <= offset < workTime
    ensures PhaseAt(i * (workTime + restTime) + offset, workTime, restTime, rounds) == (i + 1, true)
  {
    DivModUnique(i * (workTime + restTime) + offset, workTime + restTime, i, offset);
  }

  /** Rest second `offset - workTime` of round `i + 1`, which is not the last round. */
  lemma PhaseInRest(i: nat, offset: int, workTime: int, restTime: int, rounds: int)
    requires workTime >= 1 && restTime >= 1
    requires i < rounds - 1 && workTime <= offset < workTime + restTime
    ensures PhaseAt(i * (workTime + restTime) + offset, workTime, restTime, rounds) == (i + 1, false)
  {
    DivModUnique(i * (workTime + restTime) + offset, workTime + restTime, i, offset);
  }

  /** From the end of the last work block on, the defaults are shown. */
  lemma PhaseAfterLastWork(elapsed: nat, workTime: int, restTime: int, rounds: int)
    requires workTime >= 1 && restTime >= 1 && rounds >= 1
    requires elapsed >= (rounds - 1) * (workTime + restTime) + workTime
    ensures PhaseAt(elapsed, workTime, restTime, rounds) == (1, true)
  {
    var period := workTime + restTime;
    var q, offset := elapsed / period, elapsed % period;
    assert elapsed == q * period + offset;
    if q < rounds - 1 {
      ScaleMonotone(q + 1, rounds - 1, period);
      assert false;
    } else if q == rounds - 1 {
      assert offset >= workTime;
    }
  }

  /** With no rounds the defaults are shown throughout. */
  lemma PhaseWithoutRounds(elapsed: nat, workTime: int, restTime: int, rounds: int)
    requires workTime >= 1 && restTime >= 1 && rounds <= 0
    ensures PhaseAt(elapsed, workTime, restTime, rounds) == (1, true)
  {
    DivModUnique(elapsed, workTime + restTime, elapsed / (workTime + restTime), elapsed % (workTime + restTime));
  }

  lemma ScaleMonotone(a: int, b: int, c: nat)
    requires a <= b
    ensures a * c <= b * c
  {
    assert b * c - a * c == (b - a) * c;
  }

  /** `handleTick`'s loop: subtract a work block, then (but for the last round) a rest block, until the time fits. */
  method DerivePhase(elapsed: nat, workTime: int, restTime: int, rounds: int) returns (round: int, inWorkPhase: bool)
    requires workTime >= 1 && restTime >= 1
    ensures (round, inWorkPhase) == PhaseAt(elapsed, workTime, restTime, rounds)
  {
    var period := workTime + restTime;
    var left: int := elapsed;
    round := 1;
    inWorkPhase := true;
    var i := 0;
    while i < rounds
      invariant 0 <= i && (rounds >= 0 ==> i <= rounds)
      invariant left == elapsed - PeriodsTotal(i, period)
      invariant i < rounds ==> left >= 0
      invariant i >= 1 ==> left >= workTime - period
      invariant round == 1 && inWorkPhase
    {
      if left < workTime {
        PeriodsTotalIsProduct(i, period);
        assert elapsed == i * (workTime + restTime) + left;
        PhaseInWork(i, left, workTime, restTime, rounds);
        round := i + 1;
        inWorkPhase := true;
        return;
      }
      left := left - workTime;
      if i < rounds - 1 && left < restTime {
        PeriodsTotalIsProduct(i, period);
        assert elapsed == i * (workTime + restTime) + (left + workTime);
        PhaseInRest(i, left + workTime, workTime, restTime, rounds);
        round := i + 1;
        inWorkPhase := false;
        return;
      }
      left := left - restTime;
      assert PeriodsTotal(i + 1, period) == PeriodsTotal(i, period) + period;
      i := i + 1;
    }
    if rounds >= 1 {
      assert PeriodsTotal(rounds, period) == PeriodsTotal(rounds - 1, period) + period;
      PeriodsTotalIsProduct(rounds - 1, period);
      assert elapsed >= (rounds - 1) * (workTime + restTime) + workTime;
      PhaseAfterLastWork(elapsed, workTime, restTime, rounds);
    } else {
      PhaseWithoutRounds(elapsed, workTime, restTime, rounds);
    }
  }

  /** The length of `i` whole rounds of `period` seconds, one round at a time. */
  function PeriodsTotal(i: nat, period: int): int {
    if i == 0 then 0 else PeriodsTotal(i - 1, period) + period
  }

  lemma {:induction false} PeriodsTotalIsProduct(i: nat, period: int)
    ensures PeriodsTotal(i, period) == i * period
  {
    if i > 0 {
      PeriodsTotalIsProduct(i - 1, period);
    }
  }

  // ------------------------------------------------------------ the inputs

  /** `Math.max(1, parseInt(value) || 0)`: NaN and 0 both fall back to 0 before the clamp. */
  function ClampedInput(text: string): (r: int)
    ensures r >= 1
    ensures TimeUtils.ParseInt(text).Some? && TimeUtils.ParseInt(text).value >= 1 ==> r == TimeUtils.ParseInt(text).value
    ensures TimeUtils.ParseInt(text).None? || TimeUtils.ParseInt(text).value < 1 ==> r == 1
  {
    var v := match TimeUtils.ParseInt(text) case Some(n) => n case None => 0;
    if 1 < v then v else 1
  }

  datatype Preset = Preset(name: string, workTime: int, restTime: int, rounds: int)

  const Presets: seq<Preset> := [
    Preset("Tabata", 20, 10, 8),
    Preset("HIIT Classic", 45, 15, 10),
    Preset("Quick Burst", 30, 30, 6),
    Preset("Endurance", 60, 20, 12)]

  // -------------------------------------------------------------- the page

  class Page {
    var workTime: int
    var restTime: int
    var rounds: int
    var currentRound: int
    var isWorkPhase: bool
    var isConfiguring: bool
    var selectedPreset: string
    var audioCues: nat

    /** Every way of setting the three numbers keeps them at least 1. */
    ghost predicate Valid()
      reads this
    {
      workTime >= 1 && restTime >= 1 && rounds >= 1
    }

    constructor()
      ensures workTime == 20 && restTime == 10 && rounds == 8
      ensures currentRound == 1 && isWorkPhase && isConfiguring && selectedPreset == "Tabata"
      ensures audioCues == 0 && Valid()
    {
      workTime, restTime, rounds := 20, 10, 8;
      currentRound, isWorkPhase, isConfiguring := 1, true, true;
      selectedPreset := "Tabata";
      audioCues := 0;
    }

    /** `handlePresetSelect`. */
    method HandlePresetSelect(preset: Preset)
      requires preset in Presets
      modifies this
      ensures workTime == preset.workTime && restTime == preset.restTime && rounds == preset.rounds
      ensures selectedPreset == preset.name
      ensures currentRound == old(currentRound) && isWorkPhase == old(isWorkPhase)
      ensures isConfiguring == old(isConfiguring) && audioCues == old(audioCues)
      ensures Valid()
    {
      workTime, restTime, rounds := preset.workTime, preset.restTime, preset.rounds;
      selectedPreset := preset.name;
    }

    /** The three number inputs. */
    method SetWorkTimeInput(text: string)
      modifies this
      ensures workTime == ClampedInput(text)
      ensures restTime == old(restTime) && rounds == old(rounds) && currentRound == old(currentRound)
      ensures isWorkPhase == old(isWorkPhase) && isConfiguring == old(isConfiguring)
      ensures selectedPreset == old(selectedPreset) && audioCues == old(audioCues)
      ensures old(Valid()) ==> Valid()
    {
      workTime := ClampedInput(text);
    }

    method SetRestTimeInput(text: string)
      modifies this
      ensures restTime == ClampedInput(text)
      ensures workTime == old(workTime) && rounds == old(rounds) && currentRound == old(currentRound)
      ensures isWorkPhase == old(isWorkPhase) && isConfiguring == old(isConfiguring)
      ensures selectedPreset == old(selectedPreset) && audioCues == old(audioCues)
      ensures old(Valid()) ==> Valid()
    {
      restTime := ClampedInput(text);
    }

    method SetRoundsInput(text: string)
      modifies this
      ensures rounds == ClampedInput(text)
      ensures workTime == old(workTime) && restTime == old(restTime) && currentRound == old(currentRound)
      ensures isWorkPhase == old(isWorkPhase) && isConfiguring == old(isConfiguring)
      ensures selectedPreset == old(selectedPreset) && audioCues == old(audioCues)
      ensures old(Valid()) ==> Valid()
    {
      rounds := ClampedInput(text);
    }

    /** `handleTick`: the shown round and phase follow the elapsed time; a change plays a cue. */
    method HandleTick(timer: Timer)
      requires Valid()
      modifies this
      ensures Valid()
      ensures (currentRound, isWorkPhase) == PhaseAt(timer.elapsed, workTime, restTime, rounds)
      ensures audioCues == old(audioCues) + (if (old(currentRound), old(isWorkPhase)) == (currentRound, isWorkPhase) then 0 else 1)
      ensures workTime == old(workTime) && restTime == old(restTime) && rounds == old(rounds)
      ensures isConfiguring == old(isConfiguring) && selectedPreset == old(selectedPreset)
    {
      var round, inWorkPhase := DerivePhase(timer.elapsed, workTime, restTime, rounds);
      if round != currentRound || inWorkPhase != isWorkPhase {
        currentRound := round;
        isWorkPhase := inWorkPhase;
        audioCues := audioCues + 1;
      }
    }

    /** `handleComplete`: a cue, then back to round 1, work. */
    method HandleComplete()
      modifies this
      ensures currentRound == 1 && isWorkPhase && audioCues == old(audioCues) + 1
      ensures workTime == old(workTime) && restTime == old(restTime) && rounds == old(rounds)
      ensures isConfiguring == old(isConfiguring) && selectedPreset == old(selectedPreset)
      ensures old(Valid()) ==> Valid()
    {
      audioCues := audioCues + 1;
      currentRound, isWorkPhase := 1, true;
    }

    /** `startWorkout`. */
    method StartWorkout()
      modifies this
      ensures !isConfiguring && currentRound == 1 && isWorkPhase
      ensures workTime == old(workTime) && restTime == old(restTime) && rounds == old(rounds)
      ensures selectedPreset == old(selectedPreset) && audioCues == old(audioCues)
      ensures old(Valid()) ==> Valid()
    {
      isConfiguring, currentRound, isWorkPhase := false, 1, true;
    }

    /** `resetWorkout`. */
    method ResetWorkout()
      modifies this
      ensures isConfiguring && currentRound == 1 && isWorkPhase
      ensures workTime == old(workTime) && restTime == old(restTime) && rounds == old(rounds)
      ensures selectedPreset == old(selectedPreset) && audioCues == old(audioCues)
      ensures old(Valid()) ==> Valid()
    {
      isConfiguring, currentRound, isWorkPhase := true, 1, true;
    }
  }
}
