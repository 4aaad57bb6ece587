/**
 * The stopwatch page of `src/pages/timers/productivity/Stopwatch.tsx`: a
 * stopwatch-mode timer binding plus a list of laps, each with its total
 * time and its split since the previous lap, and the best (smallest
 * split) and worst (largest split) lap.
 */
module Stopwatch {
  import opened Wrappers
  import opened TimerTypes
  import opened TimerStore
  import opened UseTimer

  datatype Lap = Lap(id: nat, time: int, split: int)

  /** The previous lap's time, 0 before the first lap. */
  function PreviousLapTime(laps: seq<Lap>): int {
    if |laps| > 0 then laps[|laps| - 1].time else 0
  }

  /** Lap `k` has id `k + 1`, and its split is its time minus the time of the lap before it. */
  predicate LapsWellFormed(laps: seq<Lap>) {
    forall k :: 0 <= k < |laps| ==>
      laps[k].id == k + 1 && laps[k].split == laps[k].time - PreviousLapTime(laps[..k])
  }

  function SplitSum(laps: seq<Lap>): int {
    if laps == [] then 0 else SplitSum(laps[..|laps| - 1]) + laps[|laps| - 1].split
  }

  /** The splits add up to the latest lap's time. */
  lemma {:induction false} SplitsSumToLastTime(laps: seq<Lap>)
    requires LapsWellFormed(laps)
    ensures SplitSum(laps) == PreviousLapTime(laps)
  {
    if laps != [] {
      var n := |laps| - 1;
      var prefix := laps[..n];
      assert LapsWellFormed(prefix) by {
        forall k | 0 <= k < |prefix|
          ensures prefix[k].id == k + 1 && prefix[k].split == prefix[k].time - PreviousLapTime(prefix[..k])
        {
          assert prefix[k] == laps[k] && prefix[..k] == laps[..k];
        }
      }
      SplitsSumToLastTime(prefix);
      assert laps[n].split == laps[n].time - PreviousLapTime(laps[..n]);
    }
  }

  /** `laps.reduce((best, lap) => lap.split < best.split ? lap : best)`, or none without laps. */
  function BestLap(laps: seq<Lap>): (r: Option<Lap>)
    ensures r.None? <==> laps == []
    ensures r.Some? ==> r.value in laps
  {
    if laps == [] then None
    else
      var before := BestLap(laps[..|laps| - 1]);
      var lap := laps[|laps| - 1];
      if before.None? || lap.split < before.value.split then Some(lap) else before
  }

  /** `laps.reduce((worst, lap) => lap.split > worst.split ? lap : worst)`, or none without laps. */
  function WorstLap(laps: seq<Lap>): (r: Option<Lap>)
    ensures r.None? <==> laps == []
    ensures r.Some? ==> r.value in laps
  {
    if laps == [] then None
    else
      var before := WorstLap(laps[..|laps| - 1]);
      var lap := laps[|laps| - 1];
      if before.None? || lap.split > before.value.split then Some(lap) else before
  }

  /** Lap `j` has the smallest split, and every earlier lap a strictly larger one. */
  predicate IsEarliestMinimum(laps: seq<Lap>, j: int) {
    0 <= j < |laps|
    && (forall k :: 0 <= k < |laps| ==> laps[j].split <= laps[k].split)
    && (forall k :: 0 <= k < j ==> laps[k].split > laps[j].split)
  }

  /** Lap `j` has the largest split, and every earlier lap a strictly smaller one. */
  predicate IsEarliestMaximum(laps: seq<Lap>, j: int) {
    0 <= j < |laps|
    && (forall k :: 0 <= k < |laps| ==> laps[j].split >= laps[k].split)
    && (forall k :: 0 <= k < j ==> laps[k].split < laps[j].split)
  }

  /** One more lap keeps the earliest minimum, or becomes it with a strictly smaller split. */
  lemma ExtendEarliestMinimum(prefix: seq<Lap>, lap: Lap, j: int)
    requires IsEarliestMinimum(prefix, j)
    ensures lap.split < prefix[j].split ==> IsEarliestMinimum(prefix + [lap], |prefix|)
    ensures lap.split >= prefix[j].split ==> IsEarliestMinimum(prefix + [lap], j)
  {
    var laps := prefix + [lap];
    assert forall k :: 0 <= k < |prefix| ==> laps[k] == prefix[k];
    assert laps[|prefix|] == lap;
  }

  /** One more lap keeps the earliest maximum, or becomes it with a strictly larger split. */
  lemma ExtendEarliestMaximum(prefix: seq<Lap>, lap: Lap, j: int)
    requires IsEarliestMaximum(prefix, j)
    ensures lap.split > prefix[j].split ==> IsEarliestMaximum(prefix + [lap], |prefix|)
    ensures lap.split <= prefix[j].split ==> IsEarliestMaximum(prefix + [lap], j)
  {
    var laps := prefix + [lap];
    assert forall k :: 0 <= k < |prefix| ==> laps[k] == prefix[k];
    assert laps[|prefix|] == lap;
  }

  /** The best lap is the earliest lap with the smallest split; there is none only without laps. */
  lemma {:induction false} BestLapIsEarliestMinimum(laps: seq<Lap>)
    ensures BestLap(laps).None? <==> laps == []
    ensures BestLap(laps).Some? ==> exists j :: IsEarliestMinimum(laps, j) && laps[j] == BestLap(laps).value
  {
    if laps != [] {
      var n := |laps| - 1;
      var prefix := laps[..n];
      assert laps == prefix + [laps[n]];
      BestLapIsEarliestMinimum(prefix);
      if BestLap(prefix).None? {
        assert IsEarliestMinimum(laps, 0);
      } else {
        var j :| IsEarliestMinimum(prefix, j) && prefix[j] == BestLap(prefix).value;
        ExtendEarliestMinimum(prefix, laps[n], j);
        if laps[n].split < prefix[j].split {
          assert IsEarliestMinimum(laps, n) && laps[n] == BestLap(laps).value;
        } else {
          assert IsEarliestMinimum(laps, j) && laps[j] == BestLap(laps).value;
        }
      }
    }
  }

  /** The worst lap is the earliest lap with the largest split; there is none only without laps. */
  lemma {:induction false} WorstLapIsEarliestMaximum(laps: seq<Lap>)
    ensures WorstLap(laps).None? <==> laps == []
    ensures WorstLap(laps).Some? ==> exists j :: IsEarliestMaximum(laps, j) && laps[j] == WorstLap(laps).value
  {
    if laps != [] {
      var n := |laps| - 1;
      var prefix := laps[..n];
      assert laps == prefix + [laps[n]];
      WorstLapIsEarliestMaximum(prefix);
      if WorstLap(prefix).None? {
        assert IsEarliestMaximum(laps, 0);
      } else {
        var j :| IsEarliestMaximum(prefix, j) && prefix[j] == WorstLap(prefix).value;
        ExtendEarliestMaximum(prefix, laps[n], j);
        if laps[n].split > prefix[j].split {
          assert IsEarliestMaximum(laps, n) && laps[n] == WorstLap(laps).value;
        } else {
          assert IsEarliestMaximum(laps, j) && laps[j] == WorstLap(laps).value;
        }
      }
    }
  }

  class Page {
    const binding: TimerBinding
    var laps: seq<Lap>

    constructor(binding: TimerBinding)
      requires binding.mode == StopwatchMode
      ensures this.binding == binding && laps == []
      ensures Valid()
    {
      this.binding := binding;
      laps := [];
    }

    ghost predicate Valid()
      reads this
    {
      binding.mode == StopwatchMode && LapsWellFormed(laps)
    }

    /** `timer?.elapsed || 0`. */
    function CurrentTime(): nat
      reads this, binding, binding.store
    {
      match binding.CurrentTimer()
      case Some(t) => t.elapsed
      case None => 0
    }

    /** The hook's `isRunning`: `timer?.isRunning || false`. */
    predicate IsRunning()
      reads this, binding, binding.store
    {
      binding.CurrentTimer().Some? && binding.CurrentTimer().value.isRunning
    }

    /** `handleLap`: nothing unless running past 0; otherwise a lap with the next id and its split. */
    method HandleLap()
      modifies this
      ensures !IsRunning() || CurrentTime() == 0 ==> laps == old(laps)
      ensures IsRunning() && CurrentTime() > 0 ==>
        laps == old(laps) + [Lap(|old(laps)| + 1, CurrentTime(), CurrentTime() - PreviousLapTime(old(laps)))]
      ensures old(Valid()) ==> Valid()
    {
      var currentTime := CurrentTime();
      if !IsRunning() || currentTime == 0 {
        return;
      }
      var previousLapTime := PreviousLapTime(laps);
      var split := currentTime - previousLapTime;
      ghost var before := laps;
      laps := laps + [Lap(|laps| + 1, currentTime, split)];
      assert forall k :: 0 <= k < |before| ==> laps[k] == before[k] && laps[..k] == before[..k];
      assert laps[..|before|] == before;
    }

    /** `handleReset`: the hook's reset, and no laps. */
    method HandleReset()
      modifies this, binding, binding.store
      ensures laps == []
      ensures binding.timerId == old(binding.timerId)
      ensures binding.HasId() && binding.timerId.value in old(binding.store.timers) ==>
        binding.store.timers == old(binding.store.timers)[binding.timerId.value :=
          TimerStore.Reset(old(binding.store.timers)[binding.timerId.value])]
      ensures !(binding.HasId() && binding.timerId.value in old(binding.store.timers)) ==>
        binding.store.timers == old(binding.store.timers)
      ensures binding.store.activeTimerId == old(binding.store.activeTimerId)
      ensures binding.effects == old(binding.effects) + (if binding.HasId() then [StopTitleAnimation] else [])
      ensures old(binding.store.Valid()) ==> binding.store.Valid()
      ensures old(Valid()) ==> Valid()
    {
      binding.Reset();
      laps := [];
    }
  }
}
