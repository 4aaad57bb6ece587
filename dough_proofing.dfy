/**
 * The dough-proofing page of `src/pages/timers/kitchen/DoughProofing.tsx`:
 * a countdown binding set either to one of five proofing stages or to a
 * custom number of minutes, and the long-time text ("1h 5m 0s") it shows.
 */
module DoughProofing {
  import opened Wrappers
  import opened Decimal
  import opened TimerTypes
  import TimerStore
  import TimeUtils
  import opened UseTimer

  datatype ProofingStage = ProofingStage(name: string, duration: int, temperature: string, description: string)

  const ProofingStages: seq<ProofingStage> := [
    ProofingStage("Quick Rise", 30 * 60, "80-90°F", "Fast rise for quick breads"),
    ProofingStage("First Rise", 60 * 60, "75-80°F", "Standard first rise for most breads"),
    ProofingStage("Second Rise", 45 * 60, "75-80°F", "After shaping, before baking"),
    ProofingStage("Cold Proof", 8 * 60 * 60, "35-40°F", "Overnight in refrigerator"),
    ProofingStage("Long Ferment", 24 * 60 * 60, "35-40°F", "Extended cold fermentation")]

  /** The minutes-and-seconds part of the long-time text: "5m 0s". */
  function MinSecText(minutes: nat, secs: nat): string {
    NatToString(minutes) + "m " + NatToString(secs) + "s"
  }

  /** `formatLongTime`: hours only when there are any, then minutes and seconds. */
  function FormatLongTime(seconds: nat): string {
    var hours, minutes, secs := seconds / 3600, (seconds % 3600) / 60, seconds % 60;
    if hours > 0 then NatToString(hours) + "h " + MinSecText(minutes, secs)
    else MinSecText(minutes, secs)
  }

  /** The hours field, and with it the letter 'h', appears exactly from one hour on. */
  lemma FormatLongTimeShowsHours(seconds: nat)
    ensures 'h' in FormatLongTime(seconds) <==> seconds >= 3600
  {
    var hours, minutes, secs := seconds / 3600, (seconds % 3600) / 60, seconds % 60;
    var a, b := NatToString(minutes), NatToString(secs);
    assert forall i :: 0 <= i < |a| ==> IsDigit(a[i]);
    assert forall i :: 0 <= i < |b| ==> IsDigit(b[i]);
    assert 'h' !in a && 'h' !in b;
    assert MinSecText(minutes, secs) == a + "m " + b + "s";
    if hours > 0 {
      var hs := NatToString(hours);
      assert FormatLongTime(seconds)[|hs|] == 'h';
    }
  }

  /** Two digit runs each followed by a non-digit mark agree up to and after the mark. */
  lemma DigitRunSplit(a: string, c: char, r: string, b: string, d: char, q: string)
    requires AllDigits(a) && AllDigits(b) && !IsDigit(c) && !IsDigit(d)
    requires a + [c] + r == b + [d] + q
    ensures a == b && c == d && r == q
  {
    var s := a + [c] + r;
    assert s[|a|] == c;
    assert s[|b|] == d;
    assert |a| == |b|;
    assert a == s[..|a|] == b;
    assert c == s[|a|] == d;
    assert r == s[|a| + 1..] == q;
  }

  /** Minutes and seconds read back from their text. */
  lemma MinSecTextInjective(m1: nat, s1: nat, m2: nat, s2: nat)
    requires MinSecText(m1, s1) == MinSecText(m2, s2)
    ensures m1 == m2 && s1 == s2
  {
    var x1, x2 := NatToString(s1), NatToString(s2);
    assert MinSecText(m1, s1) == NatToString(m1) + ['m'] + (" " + x1 + "s");
    assert MinSecText(m2, s2) == NatToString(m2) + ['m'] + (" " + x2 + "s");
    DigitRunSplit(NatToString(m1), 'm', " " + x1 + "s", NatToString(m2), 'm', " " + x2 + "s");
    NatToStringInjective(m1, m2);
    assert x1 + "s" == (" " + x1 + "s")[1..] == (" " + x2 + "s")[1..] == x2 + "s";
    assert x1 == (x1 + "s")[..|x1|];
    assert x2 == (x2 + "s")[..|x2|];
    NatToStringInjective(s1, s2);
  }

  /** Hours and the rest read back from a text with hours. */
  lemma HoursTextInjective(h1: nat, t1: string, h2: nat, t2: string)
    requires NatToString(h1) + "h " + t1 == NatToString(h2) + "h " + t2
    ensures h1 == h2 && t1 == t2
  {
    assert NatToString(h1) + "h " + t1 == NatToString(h1) + ['h'] + (" " + t1);
    assert NatToString(h2) + "h " + t2 == NatToString(h2) + ['h'] + (" " + t2);
    DigitRunSplit(NatToString(h1), 'h', " " + t1, NatToString(h2), 'h', " " + t2);
    NatToStringInjective(h1, h2);
    assert t1 == (" " + t1)[1..] == (" " + t2)[1..] == t2;
  }

  /** A text with hours is never a text without them. */
  lemma HoursTextIsNotMinSec(h: nat, t: string, m: nat, x: nat)
    ensures NatToString(h) + "h " + t != MinSecText(m, x)
  {
    if NatToString(h) + "h " + t == MinSecText(m, x) {
      assert NatToString(h) + "h " + t == NatToString(h) + ['h'] + (" " + t);
      assert MinSecText(m, x) == NatToString(m) + ['m'] + (" " + NatToString(x) + "s");
      DigitRunSplit(NatToString(h), 'h', " " + t, NatToString(m), 'm', " " + NatToString(x) + "s");
    }
  }

  /** Different durations show different texts. */
  lemma FormatLongTimeInjective(a: nat, b: nat)
    requires FormatLongTime(a) == FormatLongTime(b)
    ensures a == b
  {
    var ha, ma, sa := a / 3600, (a % 3600) / 60, a % 60;
    var hb, mb, sb := b / 3600, (b % 3600) / 60, b % 60;
    if ha > 0 && hb > 0 {
      HoursTextInjective(ha, MinSecText(ma, sa), hb, MinSecText(mb, sb));
    } else if ha > 0 {
      HoursTextIsNotMinSec(ha, MinSecText(ma, sa), mb, sb);
    } else if hb > 0 {
      HoursTextIsNotMinSec(hb, MinSecText(mb, sb), ma, sa);
    }
    MinSecTextInjective(ma, sa, mb, sb);
    TimeUtils.HmsDecomposition(a);
    TimeUtils.HmsDecomposition(b);
  }

  /** The custom-minutes field: `parseInt(value) || 1`, so not-a-number and 0 both become 1. */
  function CustomMinutes(text: string): (m: int)
    ensures m != 0
    ensures TimeUtils.ParseInt(text).Some? && TimeUtils.ParseInt(text).value != 0 ==> m == TimeUtils.ParseInt(text).value
    ensures TimeUtils.ParseInt(text).None? || TimeUtils.ParseInt(text).value == 0 ==> m == 1
  {
    match TimeUtils.ParseInt(text)
    case Some(v) => if v != 0 then v else 1
    case None => 1
  }

  class Page {
    const binding: TimerBinding
    var selectedStage: nat
    var customDuration: int
    var useCustom: bool

    /** A countdown, a stage from the list, and a non-zero number of custom minutes. */
    ghost predicate Valid()
      reads this
    {
      binding.mode == CountdownMode && selectedStage < |ProofingStages| && customDuration != 0
    }

    constructor(binding: TimerBinding)
      requires binding.mode == CountdownMode
      ensures this.binding == binding && selectedStage == 1 && customDuration == 60 && !useCustom
      ensures Valid()
    {
      this.binding := binding;
      selectedStage, customDuration, useCustom := 1, 60, false;
    }

    /** The duration the page asks the hook for. */
    function ConfiguredDuration(): int
      requires Valid()
      reads this
    {
      if useCustom then customDuration * 60 else ProofingStages[selectedStage].duration
    }

    /** `timeLeft`: the remaining seconds, 0 without a timer. */
    function TimeLeft(): (r: int)
      reads this, binding, binding.store
      ensures binding.CurrentTimer().Some? ==> r == binding.CurrentTimer().value.remaining
      ensures binding.CurrentTimer().None? ==> r == 0
    {
      match binding.CurrentTimer()
      case Some(t) => t.remaining
      case None => 0
    }

    /** `handleStageSelect`: the stage is chosen and the timer set afresh to its duration. */
    method HandleStageSelect(stage: nat)
      requires Valid() && stage < |ProofingStages|
      modifies this, binding, binding.store
      ensures selectedStage == stage && !useCustom && customDuration == old(customDuration)
      ensures ConfiguredDuration() == ProofingStages[stage].duration
      ensures binding.timerId == old(binding.timerId)
      ensures binding.HasId() && binding.timerId.value in old(binding.store.timers) ==>
        binding.store.timers == old(binding.store.timers)[binding.timerId.value :=
          Retargeted(old(binding.store.timers)[binding.timerId.value], ProofingStages[stage].duration)]
      ensures !(binding.HasId() && binding.timerId.value in old(binding.store.timers)) ==>
        binding.store.timers == old(binding.store.timers)
      ensures binding.store.activeTimerId == old(binding.store.activeTimerId)
      ensures binding.effects == old(binding.effects) + (if binding.HasId() then [StopTitleAnimation] else [])
      ensures old(binding.store.Valid()) ==> binding.store.Valid()
      ensures Valid()
    {
      selectedStage := stage;
      useCustom := false;
      binding.Retarget(ProofingStages[stage].duration);
    }

    /** `handleCustomDuration`: the custom minutes are chosen and the timer set afresh to them. */
    method HandleCustomDuration()
      requires Valid()
      modifies this, binding, binding.store
      ensures useCustom && selectedStage == old(selectedStage) && customDuration == old(customDuration)
      ensures ConfiguredDuration() == customDuration * 60
      ensures binding.timerId == old(binding.timerId)
      ensures binding.HasId() && binding.timerId.value in old(binding.store.timers) ==>
        binding.store.timers == old(binding.store.timers)[binding.timerId.value :=
          Retargeted(old(binding.store.timers)[binding.timerId.value], customDuration * 60)]
      ensures !(binding.HasId() && binding.timerId.value in old(binding.store.timers)) ==>
        binding.store.timers == old(binding.store.timers)
      ensures binding.store.activeTimerId == old(binding.store.activeTimerId)
      ensures binding.effects == old(binding.effects) + (if binding.HasId() then [StopTitleAnimation] else [])
      ensures old(binding.store.Valid()) && customDuration > 0 ==> binding.store.Valid()
      ensures Valid()
    {
      useCustom := true;
      binding.Retarget(customDuration * 60);
    }

    /** The custom-minutes input. */
    method SetCustomDuration(text: string)
      requires Valid()
      modifies this
      ensures customDuration == CustomMinutes(text)
      ensures selectedStage == old(selectedStage) && useCustom == old(useCustom)
      ensures Valid()
    {
      customDuration := CustomMinutes(text);
    }
  }
}
