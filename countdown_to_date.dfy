/**
 * The countdown-to-a-date page of
 * `src/pages/timers/productivity/CountdownToDate.tsx`: a list of saved
 * events, one of them active, and the time left until the active event
 * split into days, hours, minutes and seconds. The clock reading, the
 * target instant parsed from the event's date text and the new event's id
 * (the clock reading as text) are parameters.
 */
module CountdownToDate {
  import opened Wrappers
  import opened Decimal

  datatype SavedCountdown = SavedCountdown(id: string, name: string, targetDate: string)

  datatype TimeRemaining = TimeRemaining(days: int, hours: int, minutes: int, seconds: int, total: int)

  const MsPerSecond: int := 1000
  const MsPerMinute: int := 1000 * 60
  const MsPerHour: int := 1000 * 60 * 60
  const MsPerDay: int := 1000 * 60 * 60 * 24

  const Zero: TimeRemaining := TimeRemaining(0, 0, 0, 0, 0)

  /**
   * `calculateTimeRemaining` for a difference in milliseconds: all zero once
   * the target is reached; otherwise whole days, then the hours, minutes
   * and seconds left over, and the difference itself as the total.
   */
  function Remaining(difference: int): (r: TimeRemaining)
    ensures difference <= 0 ==> r == Zero
    ensures difference > 0 ==>
      r.total == difference && r.days >= 0 && 0 <= r.hours < 24 && 0 <= r.minutes < 60 && 0 <= r.seconds < 60
  {
    if difference <= 0 then Zero
    else
      TimeRemaining(difference / MsPerDay, (difference % MsPerDay) / MsPerHour,
                    (difference % MsPerHour) / MsPerMinute, (difference % MsPerMinute) / MsPerSecond,
                    difference)
  }

  /** The milliseconds the four fields account for. */
  function Accounted(r: TimeRemaining): int {
    r.days * MsPerDay + r.hours * MsPerHour + r.minutes * MsPerMinute + r.seconds * MsPerSecond
  }

  /** Taking a remainder by a multiple of `m` first does not change the remainder by `m`. */
  lemma ModOfMod(d: int, k: int, m: int)
    requires k > 0 && m > 0
    ensures (d % (k * m)) % m == d % m
  {
    var r := d % (k * m);
    var q := d / (k * m);
    assert d == q * (k * m) + r;
    var r2 := r % m;
    var q2 := r / m;
    assert r == q2 * m + r2;
    assert d == (q * k + q2) * m + r2;
    DivModUnique(d, m, q * k + q2, r2);
  }

  /**
   * Before the target, the fields account for the whole difference except
   * the milliseconds of the current second; at or after it, nothing is left.
   */
  lemma RemainingAccountsForDifference(difference: int)
    ensures var r := Remaining(difference);
      difference > 0 ==> Accounted(r) <= difference < Accounted(r) + MsPerSecond
    ensures difference <= 0 <==> Remaining(difference).total == 0
  {
    if difference > 0 {
      var r := Remaining(difference);
      var d := difference;
      assert d == r.days * MsPerDay + d % MsPerDay;
      ModOfMod(d, 24, MsPerHour);
      assert d % MsPerDay == r.hours * MsPerHour + d % MsPerHour;
      ModOfMod(d, 60, MsPerMinute);
      assert d % MsPerHour == r.minutes * MsPerMinute + d % MsPerMinute;
      ModOfMod(d, 60, MsPerSecond);
      assert d % MsPerMinute == r.seconds * MsPerSecond + d % MsPerSecond;
    }
  }

  /** `savedCountdowns.filter((c) => c.id !== id)`. */
  function WithoutId(saved: seq<SavedCountdown>, id: string): (r: seq<SavedCountdown>)
    ensures |r| <= |saved|
    ensures forall c :: c in r <==> c in saved && c.id != id
  {
    if saved == [] then []
    else
      var rest := WithoutId(saved[..|saved| - 1], id);
      var last := saved[|saved| - 1];
      assert saved == saved[..|saved| - 1] + [last];
      if last.id != id then rest + [last] else rest
  }

  /** Every copy of an entry with another id is kept, and none with this id. */
  lemma {:induction false} WithoutIdCounts(saved: seq<SavedCountdown>, id: string)
    ensures forall c :: multiset(WithoutId(saved, id))[c] == if c.id != id then multiset(saved)[c] else 0
  {
    if saved != [] {
      var prefix, last := saved[..|saved| - 1], saved[|saved| - 1];
      WithoutIdCounts(prefix, id);
      assert saved == prefix + [last];
    }
  }

  /** One entry is kept exactly when its id differs. */
  lemma WithoutIdOne(c: SavedCountdown, id: string)
    ensures WithoutId([c], id) == if c.id != id then [c] else []
  {
    assert [c][..0] == [];
  }

  /** Deleting by id keeps the other entries in their order. */
  lemma {:induction false} WithoutIdAppend(a: seq<SavedCountdown>, b: seq<SavedCountdown>, id: string)
    ensures WithoutId(a + b, id) == WithoutId(a, id) + WithoutId(b, id)
  {
    if b == [] {
      assert a + b == a;
    } else {
      var prefix, last := b[..|b| - 1], b[|b| - 1];
      var tail := if last.id != id then [last] else [];
      assert (a + b)[..|a + b| - 1] == a + prefix && (a + b)[|a + b| - 1] == last;
      assert WithoutId(a + b, id) == WithoutId(a + prefix, id) + tail;
      assert WithoutId(b, id) == WithoutId(prefix, id) + tail;
      WithoutIdAppend(a, prefix, id);
      assert (WithoutId(a, id) + WithoutId(prefix, id)) + tail == WithoutId(a, id) + (WithoutId(prefix, id) + tail);
    }
  }

  /** Deleting an id a second time changes nothing. */
  lemma {:induction false} DeleteTwiceKeeps(saved: seq<SavedCountdown>, id: string)
    ensures WithoutId(WithoutId(saved, id), id) == WithoutId(saved, id)
  {
    if saved != [] {
      var prefix := saved[..|saved| - 1];
      DeleteTwiceKeeps(prefix, id);
      var rest := WithoutId(prefix, id);
      var last := saved[|saved| - 1];
      if last.id != id {
        assert (rest + [last])[..|rest + [last]| - 1] == rest;
      }
    }
  }

  class Page {
    var eventName: string
    var targetDate: string
    var saved: seq<SavedCountdown>
    var active: Option<SavedCountdown>
    var remaining: TimeRemaining
    var isCompleted: bool

    /** A completed countdown shows nothing left. */
    ghost predicate Valid()
      reads this
    {
      isCompleted ==> remaining == Zero
    }

    /** The page on load, with the list read back from storage. */
    constructor(stored: seq<SavedCountdown>)
      ensures eventName == "" && targetDate == "" && saved == stored
      ensures active == None && remaining == Zero && !isCompleted
      ensures Valid()
    {
      eventName, targetDate, saved := "", "", stored;
      active, remaining, isCompleted := None, Zero, false;
    }

    /**
     * One run of `calculateTimeRemaining` (on activation and every second
     * after): nothing without an active event; else completion exactly when
     * the target is reached, and the split of what remains.
     */
    method Refresh(now: int, target: int)
      modifies this
      ensures active.None? ==> remaining == old(remaining) && isCompleted == old(isCompleted)
      ensures active.Some? ==> isCompleted == (target - now <= 0) && remaining == Remaining(target - now)
      ensures eventName == old(eventName) && targetDate == old(targetDate)
      ensures saved == old(saved) && active == old(active)
      ensures old(Valid()) ==> Valid()
    {
      if active.None? {
        return;
      }
      var difference := target - now;
      if difference <= 0 {
        isCompleted := true;
        remaining := Zero;
        return;
      }
      isCompleted := false;
      remaining := Remaining(difference);
    }

    /** `handleSaveCountdown`: nothing without a name and a date; else the event is appended and made active. */
    method HandleSaveCountdown(id: string)
      modifies this
      ensures old(eventName) == "" || old(targetDate) == "" ==>
        saved == old(saved) && active == old(active) && eventName == old(eventName) && targetDate == old(targetDate)
      ensures old(eventName) != "" && old(targetDate) != "" ==>
        var created := SavedCountdown(id, old(eventName), old(targetDate));
        saved == old(saved) + [created] && active == Some(created) && eventName == "" && targetDate == ""
      ensures remaining == old(remaining) && isCompleted == old(isCompleted)
    {
      if eventName == "" || targetDate == "" {
        return;
      }
      var created := SavedCountdown(id, eventName, targetDate);
      saved := saved + [created];
      active := Some(created);
      eventName, targetDate := "", "";
    }

    /** `handleDeleteCountdown`: the entries with that id go, and the active event with them. */
    method HandleDeleteCountdown(id: string)
      modifies this
      ensures saved == WithoutId(old(saved), id)
      ensures forall c :: c in saved ==> c.id != id
      ensures active == if old(active).Some? && old(active).value.id == id then None else old(active)
      ensures eventName == old(eventName) && targetDate == old(targetDate)
      ensures remaining == old(remaining) && isCompleted == old(isCompleted)
    {
      saved := WithoutId(saved, id);
      if active.Some? && active.value.id == id {
        active := None;
      }
    }

    /** A saved event's row: it becomes the active one. */
    method SelectCountdown(c: SavedCountdown)
      modifies this
      ensures active == Some(c)
      ensures saved == old(saved) && eventName == old(eventName) && targetDate == old(targetDate)
      ensures remaining == old(remaining) && isCompleted == old(isCompleted)
    {
      active := Some(c);
    }

    /** The close buttons: no active event. */
    method ClearActive()
      modifies this
      ensures active == None
      ensures saved == old(saved) && eventName == old(eventName) && targetDate == old(targetDate)
      ensures remaining == old(remaining) && isCompleted == old(isCompleted)
    {
      active := None;
    }
  }
}
