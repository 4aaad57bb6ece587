/**
 * The session history of `src/stores/historyStore.ts`: the newest session
 * first, at most 1000 kept, and the statistics computed over the sessions
 * of a time range. Persistence to local storage and the streak count are
 * not part of this model; the current time is a parameter.
 */
module HistoryStore {
  import opened Wrappers
  import opened TimerTypes

  const MaxSessions: nat := 1000

  datatype TimeRange = Today | Week | Month | Year | All

  /** The lowest `completedAt` a session may have to be counted; `None` for "all" (an infinite range). */
  function Cutoff(range: TimeRange, now: int): (r: Option<int>)
    ensures r.None? <==> range == All
    ensures r.Some? ==> r.value < now
  {
    match range
    case Today => Some(now - 24 * 60 * 60 * 1000)
    case Week => Some(now - 7 * 24 * 60 * 60 * 1000)
    case Month => Some(now - 30 * 24 * 60 * 60 * 1000)
    case Year => Some(now - 365 * 24 * 60 * 60 * 1000)
    case All => None
  }

  predicate Passes(s: TimerSession, cutoff: Option<int>) {
    cutoff.None? || s.completedAt >= cutoff.value
  }

  /** `sessions.filter(session => session.completedAt >= cutoff)`. */
  function SessionsSince(sessions: seq<TimerSession>, cutoff: Option<int>): (r: seq<TimerSession>)
    ensures |r| <= |sessions|
  {
    if sessions == [] then []
    else
      assert sessions == [sessions[0]] + sessions[1..];
      (if Passes(sessions[0], cutoff) then [sessions[0]] else []) + SessionsSince(sessions[1..], cutoff)
  }

  /** Every copy of a session in the range is kept, and none outside it. */
  lemma {:induction false} SessionsSinceCounts(sessions: seq<TimerSession>, cutoff: Option<int>)
    ensures forall s :: s in SessionsSince(sessions, cutoff) <==> s in sessions && Passes(s, cutoff)
    ensures forall s :: multiset(SessionsSince(sessions, cutoff))[s] == if Passes(s, cutoff) then multiset(sessions)[s] else 0
  {
    if sessions != [] {
      SessionsSinceCounts(sessions[1..], cutoff);
      assert sessions == [sessions[0]] + sessions[1..];
    }
  }

  /** One session is kept exactly when it lies in the range. */
  lemma SessionsSinceOne(x: TimerSession, cutoff: Option<int>)
    ensures SessionsSince([x], cutoff) == if Passes(x, cutoff) then [x] else []
  {
    assert [x][1..] == [];
  }

  /** The filter keeps the order: filtering a concatenation concatenates the filtered parts. */
  lemma {:induction false} SessionsSinceAppend(a: seq<TimerSession>, b: seq<TimerSession>, cutoff: Option<int>)
    ensures SessionsSince(a + b, cutoff) == SessionsSince(a, cutoff) + SessionsSince(b, cutoff)
  {
    if a == [] {
      assert a + b == b;
    } else {
      assert (a + b)[0] == a[0] && (a + b)[1..] == a[1..] + b;
      SessionsSinceAppend(a[1..], b, cutoff);
      if Passes(a[0], cutoff) {
        assert SessionsSince(a + b, cutoff) == [a[0]] + SessionsSince(a[1..] + b, cutoff);
        assert SessionsSince(a, cutoff) == [a[0]] + SessionsSince(a[1..], cutoff);
        assert [a[0]] + (SessionsSince(a[1..], cutoff) + SessionsSince(b, cutoff)) == ([a[0]] + SessionsSince(a[1..], cutoff)) + SessionsSince(b, cutoff);
      } else {
        assert SessionsSince(a + b, cutoff) == SessionsSince(a[1..] + b, cutoff);
        assert SessionsSince(a, cutoff) == SessionsSince(a[1..], cutoff);
      }
    }
  }

  /** `sessions.filter(s => s.id !== id)`. */
  function WithoutId(sessions: seq<TimerSession>, id: string): (r: seq<TimerSession>)
    ensures |r| <= |sessions|
  {
    if sessions == [] then []
    else
      assert sessions == [sessions[0]] + sessions[1..];
      (if sessions[0].id != id then [sessions[0]] else []) + WithoutId(sessions[1..], id)
  }

  /** Every copy of a session with another id is kept, and none with this id. */
  lemma {:induction false} WithoutIdCounts(sessions: seq<TimerSession>, id: string)
    ensures forall s :: s in WithoutId(sessions, id) <==> s in sessions && s.id != id
    ensures forall s :: multiset(WithoutId(sessions, id))[s] == if s.id != id then multiset(sessions)[s] else 0
  {
    if sessions != [] {
      WithoutIdCounts(sessions[1..], id);
      assert sessions == [sessions[0]] + sessions[1..];
    }
  }

  /** One session is kept exactly when its id differs. */
  lemma WithoutIdOne(x: TimerSession, id: string)
    ensures WithoutId([x], id) == if x.id != id then [x] else []
  {
    assert [x][1..] == [];
  }

  /** Deleting by id keeps the other sessions in their order. */
  lemma {:induction false} WithoutIdAppend(a: seq<TimerSession>, b: seq<TimerSession>, id: string)
    ensures WithoutId(a + b, id) == WithoutId(a, id) + WithoutId(b, id)
  {
    if a == [] {
      assert a + b == b;
    } else {
      assert (a + b)[0] == a[0] && (a + b)[1..] == a[1..] + b;
      WithoutIdAppend(a[1..], b, id);
      if a[0].id != id {
        assert WithoutId(a + b, id) == [a[0]] + WithoutId(a[1..] + b, id);
        assert WithoutId(a, id) == [a[0]] + WithoutId(a[1..], id);
        assert [a[0]] + (WithoutId(a[1..], id) + WithoutId(b, id)) == ([a[0]] + WithoutId(a[1..], id)) + WithoutId(b, id);
      } else {
        assert WithoutId(a + b, id) == WithoutId(a[1..] + b, id);
        assert WithoutId(a, id) == WithoutId(a[1..], id);
      }
    }
  }

  /** `sessions.filter(session => session.timerType === type)`. */
  function OfType(sessions: seq<TimerSession>, t: TimerType): (r: seq<TimerSession>)
    ensures |r| <= |sessions|
  {
    if sessions == [] then []
    else
      assert sessions == [sessions[0]] + sessions[1..];
      (if sessions[0].timerType == t then [sessions[0]] else []) + OfType(sessions[1..], t)
  }

  /** Every copy of a session of the type is kept, and none of another type. */
  lemma {:induction false} OfTypeCounts(sessions: seq<TimerSession>, t: TimerType)
    ensures forall s :: s in OfType(sessions, t) <==> s in sessions && s.timerType == t
    ensures forall s :: multiset(OfType(sessions, t))[s] == if s.timerType == t then multiset(sessions)[s] else 0
  {
    if sessions != [] {
      OfTypeCounts(sessions[1..], t);
      assert sessions == [sessions[0]] + sessions[1..];
    }
  }

  /** One session is kept exactly when it has the type. */
  lemma OfTypeOne(x: TimerSession, t: TimerType)
    ensures OfType([x], t) == if x.timerType == t then [x] else []
  {
    assert [x][1..] == [];
  }

  /** Selecting by type keeps the sessions in their order. */
  lemma {:induction false} OfTypeAppend(a: seq<TimerSession>, b: seq<TimerSession>, t: TimerType)
    ensures OfType(a + b, t) == OfType(a, t) + OfType(b, t)
  {
    if a == [] {
      assert a + b == b;
    } else {
      assert (a + b)[0] == a[0] && (a + b)[1..] == a[1..] + b;
      OfTypeAppend(a[1..], b, t);
      if a[0].timerType == t {
        assert OfType(a + b, t) == [a[0]] + OfType(a[1..] + b, t);
        assert OfType(a, t) == [a[0]] + OfType(a[1..], t);
        assert [a[0]] + (OfType(a[1..], t) + OfType(b, t)) == ([a[0]] + OfType(a[1..], t)) + OfType(b, t);
      } else {
        assert OfType(a + b, t) == OfType(a[1..] + b, t);
        assert OfType(a, t) == OfType(a[1..], t);
      }
    }
  }

  /** The end index of `slice(0, limit)`: a negative limit counts back from the end. */
  function SliceEnd(length: nat, limit: int): (k: nat)
    ensures k <= length
    ensures 0 <= limit ==> k == (if limit < length then limit else length)
    ensures limit < 0 ==> k + (if -limit < length then -limit else length) == length
  {
    if limit < 0 then (if length + limit > 0 then length + limit else 0)
    else if limit < length then limit else length
  }

  // ------------------------------------------------------ statistics, spec side

  /** Sessions of type `t` in `sessions`. */
  function CountOfType(sessions: seq<TimerSession>, t: TimerType): nat {
    if sessions == [] then 0
    else CountOfType(sessions[..|sessions| - 1], t) + (if sessions[|sessions| - 1].timerType == t then 1 else 0)
  }

  /** Summed duration of the sessions of type `t`. */
  function TimeOfType(sessions: seq<TimerSession>, t: TimerType): int {
    if sessions == [] then 0
    else TimeOfType(sessions[..|sessions| - 1], t)
         + (if sessions[|sessions| - 1].timerType == t then sessions[|sessions| - 1].duration else 0)
  }

  function TotalTime(sessions: seq<TimerSession>): int {
    if sessions == [] then 0 else TotalTime(sessions[..|sessions| - 1]) + sessions[|sessions| - 1].duration
  }

  function CompletedCount(sessions: seq<TimerSession>): (r: nat)
    ensures r <= |sessions|
  {
    if sessions == [] then 0
    else CompletedCount(sessions[..|sessions| - 1]) + (if sessions[|sessions| - 1].wasCompleted then 1 else 0)
  }

  /** The `sessionsByType` record as the statistics pass builds it. */
  function CountsByType(sessions: seq<TimerSession>): map<TimerType, nat> {
    if sessions == [] then map[]
    else
      var m := CountsByType(sessions[..|sessions| - 1]);
      var t := sessions[|sessions| - 1].timerType;
      m[t := (if t in m then m[t] else 0) + 1]
  }

  /** The `timeByType` record as the statistics pass builds it. */
  function TimesByType(sessions: seq<TimerSession>): map<TimerType, int> {
    if sessions == [] then map[]
    else
      var m := TimesByType(sessions[..|sessions| - 1]);
      var s := sessions[|sessions| - 1];
      m[s.timerType := (if s.timerType in m then m[s.timerType] else 0) + s.duration]
  }

  predicate Distinct(types: seq<TimerType>) {
    forall i, j :: 0 <= i < j < |types| ==> types[i] != types[j]
  }

  /** The types in the order they are first met: the key order of `sessionsByType`. */
  function TypesInOrder(sessions: seq<TimerSession>): (r: seq<TimerType>)
    ensures Distinct(r)
    ensures forall t :: t in r <==> CountOfType(sessions, t) > 0
  {
    if sessions == [] then []
    else
      var before := TypesInOrder(sessions[..|sessions| - 1]);
      var t := sessions[|sessions| - 1].timerType;
      if t in before then before else before + [t]
  }

  /**
   * The favourite-timer loop over the types in key order: a type replaces
   * the current favourite only with a strictly greater count. Also returns
   * the greatest count.
   */
  function Favorite(order: seq<TimerType>, counts: map<TimerType, nat>): (r: (Option<TimerType>, nat))
    requires forall t :: t in order ==> t in counts
  {
    if order == [] then (None, 0)
    else
      var (best, most) := Favorite(order[..|order| - 1], counts);
      var t := order[|order| - 1];
      if counts[t] > most then (Some(t), counts[t]) else (best, most)
  }

  /** `getStatistics`' result without the streak. `typeOrder` is the key order of the two records. */
  datatype Statistics = Statistics(
    totalSessions: nat,
    totalTime: int,
    completedSessions: nat,
    abandonedSessions: int,
    favoriteTimer: Option<TimerType>,
    lastSessionDate: int,
    typeOrder: seq<TimerType>,
    sessionsByType: map<TimerType, nat>,
    timeByType: map<TimerType, int>)

  // --------------------------------------------------------------- lemmas

  /** The favourite is the first type with the greatest count; none exactly when no type has a positive count. */
  lemma {:induction false} FavoriteIsFirstMaximum(order: seq<TimerType>, counts: map<TimerType, nat>)
    requires forall t :: t in order ==> t in counts
    ensures var (best, most) := Favorite(order, counts);
      && (forall k :: 0 <= k < |order| ==> counts[order[k]] <= most)
      && (best.None? <==> most == 0)
      && (best.Some? ==> exists j :: 0 <= j < |order| && order[j] == best.value && counts[best.value] == most
                                     && forall k :: 0 <= k < j ==> counts[order[k]] < most)
  {
    if order != [] {
      var n := |order| - 1;
      var prefix := order[..n];
      assert forall t :: t in prefix ==> t in order;
      FavoriteIsFirstMaximum(prefix, counts);
      var (best, most) := Favorite(prefix, counts);
      var t := order[n];
      assert forall k :: 0 <= k < n ==> order[k] == prefix[k];
      if counts[t] > most {
        assert forall k :: 0 <= k < n ==> counts[order[k]] < counts[t];
        assert 0 <= n < |order| && order[n] == t && forall k :: 0 <= k < n ==> counts[order[k]] < counts[t];
      } else if best.Some? {
        var j :| 0 <= j < |prefix| && prefix[j] == best.value && counts[best.value] == most
                 && forall k :: 0 <= k < j ==> counts[prefix[k]] < most;
        assert 0 <= j < |order| && order[j] == best.value && forall k :: 0 <= k < j ==> counts[order[k]] < most;
      }
    }
  }

  /** Counting one more session adds one to its own type's count in the sum over distinct types. */
  lemma {:induction false} SumCountsStep(types: seq<TimerType>, sessions: seq<TimerSession>, s: TimerSession)
    requires Distinct(types)
    ensures SumCounts(types, sessions + [s]) == SumCounts(types, sessions) + (if s.timerType in types then 1 else 0)
  {
    if types != [] {
      var prefix := types[..|types| - 1];
      assert (sessions + [s])[..|sessions + [s]| - 1] == sessions;
      SumCountsStep(prefix, sessions, s);
      assert s.timerType in types <==> s.timerType in prefix || s.timerType == types[|types| - 1];
      assert s.timerType == types[|types| - 1] ==> s.timerType !in prefix;
    }
  }

  /** The counts over the distinct types in the range. */
  function SumCounts(types: seq<TimerType>, sessions: seq<TimerSession>): nat {
    if types == [] then 0
    else SumCounts(types[..|types| - 1], sessions) + CountOfType(sessions, types[|types| - 1])
  }

  /** The per-type counts add up to the number of sessions. */
  lemma {:induction false} CountsSumToTotal(sessions: seq<TimerSession>)
    ensures SumCounts(TypesInOrder(sessions), sessions) == |sessions|
  {
    if sessions != [] {
      var p := sessions[..|sessions| - 1];
      var s := sessions[|sessions| - 1];
      assert sessions == p + [s];
      CountsSumToTotal(p);
      var before := TypesInOrder(p);
      SumCountsStep(before, p, s);
      if s.timerType !in before {
        assert (before + [s.timerType])[..|before|] == before;
        assert CountOfType(p, s.timerType) == 0;
      }
    }
  }

  /** Both records have a key exactly for the types met, holding that type's count and summed duration. */
  lemma {:induction false} ByTypeMapsAgree(sessions: seq<TimerSession>)
    ensures forall t :: t in CountsByType(sessions) <==> CountOfType(sessions, t) > 0
    ensures forall t :: t in TimesByType(sessions) <==> t in CountsByType(sessions)
    ensures forall t :: t in CountsByType(sessions) ==>
      CountsByType(sessions)[t] == CountOfType(sessions, t) && TimesByType(sessions)[t] == TimeOfType(sessions, t)
    ensures forall t :: CountOfType(sessions, t) == 0 ==> TimeOfType(sessions, t) == 0
  {
    if sessions != [] {
      var p := sessions[..|sessions| - 1];
      ByTypeMapsAgree(p);
      forall t | t in CountsByType(sessions)
        ensures CountsByType(sessions)[t] == CountOfType(sessions, t)
        ensures t in TimesByType(sessions) && TimesByType(sessions)[t] == TimeOfType(sessions, t)
      {
        if t != sessions[|sessions| - 1].timerType {
          assert t in CountsByType(p);
        }
      }
    }
  }

  /** With the "all" range every session is counted. */
  lemma {:induction false} AllRangeKeepsEverything(sessions: seq<TimerSession>, now: int)
    ensures SessionsSince(sessions, Cutoff(All, now)) == sessions
  {
    if sessions != [] {
      AllRangeKeepsEverything(sessions[1..], now);
      assert [sessions[0]] + sessions[1..] == sessions;
    }
  }

  /** Deleting an id a second time changes nothing. */
  lemma {:induction false} DeleteIsIdempotent(sessions: seq<TimerSession>, id: string)
    ensures WithoutId(WithoutId(sessions, id), id) == WithoutId(sessions, id)
  {
    if sessions != [] {
      DeleteIsIdempotent(sessions[1..], id);
      var rest := WithoutId(sessions[1..], id);
      if sessions[0].id != id {
        assert WithoutId(sessions, id) == [sessions[0]] + rest;
        assert ([sessions[0]] + rest)[0] == sessions[0];
        assert ([sessions[0]] + rest)[1..] == rest;
      } else {
        assert WithoutId(sessions, id) == [] + rest == rest;
      }
    }
  }

  // ------------------------------------------------------------------ the store

  class History {
    var sessions: seq<TimerSession>

    ghost predicate Valid()
      reads this
    {
      |sessions| <= MaxSessions
    }

    constructor()
      ensures sessions == [] && Valid()
    {
      sessions := [];
    }

    /** `addSession`: the new session first, the oldest dropped beyond 1000. */
    method AddSession(session: TimerSession)
      modifies this
      ensures var all := [session] + old(sessions);
        sessions == all[..if |all| < MaxSessions then |all| else MaxSessions]
      ensures sessions[0] == session && |sessions| <= MaxSessions
      ensures Valid()
    {
      var all := [session] + sessions;
      sessions := all[..if |all| < MaxSessions then |all| else MaxSessions];
    }

    /** `clearHistory`. */
    method ClearHistory()
      modifies this
      ensures sessions == [] && Valid()
    {
      sessions := [];
    }

    /** `deleteSession`: every session with that id goes, the rest stay in order. */
    method DeleteSession(sessionId: string)
      modifies this
      ensures sessions == WithoutId(old(sessions), sessionId)
      ensures old(Valid()) ==> Valid()
    {
      sessions := WithoutId(sessions, sessionId);
    }

    /** `getSessionsByType`. */
    function SessionsByType(t: TimerType): (r: seq<TimerSession>)
      reads this
      ensures forall s :: s in r <==> s in sessions && s.timerType == t
      ensures forall s :: multiset(r)[s] == if s.timerType == t then multiset(sessions)[s] else 0
      ensures r == OfType(sessions, t)
    {
      OfTypeCounts(sessions, t);
      OfType(sessions, t)
    }

    /** `getRecentSessions(limit = 10)`: the newest sessions, as `slice(0, limit)` takes them. */
    function RecentSessions(limit: Option<int>): (r: seq<TimerSession>)
      reads this
      ensures |r| <= |sessions| && r == sessions[..|r|]
      ensures limit.GetOr(10) >= 0 ==> |r| == (if limit.GetOr(10) < |sessions| then limit.GetOr(10) else |sessions|)
      ensures limit.None? ==> |r| == (if |sessions| < 10 then |sessions| else 10)
    {
      sessions[..SliceEnd(|sessions|, limit.GetOr(10))]
    }

    /**
     * `getStatistics(timeRange = "all")` without the streak: the counters
     * are accumulated in one pass over the sessions of the range, then the
     * favourite is picked in key order.
     */
    method GetStatistics(range: Option<TimeRange>, now: int) returns (stats: Statistics)
      ensures var f := SessionsSince(sessions, Cutoff(range.GetOr(All), now));
        && stats.totalSessions == |f|
        && stats.totalTime == TotalTime(f)
        && stats.completedSessions == CompletedCount(f)
        && stats.abandonedSessions == |f| - CompletedCount(f)
        && stats.typeOrder == TypesInOrder(f)
        && (forall t :: t in stats.sessionsByType <==> CountOfType(f, t) > 0)
        && (forall t :: t in stats.sessionsByType ==>
              stats.sessionsByType[t] == CountOfType(f, t)
              && t in stats.timeByType && stats.timeByType[t] == TimeOfType(f, t))
        && (forall t :: t in stats.typeOrder ==> t in stats.sessionsByType)
        && stats.favoriteTimer == Favorite(stats.typeOrder, stats.sessionsByType).0
        && stats.lastSessionDate == (if f == [] then 0 else f[0].completedAt)
    {
      var filtered := SessionsSince(sessions, Cutoff(range.GetOr(All), now));
      var order, sessionsByType, timeByType, totalTime, completedSessions := Accumulate(filtered);
      ByTypeMapsAgree(filtered);
      var favorite := PickFavorite(order, sessionsByType);
      stats := Statistics(|filtered|, totalTime, completedSessions, |filtered| - completedSessions,
                          favorite, if filtered == [] then 0 else filtered[0].completedAt,
                          order, sessionsByType, timeByType);
    }
  }

  /** The `forEach` pass of `getStatistics`: the per-type records, their key order and the two totals. */
  method Accumulate(filtered: seq<TimerSession>)
    returns (order: seq<TimerType>, sessionsByType: map<TimerType, nat>, timeByType: map<TimerType, int>,
             totalTime: int, completedSessions: nat)
    ensures order == TypesInOrder(filtered)
    ensures sessionsByType == CountsByType(filtered) && timeByType == TimesByType(filtered)
    ensures totalTime == TotalTime(filtered) && completedSessions == CompletedCount(filtered)
  {
    sessionsByType, timeByType, order := map[], map[], [];
    totalTime, completedSessions := 0, 0;
    var i := 0;
    while i < |filtered|
      invariant 0 <= i <= |filtered|
      invariant order == TypesInOrder(filtered[..i])
      invariant sessionsByType == CountsByType(filtered[..i])
      invariant timeByType == TimesByType(filtered[..i])
      invariant totalTime == TotalTime(filtered[..i])
      invariant completedSessions == CompletedCount(filtered[..i])
    {
      var session := filtered[i];
      var t := session.timerType;
      assert filtered[..i + 1][..i] == filtered[..i];
      sessionsByType := sessionsByType[t := (if t in sessionsByType then sessionsByType[t] else 0) + 1];
      timeByType := timeByType[t := (if t in timeByType then timeByType[t] else 0) + session.duration];
      if t !in order {
        order := order + [t];
      }
      totalTime := totalTime + session.duration;
      if session.wasCompleted {
        completedSessions := completedSessions + 1;
      }
      i := i + 1;
    }
    assert filtered[..i] == filtered;
  }

  /** The favourite-timer loop itself. */
  method PickFavorite(order: seq<TimerType>, counts: map<TimerType, nat>) returns (favorite: Option<TimerType>)
    requires forall t :: t in order ==> t in counts
    ensures favorite == Favorite(order, counts).0
  {
    favorite := None;
    var maxSessions := 0;
    var i := 0;
    while i < |order|
      invariant 0 <= i <= |order|
      invariant (favorite, maxSessions) == Favorite(order[..i], counts)
    {
      assert order[..i + 1][..i] == order[..i];
      var count := counts[order[i]];
      if count > maxSessions {
        maxSessions := count;
        favorite := Some(order[i]);
      }
      i := i + 1;
    }
    assert order[..i] == order;
  }
}
