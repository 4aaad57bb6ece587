/**
 * The board-game turn clock of `src/pages/timers/games/BoardGameTimer.tsx`:
 * each player in turn has a fixed number of seconds; a tap (or the clock
 * running out) passes the turn to the next player and records how long the
 * turn took.
 */
module BoardGameTimer {
  import opened Wrappers
  import opened Decimal
  import TimeUtils

  /** `formatTime`: whole minutes, a colon and two-digit seconds. */
  function FormatClock(seconds: nat): string {
    NatToString(seconds / 60) + ":" + Pad2(seconds % 60)
  }

  /** The clock text reads back, as "m:ss", to the seconds it shows. */
  lemma FormatClockRoundTrip(seconds: nat)
    ensures TimeUtils.ParseTime(FormatClock(seconds)) == Some(seconds)
  {
    var m, s := NatToString(seconds / 60), Pad2(seconds % 60);
    DigitsValueOfNatToString(seconds / 60);
    TimeUtils.ParseTimeTwoFields(m, s);
  }

  /**
   * The page's clock pads only the seconds: from ten minutes on it reads as
   * the shared "mm:ss" `formatTime`, below that it lacks the leading zero.
   */
  lemma FormatClockVsMmSs(seconds: nat)
    ensures seconds >= 600 ==> FormatClock(seconds) == TimeUtils.FormatTime(seconds, TimeUtils.MmSs)
    ensures seconds < 600 ==> "0" + FormatClock(seconds) == TimeUtils.FormatTime(seconds, TimeUtils.MmSs)
  {
    var q := seconds / 60;
    var m, s := NatToString(q), Pad2(seconds % 60);
    assert TimeUtils.FormatTime(seconds, TimeUtils.MmSs) == Pad2(q) + ":" + s;
    if seconds < 600 {
      Pad2IsPadStart(q);
      assert Pad2(q) == "0" + m;
      assert "0" + (m + ":" + s) == ("0" + m) + ":" + s;
    }
  }

  /** Moving one seat on from seat `a % n` is seat `(a + 1) % n`. */
  lemma NextSeat(a: nat, n: int)
    requires n >= 1
    ensures (a % n + 1) % n == (a + 1) % n
  {
    var q, r := a / n, a % n;
    if r + 1 < n {
      DivModUnique(a + 1, n, q, r + 1);
      DivModUnique(r + 1, n, 0, r + 1);
    } else {
      DivModUnique(a + 1, n, q + 1, 0);
      DivModUnique(r + 1, n, 1, 0);
    }
  }

  class Page {
    var timePerTurn: int
    var currentTime: int
    var currentPlayer: nat
    var playerCount: int
    var isRunning: bool
    var showSettings: bool
    var turnHistory: seq<int>

    /**
     * At least one player; the player to move is the number of turns taken
     * so far modulo the players; the clock shows between one second and a
     * whole turn; every recorded turn lasted less than a whole turn.
     */
    ghost predicate Valid()
      reads this
    {
      && playerCount >= 1 && timePerTurn >= 1
      && currentPlayer == |turnHistory| % playerCount
      && 1 <= currentTime <= timePerTurn
      && forall k :: 0 <= k < |turnHistory| ==> 0 <= turnHistory[k] < timePerTurn
    }

    constructor()
      ensures timePerTurn == 60 && currentTime == 60 && currentPlayer == 0 && playerCount == 2
      ensures !isRunning && !showSettings && turnHistory == []
      ensures Valid()
    {
      timePerTurn, currentTime, currentPlayer, playerCount := 60, 60, 0, 2;
      isRunning, showSettings, turnHistory := false, false, [];
    }

    /**
     * `handleNextPlayer`: the time the turn took is recorded, the next player
     * (wrapping round) moves with a full clock, and the clock runs.
     */
    method HandleNextPlayer()
      requires Valid()
      modifies this
      ensures turnHistory == old(turnHistory) + [old(timePerTurn) - old(currentTime)]
      ensures currentPlayer == (old(currentPlayer) + 1) % old(playerCount)
      ensures (|turnHistory| - 1) % old(playerCount) == old(currentPlayer)
      ensures currentTime == timePerTurn && isRunning
      ensures timePerTurn == old(timePerTurn) && playerCount == old(playerCount)
      ensures showSettings == old(showSettings)
      ensures Valid()
    {
      var timeTaken := timePerTurn - currentTime;
      turnHistory := turnHistory + [timeTaken];
      currentPlayer := (currentPlayer + 1) % playerCount;
      currentTime := timePerTurn;
      isRunning := true;
      NextSeat(|old(turnHistory)|, playerCount);
    }

    /** One second of the running clock: on its last second the turn passes; otherwise one second less. */
    method Tick()
      requires Valid() && isRunning
      modifies this
      ensures old(currentTime) <= 1 ==>
        turnHistory == old(turnHistory) + [old(timePerTurn) - old(currentTime)]
        && currentPlayer == (old(currentPlayer) + 1) % old(playerCount) && currentTime == timePerTurn
      ensures old(currentTime) > 1 ==>
        currentTime == old(currentTime) - 1 && turnHistory == old(turnHistory) && currentPlayer == old(currentPlayer)
      ensures isRunning && timePerTurn == old(timePerTurn) && playerCount == old(playerCount)
      ensures showSettings == old(showSettings)
      ensures Valid()
    {
      var prev := currentTime;
      if prev <= 1 {
        HandleNextPlayer();
        currentTime := timePerTurn;
      } else {
        currentTime := prev - 1;
      }
    }

    /** `handleTap`: starts a stopped clock, and otherwise passes the turn. */
    method HandleTap()
      requires Valid()
      modifies this
      ensures !old(isRunning) ==>
        turnHistory == old(turnHistory) && currentPlayer == old(currentPlayer) && currentTime == old(currentTime)
      ensures old(isRunning) ==>
        turnHistory == old(turnHistory) + [old(timePerTurn) - old(currentTime)]
        && currentPlayer == (old(currentPlayer) + 1) % old(playerCount) && currentTime == timePerTurn
      ensures isRunning && timePerTurn == old(timePerTurn) && playerCount == old(playerCount)
      ensures showSettings == old(showSettings)
      ensures Valid()
    {
      if !isRunning {
        isRunning := true;
      } else {
        HandleNextPlayer();
      }
    }

    /** `handleReset`: stopped, a full clock, the first player, no history. */
    method HandleReset()
      requires Valid()
      modifies this
      ensures !isRunning && currentTime == timePerTurn && currentPlayer == 0 && turnHistory == []
      ensures timePerTurn == old(timePerTurn) && playerCount == old(playerCount)
      ensures showSettings == old(showSettings)
      ensures Valid()
    {
      isRunning := false;
      currentTime := timePerTurn;
      currentPlayer := 0;
      turnHistory := [];
    }

    /** `handleSettingsChange`: the new player count and turn length, the panel closed, and a reset game. */
    method HandleSettingsChange(newPlayerCount: int, newTimePerTurn: int)
      requires newPlayerCount >= 1 && newTimePerTurn >= 1
      modifies this
      ensures playerCount == newPlayerCount && timePerTurn == newTimePerTurn && !showSettings
      ensures !isRunning && currentTime == newTimePerTurn && currentPlayer == 0 && turnHistory == []
      ensures Valid()
    {
      playerCount := newPlayerCount;
      timePerTurn := newTimePerTurn;
      currentTime := newTimePerTurn;
      showSettings := false;
      isRunning := false;
      currentTime := timePerTurn;
      currentPlayer := 0;
      turnHistory := [];
    }

    /** The settings button. */
    method ToggleSettings()
      modifies this
      ensures showSettings == !old(showSettings)
      ensures timePerTurn == old(timePerTurn) && currentTime == old(currentTime) && currentPlayer == old(currentPlayer)
      ensures playerCount == old(playerCount) && isRunning == old(isRunning) && turnHistory == old(turnHistory)
    {
      showSettings := !showSettings;
    }
  }
}
