/**
 * The Pomodoro page of `src/pages/timers/fitness/PomodoroTimer.tsx`:
 * 25-minute work sessions, a 5-minute break after each, and a 15-minute
 * break after every fourth. The random quote pick is a parameter.
 */
module PomodoroTimer {
  import opened SessionCycle

  const WorkTime: int := 25 * 60
  const ShortBreak: int := 5 * 60
  const LongBreak: int := 15 * 60
  const PomodorosBeforeLongBreak: nat := 4

  const Quotes: seq<string> := [
    "Take a deep breath. You've earned this break!",
    "Great work! Rest your mind for a moment.",
    "Progress is progress, no matter how small.",
    "You're doing amazing! Keep it up!",
    "Every pomodoro completed is a step forward.",
    "Rest is part of the process. Enjoy it!",
    "Your focus is impressive. Recharge now!",
    "Well done! Let your mind wander for a bit."]

  /** A break is long when a positive number of pomodoros, a multiple of four, is done. */
  predicate IsLongBreak(isWorkSession: bool, pomodoroCount: nat) {
    !isWorkSession && pomodoroCount % PomodorosBeforeLongBreak == 0 && pomodoroCount > 0
  }

  /** `getSessionDuration`. */
  function SessionDuration(isWorkSession: bool, pomodoroCount: nat): (d: int)
    ensures isWorkSession ==> d == WorkTime
    ensures !isWorkSession ==> (d == LongBreak <==> IsLongBreak(isWorkSession, pomodoroCount))
    ensures !isWorkSession ==> (d == ShortBreak <==> !IsLongBreak(isWorkSession, pomodoroCount))
  {
    if isWorkSession then WorkTime
    else if pomodoroCount % PomodorosBeforeLongBreak == 0 && pomodoroCount > 0 then LongBreak
    else ShortBreak
  }

  /** `getSessionTitle`. */
  function SessionTitle(isWorkSession: bool, pomodoroCount: nat): (r: string)
    ensures r == "Work Session" <==> isWorkSession
    ensures r == "Long Break" <==> IsLongBreak(isWorkSession, pomodoroCount)
    ensures r == "Short Break" <==> !isWorkSession && !IsLongBreak(isWorkSession, pomodoroCount)
  {
    if isWorkSession then "Work Session"
    else if pomodoroCount % PomodorosBeforeLongBreak == 0 && pomodoroCount > 0 then "Long Break"
    else "Short Break"
  }

  /** The title names exactly the kind of session the duration is for. */
  lemma TitleMatchesDuration(isWorkSession: bool, pomodoroCount: nat)
    ensures SessionTitle(isWorkSession, pomodoroCount) == "Work Session" <==> SessionDuration(isWorkSession, pomodoroCount) == WorkTime
    ensures SessionTitle(isWorkSession, pomodoroCount) == "Long Break" <==> SessionDuration(isWorkSession, pomodoroCount) == LongBreak
    ensures SessionTitle(isWorkSession, pomodoroCount) == "Short Break" <==> SessionDuration(isWorkSession, pomodoroCount) == ShortBreak
  {
  }

  /** Starting from a reset, the `n`-th break is long exactly when `n` is a multiple of four. */
  lemma NthBreakIsLong(n: nat)
    requires n >= 1
    ensures var (count, isWork) := AfterCompletions(2 * n - 1);
      !isWork && (SessionDuration(isWork, count) == LongBreak <==> n % 4 == 0)
  {
    CompletionsAlternate(n);
  }

  class Page {
    var pomodoroCount: nat
    var isWorkSession: bool
    var currentQuote: string
    var sessionDuration: int

    /** The duration shown always belongs to the current session. */
    ghost predicate Valid()
      reads this
    {
      sessionDuration == SessionDuration(isWorkSession, pomodoroCount)
    }

    constructor()
      ensures pomodoroCount == 0 && isWorkSession && currentQuote == "" && sessionDuration == WorkTime
      ensures Valid()
    {
      pomodoroCount, isWorkSession, currentQuote, sessionDuration := 0, true, "", WorkTime;
    }

    /** The effect on a change of session or count: the duration follows `getSessionDuration`. */
    method SessionChanged()
      modifies this
      ensures sessionDuration == SessionDuration(isWorkSession, pomodoroCount)
      ensures pomodoroCount == old(pomodoroCount) && isWorkSession == old(isWorkSession)
      ensures currentQuote == old(currentQuote)
      ensures Valid()
    {
      sessionDuration := SessionDuration(isWorkSession, pomodoroCount);
    }

    /** `handleComplete`, then the effect it triggers; `quoteIndex` is the random pick. */
    method HandleComplete(quoteIndex: nat)
      requires quoteIndex < |Quotes|
      modifies this
      ensures pomodoroCount == old(pomodoroCount) + (if old(isWorkSession) then 1 else 0)
      ensures isWorkSession == !old(isWorkSession)
      ensures (pomodoroCount, isWorkSession) == Completed((old(pomodoroCount), old(isWorkSession)))
      ensures currentQuote == if old(isWorkSession) then Quotes[quoteIndex] else ""
      ensures Valid()
    {
      if isWorkSession {
        pomodoroCount := pomodoroCount + 1;
        isWorkSession := false;
        currentQuote := Quotes[quoteIndex];
      } else {
        isWorkSession := true;
        currentQuote := "";
      }
      SessionChanged();
    }

    /** `resetPomodoro`. */
    method ResetPomodoro()
      modifies this
      ensures pomodoroCount == 0 && isWorkSession && currentQuote == "" && sessionDuration == WorkTime
      ensures Valid()
    {
      pomodoroCount, isWorkSession, currentQuote, sessionDuration := 0, true, "", WorkTime;
    }
  }
}
