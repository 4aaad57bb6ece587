/**
 * The work/break alternation shared by the Pomodoro and 52/17 pages: each
 * completed session flips between work and break, and only a finished work
 * session is counted.
 */
module SessionCycle {

  /** The (sessions counted, is a work session) state after one more completion. */
  function Completed(state: (nat, bool)): (nat, bool) {
    var (count, isWork) := state;
    if isWork then (count + 1, false) else (count, true)
  }

  /** The session state after `k` completions from the reset state (nothing counted, a work session). */
  function AfterCompletions(k: nat): (nat, bool) {
    if k == 0 then (0, true) else Completed(AfterCompletions(k - 1))
  }

  /** After `2n - 1` completions the `n`-th break runs; after `2n` the next work session. */
  lemma {:induction false} CompletionsAlternate(n: nat)
    ensures AfterCompletions(2 * n) == (n, true)
    ensures n >= 1 ==> AfterCompletions(2 * n - 1) == (n, false)
  {
    if n >= 1 {
      CompletionsAlternate(n - 1);
      assert AfterCompletions(2 * n - 1) == Completed(AfterCompletions(2 * (n - 1)));
    }
  }

  /** After `k` completions, `(k + 1) / 2` work sessions are counted, and work runs exactly after an even number. */
  lemma CountAfterCompletions(k: nat)
    ensures AfterCompletions(k) == ((k + 1) / 2, k % 2 == 0)
  {
    if k % 2 == 0 {
      CompletionsAlternate(k / 2);
    } else {
      CompletionsAlternate((k + 1) / 2);
    }
  }
}
