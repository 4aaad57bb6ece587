/**
 * The five-second-rule game of `src/pages/timers/games/FiveSecondRule.tsx`:
 * a prompt, five seconds to answer it, an urgent state for the last two
 * seconds, and a beep when time is up. The prompt is kept as its index in
 * the prompt list, the random draws are a parameter and the beep is counted.
 */
module FiveSecondRule {

  const Prompts: seq<string> := [
    "Name 3 things you'd find in a kitchen",
    "Name 3 red fruits",
    "Name 3 countries in Europe",
    "Name 3 things you can do with a ball",
    "Name 3 animals that live in water",
    "Name 3 things you wear on your feet",
    "Name 3 pizza toppings",
    "Name 3 superhero powers",
    "Name 3 things that are cold",
    "Name 3 board games",
    "Name 3 things you do in the morning",
    "Name 3 yellow things",
    "Name 3 sports that use a ball",
    "Name 3 things found at a beach",
    "Name 3 desserts",
    "Name 3 things that fly",
    "Name 3 school subjects",
    "Name 3 things in your pocket/bag",
    "Name 3 green vegetables",
    "Name 3 things that make noise"]

  const RoundSeconds: int := 5

  /**
   * The prompt loop: the first random draw that differs from the current
   * prompt (with more than one prompt there always is such a draw among
   * enough of them).
   */
  method PickNewPrompt(currentIndex: nat, draws: seq<nat>) returns (newIndex: nat)
    requires forall k :: 0 <= k < |draws| ==> draws[k] < |Prompts|
    requires exists k :: 0 <= k < |draws| && draws[k] != currentIndex
    ensures newIndex < |Prompts| && newIndex != currentIndex
    ensures exists k :: 0 <= k < |draws| && draws[k] == newIndex && (forall j :: 0 <= j < k ==> draws[j] == currentIndex)
  {
    var i := 0;
    newIndex := draws[0];
    while newIndex == currentIndex && |Prompts| > 1
      invariant 0 <= i < |draws| && newIndex == draws[i]
      invariant forall j :: 0 <= j < i ==> draws[j] == currentIndex
      invariant exists k :: i <= k < |draws| && draws[k] != currentIndex
      decreases |draws| - i
    {
      i := i + 1;
      newIndex := draws[i];
    }
  }

  class Page {
    var timeLeft: int
    var isRunning: bool
    var promptIndex: nat
    var showPrompt: bool
    var soundEnabled: bool
    var isUrgent: bool
    var showTimeUp: bool
    var beeps: nat

    /**
     * The clock shows 0 to 5 seconds and runs only above 0; while it runs the
     * urgent state is on exactly for the last two seconds, and it is never on
     * with more left; "time's up" shows only on a stopped clock at 0.
     */
    ghost predicate Valid()
      reads this
    {
      && 0 <= timeLeft <= RoundSeconds && promptIndex < |Prompts|
      && (isRunning ==> timeLeft >= 1 && (isUrgent <==> timeLeft <= 2))
      && (isUrgent ==> timeLeft <= 2)
      && (showTimeUp ==> !isRunning && timeLeft == 0)
    }

    constructor()
      ensures timeLeft == 5 && !isRunning && promptIndex == 0 && showPrompt && soundEnabled
      ensures !isUrgent && !showTimeUp && beeps == 0
      ensures Valid()
    {
      timeLeft, isRunning, promptIndex, showPrompt := 5, false, 0, true;
      soundEnabled, isUrgent, showTimeUp, beeps := true, false, false, 0;
    }

    /**
     * One second of the running clock: at its last second the round stops,
     * "time's up" shows and the beep sounds if sound is on; otherwise one
     * second less, turning urgent on the way to 2 seconds.
     */
    method Tick()
      requires Valid() && isRunning
      modifies this
      ensures old(timeLeft) <= 1 ==>
        !isRunning && showTimeUp && timeLeft == 0 && isUrgent == old(isUrgent)
        && beeps == old(beeps) + (if soundEnabled then 1 else 0)
      ensures old(timeLeft) > 1 ==>
        isRunning && !showTimeUp && timeLeft == old(timeLeft) - 1 && beeps == old(beeps)
        && isUrgent == (old(isUrgent) || old(timeLeft) <= 3)
      ensures promptIndex == old(promptIndex) && showPrompt == old(showPrompt) && soundEnabled == old(soundEnabled)
      ensures Valid()
    {
      var prev := timeLeft;
      if prev <= 1 {
        isRunning := false;
        showTimeUp := true;
        if soundEnabled {
          beeps := beeps + 1;
        }
        timeLeft := 0;
        return;
      }
      if prev <= 3 && !isUrgent {
        isUrgent := true;
      }
      timeLeft := prev - 1;
    }

    /** `handleStart`: five seconds, running, calm, the prompt shown. */
    method HandleStart()
      modifies this
      ensures timeLeft == 5 && isRunning && !isUrgent && !showTimeUp && showPrompt
      ensures promptIndex == old(promptIndex) && soundEnabled == old(soundEnabled) && beeps == old(beeps)
      ensures old(Valid()) ==> Valid()
    {
      timeLeft, isRunning, isUrgent, showTimeUp, showPrompt := 5, true, false, false, true;
    }

    /** `handleNewPrompt`: a different prompt and a stopped, full clock. */
    method HandleNewPrompt(draws: seq<nat>)
      requires Valid()
      requires forall k :: 0 <= k < |draws| ==> draws[k] < |Prompts|
      requires exists k :: 0 <= k < |draws| && draws[k] != promptIndex
      modifies this
      ensures promptIndex != old(promptIndex)
      ensures timeLeft == 5 && !isRunning && !isUrgent && !showTimeUp
      ensures showPrompt == old(showPrompt) && soundEnabled == old(soundEnabled) && beeps == old(beeps)
      ensures Valid()
    {
      var newIndex := PickNewPrompt(promptIndex, draws);
      promptIndex := newIndex;
      timeLeft, isRunning, isUrgent, showTimeUp := 5, false, false, false;
    }

    /** `handleReset`: a stopped, full clock. */
    method HandleReset()
      modifies this
      ensures timeLeft == 5 && !isRunning && !isUrgent && !showTimeUp
      ensures promptIndex == old(promptIndex) && showPrompt == old(showPrompt)
      ensures soundEnabled == old(soundEnabled) && beeps == old(beeps)
      ensures old(Valid()) ==> Valid()
    {
      timeLeft, isRunning, isUrgent, showTimeUp := 5, false, false, false;
    }

    /** The sound button. */
    method ToggleSound()
      modifies this
      ensures soundEnabled == !old(soundEnabled)
      ensures timeLeft == old(timeLeft) && isRunning == old(isRunning) && promptIndex == old(promptIndex)
      ensures showPrompt == old(showPrompt) && isUrgent == old(isUrgent) && showTimeUp == old(showTimeUp)
      ensures beeps == old(beeps)
      ensures old(Valid()) ==> Valid()
    {
      soundEnabled := !soundEnabled;
    }
  }
}
