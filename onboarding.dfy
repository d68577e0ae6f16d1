/** The onboarding carousel (app/onboarding.tsx): a step index moved by the
    Next and Back buttons under guards, and the buttons each step shows. */
module Onboarding {

  /** The titles of the three steps; only their number matters to the step machine. */
  const Titles: seq<string> := ["Welcome to Figmine", "Stay Organized & Connected", "Mirror & Collaborate"]

  const StepCount: int := |Titles|

  const LastStep: int := StepCount - 1

  predicate InRange(step: int) {
    0 <= step <= LastStep
  }

  /** `handleNext`: one step forward, except on the last step. */
  function Next(step: int): (r: int)
    ensures step < LastStep ==> r == step + 1
    ensures step >= LastStep ==> r == step
  {
    if step < StepCount - 1 then step + 1 else step
  }

  /** `handleBack`: one step back, except on the first step. */
  function Back(step: int): (r: int)
    ensures step > 0 ==> r == step - 1
    ensures step <= 0 ==> r == step
  {
    if step > 0 then step - 1 else step
  }

  /** The Skip link and the Next button are shown before the last step. */
  predicate ShowsSkip(step: int) {
    step < StepCount - 1
  }

  predicate ShowsNext(step: int) {
    step < StepCount - 1
  }

  /** Get started takes the Next button's place. */
  predicate ShowsGetStarted(step: int) {
    !(step < StepCount - 1)
  }

  /** Back is disabled (and faded) on the first step. */
  predicate BackDisabled(step: int) {
    step == 0
  }

  /** The progress dot at index i is the active one. */
  predicate ActiveDot(step: int, i: int) {
    step == i
  }

  datatype Press = NextPress | BackPress

  function Apply(step: int, p: Press): int {
    match p
    case NextPress => Next(step)
    case BackPress => Back(step)
  }

  function Run(step: int, presses: seq<Press>): int
    decreases |presses|
  {
    if |presses| == 0 then step else Run(Apply(step, presses[0]), presses[1..])
  }

  /** Neither button leaves the three steps. */
  lemma StepKeepsRange(step: int, p: Press)
    requires InRange(step)
    ensures InRange(Apply(step, p))
  {
  }

  /** From the first step, any sequence of Next and Back presses stays within the
      three steps. */
  lemma {:induction false} RunKeepsRange(step: int, presses: seq<Press>)
    requires InRange(step)
    ensures InRange(Run(step, presses))
    decreases |presses|
  {
    if |presses| > 0 {
      StepKeepsRange(step, presses[0]);
      RunKeepsRange(Apply(step, presses[0]), presses[1..]);
    }
  }

  /** Next then Back returns to the same step before the last one, and Back then
      Next returns to the same step after the first one; at the ends the guard
      makes the first press a no-op, so the pair does not return. */
  lemma NextBackInverse(step: int)
    requires InRange(step)
    ensures step < LastStep ==> Back(Next(step)) == step
    ensures step > 0 ==> Next(Back(step)) == step
    ensures step == LastStep ==> Back(Next(step)) == step - 1
    ensures step == 0 ==> Next(Back(step)) == 1
  {
  }

  /** On every step exactly one of Next and Get started is shown, Skip goes with
      Next, Back is disabled only on the first step, and exactly one progress
      dot is active. */
  lemma Buttons(step: int)
    requires InRange(step)
    ensures ShowsNext(step) != ShowsGetStarted(step)
    ensures ShowsSkip(step) <==> ShowsNext(step)
    ensures ShowsGetStarted(step) <==> step == 2
    ensures BackDisabled(step) <==> step == 0
    ensures ActiveDot(step, step) && forall i :: 0 <= i < StepCount && i != step ==> !ActiveDot(step, i)
  {
  }

  /** Pressing Next on every step but the last walks through all the titles. */
  lemma NextWalksThrough()
    ensures Run(0, [NextPress, NextPress]) == LastStep
    ensures Run(0, [NextPress, NextPress, NextPress]) == LastStep
    ensures Run(0, [BackPress]) == 0
  {
    var two := [NextPress, NextPress];
    assert two[1..] == [NextPress];
    var three := [NextPress, NextPress, NextPress];
    assert three[1..] == two;
  }

  /** The screen: its step state and whether `onDone` has been called. */
  class OnboardingScreen {
    var step: int
    var done: bool

    constructor()
      ensures step == 0 && !done
    {
      step, done := 0, false;
    }

    method HandleNext()
      modifies this
      ensures step == Next(old(step)) && done == old(done)
    {
      if step < StepCount - 1 {
        step := step + 1;
      }
    }

    method HandleBack()
      modifies this
      ensures step == Back(old(step)) && done == old(done)
    {
      if step > 0 {
        step := step - 1;
      }
    }

    /** Skip and Get started both hand over to `onDone`. */
    method HandleSkip()
      modifies this
      ensures done && step == old(step)
    {
      done := true;
    }

    method HandleGetStarted()
      modifies this
      ensures done && step == old(step)
    {
      done := true;
    }
  }
}
