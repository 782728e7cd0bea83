/** The step progress bar (components/progress/progress-bar.tsx): the share
    of steps done, in percent, clamped to [0, 100]. */
module ProgressBar {
  import opened Js

  /** `progress`: `currentStep / totalSteps` as a percentage, clamped. */
  function Progress(currentStep: real, totalSteps: real): (p: real)
    requires totalSteps != 0.0
    ensures 0.0 <= p <= 100.0
  {
    Min(Max(currentStep / totalSteps * 100.0, 0.0), 100.0)
  }

  /** With a positive number of steps: nothing done is 0, all done (or more)
      is 100, and in between the bar shows the exact share. */
  lemma ProgressShape(currentStep: real, totalSteps: real)
    requires totalSteps > 0.0
    ensures currentStep <= 0.0 ==> Progress(currentStep, totalSteps) == 0.0
    ensures currentStep >= totalSteps ==> Progress(currentStep, totalSteps) == 100.0
    ensures 0.0 <= currentStep <= totalSteps ==>
      Progress(currentStep, totalSteps) == currentStep / totalSteps * 100.0
  {
    if 0.0 <= currentStep <= totalSteps {
      ShareAtMostOne(currentStep, totalSteps);
    }
    if currentStep >= totalSteps {
      ShareAtLeastOne(currentStep, totalSteps);
    }
  }

  /** More steps done never shortens the bar. */
  lemma ProgressMonotone(a: real, b: real, totalSteps: real)
    requires totalSteps > 0.0 && a <= b
    ensures Progress(a, totalSteps) <= Progress(b, totalSteps)
  {
    assert a / totalSteps <= b / totalSteps by {
      assert (b - a) / totalSteps >= 0.0;
      assert b / totalSteps - a / totalSteps == (b - a) / totalSteps;
    }
  }
}
