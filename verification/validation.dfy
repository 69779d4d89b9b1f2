/** Step completeness and the navigation rule of the wizard. */
module Validation {
  import opened Wrappers
  import opened Wizard

  /** isStepComplete: each step's own selections are non-null; other numbers are never complete. */
  function IsStepComplete(s: WizardState, step: int): (r: bool)
    ensures step == Reference ==> (r <==> s.referenceImage.Some?)
    ensures step == Equipment ==> (r <==> s.camera.Some? && s.lens.Some?)
    ensures step == ArtDirection ==> (r <==> s.genre.Some? && s.artist.Some?)
    ensures step == Lighting ==> (r <==> s.lightingScenario.Some?)
    ensures step == Output ==> (r <==> s.generatedPrompt.Some?)
    ensures !(0 <= step <= 4) ==> !r
  {
    if step == Reference then s.referenceImage.Some?
    else if step == Equipment then s.camera.Some? && s.lens.Some?
    else if step == ArtDirection then s.genre.Some? && s.artist.Some?
    else if step == Lighting then s.lightingScenario.Some?
    else if step == Output then s.generatedPrompt.Some?
    else false
  }

  /** canNavigateToStep: the early-returning scan over steps 0 .. target-1. */
  function CanNavigateToStep(s: WizardState, target: int): (r: bool)
    ensures r <==> forall i :: 0 <= i < target ==> IsStepComplete(s, i)
  {
    ScanFrom(s, 0, target)
  }

  /** The scan from step i on: false at the first incomplete step before target. */
  function ScanFrom(s: WizardState, i: nat, target: int): (r: bool)
    decreases target - i
    ensures r <==> forall j :: i <= j < target ==> IsStepComplete(s, j)
  {
    if i >= target then true
    else if !IsStepComplete(s, i) then false
    else ScanFrom(s, i + 1, target)
  }

  /** Reference, and anything at or below it, is always reachable. */
  lemma ReferenceAlwaysNavigable(s: WizardState, target: int)
    requires target <= Reference
    ensures CanNavigateToStep(s, target)
  {
  }

  /** One more step is reachable exactly when this one is and its own step is complete. */
  lemma NavigateStepwise(s: WizardState, t: int)
    requires t >= 0
    ensures CanNavigateToStep(s, t + 1) <==> CanNavigateToStep(s, t) && IsStepComplete(s, t)
  {
  }

  /** Reachability is downward closed. */
  lemma NavigateMonotone(s: WizardState, t: int, u: int)
    requires u <= t && CanNavigateToStep(s, t)
    ensures CanNavigateToStep(s, u)
  {
  }

  /** Nothing beyond Output + 1 is reachable, since step 5 is never complete. */
  lemma NothingBeyondOutput(s: WizardState, t: int)
    requires t > Output + 1
    ensures !CanNavigateToStep(s, t)
  {
    assert !IsStepComplete(s, Output + 1);
  }

  /** In the initial state no step is complete, so only Reference is reachable. */
  lemma InitialOnlyReference(t: int)
    ensures forall step :: !IsStepComplete(InitialWizardState, step)
    ensures CanNavigateToStep(InitialWizardState, t) <==> t <= Reference
  {
    if t > Reference {
      assert !IsStepComplete(InitialWizardState, 0);
    }
  }
}
