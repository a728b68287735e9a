/** The step indicator of the sign-up pages
    (`src/components/signup/ProgressSteps.tsx`): which step is active, which
    are complete, and which connectors between steps are highlighted. */
module ProgressSteps {
  import opened Base

  /** A step of the indicator; its icon is not modelled. */
  datatype Step = Step(id: string, name: string)

  /** `steps.findIndex(s => s.id === id)`: the first index with that id, or -1. */
  function FindIndex(steps: seq<Step>, id: string): (r: int)
    ensures -1 <= r < |steps|
    ensures r == -1 <==> forall i :: 0 <= i < |steps| ==> steps[i].id != id
    ensures r >= 0 ==> steps[r].id == id && forall i :: 0 <= i < r ==> steps[i].id != id
  {
    if steps == [] then -1
    else if steps[0].id == id then 0
    else
      var k := FindIndex(steps[1..], id);
      assert forall i :: 1 <= i < |steps| ==> steps[i] == steps[1..][i - 1];
      if k == -1 then -1 else k + 1
  }

  /** How one step is drawn. `connector` is present when a line follows the
      step and tells whether it is highlighted. */
  datatype StepView = StepView(active: bool, complete: bool, connector: Option<bool>)

  function ViewAt(steps: seq<Step>, currentStep: string, i: int): StepView
    requires 0 <= i < |steps|
  {
    var complete := FindIndex(steps, currentStep) > i;
    StepView(steps[i].id == currentStep, complete,
             if i < |steps| - 1 then Some(complete) else None)
  }

  /** The `steps.map` of the component, one view per step. */
  function Render(steps: seq<Step>, currentStep: string): (r: seq<StepView>)
    ensures |r| == |steps|
    ensures forall i :: 0 <= i < |steps| ==> (r[i].active <==> steps[i].id == currentStep)
    ensures forall i :: 0 <= i < |steps| ==> (r[i].complete <==> i < FindIndex(steps, currentStep))
    ensures forall i :: 0 <= i < |steps| ==> (r[i].connector.Some? <==> i < |steps| - 1)
    ensures forall i :: 0 <= i < |steps| && r[i].connector.Some? ==> r[i].connector.value == r[i].complete
  {
    seq(|steps|, i requires 0 <= i < |steps| => ViewAt(steps, currentStep, i))
  }

  /** With a current step that is not among the steps, nothing is complete. */
  lemma AbsentStepCompletesNothing(steps: seq<Step>, currentStep: string)
    requires forall i :: 0 <= i < |steps| ==> steps[i].id != currentStep
    ensures forall i :: 0 <= i < |steps| ==>
              !Render(steps, currentStep)[i].complete && !Render(steps, currentStep)[i].active
  {
  }

  /** A complete step is never the active one, and every step before the
      first active one is complete. */
  lemma CompleteStepsPrecedeActive(steps: seq<Step>, currentStep: string, i: int)
    requires 0 <= i < |steps|
    ensures Render(steps, currentStep)[i].complete ==> !Render(steps, currentStep)[i].active
    ensures var k := FindIndex(steps, currentStep);
            k >= 0 && i < k ==> Render(steps, currentStep)[i].complete
  {
  }

  /** Ids of the steps are pairwise different. */
  predicate DistinctIds(steps: seq<Step>) {
    forall i, j :: 0 <= i < j < |steps| ==> steps[i].id != steps[j].id
  }

  /** With distinct ids and a current step that is present, exactly the step
      at its index is active, and the complete steps are exactly those
      before it. */
  lemma ExactlyOneActive(steps: seq<Step>, currentStep: string, k: int)
    requires DistinctIds(steps)
    requires 0 <= k < |steps| && steps[k].id == currentStep
    ensures FindIndex(steps, currentStep) == k
    ensures forall i :: 0 <= i < |steps| ==> (Render(steps, currentStep)[i].active <==> i == k)
    ensures forall i :: 0 <= i < |steps| ==> (Render(steps, currentStep)[i].complete <==> i < k)
  {
  }

  /** The sign-up pages' steps, with the ids the pages use. */
  const SignupSteps := [Step("info", "Info"), Step("password", "Password"), Step("company", "Company")]

  /** On the password step, Info is complete, Password active, Company ahead;
      only the first connector is lit. */
  lemma PasswordStepView()
    ensures Render(SignupSteps, "password") ==
              [StepView(false, true, Some(true)), StepView(true, false, Some(false)),
               StepView(false, false, None)]
  {
    assert FindIndex(SignupSteps, "password") == 1 by {
      ExactlyOneActive(SignupSteps, "password", 1);
    }
  }
}
