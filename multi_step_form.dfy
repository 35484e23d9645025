/** The service-selection flow controller: a step counter that the three
    steps advance, plus the restart and home callbacks that clear the
    flow's session lists. */
module MultiStep {
  import opened AppContext

  datatype Screen = ServicesScreen | DetailsScreen | MatchesScreen

  /** The screens rendered for a step value: one conditional per step. */
  function Rendered(step: int): (r: seq<Screen>)
    ensures |r| <= 1
    ensures |r| == 1 <==> 1 <= step <= 3
    ensures step == 1 ==> r == [ServicesScreen]
    ensures step == 2 ==> r == [DetailsScreen]
    ensures step == 3 ==> r == [MatchesScreen]
  {
    (if step == 1 then [ServicesScreen] else [])
    + (if step == 2 then [DetailsScreen] else [])
    + (if step == 3 then [MatchesScreen] else [])
  }

  /** Different steps never render the same screen. */
  lemma RenderedOneScreenPerStep(a: int, b: int)
    requires Rendered(a) != [] && Rendered(a) == Rendered(b)
    ensures a == b
  {
  }

  class MultiStepForm {
    var currentStep: int

    /** The counter starts at 1 and no transition takes it below 1. */
    ghost predicate Valid()
      reads this
    {
      currentStep >= 1
    }

    constructor()
      ensures Valid() && currentStep == 1
    {
      currentStep := 1;
    }

    method HandleNextStep()
      requires Valid()
      modifies this
      ensures Valid()
      ensures currentStep == old(currentStep) + 1
    {
      currentStep := currentStep + 1;
    }

    /** Empties the selected services and matches and goes back to step 1;
        identity and every other session field are untouched. */
    method HandleRestart(s: Session)
      modifies this, s`selectedServices, s`matchingContractors
      ensures s.selectedServices == [] && s.matchingContractors == []
      ensures Valid() && currentStep == 1
      ensures s.CurrentIdentity() == old(s.CurrentIdentity())
    {
      s.selectedServices := [];
      s.matchingContractors := [];
      currentStep := 1;
    }

    /** The same two clears as a restart, leaving the step where it is. */
    method HandleHome(s: Session)
      modifies s`selectedServices, s`matchingContractors
      ensures s.selectedServices == [] && s.matchingContractors == []
      ensures s.CurrentIdentity() == old(s.CurrentIdentity())
    {
      s.selectedServices := [];
      s.matchingContractors := [];
    }
  }
}
