/** The contractor-results flow controller: a step counter that only moves
    forward. */
module ResultsFlow {

  datatype Screen = QuoteScreen | ConfirmationScreen

  /** The screens rendered for a step value: steps 1 and 2 render one screen
      each, every other value renders nothing. */
  function Rendered(step: int): (r: seq<Screen>)
    ensures |r| <= 1
    ensures |r| == 1 <==> step == 1 || step == 2
    ensures step == 1 ==> r == [QuoteScreen]
    ensures step == 2 ==> r == [ConfirmationScreen]
  {
    (if step == 1 then [QuoteScreen] else []) + (if step == 2 then [ConfirmationScreen] else [])
  }

  class ResultsForm {
    var currentStep: int

    /** The counter starts at 1 and can never go below it. */
    ghost predicate Valid()
      reads this
    {
      currentStep >= 1
    }

    constructor()
      ensures Valid() && currentStep == 1
    {
      currentStep := 1;
    }

    /** The only transition: forward by one. */
    method HandleNextStep()
      requires Valid()
      modifies this
      ensures Valid()
      ensures currentStep == old(currentStep) + 1
    {
      currentStep := currentStep + 1;
    }
  }

  /** Once the counter is past the confirmation screen, nothing is rendered
      and no transition brings a screen back. */
  lemma PastLastStepRendersNothing(step: int, later: int)
    requires step >= 3 && later >= step
    ensures Rendered(later) == []
  {
  }
}
