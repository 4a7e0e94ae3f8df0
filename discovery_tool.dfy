/** The home page's discovery tool: the first three steps of the discover
    quiz, with the same toggle rule; "next" on the last step does nothing. */
module DiscoveryTool {
  import opened Seqs
  import opened Selection
  import Discover

  const Steps: seq<Step> := [
    Step("interests", "What interests you?",
      ["Environment", "Education", "Health", "Poverty", "Human Rights", "Technology", "Arts & Culture", "Animal Welfare"]),
    Step("skills", "What skills can you contribute?",
      ["Research", "Writing", "Design", "Programming", "Teaching", "Public Speaking", "Organization", "Fundraising"]),
    Step("values", "What values drive you?",
      ["Justice", "Compassion", "Innovation", "Community", "Sustainability", "Equality", "Independence", "Cooperation"])
  ]

  /** The tool's steps are the discover page's first three, word for word. */
  lemma StepsArePrefixOfDiscover()
    ensures Steps == Discover.Steps[..3]
  {
  }

  /** The tool's state. */
  class Tool {
    var currentStep: nat
    var selectedAnswers: map<string, seq<string>>

    ghost predicate Valid()
      reads this
    {
      currentStep < |Steps| &&
      selectedAnswers.Keys == {"interests", "skills", "values"}
    }

    constructor ()
      ensures Valid()
      ensures currentStep == 0
      ensures selectedAnswers == map["interests" := [], "skills" := [], "values" := []]
      ensures AnswersWellFormed(Steps, selectedAnswers)
    {
      currentStep := 0;
      selectedAnswers := map["interests" := [], "skills" := [], "values" := []];
    }

    function CurrentStepId(): string
      reads this
      requires Valid()
    {
      Steps[currentStep].id
    }

    /** Whether `option` is shown as selected on the current step. */
    function IsOptionSelected(option: string): (b: bool)
      reads this
      requires Valid()
      ensures b <==> CurrentStepId() in selectedAnswers && option in selectedAnswers[CurrentStepId()]
    {
      option in Answers(selectedAnswers, CurrentStepId())
    }

    /** Clicking an option of the current step toggles it there; the other
        steps' lists and the step index are unchanged. */
    method SelectOption(option: string)
      requires Valid()
      modifies this
      ensures Valid()
      ensures currentStep == old(currentStep)
      ensures selectedAnswers == old(selectedAnswers)[CurrentStepId() :=
        Toggled(Answers(old(selectedAnswers), CurrentStepId()), option)]
      ensures IsOptionSelected(option) == !old(IsOptionSelected(option))
      ensures forall y :: y != option ==> IsOptionSelected(y) == old(IsOptionSelected(y))
      ensures old(AnswersWellFormed(Steps, selectedAnswers)) && option in Steps[currentStep].options ==>
        AnswersWellFormed(Steps, selectedAnswers)
    {
      var category := Steps[currentStep].id;
      var current := Answers(selectedAnswers, category);
      if AnswersWellFormed(Steps, selectedAnswers) && option in Steps[currentStep].options {
        ToggleKeepsWellFormed(Steps, selectedAnswers, currentStep, option);
      }
      if option in current {
        selectedAnswers := selectedAnswers[category := Without(current, option)];
      } else {
        selectedAnswers := selectedAnswers[category := current + [option]];
      }
    }

    /** "Continue" moves to the next step; on the last step it changes
        nothing. */
    method Next()
      requires Valid()
      modifies this
      ensures Valid()
      ensures currentStep == if old(currentStep) < |Steps| - 1 then old(currentStep) + 1 else old(currentStep)
      ensures selectedAnswers == old(selectedAnswers)
    {
      if currentStep < |Steps| - 1 {
        currentStep := currentStep + 1;
      }
    }

    /** "Back" moves to the previous step, and does nothing on the first. */
    method Back()
      requires Valid()
      modifies this
      ensures Valid()
      ensures currentStep == if old(currentStep) > 0 then old(currentStep) - 1 else 0
      ensures selectedAnswers == old(selectedAnswers)
    {
      if currentStep > 0 {
        currentStep := currentStep - 1;
      }
    }
  }

  /** Past the last step "Continue" is a no-op, and "Back" then "Continue"
      returns to the same step. */
  method NavigationWalkthrough()
  {
    var t := new Tool();
    t.Next();
    t.Next();
    assert t.currentStep == 2;
    t.Next();
    assert t.currentStep == 2;
    t.Back();
    t.Next();
    assert t.currentStep == 2;
  }
}
