/** The discover page: a four-step preference quiz whose last "next" opens
    the results tab, and a results list whose "Learn More" button opens one
    cause. The suggested causes and their match percentages are fixed data;
    no answer influences them. */
module Discover {
  import opened Wrappers
  import opened Seqs
  import opened Selection
  import Lookup

  const Steps: seq<Step> := [
    Step("interests", "What interests you?",
      ["Environment", "Education", "Health", "Poverty", "Human Rights", "Technology", "Arts & Culture", "Animal Welfare"]),
    Step("skills", "What skills can you contribute?",
      ["Research", "Writing", "Design", "Programming", "Teaching", "Public Speaking", "Organization", "Fundraising"]),
    Step("values", "What values drive you?",
      ["Justice", "Compassion", "Innovation", "Community", "Sustainability", "Equality", "Independence", "Cooperation"]),
    Step("time", "How much time can you commit?",
      ["1-2 hours/week", "3-5 hours/week", "6-10 hours/week", "10+ hours/week", "Project-based", "Full-time"])
  ]

  /** A suggested cause, with the fields the lookup and the list use. */
  datatype Cause = Cause(id: string, title: string, matchPercent: nat, tags: seq<string>)

  const Causes: seq<Cause> := [
    Cause("1", "Climate Justice", 92, ["Environment", "Justice", "Policy"]),
    Cause("2", "Digital Rights", 88, ["Technology", "Rights", "Privacy"]),
    Cause("3", "Food Security", 85, ["Hunger", "Agriculture", "Health"]),
    Cause("4", "Racial Equity", 79, ["Justice", "Equality", "Community"]),
    Cause("5", "Mental Health Advocacy", 76, ["Health", "Advocacy", "Education"]),
    Cause("6", "Early Childhood Education", 72, ["Education", "Children", "Development"])
  ]

  function CauseId(c: Cause): string { c.id }

  /** The page's state. */
  class Session {
    var currentStep: nat
    var selectedAnswers: map<string, seq<string>>
    var activeTab: string
    var selectedCause: Option<string>

    /** The step index stays in range and the answers are keyed by the
        four step ids. */
    ghost predicate Valid()
      reads this
    {
      currentStep < |Steps| &&
      selectedAnswers.Keys == {"interests", "skills", "values", "time"}
    }

    constructor ()
      ensures Valid()
      ensures currentStep == 0
      ensures selectedAnswers == map["interests" := [], "skills" := [], "values" := [], "time" := []]
      ensures activeTab == "quiz" && selectedCause == None
      ensures AnswersWellFormed(Steps, selectedAnswers)
    {
      currentStep := 0;
      selectedAnswers := map["interests" := [], "skills" := [], "values" := [], "time" := []];
      activeTab := "quiz";
      selectedCause := None;
    }

    function CurrentStepId(): string
      reads this
      requires Valid()
    {
      Steps[currentStep].id
    }

    /** Whether `option` is shown as selected on the current step. */
    function IsOptionSelected(option: string): (b: bool)
      reads this
      requires Valid()
      ensures b <==> CurrentStepId() in selectedAnswers && option in selectedAnswers[CurrentStepId()]
    {
      option in Answers(selectedAnswers, CurrentStepId())
    }

    /** Clicking an option of the current step toggles it there; the other
        steps' lists and the rest of the state are unchanged. */
    method SelectOption(option: string)
      requires Valid()
      modifies this
      ensures Valid()
      ensures currentStep == old(currentStep) && activeTab == old(activeTab)
      ensures selectedCause == old(selectedCause)
      ensures selectedAnswers == old(selectedAnswers)[CurrentStepId() :=
        Toggled(Answers(old(selectedAnswers), CurrentStepId()), option)]
      ensures IsOptionSelected(option) == !old(IsOptionSelected(option))
      ensures forall y :: y != option ==> IsOptionSelected(y) == old(IsOptionSelected(y))
      ensures old(AnswersWellFormed(Steps, selectedAnswers)) && option in Steps[currentStep].options ==>
        AnswersWellFormed(Steps, selectedAnswers)
    {
      var category := Steps[currentStep].id;
      var current := Answers(selectedAnswers, category);
      if AnswersWellFormed(Steps, selectedAnswers) && option in Steps[currentStep].options {
        ToggleKeepsWellFormed(Steps, selectedAnswers, currentStep, option);
      }
      if option in current {
        selectedAnswers := selectedAnswers[category := Without(current, option)];
      } else {
        selectedAnswers := selectedAnswers[category := current + [option]];
      }
    }

    /** "Continue" moves to the next step; on the last step "See Results"
        opens the results tab instead. */
    method Next()
      requires Valid()
      modifies this
      ensures Valid()
      ensures old(currentStep) < |Steps| - 1 ==>
        currentStep == old(currentStep) + 1 && activeTab == old(activeTab)
      ensures old(currentStep) == |Steps| - 1 ==>
        currentStep == old(currentStep) && activeTab == "results"
      ensures selectedAnswers == old(selectedAnswers) && selectedCause == old(selectedCause)
    {
      if currentStep < |Steps| - 1 {
        currentStep := currentStep + 1;
      } else {
        activeTab := "results";
      }
    }

    /** "Back" moves to the previous step, and does nothing on the first. */
    method Back()
      requires Valid()
      modifies this
      ensures Valid()
      ensures currentStep == if old(currentStep) > 0 then old(currentStep) - 1 else 0
      ensures selectedAnswers == old(selectedAnswers) && activeTab == old(activeTab)
      ensures selectedCause == old(selectedCause)
    {
      if currentStep > 0 {
        currentStep := currentStep - 1;
      }
    }

    /** Choosing a tab by hand. */
    method SelectTab(tab: string)
      requires Valid()
      modifies this
      ensures Valid() && activeTab == tab
      ensures currentStep == old(currentStep) && selectedAnswers == old(selectedAnswers)
      ensures selectedCause == old(selectedCause)
    {
      activeTab := tab;
    }

    /** "Learn More" on a cause opens its detail view. */
    method LearnMore(causeId: string)
      requires Valid()
      modifies this
      ensures Valid() && selectedCause == Some(causeId)
      ensures currentStep == old(currentStep) && selectedAnswers == old(selectedAnswers)
      ensures activeTab == old(activeTab)
    {
      selectedCause := Some(causeId);
    }

    /** "Back to results" closes the detail view. */
    method CloseCause()
      requires Valid()
      modifies this
      ensures Valid() && selectedCause == None && CurrentCause() == None
      ensures currentStep == old(currentStep) && selectedAnswers == old(selectedAnswers)
      ensures activeTab == old(activeTab)
    {
      selectedCause := None;
    }

    /** The cause whose detail view is open, if any. */
    function CurrentCause(): (c: Option<Cause>)
      reads this
      ensures selectedCause.None? ==> c.None?
      ensures c.Some? ==> c.value in Causes && Some(c.value.id) == selectedCause
      ensures c.None? ==> selectedCause.None? || forall k :: 0 <= k < |Causes| ==> Causes[k].id != selectedCause.value
    {
      Lookup.Find(Causes, CauseId, selectedCause)
    }
  }

  lemma CauseIdsDistinct()
    ensures Lookup.DistinctIds(Causes, CauseId)
  {
  }

  /** "Learn More" on the k-th listed cause opens exactly that cause. */
  lemma LearnMoreOpensThatCause(k: nat)
    requires k < |Causes|
    ensures Lookup.Find(Causes, CauseId, Some(Causes[k].id)) == Some(Causes[k])
  {
    CauseIdsDistinct();
    Lookup.FindById(Causes, CauseId, k);
  }

  /** Clicking an option twice unselects it again. */
  method ToggleWalkthrough()
  {
    var s := new Session();
    s.SelectOption("Health");
    assert s.IsOptionSelected("Health");
    s.SelectOption("Health");
    assert !s.IsOptionSelected("Health");
  }

  /** Three "Continue"s reach the last step, the fourth click opens the
      results, and "Back" then returns one step. */
  method NavigationWalkthrough()
  {
    var s := new Session();
    s.Next();
    s.Next();
    s.Next();
    assert s.currentStep == 3 && s.activeTab == "quiz";
    s.Next();
    assert s.currentStep == 3 && s.activeTab == "results";
    s.Back();
    assert s.currentStep == 2;
  }

  /** "Learn More" on "Racial Equity" opens it, and "Back" closes it. */
  method CauseWalkthrough()
  {
    var s := new Session();
    s.LearnMore("4");
    LearnMoreOpensThatCause(3);
    assert s.CurrentCause() == Some(Causes[3]);
    s.CloseCause();
    assert s.CurrentCause() == None;
  }
}
