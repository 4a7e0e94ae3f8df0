/** The multi-select list of one quiz step and what clicking an option does
    to it; shared by the discover page and the home-page discovery tool. */
module Selection {
  import opened Seqs

  /** The step's list after clicking `option`: a selected option is
      removed (every occurrence, as `filter` does), any other is appended
      at the end. */
  function Toggled(current: seq<string>, option: string): (r: seq<string>)
    ensures option in r <==> option !in current
    ensures forall y :: y != option ==> (y in r <==> y in current)
    ensures option !in current ==> r == current + [option]
    ensures option in current ==> IsSublist(r, current) && |r| < |current|
    ensures option in current ==> multiset(r) == multiset(current)[option := 0]
  {
    if option in current then
      var r := Without(current, option);
      SublistShorter(r, current, option);
      r
    else current + [option]
  }

  /** A sub-list that misses an element of the list is shorter. */
  lemma {:induction false} SublistShorter(a: seq<string>, b: seq<string>, x: string)
    requires IsSublist(a, b) && x in b && x !in a
    ensures |a| < |b|
    decreases |b|
  {
    SublistMultiset(a, b);
    assert multiset(a)[x] == 0 < multiset(b)[x];
    assert multiset(a) != multiset(b);
    if |a| >= |b| {
      assert |multiset(a)| == |a| && |multiset(b)| == |b|;
      MultisetSubsetSameSize(multiset(a), multiset(b));
    }
  }

  lemma MultisetSubsetSameSize(m: multiset<string>, n: multiset<string>)
    requires m <= n && |m| >= |n|
    ensures m == n
  {
    var d := n - m;
    assert n == m + d;
    assert |n| == |m| + |d|;
    assert d == multiset{};
  }

  /** Toggling never introduces a duplicate. */
  lemma ToggleKeepsNoDuplicates(current: seq<string>, option: string)
    requires NoDuplicates(current)
    ensures NoDuplicates(Toggled(current, option))
  {
    if option in current {
      WithoutKeepsNoDuplicates(current, option);
    }
  }

  /** Toggling one of the step's declared options keeps the list among the
      declared options. */
  lemma ToggleStaysWithin(current: seq<string>, option: string, options: seq<string>)
    requires forall y :: y in current ==> y in options
    requires option in options
    ensures forall y :: y in Toggled(current, option) ==> y in options
  {
  }

  lemma {:induction false} WithoutAppend(a: seq<string>, b: seq<string>, x: string)
    ensures Without(a + b, x) == Without(a, x) + Without(b, x)
  {
    if a == [] {
      assert a + b == b;
    } else {
      assert (a + b)[1..] == a[1..] + b;
      WithoutAppend(a[1..], b, x);
    }
  }

  /** Clicking an unselected option twice restores the list exactly. */
  lemma ToggleTwiceAbsent(current: seq<string>, option: string)
    requires option !in current
    ensures Toggled(Toggled(current, option), option) == current
  {
    WithoutAppend(current, [option], option);
  }

  /** Clicking a selected option twice restores the same selection, with
      the option moved to the end of the list. */
  lemma ToggleTwicePresent(current: seq<string>, option: string)
    requires option in current
    ensures Toggled(Toggled(current, option), option) == Without(current, option) + [option]
    ensures forall y :: y in Toggled(Toggled(current, option), option) <==> y in current
  {
  }

  /** One quiz question and its options. */
  datatype Step = Step(id: string, title: string, options: seq<string>)

  /** `answers[id] || []`: a step's list, empty when the key is missing. */
  function Answers(answers: map<string, seq<string>>, id: string): (r: seq<string>)
  {
    if id in answers then answers[id] else []
  }

  /** Every step's list has no duplicate and holds only that step's options. */
  predicate AnswersWellFormed(steps: seq<Step>, answers: map<string, seq<string>>)
  {
    forall k :: 0 <= k < |steps| ==>
      NoDuplicates(Answers(answers, steps[k].id)) &&
      forall y :: y in Answers(answers, steps[k].id) ==> y in steps[k].options
  }

  /** Toggling a declared option of step `k` keeps every list duplicate-free
      and within its step's options, provided the step ids are distinct. */
  lemma ToggleKeepsWellFormed(steps: seq<Step>, answers: map<string, seq<string>>, k: nat, option: string)
    requires forall i, j :: 0 <= i < j < |steps| ==> steps[i].id != steps[j].id
    requires AnswersWellFormed(steps, answers)
    requires k < |steps| && option in steps[k].options
    ensures AnswersWellFormed(steps, answers[steps[k].id := Toggled(Answers(answers, steps[k].id), option)])
  {
    var current := Answers(answers, steps[k].id);
    var after := answers[steps[k].id := Toggled(current, option)];
    ToggleKeepsNoDuplicates(current, option);
    ToggleStaysWithin(current, option, steps[k].options);
    forall j | 0 <= j < |steps| && j != k
      ensures Answers(after, steps[j].id) == Answers(answers, steps[j].id)
    {
      assert steps[j].id != steps[k].id by {
        if j < k { assert steps[j].id != steps[k].id; } else { assert steps[k].id != steps[j].id; }
      }
    }
  }
}
