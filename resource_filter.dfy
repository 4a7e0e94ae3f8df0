/** The catalog filter that both the library page and the home-page content
    library apply to their resource lists: a category tab, with "all"
    switching it off, and a case-insensitive search over title,
    description and tags. */
module ResourceFilter {
  import opened Text
  import opened Seqs

  /** One library resource, with the fields the filter reads. */
  datatype Resource = Resource(
    id: string,
    title: string,
    description: string,
    category: string,
    tags: seq<string>)

  /** The tab value that disables the category test. */
  const AllTab: string := "all"

  /** The category test. The tab is compared as given: only the resource's
      category is lower-cased. */
  predicate MatchesCategory(r: Resource, activeTab: string)
  {
    activeTab == AllTab || Lower(r.category) == activeTab
  }

  /** Some tag of `r` contains the (already lower-cased) query `q`. */
  predicate SomeTagContains(r: Resource, q: string)
  {
    exists k :: 0 <= k < |r.tags| && IsSubstring(q, Lower(r.tags[k]))
  }

  /** The search test: the lower-cased query occurs in the lower-cased
      title, description or some tag. The query is not trimmed. */
  predicate MatchesSearch(r: Resource, query: string)
  {
    var q := Lower(query);
    IsSubstring(q, Lower(r.title)) || IsSubstring(q, Lower(r.description)) || SomeTagContains(r, q)
  }

  /** A resource stays in the list iff it passes both tests. */
  predicate Matches(r: Resource, activeTab: string, query: string)
  {
    MatchesCategory(r, activeTab) && MatchesSearch(r, query)
  }

  /** `RESOURCES.filter(...)`: the resources that pass, in their original
      order. */
  function Filter(rs: seq<Resource>, activeTab: string, query: string): (r: seq<Resource>)
  {
    if rs == [] then []
    else if Matches(rs[0], activeTab, query) then [rs[0]] + Filter(rs[1..], activeTab, query)
    else Filter(rs[1..], activeTab, query)
  }

  /** The result is a sub-list of the input: nothing is reordered, and
      nothing is repeated more often than in the input. */
  lemma {:induction false} FilterIsSublist(rs: seq<Resource>, activeTab: string, query: string)
    ensures IsSublist(Filter(rs, activeTab, query), rs)
    ensures |Filter(rs, activeTab, query)| <= |rs|
    ensures multiset(Filter(rs, activeTab, query)) <= multiset(rs)
  {
    if rs != [] {
      FilterIsSublist(rs[1..], activeTab, query);
      var f := Filter(rs[1..], activeTab, query);
      if Matches(rs[0], activeTab, query) {
        assert ([rs[0]] + f)[1..] == f;
      }
    }
    SublistMultiset(Filter(rs, activeTab, query), rs);
  }

  /** A resource is in the result iff it is in the input and passes both
      tests. */
  lemma {:induction false} FilterMembers(rs: seq<Resource>, activeTab: string, query: string)
    ensures forall x :: x in Filter(rs, activeTab, query) <==> x in rs && Matches(x, activeTab, query)
  {
    if rs != [] {
      FilterMembers(rs[1..], activeTab, query);
      assert rs == [rs[0]] + rs[1..];
    }
  }

  /** Whether the "No results found" panel is rendered: exactly when no
      resource passes the filter. */
  function NoResults(rs: seq<Resource>, activeTab: string, query: string): (b: bool)
    ensures b <==> forall x :: x in rs ==> !Matches(x, activeTab, query)
  {
    var r := Filter(rs, activeTab, query);
    FilterMembers(rs, activeTab, query);
    assert r != [] ==> r[0] in r;
    |r| == 0
  }

  /** The empty query matches every resource. */
  lemma EmptyQueryMatchesSearch(r: Resource)
    ensures MatchesSearch(r, "")
  {
    EmptyIsSubstring(Lower(r.title));
  }

  /** With the "all" tab and the empty query nothing is filtered out. */
  lemma {:induction false} FilterAllEmpty(rs: seq<Resource>)
    ensures Filter(rs, AllTab, "") == rs
  {
    if rs != [] {
      EmptyQueryMatchesSearch(rs[0]);
      FilterAllEmpty(rs[1..]);
    }
  }

  /** The category test alone, as a filter. */
  function ByCategory(rs: seq<Resource>, activeTab: string): (r: seq<Resource>)
  {
    if rs == [] then []
    else if MatchesCategory(rs[0], activeTab) then [rs[0]] + ByCategory(rs[1..], activeTab)
    else ByCategory(rs[1..], activeTab)
  }

  /** A tab that exactly one resource's lower-cased category equals keeps
      exactly that resource. */
  lemma {:induction false} ByCategoryUnique(rs: seq<Resource>, activeTab: string, k: nat)
    requires activeTab != AllTab
    requires k < |rs| && Lower(rs[k].category) == activeTab
    requires forall j :: 0 <= j < |rs| && j != k ==> Lower(rs[j].category) != activeTab
    ensures ByCategory(rs, activeTab) == [rs[k]]
  {
    if k == 0 {
      ByCategoryNone(rs[1..], activeTab);
    } else {
      ByCategoryUnique(rs[1..], activeTab, k - 1);
    }
  }

  lemma {:induction false} ByCategoryNone(rs: seq<Resource>, activeTab: string)
    requires activeTab != AllTab
    requires forall j :: 0 <= j < |rs| ==> Lower(rs[j].category) != activeTab
    ensures ByCategory(rs, activeTab) == []
  {
    if rs != [] {
      ByCategoryNone(rs[1..], activeTab);
    }
  }

  /** With the empty query only the category test remains. */
  lemma {:induction false} FilterEmptyQuery(rs: seq<Resource>, activeTab: string)
    ensures Filter(rs, activeTab, "") == ByCategory(rs, activeTab)
  {
    if rs != [] {
      EmptyQueryMatchesSearch(rs[0]);
      FilterEmptyQuery(rs[1..], activeTab);
    }
  }

  /** A tab with a capital letter in it (other than "all", which has none)
      admits no resource, because the tab itself is not lower-cased. */
  lemma {:induction false} CapitalisedTabMatchesNothing(rs: seq<Resource>, activeTab: string, query: string)
    requires !IsLowerCase(activeTab)
    ensures Filter(rs, activeTab, query) == []
  {
    if rs != [] {
      NotLowerOfAnything(activeTab, rs[0].category);
      CapitalisedTabMatchesNothing(rs[1..], activeTab, query);
    }
  }

  /** Queries with the same lower-case form select the same resources. */
  lemma {:induction false} FilterCaseInsensitive(rs: seq<Resource>, activeTab: string, q1: string, q2: string)
    requires Lower(q1) == Lower(q2)
    ensures Filter(rs, activeTab, q1) == Filter(rs, activeTab, q2)
  {
    if rs != [] {
      FilterCaseInsensitive(rs[1..], activeTab, q1, q2);
    }
  }

  /** In particular, lower-casing the query does not change the result. */
  lemma FilterLowerQuery(rs: seq<Resource>, activeTab: string, query: string)
    ensures Filter(rs, activeTab, Lower(query)) == Filter(rs, activeTab, query)
  {
    LowerIdempotent(query);
    FilterCaseInsensitive(rs, activeTab, Lower(query), query);
  }

  /** A resource that matches a longer query matches every query that
      occurs in it. */
  lemma MatchesNarrowing(r: Resource, activeTab: string, q1: string, q2: string)
    requires IsSubstring(q1, q2)
    requires Matches(r, activeTab, q2)
    ensures Matches(r, activeTab, q1)
  {
    var a, b := Lower(q1), Lower(q2);
    LowerPreservesSubstring(q1, q2);
    if IsSubstring(b, Lower(r.title)) {
      SubstringTransitive(a, b, Lower(r.title));
    } else if IsSubstring(b, Lower(r.description)) {
      SubstringTransitive(a, b, Lower(r.description));
    } else {
      var k :| 0 <= k < |r.tags| && IsSubstring(b, Lower(r.tags[k]));
      SubstringTransitive(a, b, Lower(r.tags[k]));
    }
  }

  /** Typing more characters only narrows the list: the result for `q2`
      is a sub-list of the result for any `q1` occurring in `q2`. */
  lemma {:induction false} FilterNarrowing(rs: seq<Resource>, activeTab: string, q1: string, q2: string)
    requires IsSubstring(q1, q2)
    ensures IsSublist(Filter(rs, activeTab, q2), Filter(rs, activeTab, q1))
  {
    if rs != [] {
      FilterNarrowing(rs[1..], activeTab, q1, q2);
      var f1, f2 := Filter(rs[1..], activeTab, q1), Filter(rs[1..], activeTab, q2);
      if Matches(rs[0], activeTab, q2) {
        MatchesNarrowing(rs[0], activeTab, q1, q2);
        assert ([rs[0]] + f1)[1..] == f1 && ([rs[0]] + f2)[1..] == f2;
      } else if Matches(rs[0], activeTab, q1) {
        assert ([rs[0]] + f1)[1..] == f1;
      }
    }
  }

  /** Filtering a concatenation filters each part. */
  lemma {:induction false} FilterAppend(a: seq<Resource>, b: seq<Resource>, activeTab: string, query: string)
    ensures Filter(a + b, activeTab, query) == Filter(a, activeTab, query) + Filter(b, activeTab, query)
  {
    if a != [] {
      assert (a + b)[1..] == a[1..] + b;
      FilterAppend(a[1..], b, activeTab, query);
    } else {
      assert a + b == b;
    }
  }

  /** The filter keeps distinct ids distinct. */
  lemma {:induction false} FilterKeepsDistinctIds(rs: seq<Resource>, activeTab: string, query: string)
    requires forall i, j :: 0 <= i < j < |rs| ==> rs[i].id != rs[j].id
    ensures forall i, j :: 0 <= i < j < |Filter(rs, activeTab, query)| ==>
      Filter(rs, activeTab, query)[i].id != Filter(rs, activeTab, query)[j].id
  {
    if rs != [] {
      var tail := rs[1..];
      assert forall i, j :: 0 <= i < j < |tail| ==> tail[i].id != tail[j].id by {
        forall i, j | 0 <= i < j < |tail| ensures tail[i].id != tail[j].id {
          assert tail[i] == rs[i + 1] && tail[j] == rs[j + 1];
        }
      }
      FilterKeepsDistinctIds(tail, activeTab, query);
      FilterMembers(tail, activeTab, query);
      if Matches(rs[0], activeTab, query) {
        var f := Filter(tail, activeTab, query);
        var r := [rs[0]] + f;
        forall i, j | 0 <= i < j < |r| ensures r[i].id != r[j].id {
          if i == 0 {
            assert r[j] in tail;
            var k :| 0 <= k < |tail| && tail[k] == r[j];
            assert rs[k + 1] == r[j];
          } else {
            assert r[i] == f[i - 1] && r[j] == f[j - 1];
          }
        }
      }
    }
  }
}
