/** The region panel of the map page: the selected region's initiatives,
    narrowed by a case-insensitive search. */
module RegionCard {
  import opened Wrappers
  import opened Text
  import opened Seqs
  import opened RegionsData

  /** An initiative is kept when the lower-cased query occurs in it, lower-cased. */
  predicate InitiativeMatches(initiative: string, query: string)
  {
    IsSubstring(Lower(query), Lower(initiative))
  }

  /** `initiatives.filter(...)` with that test. */
  function MatchingInitiatives(initiatives: seq<string>, query: string): (r: seq<string>)
  {
    if initiatives == [] then []
    else if InitiativeMatches(initiatives[0], query) then
      [initiatives[0]] + MatchingInitiatives(initiatives[1..], query)
    else MatchingInitiatives(initiatives[1..], query)
  }

  /** The kept initiatives are a sub-list of the region's, and are exactly
      the ones that match. */
  lemma {:induction false} MatchingInitiativesSpec(initiatives: seq<string>, query: string)
    ensures IsSublist(MatchingInitiatives(initiatives, query), initiatives)
    ensures forall x :: x in MatchingInitiatives(initiatives, query) <==>
      x in initiatives && InitiativeMatches(x, query)
  {
    if initiatives != [] {
      MatchingInitiativesSpec(initiatives[1..], query);
      var f := MatchingInitiatives(initiatives[1..], query);
      assert initiatives == [initiatives[0]] + initiatives[1..];
      if InitiativeMatches(initiatives[0], query) {
        assert ([initiatives[0]] + f)[1..] == f;
      }
    }
  }

  /** `currentRegion?.initiatives.filter(...) || []`. */
  function FilteredInitiatives(currentRegion: Option<Region>, searchQuery: string): (r: seq<string>)
    ensures currentRegion.None? ==> r == []
    ensures currentRegion.Some? ==> IsSublist(r, currentRegion.value.initiatives)
    ensures currentRegion.Some? ==> forall x :: x in r <==>
      x in currentRegion.value.initiatives && InitiativeMatches(x, searchQuery)
  {
    match currentRegion
    case None => []
    case Some(region) =>
      MatchingInitiativesSpec(region.initiatives, searchQuery);
      MatchingInitiatives(region.initiatives, searchQuery)
  }

  /** The empty query keeps every initiative of the region. */
  lemma {:induction false} EmptyQueryKeepsAll(initiatives: seq<string>)
    ensures MatchingInitiatives(initiatives, "") == initiatives
  {
    if initiatives != [] {
      EmptyIsSubstring(Lower(initiatives[0]));
      EmptyQueryKeepsAll(initiatives[1..]);
    }
  }

  lemma EmptyQueryShowsAll(region: Region)
    ensures FilteredInitiatives(Some(region), "") == region.initiatives
  {
    EmptyQueryKeepsAll(region.initiatives);
  }

  /** Only the initiatives are searched: two regions with the same
      initiatives give the same list whatever their names, descriptions and
      issues. */
  lemma OnlyInitiativesSearched(a: Region, b: Region, searchQuery: string)
    requires a.initiatives == b.initiatives
    ensures FilteredInitiatives(Some(a), searchQuery) == FilteredInitiatives(Some(b), searchQuery)
  {
  }

  /** Queries with the same lower-case form keep the same initiatives. */
  lemma {:induction false} CaseInsensitive(initiatives: seq<string>, q1: string, q2: string)
    requires Lower(q1) == Lower(q2)
    ensures MatchingInitiatives(initiatives, q1) == MatchingInitiatives(initiatives, q2)
  {
    if initiatives != [] {
      CaseInsensitive(initiatives[1..], q1, q2);
    }
  }

  /** Whether "No initiatives found matching your search." is rendered: a
      region is selected and none of its initiatives matches. */
  function ShowsNoInitiatives(currentRegion: Option<Region>, searchQuery: string): (b: bool)
    ensures b <==> (currentRegion.Some? &&
      forall x :: x in currentRegion.value.initiatives ==> !InitiativeMatches(x, searchQuery))
  {
    var r := FilteredInitiatives(currentRegion, searchQuery);
    assert r != [] ==> r[0] in r;
    currentRegion.Some? && |r| == 0
  }
}
