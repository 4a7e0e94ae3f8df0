/** The content-library section of the home page: six resources, the same
    tabs and the same filter as the library page, and a "Read More" link
    per resource. */
module ContentLibrary {
  import opened Text
  import opened ResourceFilter
  import opened Wrappers
  import Library

  /** The section's own `RESOURCES`, in display order. */
  const Resources: seq<Resource> := [C1, C2, C3, C4, C5, C6]

  const C1 := Resource("1", "Understanding Climate Justice",
      "A comprehensive guide to climate justice principles and global initiatives.",
      "Climate", ["Climate", "Justice", "Guide"])
  const C2 := Resource("2", "Digital Literacy Programs",
      "How digital literacy initiatives are closing the educational gap in rural communities.",
      "Education", ["Digital", "Education", "Rural"])
  const C3 := Resource("3", "Clean Water Access Report",
      "Latest research on global clean water accessibility and innovative solutions.",
      "Health", ["Water", "Health", "Research"])
  const C4 := Resource("4", "Community Organizing Toolkit",
      "Practical strategies and tools for effective community organization and mobilization.",
      "Community", ["Organizing", "Community", "Toolkit"])
  const C5 := Resource("5", "Sustainable Urban Development",
      "Case studies on transforming urban spaces for sustainability and community well-being.",
      "Urban", ["Urban", "Sustainability", "Development"])
  const C6 := Resource("6", "Indigenous Rights Framework",
      "Understanding indigenous rights and their importance in conservation efforts.",
      "Rights", ["Indigenous", "Rights", "Conservation"])

  /** The tab values, "all" first. */
  const Categories: seq<string> := ["all", "climate", "education", "health", "community", "rights", "urban"]

  /** The list the section renders for `activeTab` and `searchQuery`. */
  function FilteredResources(activeTab: string, searchQuery: string): (r: seq<Resource>)
  {
    Filter(Resources, activeTab, searchQuery)
  }

  /** The section's initial state ("all", "") shows all six resources. */
  lemma InitialViewShowsAll()
    ensures FilteredResources(AllTab, "") == Resources
    ensures |FilteredResources(AllTab, "")| == 6
  {
    FilterAllEmpty(Resources);
  }

  /** The six resources are the library page's first six, field for field
      (ids "1" to "6"). */
  lemma SameAsLibraryPrefix()
    ensures Resources == Library.Resources[..6]
  {
  }

  /** For every tab and query the section shows exactly what the library
      page shows among ids "1" to "6"; the library's other three resources
      come after them. */
  lemma AgreesWithLibrary(activeTab: string, searchQuery: string)
    ensures Library.FilteredResources(activeTab, searchQuery)
      == FilteredResources(activeTab, searchQuery) + Filter(Library.Resources[6..], activeTab, searchQuery)
  {
    var lib := Library.Resources;
    SameAsLibraryPrefix();
    assert lib == lib[..6] + lib[6..];
    FilterAppend(lib[..6], lib[6..], activeTab, searchQuery);
  }

  /** The library's resources after the first six are those with ids "7",
      "8" and "9". */
  lemma LibraryRemainder()
    ensures |Library.Resources[6..]| == 3
    ensures Library.Resources[6..][0].id == "7"
    ensures Library.Resources[6..][1].id == "8"
    ensures Library.Resources[6..][2].id == "9"
  {
  }

  lemma LowerCategories()
    ensures Lower(C1.category) == "climate" && Lower(C2.category) == "education"
    ensures Lower(C3.category) == "health" && Lower(C4.category) == "community"
    ensures Lower(C5.category) == "urban" && Lower(C6.category) == "rights"
  {
  }

  /** With the empty query each tab other than "all" shows exactly one
      resource: the six categories are distinct and every one is a tab. */
  lemma OnlyClimateTab()
    ensures FilteredResources("climate", "") == [C1]
  {
    LowerCategories();
    FilterEmptyQuery(Resources, "climate");
    ByCategoryUnique(Resources, "climate", 0);
  }

  lemma OnlyEducationTab()
    ensures FilteredResources("education", "") == [C2]
  {
    LowerCategories();
    FilterEmptyQuery(Resources, "education");
    ByCategoryUnique(Resources, "education", 1);
  }

  lemma OnlyHealthTab()
    ensures FilteredResources("health", "") == [C3]
  {
    LowerCategories();
    FilterEmptyQuery(Resources, "health");
    ByCategoryUnique(Resources, "health", 2);
  }

  lemma OnlyCommunityTab()
    ensures FilteredResources("community", "") == [C4]
  {
    LowerCategories();
    FilterEmptyQuery(Resources, "community");
    ByCategoryUnique(Resources, "community", 3);
  }

  lemma OnlyUrbanTab()
    ensures FilteredResources("urban", "") == [C5]
  {
    LowerCategories();
    FilterEmptyQuery(Resources, "urban");
    ByCategoryUnique(Resources, "urban", 4);
  }

  lemma OnlyRightsTab()
    ensures FilteredResources("rights", "") == [C6]
  {
    LowerCategories();
    FilterEmptyQuery(Resources, "rights");
    ByCategoryUnique(Resources, "rights", 5);
  }

  /** Queries differing only in letter case show the same list. */
  lemma CaseOnlyQueriesAgree(activeTab: string, q1: string, q2: string)
    requires Lower(q1) == Lower(q2)
    ensures FilteredResources(activeTab, q1) == FilteredResources(activeTab, q2)
  {
    FilterCaseInsensitive(Resources, activeTab, q1, q2);
  }

  const LibraryRoute: string := "/library/"

  /** The "Read More" link of a resource. */
  function ReadMoreTarget(r: Resource): (path: string)
    ensures |path| == |LibraryRoute| + |r.id|
    ensures path[..|LibraryRoute|] == LibraryRoute
  {
    LibraryRoute + r.id
  }

  /** The resource id a library link names, if it is one. */
  function RouteId(path: string): (id: Option<string>)
  {
    if |path| >= |LibraryRoute| && path[..|LibraryRoute|] == LibraryRoute
    then Some(path[|LibraryRoute|..])
    else None
  }

  /** Each link leads back to its resource's id, so resources with
      different ids get different links. */
  lemma ReadMoreRoundTrip(r: Resource)
    ensures RouteId(ReadMoreTarget(r)) == Some(r.id)
  {
    assert (LibraryRoute + r.id)[|LibraryRoute|..] == r.id;
  }

  lemma ReadMoreDistinct(r1: Resource, r2: Resource)
    requires r1.id != r2.id
    ensures ReadMoreTarget(r1) != ReadMoreTarget(r2)
  {
    ReadMoreRoundTrip(r1);
    ReadMoreRoundTrip(r2);
  }
}
