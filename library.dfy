/** The library page: its nine resources, its category tabs and the list it
    shows for a tab and a search query. */
module Library {
  import opened Text
  import opened ResourceFilter

  /** The page's `RESOURCES`, in display order. */
  const Resources: seq<Resource> := [R1, R2, R3, R4, R5, R6, R7, R8, R9]

  const R1 := Resource("1", "Understanding Climate Justice",
      "A comprehensive guide to climate justice principles and global initiatives.",
      "Climate", ["Climate", "Justice", "Guide"])
  const R2 := Resource("2", "Digital Literacy Programs",
      "How digital literacy initiatives are closing the educational gap in rural communities.",
      "Education", ["Digital", "Education", "Rural"])
  const R3 := Resource("3", "Clean Water Access Report",
      "Latest research on global clean water accessibility and innovative solutions.",
      "Health", ["Water", "Health", "Research"])
  const R4 := Resource("4", "Community Organizing Toolkit",
      "Practical strategies and tools for effective community organization and mobilization.",
      "Community", ["Organizing", "Community", "Toolkit"])
  const R5 := Resource("5", "Sustainable Urban Development",
      "Case studies on transforming urban spaces for sustainability and community well-being.",
      "Urban", ["Urban", "Sustainability", "Development"])
  const R6 := Resource("6", "Indigenous Rights Framework",
      "Understanding indigenous rights and their importance in conservation efforts.",
      "Rights", ["Indigenous", "Rights", "Conservation"])
  const R7 := Resource("7", "Ocean Conservation Strategies",
      "Current approaches to preserving marine ecosystems and reducing plastic pollution.",
      "Climate", ["Ocean", "Conservation", "Plastic"])
  const R8 := Resource("8", "Gender Equality in Education",
      "Research on creating inclusive learning environments and closing gender gaps.",
      "Education", ["Gender", "Equality", "Inclusion"])
  const R9 := Resource("9", "Mental Health Advocacy",
      "Resources for supporting mental health initiatives and reducing stigma.",
      "Health", ["Mental Health", "Advocacy", "Wellbeing"])

  /** The tab values, "all" first. */
  const Categories: seq<string> := ["all", "climate", "education", "health", "community", "rights", "urban"]

  /** The list the page renders for `activeTab` and `searchQuery`. */
  function FilteredResources(activeTab: string, searchQuery: string): (r: seq<Resource>)
  {
    Filter(Resources, activeTab, searchQuery)
  }

  /** The initial page state ("all", "") shows all nine resources. */
  lemma InitialViewShowsAll()
    ensures FilteredResources(AllTab, "") == Resources
    ensures |FilteredResources(AllTab, "")| == 9
    ensures !NoResults(Resources, AllTab, "")
  {
    FilterAllEmpty(Resources);
  }

  /** The lower-cased category of each resource. */
  lemma LowerCategories()
    ensures Lower(R1.category) == "climate" && Lower(R7.category) == "climate"
    ensures Lower(R2.category) == "education" && Lower(R8.category) == "education"
    ensures Lower(R3.category) == "health" && Lower(R9.category) == "health"
    ensures Lower(R4.category) == "community"
    ensures Lower(R5.category) == "urban"
    ensures Lower(R6.category) == "rights"
  {
  }

  /** Each resource's category, lower-cased, is one of the tabs other than
      "all". */
  lemma CategoriesAreTabs()
    ensures forall i :: 0 <= i < |Resources| ==> Lower(Resources[i].category) in Categories[1..]
  {
    LowerCategories();
  }

  /** No two resources share an id. */
  lemma DistinctIds()
    ensures forall i, j :: 0 <= i < j < |Resources| ==> Resources[i].id != Resources[j].id
  {
  }

  /** Queries differing only in letter case show the same list. */
  lemma CaseOnlyQueriesAgree(activeTab: string, q1: string, q2: string)
    requires Lower(q1) == Lower(q2)
    ensures FilteredResources(activeTab, q1) == FilteredResources(activeTab, q2)
  {
    FilterCaseInsensitive(Resources, activeTab, q1, q2);
  }
}
