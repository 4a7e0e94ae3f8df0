# EmpowerMap: catalog filters, preference quiz and region map

EmpowerMap is a static "social causes" website. This project models the
parts of it that hold logic:

- **Resource filter.** The library page and the home-page content library
  filter a fixed resource list by a category tab and a search query. The tab
  "all" switches the category test off. The search is a case-insensitive
  substring search over title, description and tags.
- **Preference quiz.** The discover page and the home-page discovery tool
  run a quiz of four and three steps. Each step has a multi-select list with
  toggle semantics, plus "Continue" and "Back". On the discover page the last
  "Continue" opens the results tab. "Learn More" opens one suggested cause.
- **Region catalog.** The map page and the home-page map teaser look up the
  selected region by id. The map page filters that region's initiatives by a
  case-insensitive substring search. Each region id has a fixed marker
  position.

Strings are `seq<char>`. Lower-casing is ASCII only. Pure code is modelled as
functions and lemmas. The quiz and map components update several fields from
their handlers, so each becomes a class: `Discover.Session`,
`DiscoveryTool.Tool`, `InteractiveMap.Widget` and `MapPage.Page`. Each setter
or handler is a method with a `modifies` frame that states the whole new state.
The library page and the content library also keep a tab and a query in React
state. Only the filter reads them, so the model takes them as the two
parameters of `Library.FilteredResources` and `ContentLibrary.FilteredResources`.
The pure computations inside the handlers are functions shared by the classes
and proved on their own: the toggled list (`Selection.Toggled`), `find`
(`Lookup.Find`) and `filter` (`ResourceFilter.Filter`,
`RegionCard.MatchingInitiatives`). The library page and the content library
have the same filter code, so the model defines it once, in `ResourceFilter`.
The two quizzes likewise share the toggle rule.

The code behaves as follows where a reader might expect otherwise:

- The category test lower-cases only the resource's category; the tab is
  compared as given.
- A whitespace-only query is not trimmed.
- Clicking an option the step does not list is not refused: it is added or
  removed like a listed one.
- Moving past the first or last step is not an error: `next` and `back` do
  nothing there (or, at the last step of the discover page, open the results).
- There is no scoring. The "match" percentages are fixed data.

## Model

| member | source | states |
|---|---|---|
| Text.Lower | src/pages/Library.tsx:122-127 | `toLowerCase` on ASCII: same length, each capital mapped to its lower-case letter, everything else kept |
| Text.LowerIdempotent | src/pages/Library.tsx:124-126 | lower-casing twice equals lower-casing once |
| Text.EmptyIsSubstring | src/pages/Library.tsx:124-126 | `includes("")` holds of every string |
| Text.SubstringTransitive | src/pages/Library.tsx:124-126 | an occurrence inside an occurrence is an occurrence |
| Text.LowerPreservesSubstring | src/pages/Library.tsx:124-126 | if `p` occurs in `s` then `lower(p)` occurs in `lower(s)` |
| ResourceFilter.FilterIsSublist | src/pages/Library.tsx:121-129 | the filtered list is an order-preserving sub-list of the resources, no longer, and repeats nothing |
| ResourceFilter.FilterMembers | src/pages/Library.tsx:121-129 | a resource is kept iff the category test passes and lower(query) occurs in lower(title), lower(description) or lower(some tag) |
| ResourceFilter.NoResults | src/pages/Library.tsx:302 | "No results found" is shown iff no resource passes the filter |
| ResourceFilter.EmptyQueryMatchesSearch | src/pages/Library.tsx:123-127 | the empty query passes the search test for every resource |
| ResourceFilter.FilterAllEmpty | src/pages/Library.tsx:115-116 | tab "all" with the empty query returns the list unchanged |
| ResourceFilter.FilterEmptyQuery | src/pages/Library.tsx:121-129 | with the empty query only the category test remains |
| ResourceFilter.ByCategoryUnique | src/pages/Library.tsx:122 | a tab that exactly one resource's lower-cased category equals keeps exactly that resource |
| ResourceFilter.ByCategoryNone | src/pages/Library.tsx:122 | a tab that no lower-cased category equals keeps nothing |
| ResourceFilter.CapitalisedTabMatchesNothing | src/pages/Library.tsx:122 | a tab with a capital letter keeps nothing, since the tab itself is not lower-cased |
| ResourceFilter.FilterCaseInsensitive | src/pages/Library.tsx:124-126 | queries with the same lower-case form give identical results |
| ResourceFilter.FilterLowerQuery | src/pages/Library.tsx:124-126 | lower-casing the query does not change the result |
| ResourceFilter.MatchesNarrowing | src/pages/Library.tsx:123-128 | a resource matching `q2` matches every `q1` occurring in `q2` |
| ResourceFilter.FilterNarrowing | src/pages/Library.tsx:123-128 | if `q1` occurs in `q2`, the result for `q2` is a sub-list of the result for `q1` |
| ResourceFilter.FilterAppend | src/pages/Library.tsx:121-129 | filtering a concatenation concatenates the filtered parts |
| ResourceFilter.FilterKeepsDistinctIds | src/pages/Library.tsx:121-129 | distinct ids stay distinct in the filtered list |
| Library.InitialViewShowsAll | src/pages/Library.tsx:115-129 | the initial state ("all", "") shows all nine resources, and no "No results" panel |
| Library.LowerCategories | src/pages/Library.tsx:21-112 | the lower-cased category of each of the nine resources |
| Library.CategoriesAreTabs | src/pages/Library.tsx:21-119 | every resource's lower-cased category is a tab other than "all" |
| Library.DistinctIds | src/pages/Library.tsx:21-112 | the nine resource ids are pairwise distinct |
| Library.CaseOnlyQueriesAgree | src/pages/Library.tsx:121-129 | queries differing only in letter case show the same list |
| ContentLibrary.InitialViewShowsAll | src/components/ContentLibrary.tsx:78-91 | ("all", "") shows all six resources |
| ContentLibrary.SameAsLibraryPrefix | src/components/ContentLibrary.tsx:20-75 | the six resources equal the library page's first six (ids 1 to 6) in id, title, description, category and tags |
| ContentLibrary.AgreesWithLibrary | src/components/ContentLibrary.tsx:83-91 | for every tab and query, the library page's list is this section's list followed by the filtered remainder |
| ContentLibrary.LibraryRemainder | src/pages/Library.tsx:82-112 | the library page's resources after the first six have ids 7, 8 and 9 |
| ContentLibrary.LowerCategories | src/components/ContentLibrary.tsx:20-75 | the six lower-cased categories are the six non-"all" tabs, one each |
| ContentLibrary.OnlyClimateTab | src/components/ContentLibrary.tsx:81-91 | with the empty query, tab "climate" shows exactly resource 1 |
| ContentLibrary.OnlyEducationTab | src/components/ContentLibrary.tsx:81-91 | with the empty query, tab "education" shows exactly resource 2 |
| ContentLibrary.OnlyHealthTab | src/components/ContentLibrary.tsx:81-91 | with the empty query, tab "health" shows exactly resource 3 |
| ContentLibrary.OnlyCommunityTab | src/components/ContentLibrary.tsx:81-91 | with the empty query, tab "community" shows exactly resource 4 |
| ContentLibrary.OnlyUrbanTab | src/components/ContentLibrary.tsx:81-91 | with the empty query, tab "urban" shows exactly resource 5 |
| ContentLibrary.OnlyRightsTab | src/components/ContentLibrary.tsx:81-91 | with the empty query, tab "rights" shows exactly resource 6 |
| ContentLibrary.CaseOnlyQueriesAgree | src/components/ContentLibrary.tsx:86-88 | a case-only change to the query does not change the list |
| ContentLibrary.ReadMoreTarget | src/components/ContentLibrary.tsx:171 | the "Read More" link is "/library/" followed by the id |
| ContentLibrary.ReadMoreRoundTrip | src/components/ContentLibrary.tsx:171 | the id read back from a resource's link is that resource's id |
| ContentLibrary.ReadMoreDistinct | src/components/ContentLibrary.tsx:171 | resources with different ids get different links |
| Seqs.Without | src/pages/Discover.tsx:152 | `filter(item => item !== option)`: no occurrence of the option is left, every other occurrence is kept (the multiset of the result is that of the list with the option's count set to zero), and the order is preserved |
| Seqs.WithoutKeepsNoDuplicates | src/pages/Discover.tsx:152 | removing an option from a duplicate-free list leaves it duplicate-free |
| Seqs.SublistMultiset | src/pages/Library.tsx:121 | a sub-list repeats no element more often than the list |
| Selection.Toggled | src/pages/Discover.tsx:149-159 | the clicked option's membership flips; an absent option is appended at the end; a present one is removed with every other occurrence kept (a shorter sub-list whose multiset is the old one with the option's count set to zero); every other option's membership is unchanged |
| Selection.SublistShorter | src/pages/Discover.tsx:152 | a sub-list missing an element of the list is strictly shorter |
| Selection.ToggleKeepsNoDuplicates | src/pages/Discover.tsx:149-159 | toggling keeps a duplicate-free list duplicate-free |
| Selection.ToggleStaysWithin | src/pages/Discover.tsx:149-159 | toggling a declared option keeps the list within the declared options |
| Selection.WithoutAppend | src/pages/Discover.tsx:152 | removal distributes over concatenation |
| Selection.ToggleTwiceAbsent | src/pages/Discover.tsx:157 | toggling an absent option twice restores the list exactly |
| Selection.ToggleTwicePresent | src/pages/Discover.tsx:152 | toggling a present option twice restores the same selection, with the option moved to the end |
| Selection.ToggleKeepsWellFormed | src/pages/Discover.tsx:145-160 | toggling a declared option of a step keeps every step's list duplicate-free and within its options; the other steps' lists are unchanged |
| Lookup.FirstIndex | src/pages/Map.tsx:24 | the index found holds the key and no earlier element does; with no index found, no element holds the key |
| Lookup.Find | src/pages/Map.tsx:24 | `find` by id: `undefined` for a null key or a key nobody has; otherwise the first element with that id |
| Lookup.FindById | src/pages/Map.tsx:24 | with distinct ids, looking up an element's id finds that element |
| Discover.Session.constructor | src/pages/Discover.tsx:133-141 | step 0, an empty list for each of the four step ids, tab "quiz", no selected cause |
| Discover.Session.IsOptionSelected | src/pages/Discover.tsx:177-180 | holds iff the current step's id has a list and the option is in it |
| Discover.Session.SelectOption | src/pages/Discover.tsx:145-160 | only the current step's list changes, to its toggled form; the clicked option's selected state flips and no other option's does; lists stay duplicate-free and within options when the option is a declared one |
| Discover.Session.Next | src/pages/Discover.tsx:162-169 | below the last step the step advances; at the last step it stays and the tab becomes "results"; the answers are unchanged |
| Discover.Session.Back | src/pages/Discover.tsx:171-175 | above step 0 the step decreases, at 0 nothing changes; the step stays below 4 |
| Discover.Session.SelectTab | src/pages/Discover.tsx:198 | choosing a tab sets only the tab |
| Discover.Session.LearnMore | src/pages/Discover.tsx:372 | "Learn More" sets only the selected cause |
| Discover.Session.CloseCause | src/pages/Discover.tsx:263 | "Back" clears the selected cause, so no cause is open |
| Discover.Session.CurrentCause | src/pages/Discover.tsx:184 | the open cause has the selected id; there is none when the selection is null or matches no cause |
| Discover.CauseIdsDistinct | src/pages/Discover.tsx:22-107 | the six cause ids are distinct |
| Discover.LearnMoreOpensThatCause | src/pages/Discover.tsx:184 | selecting a listed cause's id opens exactly that cause |
| DiscoveryTool.StepsArePrefixOfDiscover | src/components/DiscoveryTool.tsx:62-78 | the tool's three steps equal the discover page's first three, ids and options included |
| DiscoveryTool.Tool.constructor | src/components/DiscoveryTool.tsx:55-60 | step 0 and empty lists for the three step ids |
| DiscoveryTool.Tool.IsOptionSelected | src/components/DiscoveryTool.tsx:113-116 | holds iff the current step's id has a list and the option is in it |
| DiscoveryTool.Tool.SelectOption | src/components/DiscoveryTool.tsx:82-97 | only the current step's list changes, to its toggled form; lists stay duplicate-free and within options when the option is a declared one |
| DiscoveryTool.Tool.Next | src/components/DiscoveryTool.tsx:99-105 | below step 2 the step advances; at step 2 nothing changes |
| DiscoveryTool.Tool.Back | src/components/DiscoveryTool.tsx:107-111 | above step 0 the step decreases, at 0 nothing changes; the step stays below 3 |
| RegionsData.RegionIdsDistinct | src/data/RegionsData.ts:11-96 | six regions with pairwise distinct ids |
| RegionsData.FiveIssuesFiveInitiatives | src/data/RegionsData.ts:11-96 | each region has five issues and five initiatives |
| RegionsData.InitiativesDistinct | src/data/RegionsData.ts:11-96 | no region lists an initiative twice |
| RegionCard.MatchingInitiativesSpec | src/components/map/RegionCard.tsx:34-35 | the kept initiatives are an order-preserving sub-list, exactly those whose lower-case form contains lower(query) |
| RegionCard.FilteredInitiatives | src/components/map/RegionCard.tsx:34-36 | empty when no region is selected; otherwise the sub-list of the region's initiatives matching the query |
| RegionCard.EmptyQueryKeepsAll | src/components/map/RegionCard.tsx:35 | the empty query keeps every initiative |
| RegionCard.EmptyQueryShowsAll | src/components/map/RegionCard.tsx:34-35 | with a region selected and the empty query, all its initiatives are listed |
| RegionCard.OnlyInitiativesSearched | src/components/map/RegionCard.tsx:34-36 | regions with the same initiatives give the same list, whatever their name, description and issues |
| RegionCard.CaseInsensitive | src/components/map/RegionCard.tsx:35 | queries with the same lower-case form keep the same initiatives |
| RegionCard.ShowsNoInitiatives | src/components/map/RegionCard.tsx:100-113 | "No initiatives found" is shown iff a region is selected and none of its initiatives matches |
| InteractiveMap.RegionPosition | src/components/InteractiveMap.tsx:160-177 | any unknown id gets ("50%", "50%"); no known id does |
| InteractiveMap.PositionsDistinct | src/components/InteractiveMap.tsx:160-173 | the six known ids get six different positions |
| InteractiveMap.RegionIdsDistinct | src/components/InteractiveMap.tsx:13-20 | the widget's region ids are distinct and are exactly the ids the position table knows |
| InteractiveMap.CatalogCoordinatesAgree | src/data/RegionsData.ts:24-94 | each catalog region's coordinates equal the position table's entry for its id |
| InteractiveMap.MarkerSize | src/components/InteractiveMap.tsx:75-76 | a marker is 30px iff its region is selected, 24px otherwise |
| InteractiveMap.AtMostOneLargeMarker | src/components/InteractiveMap.tsx:65-76 | of any two markers at least one is 24px |
| InteractiveMap.Widget.constructor | src/components/InteractiveMap.tsx:9-10 | no region selected, map not loaded |
| InteractiveMap.Widget.CurrentRegion | src/components/InteractiveMap.tsx:23 | defined iff the selected id is some region's id, and then it is that region |
| InteractiveMap.Widget.HandleRegionClick | src/components/InteractiveMap.tsx:35-37 | clicking sets only the selection; a listed id then makes that region current |
| MapPage.Page.constructor | src/pages/Map.tsx:9-12 | no region, empty query, map not loaded, tab "overview" |
| MapPage.Page.CurrentRegion | src/pages/Map.tsx:24 | none when the selection is null; otherwise a region whose id is the selection; none only if no region has that id |
| MapPage.Page.FilteredInitiatives | src/pages/Map.tsx:46-52 | the panel lists nothing while no region is selected |
| MapPage.Page.SelectRegion | src/pages/Map.tsx:38-42 | selecting a region changes only the selection; query and tab persist |
| MapPage.Page.ClickRegion | src/components/map/MapVisualization.tsx:49-70 | clicking a region's marker or button makes that region current |
| MapPage.Page.SetSearchQuery | src/pages/Map.tsx:10 | setting the query changes only the query |
| MapPage.Page.SetActiveTab | src/pages/Map.tsx:12 | setting the tab changes only the tab |

## Left out

- The library page's grid/list `viewMode` toggle: a layout choice that changes no list.
- Rendering: JSX, CSS classes, animations, the Tabs, Card and Badge components, tooltips, and the presentation-only wrappers MapVisualization.tsx and RegionTooltip.tsx. MapVisualization's buttons appear only as `MapPage.Page.ClickRegion`.
- Routing, `Link`, `useLocation`, the navigation bar and its scroll listener, and the footer: these are router and window calls. `ContentLibrary.ReadMoreTarget` models the one route string built from data.
- The 800 ms `setTimeout` that sets `mapLoaded` on the map page and the map teaser, and the hero's timed class changes: these are timers. The `mapLoaded` fields exist, start false and are never set.
- The progress percentage and `Math.round`, which are floating point.
- The date display, `toLocaleDateString` and `getFullYear`, which are locale and clock calls. So the resource fields `date`, `imageUrl` and `readTime` are not modelled.
- The cause fields `description`, `imageUrl`, `skills` and `organizations`. They are only rendered; the lookup and the list need only id, title, match and tags.
- Non-ASCII case folding: `Text.Lower` maps only 'A' to 'Z'.
- `DiscoveryTool`'s results tab is uncontrolled (`defaultValue`), so it has no state to model.
- The default export of the region data: `RegionsData.Regions` is the single constant that both exports name.
- Scoring, unknown-step and unknown-option errors, and a "completed" state: the code has none of these.
- InteractiveMap.RegionPosition: its contract states only the default case and that known ids never get the default. The exact six pairs are stated by `InteractiveMap.CatalogCoordinatesAgree` against the catalog.
