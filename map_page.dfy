/** The map page: a region selection shared by the map and the region
    panel, the panel's search box and its tab. */
module MapPage {
  import opened Wrappers
  import opened RegionsData
  import RegionCard
  import Lookup

  /** The page's state. */
  class Page {
    var selectedRegion: Option<string>
    var searchQuery: string
    var mapLoaded: bool
    var activeTab: string

    constructor ()
      ensures selectedRegion == None && searchQuery == ""
      ensures !mapLoaded && activeTab == "overview"
      ensures CurrentRegion() == None && FilteredInitiatives() == []
    {
      selectedRegion := None;
      searchQuery := "";
      mapLoaded := false;
      activeTab := "overview";
    }

    /** `regions.find(region => region.id === selectedRegion)`. */
    function CurrentRegion(): (r: Option<Region>)
      reads this
      ensures selectedRegion.None? ==> r.None?
      ensures r.Some? ==> r.value in Regions && Some(r.value.id) == selectedRegion
      ensures r.None? ==> selectedRegion.None? || forall k :: 0 <= k < |Regions| ==> Regions[k].id != selectedRegion.value
    {
      Lookup.Find(Regions, RegionId, selectedRegion)
    }

    /** The initiatives the region panel lists. */
    function FilteredInitiatives(): (r: seq<string>)
      reads this
      ensures selectedRegion.None? ==> r == []
    {
      RegionCard.FilteredInitiatives(CurrentRegion(), searchQuery)
    }

    /** Selecting a region (a marker or a button of the map) changes only
        the selection: the search text and the tab are kept. */
    method SelectRegion(regionId: string)
      modifies this
      ensures selectedRegion == Some(regionId)
      ensures searchQuery == old(searchQuery) && activeTab == old(activeTab) && mapLoaded == old(mapLoaded)
    {
      selectedRegion := Some(regionId);
    }

    /** Clicking the button of the k-th region, which is how the map
        selects: the panel then shows that region. */
    method ClickRegion(k: nat)
      requires k < |Regions|
      modifies this
      ensures selectedRegion == Some(Regions[k].id) && CurrentRegion() == Some(Regions[k])
      ensures searchQuery == old(searchQuery) && activeTab == old(activeTab) && mapLoaded == old(mapLoaded)
    {
      SelectRegion(Regions[k].id);
      RegionIdsDistinct();
      Lookup.FindById(Regions, RegionId, k);
    }

    method SetSearchQuery(query: string)
      modifies this
      ensures searchQuery == query
      ensures selectedRegion == old(selectedRegion) && activeTab == old(activeTab) && mapLoaded == old(mapLoaded)
    {
      searchQuery := query;
    }

    method SetActiveTab(tab: string)
      modifies this
      ensures activeTab == tab
      ensures selectedRegion == old(selectedRegion) && searchQuery == old(searchQuery) && mapLoaded == old(mapLoaded)
    {
      activeTab := tab;
    }
  }
}
