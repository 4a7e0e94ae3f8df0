/** The home page's map teaser: six markers at fixed positions, one of
    which may be selected by clicking it; the selected one is drawn larger. */
module InteractiveMap {
  import opened Wrappers
  import RegionsData
  import Lookup

  /** The widget's own short region list. */
  datatype MapRegion = MapRegion(id: string, name: string, issues: seq<string>)

  function MapRegionId(r: MapRegion): string { r.id }

  const Regions: seq<MapRegion> := [
    MapRegion("north-america", "North America", ["Climate Change", "Healthcare Access", "Housing Inequality"]),
    MapRegion("south-america", "South America", ["Deforestation", "Indigenous Rights", "Economic Inequality"]),
    MapRegion("europe", "Europe", ["Migration", "Climate Action", "Digital Rights"]),
    MapRegion("africa", "Africa", ["Water Access", "Education", "Healthcare"]),
    MapRegion("asia", "Asia", ["Climate Resilience", "Labor Rights", "Gender Equality"]),
    MapRegion("oceania", "Oceania", ["Rising Sea Levels", "Indigenous Rights", "Conservation"])
  ]

  /** The ids `getRegionPosition` knows. */
  const MarkerIds: set<string> := {"north-america", "south-america", "europe", "africa", "asia", "oceania"}

  /** Where a marker goes when its id is unknown. */
  const DefaultPosition: RegionsData.Position := RegionsData.Position("50%", "50%")

  /** `getRegionPosition`: the fixed position of each known region id, the
      centre for any other id. */
  function RegionPosition(regionId: string): (p: RegionsData.Position)
    ensures regionId !in MarkerIds ==> p == DefaultPosition
    ensures regionId in MarkerIds ==> p != DefaultPosition
  {
    match regionId
    case "north-america" => RegionsData.Position("30%", "20%")
    case "south-america" => RegionsData.Position("60%", "30%")
    case "europe" => RegionsData.Position("25%", "48%")
    case "africa" => RegionsData.Position("48%", "50%")
    case "asia" => RegionsData.Position("35%", "70%")
    case "oceania" => RegionsData.Position("65%", "80%")
    case _ => DefaultPosition
  }

  /** The six known ids get six different positions. */
  lemma PositionsDistinct(a: string, b: string)
    requires a in MarkerIds && b in MarkerIds && a != b
    ensures RegionPosition(a) != RegionPosition(b)
  {
  }

  /** The widget's ids are distinct and are exactly the known marker ids. */
  lemma RegionIdsDistinct()
    ensures Lookup.DistinctIds(Regions, MapRegionId)
    ensures forall r :: r in Regions ==> r.id in MarkerIds
    ensures forall m :: m in MarkerIds ==> exists k :: 0 <= k < |Regions| && Regions[k].id == m
  {
    forall m | m in MarkerIds ensures exists k :: 0 <= k < |Regions| && Regions[k].id == m {
      var k := if m == "north-america" then 0 else if m == "south-america" then 1
        else if m == "europe" then 2 else if m == "africa" then 3
        else if m == "asia" then 4 else 5;
      assert Regions[k].id == m;
    }
  }

  /** The catalog's stored coordinates agree with `getRegionPosition`. */
  lemma CatalogCoordinatesAgree()
    ensures forall i :: 0 <= i < |RegionsData.Regions| ==>
      RegionsData.Regions[i].coordinates == RegionPosition(RegionsData.Regions[i].id)
  {
  }

  /** The marker size in pixels: 30 for the selected region, 24 otherwise. */
  function MarkerSize(selectedRegion: Option<string>, regionId: string): (px: nat)
    ensures px == 30 || px == 24
    ensures px == 30 <==> selectedRegion == Some(regionId)
  {
    if selectedRegion == Some(regionId) then 30 else 24
  }

  /** At most one marker is drawn large. */
  lemma AtMostOneLargeMarker(selectedRegion: Option<string>, i: nat, j: nat)
    requires i < j < |Regions|
    ensures MarkerSize(selectedRegion, Regions[i].id) == 24 || MarkerSize(selectedRegion, Regions[j].id) == 24
  {
    RegionIdsDistinct();
  }

  /** The widget's state. */
  class Widget {
    var selectedRegion: Option<string>
    var mapLoaded: bool

    constructor ()
      ensures selectedRegion == None && !mapLoaded
      ensures CurrentRegion() == None
    {
      selectedRegion := None;
      mapLoaded := false;
    }

    /** The region whose details the panel shows, if any. */
    function CurrentRegion(): (r: Option<MapRegion>)
      reads this
      ensures r.Some? <==> selectedRegion.Some? && exists k :: 0 <= k < |Regions| && Regions[k].id == selectedRegion.value
      ensures r.Some? ==> r.value in Regions && Some(r.value.id) == selectedRegion
    {
      Lookup.Find(Regions, MapRegionId, selectedRegion)
    }

    /** Clicking a marker selects its region and changes nothing else. */
    method HandleRegionClick(regionId: string)
      modifies this
      ensures selectedRegion == Some(regionId) && mapLoaded == old(mapLoaded)
      ensures forall k :: 0 <= k < |Regions| && Regions[k].id == regionId ==> CurrentRegion() == Some(Regions[k])
    {
      selectedRegion := Some(regionId);
      RegionIdsDistinct();
      forall k | 0 <= k < |Regions| && Regions[k].id == regionId
        ensures CurrentRegion() == Some(Regions[k])
      {
        Lookup.FindById(Regions, MapRegionId, k);
      }
    }
  }
}
