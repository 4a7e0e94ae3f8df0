/** The map page's region catalog: six regions, each with five issues,
    five initiatives and the position of its marker. */
module RegionsData {
  import opened Seqs
  import Lookup

  /** A marker position as CSS `top` and `left` percentages. */
  datatype Position = Position(top: string, left: string)

  datatype Region = Region(
    id: string,
    name: string,
    description: string,
    issues: seq<string>,
    initiatives: seq<string>,
    coordinates: Position)

  function RegionId(r: Region): string { r.id }

  /** `regions`, which is also the module's default export. */
  const Regions: seq<Region> := [NorthAmerica, SouthAmerica, Europe, Africa, Asia, Oceania]

  const NorthAmerica := Region("north-america", "North America",
    "A diverse region with a wide range of social and environmental challenges.",
    ["Climate Change", "Healthcare Access", "Housing Inequality", "Racial Justice", "Immigration"],
    ["Green New Deal Coalition", "Universal Healthcare Campaign", "Affordable Housing Initiative",
     "Racial Equity Network", "Immigrant Rights Project"],
    Position("30%", "20%"))

  const SouthAmerica := Region("south-america", "South America",
    "Rich in natural resources and cultural heritage, facing environmental and social challenges.",
    ["Deforestation", "Indigenous Rights", "Economic Inequality", "Political Corruption", "Water Access"],
    ["Amazon Conservation Alliance", "Indigenous Rights Collective", "Economic Justice Network",
     "Anti-Corruption Coalition", "Clean Water Projects"],
    Position("60%", "30%"))

  const Europe := Region("europe", "Europe",
    "A complex political landscape with diverse approaches to social and environmental issues.",
    ["Migration Crisis", "Climate Action", "Digital Rights", "Social Integration", "Energy Transition"],
    ["Refugee Support Network", "Climate Pact Alliance", "Digital Rights Observatory",
     "Social Integration Programs", "Renewable Energy Coalition"],
    Position("25%", "48%"))

  const Africa := Region("africa", "Africa",
    "A continent of immense diversity facing unique development and environmental challenges.",
    ["Water Scarcity", "Education Access", "Healthcare Infrastructure", "Food Security", "Conservation"],
    ["Water Access Projects", "Education for All Initiative", "Healthcare Systems Strengthening",
     "Sustainable Agriculture Programs", "Wildlife Conservation Efforts"],
    Position("48%", "50%"))

  const Asia := Region("asia", "Asia",
    "The largest continent with diverse cultures and rapid development alongside social challenges.",
    ["Climate Resilience", "Labor Rights", "Gender Equality", "Urban Development", "Air Pollution"],
    ["Climate Adaptation Network", "Fair Labor Coalition", "Women's Empowerment Alliance",
     "Sustainable Cities Initiative", "Clean Air Projects"],
    Position("35%", "70%"))

  const Oceania := Region("oceania", "Oceania",
    "Island nations facing unique challenges related to climate change and conservation.",
    ["Rising Sea Levels", "Indigenous Rights", "Conservation", "Climate Resilience", "Sustainable Tourism"],
    ["Climate Change Adaptation", "Indigenous Cultural Preservation", "Marine Conservation Projects",
     "Disaster Preparedness Network", "Eco-Tourism Standards"],
    Position("65%", "80%"))

  /** Six regions, no two with the same id. */
  lemma RegionIdsDistinct()
    ensures |Regions| == 6
    ensures Lookup.DistinctIds(Regions, RegionId)
  {
  }

  /** Every region lists five issues and five initiatives. */
  lemma FiveIssuesFiveInitiatives()
    ensures forall i :: 0 <= i < |Regions| ==> |Regions[i].issues| == 5 && |Regions[i].initiatives| == 5
  {
  }

  /** No region lists the same initiative twice. */
  lemma InitiativesDistinct()
    ensures forall i :: 0 <= i < |Regions| ==> NoDuplicates(Regions[i].initiatives)
  {
  }
}
