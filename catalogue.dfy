/** The front end's destination catalogue: the record each page searches,
    filters and sorts, the text matching and equality filters the pages share,
    and the daily budget bands of the destinations page. */
module Catalogue {
  import opened Seqs
  import opened Text

  datatype TierPrices = TierPrices(budget: int, mid: int, luxury: int)

  datatype TransportPrices = TransportPrices(local: int, privateCar: int)

  datatype Budget = Budget(
    accommodation: TierPrices,
    food: TierPrices,
    transport: TransportPrices,
    activities: int)

  /** `Destination` as the pages use it. `state` is optional; `rating` is in
      tenths of a star (4.8 is 48). Images, attractions, history and weather
      are display data and are not part of the record. */
  datatype Destination = Destination(
    id: string,
    name: string,
    country: string,
    state: Option<string>,
    city: string,
    description: string,
    category: string,
    rating: int,
    bestTime: string,
    duration: string,
    budget: Budget)

  /** The filter record the search bar hands over. An empty value is falsy
      and imposes no constraint. The duration and best-time selections are
      part of the record but no page reads them. */
  datatype SearchFilters = SearchFilters(
    category: string,
    country: string,
    budget: string,
    duration: string,
    bestTime: string)

  /** `if (filters.category) filtered = filtered.filter(d => d.category === filters.category)`. */
  function ByCategory(category: string): Destination -> bool {
    (d: Destination) => category == "" || d.category == category
  }

  function ByCountry(country: string): Destination -> bool {
    (d: Destination) => country == "" || d.country == country
  }

  /** The two equality filters both pages apply, joined by AND. */
  function ByCategoryAndCountry(f: SearchFilters): Destination -> bool {
    (d: Destination) => ByCategory(f.category)(d) && ByCountry(f.country)(d)
  }

  /** Narrowing by category and then by country is filtering once by both. */
  lemma NarrowByCountry(catalogue: seq<Destination>, f: SearchFilters)
    ensures Filter(Filter(catalogue, ByCategory(f.category)), ByCountry(f.country))
            == Filter(catalogue, ByCategoryAndCountry(f))
  {
    FilterFilter(catalogue, ByCategory(f.category), ByCountry(f.country), ByCategoryAndCountry(f));
  }

  // ---------------------------------------------------------------------
  // Budget bands (destinations page)

  /** One day at budget tier: room, meals and local transport. */
  function DailyBudget(d: Destination): int {
    d.budget.accommodation.budget + d.budget.food.budget + d.budget.transport.local
  }

  /** The band a daily budget falls in: 'low' below 5000, 'medium' from
      5000 to 15000 inclusive, 'high' above 15000; any other band value
      keeps every destination. */
  predicate InBudgetBand(band: string, daily: int) {
    if band == "low" then daily < 5000
    else if band == "medium" then 5000 <= daily <= 15000
    else if band == "high" then daily > 15000
    else true
  }

  function ByBudgetBand(band: string): Destination -> bool {
    (d: Destination) => band == "" || InBudgetBand(band, DailyBudget(d))
  }

  /** Every daily budget lies in exactly one of the three bands. */
  lemma BandsPartition(daily: int)
    ensures InBudgetBand("low", daily) || InBudgetBand("medium", daily) || InBudgetBand("high", daily)
    ensures !(InBudgetBand("low", daily) && InBudgetBand("medium", daily))
    ensures !(InBudgetBand("low", daily) && InBudgetBand("high", daily))
    ensures !(InBudgetBand("medium", daily) && InBudgetBand("high", daily))
  {
  }

  /** An unknown band value constrains nothing. */
  lemma UnknownBandKeepsAll(band: string, daily: int)
    requires band != "low" && band != "medium" && band != "high"
    ensures InBudgetBand(band, daily)
  {
  }

  // ---------------------------------------------------------------------
  // Fixture

  /** The first catalogue entry. */
  const TajMahal: Destination := Destination(
    "taj-mahal", "Taj Mahal", "India", Some("Uttar Pradesh"), "Agra",
    "An ivory-white marble mausoleum and UNESCO World Heritage Site, considered one of the finest examples of Mughal architecture.",
    "Historical", 48, "October to March", "1-2 days",
    Budget(TierPrices(1500, 4000, 8000), TierPrices(800, 2000, 4000), TransportPrices(500, 2000), 1500))

  /** The Taj Mahal costs 1500 + 800 + 500 = 2800 a day, so it is a 'low' destination. */
  lemma TajMahalIsLowBudget()
    ensures DailyBudget(TajMahal) == 2800
    ensures InBudgetBand("low", DailyBudget(TajMahal))
    ensures !InBudgetBand("medium", DailyBudget(TajMahal)) && !InBudgetBand("high", DailyBudget(TajMahal))
  {
  }
}
