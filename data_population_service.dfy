/** Loading the eight Indian destinations: get-or-create of the country, its
    states and cities, insertion of each destination whose slug is new, and
    the category helpers that fill in the derived columns. */
module DataPopulationService {
  import opened Seqs
  import opened Entities

  /** `DestinationData`. The `float` rating is kept in tenths of a star. */
  datatype DestinationData = DestinationData(
    name: string,
    slug: string,
    cityName: string,
    stateName: string,
    category: string,
    description: string,
    imageUrl: string,
    ratingTenths: int)

  /** The eight entries of the list, in order. */
  function Entry(i: nat): DestinationData
    requires i < 8
  {
    if i == 0 then
      DestinationData("Taj Mahal", "taj-mahal", "Agra", "Uttar Pradesh", "Historical",
          "An ivory-white marble mausoleum and UNESCO World Heritage Site",
          "https://images.unsplash.com/photo-1564507592333-c60657eea523", 48)
    else if i == 1 then
      DestinationData("Kerala Backwaters", "kerala-backwaters", "Alleppey", "Kerala", "Nature",
          "Network of brackish lagoons and lakes famous for houseboat cruises",
          "https://images.unsplash.com/photo-1602216056096-3b40cc0c9944", 46)
    else if i == 2 then
      DestinationData("Goa Beaches", "goa-beaches", "Panaji", "Goa", "Beach",
          "Golden sandy beaches with Portuguese colonial architecture",
          "https://images.unsplash.com/photo-1512343879784-a960bf40e7f2", 44)
    else if i == 3 then
      DestinationData("Rajasthan Palaces", "rajasthan-palaces", "Jaipur", "Rajasthan", "Historical",
          "Royal palaces showcasing grandeur of Rajput architecture",
          "https://images.unsplash.com/photo-1599661046827-dacde6976549", 47)
    else if i == 4 then
      DestinationData("Himachal Mountains", "himachal-mountains", "Shimla", "Himachal Pradesh", "Mountain",
          "Scenic hill stations with snow-capped peaks and adventure sports",
          "https://images.unsplash.com/photo-1506905925346-21bda4d32df4", 45)
    else if i == 5 then
      DestinationData("Golden Temple", "golden-temple", "Amritsar", "Punjab", "Spiritual",
          "Holiest Gurdwara of Sikhism with stunning golden architecture",
          "https://images.unsplash.com/photo-1578662996442-48f60103fc96", 49)
    else if i == 6 then
      DestinationData("Ladakh", "ladakh", "Leh", "Ladakh", "Adventure",
          "High-altitude desert with Buddhist monasteries and stunning landscapes",
          "https://images.unsplash.com/photo-1506905925346-21bda4d32df4", 48)
    else
      DestinationData("Hampi", "hampi", "Hampi", "Karnataka", "Historical",
          "UNESCO World Heritage Site with ancient Vijayanagara Empire ruins",
          "https://images.unsplash.com/photo-1582510003544-4d00b7f74220", 46)
  }

  const IndianDestinations: seq<DestinationData> := seq(8, (i: int) requires 0 <= i < 8 => Entry(i))

  const IndianSlugs: seq<string> :=
    ["taj-mahal", "kerala-backwaters", "goa-beaches", "rajasthan-palaces",
     "himachal-mountains", "golden-temple", "ladakh", "hampi"]

  // ---------------------------------------------------------------------
  // Derived columns

  function BestTimeForCategory(category: string): string {
    match category
    case "Mountain" => "March to June, September to November"
    case "Beach" => "November to February"
    case "Historical" => "October to March"
    case "Spiritual" => "October to March"
    case "Nature" => "November to February"
    case "Adventure" => "April to June, September to November"
    case _ => "October to March"
  }

  function DurationForCategory(category: string): string {
    match category
    case "Historical" => "1-2 days"
    case "Spiritual" => "1-2 days"
    case "Beach" => "3-5 days"
    case "Nature" => "3-5 days"
    case "Mountain" => "4-7 days"
    case "Adventure" => "4-7 days"
    case _ => "2-3 days"
  }

  /** Beach and Nature share their season, and so do Historical, Spiritual
      and every unlisted category. */
  lemma BestTimeGroups(category: string)
    ensures category == "Beach" || category == "Nature" ==> BestTimeForCategory(category) == "November to February"
    ensures category !in {"Mountain", "Beach", "Nature", "Adventure"} ==>
              BestTimeForCategory(category) == "October to March"
    ensures BestTimeForCategory("Mountain") == "March to June, September to November"
    ensures BestTimeForCategory("Adventure") == "April to June, September to November"
  {
  }

  lemma DurationGroups(category: string)
    ensures category == "Historical" || category == "Spiritual" ==> DurationForCategory(category) == "1-2 days"
    ensures category == "Beach" || category == "Nature" ==> DurationForCategory(category) == "3-5 days"
    ensures category == "Mountain" || category == "Adventure" ==> DurationForCategory(category) == "4-7 days"
    ensures category !in {"Historical", "Spiritual", "Beach", "Nature", "Mountain", "Adventure"} ==>
              DurationForCategory(category) == "2-3 days"
  {
  }

  /** `description.substring(0, Math.min(description.length(), 100))`. */
  function ShortDescription(description: string): (r: string)
    ensures |r| <= 100 && |r| <= |description|
    ensures r == description[..|r|]
    ensures |description| <= 100 ==> r == description
    ensures |description| > 100 ==> |r| == 100
  {
    Take(description, 100)
  }

  /** `data.rating > 4.5`, on tenths. */
  predicate IsFeaturedRating(ratingTenths: int) {
    ratingTenths > 45
  }

  /** 4.5 itself is not featured; 4.6 is. */
  lemma FeaturedThreshold()
    ensures !IsFeaturedRating(45) && IsFeaturedRating(46)
  {
  }

  /** `(int) (Math.random() * 1000) + 100`. */
  predicate ReviewCountInRange(n: int) {
    100 <= n <= 1099
  }

  /** The destination row built for `data` in city `cityId`. */
  function NewDestination(data: DestinationData, cityId: Id, reviewCount: int): (d: Destination)
    ensures d.slug == data.slug && d.cityId == Some(cityId)
    ensures d.shortDescription == Some(ShortDescription(data.description))
    ensures d.rating == 10 * data.ratingTenths
    ensures d.isFeatured == Some(data.ratingTenths > 45)
    ensures d.isActive
  {
    Destination(
      data.name, data.slug, Some(cityId), data.category, data.description,
      Some(ShortDescription(data.description)), Some(data.imageUrl),
      10 * data.ratingTenths, reviewCount,
      Some(BestTimeForCategory(data.category)), Some(DurationForCategory(data.category)),
      Some("Easy"), None, None, None, None, None,
      Some(IsFeaturedRating(data.ratingTenths)), true)
  }

  // ---------------------------------------------------------------------
  // Get-or-create steps

  datatype PopulationError = CountryNameTaken(name: string)

  /** A row found or created, and the tables after that. */
  datatype Found = Found(db: Db, id: Id)

  function StateKey(countryId: Id, name: string): State -> bool {
    (s: State) => s.countryId == countryId && s.name == name
  }

  function CityKey(stateId: Id, name: string): City -> bool {
    (c: City) => c.stateId == stateId && c.name == name
  }

  predicate SlugExists(db: Db, slug: string) {
    exists i :: 0 <= i < |db.destinations| && db.destinations[i].slug == slug
  }

  /** `getOrCreateCountry`: the country with the code, or a new one. A new
      one whose name is already taken violates the unique name column. */
  function GetOrCreateCountryIn(db: Db, name: string, code: string): (r: Result<Found, PopulationError>)
    ensures r.Success? ==> Extends(db, r.value.db) && r.value.id < |r.value.db.countries|
    ensures r.Success? ==> IndexWhere(r.value.db.countries, HasCode(code)) == Some(r.value.id)
    ensures IndexWhere(db.countries, HasCode(code)).Some? ==> r == Success(Found(db, IndexWhere(db.countries, HasCode(code)).value))
    ensures r.Failure? <==> IndexWhere(db.countries, HasCode(code)).None? && NameTaken(db.countries, name)
    ensures r.Success? && IndexWhere(db.countries, HasCode(code)).None? ==>
              r.value.db == db.(countries := db.countries + [Country(name, code, Some("INR"), Some("Hindi"), Some("Asia/Kolkata"))])
  {
    match IndexWhere(db.countries, HasCode(code))
    case Some(i) => Success(Found(db, i))
    case None =>
      if NameTaken(db.countries, name) then Failure(CountryNameTaken(name))
      else
        var c := Country(name, code, Some("INR"), Some("Hindi"), Some("Asia/Kolkata"));
        IndexWhereAppended(db.countries, c, HasCode(code));
        Success(Found(db.(countries := db.countries + [c]), |db.countries|))
  }

  /** `stateRepository.findByCountryIdAndName(..).orElseGet(save)`. */
  function GetOrCreateState(db: Db, countryId: Id, name: string): (r: Found)
    ensures Extends(db, r.db) && r.id < |r.db.states|
    ensures r.db.countries == db.countries && r.db.cities == db.cities && r.db.destinations == db.destinations
    ensures IndexWhere(r.db.states, StateKey(countryId, name)) == Some(r.id)
    ensures IndexWhere(db.states, StateKey(countryId, name)).Some? ==> r.db == db
  {
    match IndexWhere(db.states, StateKey(countryId, name))
    case Some(i) => Found(db, i)
    case None =>
      var s := State(countryId, name, None);
      IndexWhereAppended(db.states, s, StateKey(countryId, name));
      Found(db.(states := db.states + [s]), |db.states|)
  }

  function GetOrCreateCity(db: Db, stateId: Id, name: string): (r: Found)
    ensures Extends(db, r.db) && r.id < |r.db.cities|
    ensures r.db.countries == db.countries && r.db.states == db.states && r.db.destinations == db.destinations
    ensures IndexWhere(r.db.cities, CityKey(stateId, name)) == Some(r.id)
    ensures IndexWhere(db.cities, CityKey(stateId, name)).Some? ==> r.db == db
  {
    match IndexWhere(db.cities, CityKey(stateId, name))
    case Some(i) => Found(db, i)
    case None =>
      var c := City(stateId, name);
      IndexWhereAppended(db.cities, c, CityKey(stateId, name));
      Found(db.(cities := db.cities + [c]), |db.cities|)
  }

  /** `createDestination`: the state and the city are looked up or created
      first, even when the destination itself already exists. */
  function CreateDestinationIn(db: Db, countryId: Id, data: DestinationData, reviewCount: int): (r: Db)
    ensures Extends(db, r)
    ensures r.countries == db.countries
    ensures SlugExists(db, data.slug) ==> r.destinations == db.destinations
    ensures !SlugExists(db, data.slug) ==>
              |r.destinations| == |db.destinations| + 1
              && r.destinations[|db.destinations|].cityId.Some?
              && r.destinations[|db.destinations|] == NewDestination(data, r.destinations[|db.destinations|].cityId.value, reviewCount)
  {
    var state := GetOrCreateState(db, countryId, data.stateName);
    var city := GetOrCreateCity(state.db, state.id, data.cityName);
    if SlugExists(city.db, data.slug) then city.db
    else city.db.(destinations := city.db.destinations + [NewDestination(data, city.id, reviewCount)])
  }

  /** The loop of `populateIndianDestinations`, one entry after another. */
  function CreateAll(db: Db, countryId: Id, list: seq<DestinationData>, reviewCounts: seq<int>): (r: Db)
    requires |reviewCounts| == |list|
    ensures Extends(db, r)
    ensures r.countries == db.countries
    decreases |list|
  {
    if list == [] then db
    else
      var next := CreateDestinationIn(db, countryId, list[0], reviewCounts[0]);
      var r := CreateAll(next, countryId, list[1..], reviewCounts[1..]);
      ExtendsTransitive(db, next, r);
      r
  }

  ghost predicate ReviewCountsInRange(reviewCounts: seq<int>) {
    forall i :: 0 <= i < |reviewCounts| ==> ReviewCountInRange(reviewCounts[i])
  }

  /** `populateIndianDestinations` over `list` (the service always passes
      `IndianDestinations`), one transaction: either the whole run or no
      change at all. `reviewCounts` are the random review counts drawn for
      the entries, in order. */
  function Populate(db: Db, list: seq<DestinationData>, reviewCounts: seq<int>): Result<Db, PopulationError>
    requires |reviewCounts| == |list|
  {
    match GetOrCreateCountryIn(db, "India", "IND")
    case Failure(e) => Failure(e)
    case Success(india) => Success(CreateAll(india.db, india.id, list, reviewCounts))
  }

  // ---------------------------------------------------------------------
  // Properties of a run

  /** The rows an entry needs are in the tables: its state under the
      country, its city under that state, and a destination with its slug. */
  ghost predicate Stocked(db: Db, countryId: Id, data: DestinationData) {
    && IndexWhere(db.states, StateKey(countryId, data.stateName)).Some?
    && IndexWhere(db.cities, CityKey(IndexWhere(db.states, StateKey(countryId, data.stateName)).value, data.cityName)).Some?
    && SlugExists(db, data.slug)
  }

  lemma SlugExistsExtends(db1: Db, db2: Db, slug: string)
    requires Extends(db1, db2) && SlugExists(db1, slug)
    ensures SlugExists(db2, slug)
  {
    var i :| 0 <= i < |db1.destinations| && db1.destinations[i].slug == slug;
    assert db2.destinations[i] == db1.destinations[i];
  }

  lemma StockedExtends(db1: Db, db2: Db, countryId: Id, data: DestinationData)
    requires Extends(db1, db2) && Stocked(db1, countryId, data)
    ensures Stocked(db2, countryId, data)
  {
    IndexWherePrefix(db1.states, db2.states, StateKey(countryId, data.stateName));
    var s := IndexWhere(db1.states, StateKey(countryId, data.stateName)).value;
    IndexWherePrefix(db1.cities, db2.cities, CityKey(s, data.cityName));
    SlugExistsExtends(db1, db2, data.slug);
  }

  lemma CreateDestinationStocks(db: Db, countryId: Id, data: DestinationData, reviewCount: int)
    ensures Stocked(CreateDestinationIn(db, countryId, data, reviewCount), countryId, data)
  {
    var state := GetOrCreateState(db, countryId, data.stateName);
    var city := GetOrCreateCity(state.db, state.id, data.cityName);
    var r := CreateDestinationIn(db, countryId, data, reviewCount);
    IndexWherePrefix(state.db.states, r.states, StateKey(countryId, data.stateName));
    IndexWherePrefix(city.db.cities, r.cities, CityKey(state.id, data.cityName));
    if !SlugExists(city.db, data.slug) {
      assert r.destinations[|city.db.destinations|].slug == data.slug;
    }
  }

  /** An entry whose rows are all there changes nothing. */
  lemma CreateDestinationStockedIsIdentity(db: Db, countryId: Id, data: DestinationData, reviewCount: int)
    requires Stocked(db, countryId, data)
    ensures CreateDestinationIn(db, countryId, data, reviewCount) == db
  {
  }

  /** Every entry of a run is stocked afterwards, whatever came after it. */
  lemma {:induction false} CreateAllStocks(db: Db, countryId: Id, list: seq<DestinationData>, reviewCounts: seq<int>, i: nat)
    requires |reviewCounts| == |list| && i < |list|
    ensures Stocked(CreateAll(db, countryId, list, reviewCounts), countryId, list[i])
    decreases |list|
  {
    var next := CreateDestinationIn(db, countryId, list[0], reviewCounts[0]);
    var r := CreateAll(next, countryId, list[1..], reviewCounts[1..]);
    assert r == CreateAll(db, countryId, list, reviewCounts);
    if i == 0 {
      CreateDestinationStocks(db, countryId, list[0], reviewCounts[0]);
      StockedExtends(next, r, countryId, list[0]);
    } else {
      CreateAllStocks(next, countryId, list[1..], reviewCounts[1..], i - 1);
      assert list[1..][i - 1] == list[i];
    }
  }

  lemma {:induction false} CreateAllStockedIsIdentity(db: Db, countryId: Id, list: seq<DestinationData>, reviewCounts: seq<int>)
    requires |reviewCounts| == |list|
    requires forall i :: 0 <= i < |list| ==> Stocked(db, countryId, list[i])
    ensures CreateAll(db, countryId, list, reviewCounts) == db
    decreases |list|
  {
    if list != [] {
      CreateDestinationStockedIsIdentity(db, countryId, list[0], reviewCounts[0]);
      assert forall i :: 0 <= i < |list[1..]| ==> list[1..][i] == list[i + 1];
      CreateAllStockedIsIdentity(db, countryId, list[1..], reviewCounts[1..]);
    }
  }

  /** The slugs of the eight entries, in order. */
  lemma IndianSlugsListed()
    ensures |IndianSlugs| == |IndianDestinations|
    ensures forall i :: 0 <= i < |IndianDestinations| ==> IndianDestinations[i].slug == IndianSlugs[i]
  {
  }

  /** After a run every listed slug exists, and no row that was there
      before has moved or changed. */
  lemma PopulateStocksAll(db: Db, reviewCounts: seq<int>)
    requires |reviewCounts| == |IndianDestinations|
    requires Populate(db, IndianDestinations, reviewCounts).Success?
    ensures Extends(db, Populate(db, IndianDestinations, reviewCounts).value)
    ensures forall slug :: slug in IndianSlugs ==> SlugExists(Populate(db, IndianDestinations, reviewCounts).value, slug)
  {
    var india := GetOrCreateCountryIn(db, "India", "IND").value;
    var r := Populate(db, IndianDestinations, reviewCounts).value;
    assert r == CreateAll(india.db, india.id, IndianDestinations, reviewCounts);
    ExtendsTransitive(db, india.db, r);
    IndianSlugsListed();
    CreateAllSlugsExist(india.db, india.id, IndianDestinations, reviewCounts, IndianSlugs);
  }

  /** After a run, the slug of every entry of the list exists. */
  lemma CreateAllSlugsExist(db: Db, countryId: Id, list: seq<DestinationData>, reviewCounts: seq<int>, slugs: seq<string>)
    requires |reviewCounts| == |list| && |slugs| == |list|
    requires forall i :: 0 <= i < |list| ==> list[i].slug == slugs[i]
    ensures forall slug :: slug in slugs ==> SlugExists(CreateAll(db, countryId, list, reviewCounts), slug)
  {
    forall slug | slug in slugs
      ensures SlugExists(CreateAll(db, countryId, list, reviewCounts), slug)
    {
      var i :| 0 <= i < |slugs| && slugs[i] == slug;
      CreateAllStocks(db, countryId, list, reviewCounts, i);
    }
  }

  /** A second run, with any review counts, adds nothing. */
  lemma PopulateIdempotent(db: Db, reviewCounts: seq<int>, reviewCounts2: seq<int>)
    requires |reviewCounts| == |IndianDestinations| && |reviewCounts2| == |IndianDestinations|
    requires Populate(db, IndianDestinations, reviewCounts).Success?
    ensures Populate(Populate(db, IndianDestinations, reviewCounts).value, IndianDestinations, reviewCounts2) == Populate(db, IndianDestinations, reviewCounts)
  {
    var india := GetOrCreateCountryIn(db, "India", "IND").value;
    var r := Populate(db, IndianDestinations, reviewCounts).value;
    assert r == CreateAll(india.db, india.id, IndianDestinations, reviewCounts);
    assert GetOrCreateCountryIn(r, "India", "IND") == Success(Found(r, india.id));
    forall i | 0 <= i < |IndianDestinations|
      ensures Stocked(r, india.id, IndianDestinations[i])
    {
      CreateAllStocks(india.db, india.id, IndianDestinations, reviewCounts, i);
    }
    CreateAllStockedIsIdentity(r, india.id, IndianDestinations, reviewCounts2);
  }

  // ---------------------------------------------------------------------
  // The unique keys survive a run

  lemma GetOrCreateStateValid(db: Db, countryId: Id, name: string)
    requires ValidDb(db) && countryId < |db.countries|
    ensures ValidDb(GetOrCreateState(db, countryId, name).db)
  {
  }

  lemma GetOrCreateCityValid(db: Db, stateId: Id, name: string)
    requires ValidDb(db) && stateId < |db.states|
    ensures ValidDb(GetOrCreateCity(db, stateId, name).db)
  {
  }

  lemma CreateDestinationValid(db: Db, countryId: Id, data: DestinationData, reviewCount: int)
    requires ValidDb(db) && countryId < |db.countries|
    ensures ValidDb(CreateDestinationIn(db, countryId, data, reviewCount))
  {
    var state := GetOrCreateState(db, countryId, data.stateName);
    GetOrCreateStateValid(db, countryId, data.stateName);
    var city := GetOrCreateCity(state.db, state.id, data.cityName);
    GetOrCreateCityValid(state.db, state.id, data.cityName);
  }

  lemma {:induction false} CreateAllValid(db: Db, countryId: Id, list: seq<DestinationData>, reviewCounts: seq<int>)
    requires |reviewCounts| == |list|
    requires ValidDb(db) && countryId < |db.countries|
    ensures ValidDb(CreateAll(db, countryId, list, reviewCounts))
    decreases |list|
  {
    if list != [] {
      CreateDestinationValid(db, countryId, list[0], reviewCounts[0]);
      CreateAllValid(CreateDestinationIn(db, countryId, list[0], reviewCounts[0]), countryId, list[1..], reviewCounts[1..]);
    }
  }

  lemma GetOrCreateCountryValid(db: Db, name: string, code: string)
    requires ValidDb(db)
    requires GetOrCreateCountryIn(db, name, code).Success?
    ensures ValidDb(GetOrCreateCountryIn(db, name, code).value.db)
  {
  }

  /** A run keeps at most one country per code and name, one state per
      (country, name), one city per (state, name) and one destination per slug. */
  lemma PopulateValid(db: Db, reviewCounts: seq<int>)
    requires |reviewCounts| == |IndianDestinations|
    requires ValidDb(db)
    requires Populate(db, IndianDestinations, reviewCounts).Success?
    ensures ValidDb(Populate(db, IndianDestinations, reviewCounts).value)
  {
    var india := GetOrCreateCountryIn(db, "India", "IND").value;
    GetOrCreateCountryValid(db, "India", "IND");
    CreateAllValid(india.db, india.id, IndianDestinations, reviewCounts);
  }

  // ---------------------------------------------------------------------
  // The service over its four tables

  class DataPopulationService {
    var countries: seq<Country>
    var states: seq<State>
    var cities: seq<City>
    var destinations: seq<Destination>

    function Tables(): Db
      reads this
    {
      Db(countries, states, cities, destinations)
    }

    ghost predicate Valid()
      reads this
    {
      ValidDb(Tables())
    }

    constructor (db: Db)
      requires ValidDb(db)
      ensures Valid() && Tables() == db
    {
      countries := db.countries;
      states := db.states;
      cities := db.cities;
      destinations := db.destinations;
    }

    method GetOrCreateCountry(name: string, code: string) returns (r: Result<Id, PopulationError>)
      requires Valid()
      modifies this
      ensures Valid()
      ensures var spec := GetOrCreateCountryIn(old(Tables()), name, code);
        && (spec.Success? ==> r == Success(spec.value.id) && Tables() == spec.value.db)
        && (spec.Failure? ==> r == Failure(spec.error) && Tables() == old(Tables()))
    {
      GetOrCreateCountryValidIfSuccess(Tables(), name, code);
      var found := IndexWhere(countries, HasCode(code));
      if found.Some? {
        return Success(found.value);
      }
      if NameTaken(countries, name) {
        return Failure(CountryNameTaken(name));
      }
      countries := countries + [Country(name, code, Some("INR"), Some("Hindi"), Some("Asia/Kolkata"))];
      r := Success(|countries| - 1);
    }

    method CreateDestination(data: DestinationData, country: Id, reviewCount: int)
      requires Valid() && country < |countries|
      requires ReviewCountInRange(reviewCount)
      modifies this
      ensures Valid()
      ensures Tables() == CreateDestinationIn(old(Tables()), country, data, reviewCount)
    {
      CreateDestinationValid(Tables(), country, data, reviewCount);
      ghost var db0 := Tables();
      var state := IndexWhere(states, StateKey(country, data.stateName));
      var stateId;
      if state.Some? {
        stateId := state.value;
      } else {
        states := states + [State(country, data.stateName, None)];
        stateId := |states| - 1;
      }
      assert Found(Tables(), stateId) == GetOrCreateState(db0, country, data.stateName);
      ghost var db1 := Tables();
      var city := IndexWhere(cities, CityKey(stateId, data.cityName));
      var cityId;
      if city.Some? {
        cityId := city.value;
      } else {
        cities := cities + [City(stateId, data.cityName)];
        cityId := |cities| - 1;
      }
      assert Found(Tables(), cityId) == GetOrCreateCity(db1, stateId, data.cityName);
      if !SlugExists(Tables(), data.slug) {
        destinations := destinations + [NewDestination(data, cityId, reviewCount)];
      }
    }

    /** `populateIndianDestinations`. */
    method PopulateIndianDestinations(reviewCounts: seq<int>) returns (err: Option<PopulationError>)
      requires Valid()
      requires |reviewCounts| == |IndianDestinations| && ReviewCountsInRange(reviewCounts)
      modifies this
      ensures Valid()
      ensures var spec := Populate(old(Tables()), IndianDestinations, reviewCounts);
        && (spec.Success? ==> err == None && Tables() == spec.value)
        && (spec.Failure? ==> err == Some(spec.error) && Tables() == old(Tables()))
    {
      ghost var db0 := Tables();
      var india := GetOrCreateCountry("India", "IND");
      if india.Failure? {
        return Some(india.error);
      }
      ghost var found := GetOrCreateCountryIn(db0, "India", "IND").value;
      CreateDestinations(IndianDestinations, india.value, reviewCounts);
      PopulateFound(db0, IndianDestinations, reviewCounts, found);
      err := None;
    }

    /** The loop of `populateIndianDestinations`: `createDestination` for
        each entry in turn. */
    method CreateDestinations(list: seq<DestinationData>, country: Id, reviewCounts: seq<int>)
      requires Valid() && country < |countries|
      requires |reviewCounts| == |list| && ReviewCountsInRange(reviewCounts)
      modifies this
      ensures Valid()
      ensures Tables() == CreateAll(old(Tables()), country, list, reviewCounts)
    {
      var i := 0;
      while i < |list|
        invariant 0 <= i <= |list|
        invariant Valid() && country < |countries|
        invariant CreateAll(Tables(), country, list[i..], reviewCounts[i..])
                  == CreateAll(old(Tables()), country, list, reviewCounts)
      {
        CreateAllStep(Tables(), country, list, reviewCounts, i);
        CreateDestination(list[i], country, reviewCounts[i]);
        i := i + 1;
      }
    }
  }

  lemma PopulateFound(db: Db, list: seq<DestinationData>, reviewCounts: seq<int>, india: Found)
    requires |reviewCounts| == |list|
    requires GetOrCreateCountryIn(db, "India", "IND") == Success(india)
    ensures Populate(db, list, reviewCounts) == Success(CreateAll(india.db, india.id, list, reviewCounts))
  {
  }

  /** One turn of the loop. */
  lemma CreateAllStep(db: Db, countryId: Id, list: seq<DestinationData>, reviewCounts: seq<int>, i: nat)
    requires |reviewCounts| == |list| && i < |list|
    ensures CreateAll(db, countryId, list[i..], reviewCounts[i..])
            == CreateAll(CreateDestinationIn(db, countryId, list[i], reviewCounts[i]), countryId, list[i + 1..], reviewCounts[i + 1..])
  {
    assert list[i..][1..] == list[i + 1..];
    assert reviewCounts[i..][1..] == reviewCounts[i + 1..];
  }

  lemma GetOrCreateCountryValidIfSuccess(db: Db, name: string, code: string)
    requires ValidDb(db)
    ensures GetOrCreateCountryIn(db, name, code).Success? ==> ValidDb(GetOrCreateCountryIn(db, name, code).value.db)
  {
    if GetOrCreateCountryIn(db, name, code).Success? {
      GetOrCreateCountryValid(db, name, code);
    }
  }
}
