/** The back end's persistent entities and the tables that hold them.
    Generated UUIDs are modelled as naturals: in the tables of `Db` a row's
    id is its position, and a reference to another row is that row's
    position. Nullable columns are `Option`s. */
module Entities {
  import opened Seqs

  type Id = nat

  /** `Destination`. `rating` is the `DECIMAL(3,2)` column in hundredths of a
      star; latitude and longitude are exact decimals. `isFeatured` is a
      nullable `Boolean`: it is NULL when a create request carried an
      explicit null. */
  datatype Destination = Destination(
    name: string,
    slug: string,
    cityId: Option<Id>,
    category: string,
    description: string,
    shortDescription: Option<string>,
    mainImageUrl: Option<string>,
    rating: int,
    reviewCount: int,
    bestTimeToVisit: Option<string>,
    recommendedDuration: Option<string>,
    difficultyLevel: Option<string>,
    accessibilityInfo: Option<string>,
    history: Option<string>,
    culture: Option<string>,
    latitude: Option<real>,
    longitude: Option<real>,
    isFeatured: Option<bool>,
    isActive: bool)

  /** `Country`: name and code are both unique. */
  datatype Country = Country(
    name: string,
    code: string,
    currency: Option<string>,
    language: Option<string>,
    timezone: Option<string>)

  /** `countryRepository.findByCode(code)` as a condition on a row. */
  function HasCode(code: string): Country -> bool {
    (c: Country) => c.code == code
  }

  /** Some country already has this name: saving another one violates the
      unique name column. */
  predicate NameTaken(countries: seq<Country>, name: string) {
    exists i :: 0 <= i < |countries| && countries[i].name == name
  }

  /** `State`: unique per (country, name). */
  datatype State = State(countryId: Id, name: string, code: Option<string>)

  /** `City`: unique per (state, name). */
  datatype City = City(stateId: Id, name: string)

  /** `BlogPost`. `publishedAt` is a timestamp, NULL until published. */
  datatype BlogPost = BlogPost(
    title: string,
    slug: string,
    excerpt: Option<string>,
    content: string,
    authorName: string,
    categoryId: Option<Id>,
    isPublished: bool,
    isFeatured: bool,
    publishedAt: Option<int>)

  /** The country, state, city and destination tables. */
  datatype Db = Db(
    countries: seq<Country>,
    states: seq<State>,
    cities: seq<City>,
    destinations: seq<Destination>)

  /** Every reference points at an existing row. */
  ghost predicate ReferencesResolve(db: Db) {
    && (forall i :: 0 <= i < |db.states| ==> db.states[i].countryId < |db.countries|)
    && (forall i :: 0 <= i < |db.cities| ==> db.cities[i].stateId < |db.states|)
    && (forall i :: 0 <= i < |db.destinations| && db.destinations[i].cityId.Some? ==>
          db.destinations[i].cityId.value < |db.cities|)
  }

  /** The unique constraints of the four tables. */
  ghost predicate UniqueKeys(db: Db) {
    && (forall i, j :: 0 <= i < j < |db.countries| ==>
          db.countries[i].code != db.countries[j].code && db.countries[i].name != db.countries[j].name)
    && (forall i, j :: 0 <= i < j < |db.states| ==>
          db.states[i].countryId != db.states[j].countryId || db.states[i].name != db.states[j].name)
    && (forall i, j :: 0 <= i < j < |db.cities| ==>
          db.cities[i].stateId != db.cities[j].stateId || db.cities[i].name != db.cities[j].name)
    && (forall i, j :: 0 <= i < j < |db.destinations| ==>
          db.destinations[i].slug != db.destinations[j].slug)
  }

  ghost predicate ValidDb(db: Db) {
    ReferencesResolve(db) && UniqueKeys(db)
  }

  /** `db2` holds every row of `db1` at the same place, and possibly more. */
  ghost predicate Extends(db1: Db, db2: Db) {
    && db1.countries <= db2.countries
    && db1.states <= db2.states
    && db1.cities <= db2.cities
    && db1.destinations <= db2.destinations
  }

  lemma ExtendsTransitive(a: Db, b: Db, c: Db)
    requires Extends(a, b) && Extends(b, c)
    ensures Extends(a, c)
  {
  }

  // ---------------------------------------------------------------------
  // Joins along `d.city.state.country`

  /** The city, state and country names of a destination, when its city
      reference is set and every link resolves; a destination without them
      drops out of a query whose condition follows the path (an inner join). */
  datatype Place = Place(city: string, state: string, country: string)

  function PlaceOf(db: Db, d: Destination): Option<Place> {
    if d.cityId.Some? && d.cityId.value < |db.cities| then
      var c := db.cities[d.cityId.value];
      if c.stateId < |db.states| then
        var s := db.states[c.stateId];
        if s.countryId < |db.countries| then Some(Place(c.name, s.name, db.countries[s.countryId].name))
        else None
      else None
    else None
  }
}
