/** The administrators' destination store: create, partial update, delete
    and the two flag toggles, over destinations keyed by id. */
module AdminDestinationService {
  import opened Seqs
  import opened Entities

  /** `CreateDestinationRequest` once validation has passed: name, slug,
      category and description are present and the city id is given.
      `isFeatured` is `Some(false)` when the field is absent (the field's
      initialiser) and `None` when the request carries an explicit null. */
  datatype CreateRequest = CreateRequest(
    name: string,
    slug: string,
    cityId: Id,
    category: string,
    description: string,
    shortDescription: Option<string>,
    mainImageUrl: Option<string>,
    bestTimeToVisit: Option<string>,
    recommendedDuration: Option<string>,
    difficultyLevel: Option<string>,
    accessibilityInfo: Option<string>,
    history: Option<string>,
    culture: Option<string>,
    latitude: Option<real>,
    longitude: Option<real>,
    isFeatured: Option<bool>)

  /** `UpdateDestinationRequest`: every field may be null. There is no slug
      and no city among them. */
  datatype UpdateRequest = UpdateRequest(
    name: Option<string>,
    category: Option<string>,
    description: Option<string>,
    shortDescription: Option<string>,
    mainImageUrl: Option<string>,
    bestTimeToVisit: Option<string>,
    recommendedDuration: Option<string>,
    difficultyLevel: Option<string>,
    accessibilityInfo: Option<string>,
    history: Option<string>,
    culture: Option<string>,
    latitude: Option<real>,
    longitude: Option<real>,
    isFeatured: Option<bool>,
    isActive: Option<bool>)

  const EmptyUpdate: UpdateRequest := UpdateRequest(
    None, None, None, None, None, None, None, None, None, None, None, None, None, None, None)

  datatype AdminError =
    | CityNotFound(cityId: Id)
    | DestinationNotFound(id: Id)
    | DuplicateSlug(slug: string)
    /** `!destination.getIsFeatured()` unboxes a NULL flag and throws. */
    | NullFeaturedFlag(id: Id)

  /** The builder call of `createDestination`: the request's fields, the
      given city, and the entity's defaults for the rest (rating 0, no
      reviews, active). */
  function NewDestination(req: CreateRequest): (d: Destination)
    ensures d.name == req.name && d.slug == req.slug && d.cityId == Some(req.cityId)
    ensures d.category == req.category && d.description == req.description
    ensures d.isFeatured == req.isFeatured
    ensures d.rating == 0 && d.reviewCount == 0 && d.isActive
  {
    Destination(
      req.name, req.slug, Some(req.cityId), req.category, req.description,
      req.shortDescription, req.mainImageUrl, 0, 0,
      req.bestTimeToVisit, req.recommendedDuration, req.difficultyLevel,
      req.accessibilityInfo, req.history, req.culture,
      req.latitude, req.longitude, req.isFeatured, true)
  }

  /** `if (v != null) setX(v)` on a nullable column. */
  function Overwrite<T>(v: Option<T>, stored: Option<T>): Option<T> {
    if v.Some? then v else stored
  }

  /** `updateDestination`'s setters: each non-null request field replaces
      the stored one; everything else is kept. The request has no slug and
      no city, and the setters never touch the rating or the review count. */
  function ApplyUpdate(d: Destination, req: UpdateRequest): (r: Destination)
    ensures r.slug == d.slug && r.cityId == d.cityId
    ensures r.rating == d.rating && r.reviewCount == d.reviewCount
  {
    Destination(
      req.name.GetOr(d.name), d.slug, d.cityId,
      req.category.GetOr(d.category), req.description.GetOr(d.description),
      Overwrite(req.shortDescription, d.shortDescription), Overwrite(req.mainImageUrl, d.mainImageUrl),
      d.rating, d.reviewCount,
      Overwrite(req.bestTimeToVisit, d.bestTimeToVisit), Overwrite(req.recommendedDuration, d.recommendedDuration),
      Overwrite(req.difficultyLevel, d.difficultyLevel), Overwrite(req.accessibilityInfo, d.accessibilityInfo),
      Overwrite(req.history, d.history), Overwrite(req.culture, d.culture),
      Overwrite(req.latitude, d.latitude), Overwrite(req.longitude, d.longitude),
      Overwrite(req.isFeatured, d.isFeatured), req.isActive.GetOr(d.isActive))
  }

  /** Field by field: a non-null request value is what is stored afterwards,
      and a null one leaves the stored value as it was. */
  lemma ApplyUpdateFields(d: Destination, req: UpdateRequest)
    ensures req.name.Some? ==> ApplyUpdate(d, req).name == req.name.value
    ensures req.name.None? ==> ApplyUpdate(d, req).name == d.name
    ensures req.category.Some? ==> ApplyUpdate(d, req).category == req.category.value
    ensures req.category.None? ==> ApplyUpdate(d, req).category == d.category
    ensures req.description.Some? ==> ApplyUpdate(d, req).description == req.description.value
    ensures req.description.None? ==> ApplyUpdate(d, req).description == d.description
    ensures req.shortDescription.Some? ==> ApplyUpdate(d, req).shortDescription == req.shortDescription
    ensures req.shortDescription.None? ==> ApplyUpdate(d, req).shortDescription == d.shortDescription
    ensures req.mainImageUrl.Some? ==> ApplyUpdate(d, req).mainImageUrl == req.mainImageUrl
    ensures req.mainImageUrl.None? ==> ApplyUpdate(d, req).mainImageUrl == d.mainImageUrl
    ensures req.bestTimeToVisit.Some? ==> ApplyUpdate(d, req).bestTimeToVisit == req.bestTimeToVisit
    ensures req.bestTimeToVisit.None? ==> ApplyUpdate(d, req).bestTimeToVisit == d.bestTimeToVisit
    ensures req.recommendedDuration.Some? ==> ApplyUpdate(d, req).recommendedDuration == req.recommendedDuration
    ensures req.recommendedDuration.None? ==> ApplyUpdate(d, req).recommendedDuration == d.recommendedDuration
    ensures req.difficultyLevel.Some? ==> ApplyUpdate(d, req).difficultyLevel == req.difficultyLevel
    ensures req.difficultyLevel.None? ==> ApplyUpdate(d, req).difficultyLevel == d.difficultyLevel
    ensures req.accessibilityInfo.Some? ==> ApplyUpdate(d, req).accessibilityInfo == req.accessibilityInfo
    ensures req.accessibilityInfo.None? ==> ApplyUpdate(d, req).accessibilityInfo == d.accessibilityInfo
    ensures req.history.Some? ==> ApplyUpdate(d, req).history == req.history
    ensures req.history.None? ==> ApplyUpdate(d, req).history == d.history
    ensures req.culture.Some? ==> ApplyUpdate(d, req).culture == req.culture
    ensures req.culture.None? ==> ApplyUpdate(d, req).culture == d.culture
    ensures req.latitude.Some? ==> ApplyUpdate(d, req).latitude == req.latitude
    ensures req.latitude.None? ==> ApplyUpdate(d, req).latitude == d.latitude
    ensures req.longitude.Some? ==> ApplyUpdate(d, req).longitude == req.longitude
    ensures req.longitude.None? ==> ApplyUpdate(d, req).longitude == d.longitude
    ensures req.isFeatured.Some? ==> ApplyUpdate(d, req).isFeatured == req.isFeatured
    ensures req.isFeatured.None? ==> ApplyUpdate(d, req).isFeatured == d.isFeatured
    ensures req.isActive.Some? ==> ApplyUpdate(d, req).isActive == req.isActive.value
    ensures req.isActive.None? ==> ApplyUpdate(d, req).isActive == d.isActive
  {
  }

  /** An update in which every field is null changes nothing. */
  lemma EmptyUpdateIsIdentity(d: Destination)
    ensures ApplyUpdate(d, EmptyUpdate) == d
  {
  }

  /** Applying the same update twice is applying it once. */
  lemma UpdateIdempotent(d: Destination, req: UpdateRequest)
    ensures ApplyUpdate(ApplyUpdate(d, req), req) == ApplyUpdate(d, req)
  {
  }

  /** An update with every field set gives the same record whatever was stored. */
  lemma FullUpdateOverwrites(d1: Destination, d2: Destination, req: UpdateRequest)
    requires d1.slug == d2.slug && d1.cityId == d2.cityId
    requires d1.rating == d2.rating && d1.reviewCount == d2.reviewCount
    requires req.name.Some? && req.category.Some? && req.description.Some?
    requires req.shortDescription.Some? && req.mainImageUrl.Some? && req.bestTimeToVisit.Some?
    requires req.recommendedDuration.Some? && req.difficultyLevel.Some? && req.accessibilityInfo.Some?
    requires req.history.Some? && req.culture.Some? && req.latitude.Some? && req.longitude.Some?
    requires req.isFeatured.Some? && req.isActive.Some?
    ensures ApplyUpdate(d1, req) == ApplyUpdate(d2, req)
  {
  }

  /** `setIsFeatured(!getIsFeatured())` on a flag that is not NULL. */
  function ToggledFeatured(d: Destination): (r: Destination)
    requires d.isFeatured.Some?
    ensures r.isFeatured == Some(!d.isFeatured.value)
    ensures r.(isFeatured := d.isFeatured) == d
  {
    d.(isFeatured := Some(!d.isFeatured.value))
  }

  function ToggledActive(d: Destination): (r: Destination)
    ensures r.isActive == !d.isActive
    ensures r.(isActive := d.isActive) == d
  {
    d.(isActive := !d.isActive)
  }

  lemma ToggleTwiceRestores(d: Destination)
    ensures d.isFeatured.Some? ==> ToggledFeatured(ToggledFeatured(d)) == d
    ensures ToggledActive(ToggledActive(d)) == d
    ensures d.isFeatured.Some? ==> ToggledFeatured(ToggledActive(d)) == ToggledActive(ToggledFeatured(d))
  {
  }

  predicate SlugTaken(store: map<Id, Destination>, slug: string) {
    exists id :: id in store && store[id].slug == slug
  }

  class AdminDestinationService {
    var destinations: map<Id, Destination>
    const cities: set<Id>
    var nextId: Id

    /** Generated ids are fresh, slugs are unique (the column's constraint)
        and every destination refers to an existing city. */
    ghost predicate Valid()
      reads this
    {
      && (forall id :: id in destinations ==> id < nextId)
      && (forall a, b :: a in destinations && b in destinations && a != b ==>
            destinations[a].slug != destinations[b].slug)
      && (forall id :: id in destinations ==>
            destinations[id].cityId.Some? && destinations[id].cityId.value in cities)
    }

    constructor (cities: set<Id>)
      ensures Valid()
      ensures destinations == map[] && this.cities == cities
    {
      destinations := map[];
      this.cities := cities;
      nextId := 0;
    }

    /** `createDestination`. An unknown city id fails before anything is
        built; a slug already in use makes the save violate the unique
        constraint, and the transaction stores nothing. */
    method CreateDestination(req: CreateRequest) returns (r: Result<Id, AdminError>)
      requires Valid()
      modifies this
      ensures Valid()
      ensures req.cityId !in cities ==> r == Failure(CityNotFound(req.cityId))
      ensures req.cityId in cities && SlugTaken(old(destinations), req.slug) ==>
                r == Failure(DuplicateSlug(req.slug))
      ensures req.cityId in cities && !SlugTaken(old(destinations), req.slug) ==> r.Success?
      ensures r.Failure? ==> destinations == old(destinations)
      ensures r.Success? ==>
                r.value !in old(destinations) && destinations == old(destinations)[r.value := NewDestination(req)]
    {
      if req.cityId !in cities {
        return Failure(CityNotFound(req.cityId));
      }
      var d := NewDestination(req);
      if SlugTaken(destinations, req.slug) {
        return Failure(DuplicateSlug(req.slug));
      }
      var id := nextId;
      destinations := destinations[id := d];
      nextId := nextId + 1;
      r := Success(id);
    }

    method UpdateDestination(id: Id, req: UpdateRequest) returns (r: Result<Destination, AdminError>)
      requires Valid()
      modifies this
      ensures Valid()
      ensures id !in old(destinations) ==> r == Failure(DestinationNotFound(id)) && destinations == old(destinations)
      ensures id in old(destinations) ==>
                && r == Success(ApplyUpdate(old(destinations)[id], req))
                && destinations == old(destinations)[id := r.value]
    {
      if id !in destinations {
        return Failure(DestinationNotFound(id));
      }
      var d := ApplyUpdate(destinations[id], req);
      destinations := destinations[id := d];
      r := Success(d);
    }

    method DeleteDestination(id: Id) returns (err: Option<AdminError>)
      requires Valid()
      modifies this
      ensures Valid()
      ensures id !in old(destinations) ==> err == Some(DestinationNotFound(id)) && destinations == old(destinations)
      ensures id in old(destinations) ==> err == None && destinations == old(destinations) - {id}
    {
      if id !in destinations {
        return Some(DestinationNotFound(id));
      }
      destinations := destinations - {id};
      err := None;
    }

    /** `toggleFeatured`. A NULL flag makes the negation throw; the
        transaction stores nothing. */
    method ToggleFeatured(id: Id) returns (r: Result<Destination, AdminError>)
      requires Valid()
      modifies this
      ensures Valid()
      ensures id !in old(destinations) ==> r == Failure(DestinationNotFound(id)) && destinations == old(destinations)
      ensures id in old(destinations) && old(destinations)[id].isFeatured.None? ==>
                r == Failure(NullFeaturedFlag(id)) && destinations == old(destinations)
      ensures id in old(destinations) && old(destinations)[id].isFeatured.Some? ==>
                && r == Success(ToggledFeatured(old(destinations)[id]))
                && destinations == old(destinations)[id := r.value]
    {
      if id !in destinations {
        return Failure(DestinationNotFound(id));
      }
      if destinations[id].isFeatured.None? {
        return Failure(NullFeaturedFlag(id));
      }
      var d := ToggledFeatured(destinations[id]);
      destinations := destinations[id := d];
      r := Success(d);
    }

    method ToggleActive(id: Id) returns (r: Result<Destination, AdminError>)
      requires Valid()
      modifies this
      ensures Valid()
      ensures id !in old(destinations) ==> r == Failure(DestinationNotFound(id)) && destinations == old(destinations)
      ensures id in old(destinations) ==>
                && r == Success(ToggledActive(old(destinations)[id]))
                && destinations == old(destinations)[id := r.value]
    {
      if id !in destinations {
        return Failure(DestinationNotFound(id));
      }
      var d := ToggledActive(destinations[id]);
      destinations := destinations[id := d];
      r := Success(d);
    }
  }
}
