/** Seeding the country table from the REST Countries response: each entry
    whose code is new is saved, in order; the first failing save ends the
    run, and the saves before it stay. */
module DataSeedingService {
  import opened Seqs
  import opened Entities

  /** `CountryApiResponse.Name`. */
  datatype ApiName = ApiName(common: Option<string>, official: Option<string>)

  /** `CountryApiResponse`: every field may be missing from the JSON. */
  datatype CountryApiResponse = CountryApiResponse(
    name: Option<ApiName>,
    cca3: Option<string>,
    currencies: Option<seq<string>>,
    languages: Option<seq<string>>,
    timezones: Option<seq<string>>)

  /** Why a save throws: `getName()` is null (a NullPointerException), or
      the entity breaks a column constraint (null name, null code, a name
      already used). */
  datatype SeedError =
    | MissingName
    | NullColumn(column: string)
    | NameAlreadyUsed(name: string)

  /** `list != null && !list.isEmpty() ? list.get(0) : null`. */
  function FirstOrNull(list: Option<seq<string>>): (r: Option<string>)
    ensures r.Some? <==> list.Some? && |list.value| > 0
    ensures r.Some? ==> r.value == list.value[0]
  {
    if list.Some? && |list.value| > 0 then Some(list.value[0]) else None
  }

  /** `findByCode(cca3)`: a null code matches no row, because the column is
      `NOT NULL`. */
  function FindByCode(countries: seq<Country>, cca3: Option<string>): (r: Option<nat>)
    ensures r.Some? ==> cca3.Some? && r.value < |countries| && countries[r.value].code == cca3.value
    ensures r.None? && cca3.Some? ==> forall i :: 0 <= i < |countries| ==> countries[i].code != cca3.value
  {
    if cca3.None? then None else IndexWhere(countries, HasCode(cca3.value))
  }

  /** The row `saveOrUpdateCountry` builds and saves for a new code. */
  function NewCountry(api: CountryApiResponse): (r: Result<Country, SeedError>)
    ensures r.Success? <==> api.name.Some? && api.name.value.common.Some? && api.cca3.Some?
    ensures r.Success? ==>
              && r.value.name == api.name.value.common.value
              && r.value.code == api.cca3.value
              && r.value.currency == FirstOrNull(api.currencies)
              && r.value.language == FirstOrNull(api.languages)
              && r.value.timezone == FirstOrNull(api.timezones)
  {
    if api.name.None? then Failure(MissingName)
    else if api.name.value.common.None? then Failure(NullColumn("name"))
    else if api.cca3.None? then Failure(NullColumn("code"))
    else Success(Country(api.name.value.common.value, api.cca3.value,
      FirstOrNull(api.currencies), FirstOrNull(api.languages), FirstOrNull(api.timezones)))
  }

  /** `saveOrUpdateCountry`: nothing happens when the code is already
      stored; otherwise the new row is appended, unless building or saving
      it throws. */
  function SaveOrUpdateCountryIn(countries: seq<Country>, api: CountryApiResponse): (r: Result<seq<Country>, SeedError>)
    ensures FindByCode(countries, api.cca3).Some? ==> r == Success(countries)
    ensures r.Success? ==> countries <= r.value && |r.value| <= |countries| + 1
    ensures r.Success? && |r.value| == |countries| + 1 ==> Success(r.value[|countries|]) == NewCountry(api)
    ensures r.Failure? ==> FindByCode(countries, api.cca3).None?
    ensures FindByCode(countries, api.cca3).None? && NewCountry(api).Failure? ==>
              r == Failure(NewCountry(api).error)
    ensures FindByCode(countries, api.cca3).None? && NewCountry(api).Success? ==>
              (r.Success? <==> !NameTaken(countries, NewCountry(api).value.name))
    ensures r.Failure? && NewCountry(api).Success? ==> r == Failure(NameAlreadyUsed(NewCountry(api).value.name))
  {
    if FindByCode(countries, api.cca3).Some? then Success(countries)
    else match NewCountry(api)
      case Failure(e) => Failure(e)
      case Success(c) =>
        if NameTaken(countries, c.name) then Failure(NameAlreadyUsed(c.name))
        else Success(countries + [c])
  }

  /** Where a run ends: the table, and the exception that stopped the loop
      if one did. */
  datatype SeedOutcome = SeedOutcome(countries: seq<Country>, error: Option<SeedError>)

  /** The loop of `seedCountriesData`: entries in order, stopping at the
      first save that throws. */
  function SeedAll(countries: seq<Country>, apis: seq<CountryApiResponse>): (r: SeedOutcome)
    ensures countries <= r.countries
    decreases |apis|
  {
    if apis == [] then SeedOutcome(countries, None)
    else match SaveOrUpdateCountryIn(countries, apis[0])
      case Failure(e) => SeedOutcome(countries, Some(e))
      case Success(next) =>
        var r := SeedAll(next, apis[1..]);
        r
  }

  /** `seedCountriesData` on the fetched array, `None` when the response
      was null. */
  function Seed(countries: seq<Country>, response: Option<seq<CountryApiResponse>>): (r: SeedOutcome)
    ensures response.None? ==> r == SeedOutcome(countries, None)
    ensures countries <= r.countries
  {
    if response.None? then SeedOutcome(countries, None) else SeedAll(countries, response.value)
  }

  // ---------------------------------------------------------------------
  // Properties of a run

  /** Codes and names are unique, as the two unique columns demand. */
  ghost predicate UniqueCountries(countries: seq<Country>) {
    forall i, j :: 0 <= i < j < |countries| ==>
      countries[i].code != countries[j].code && countries[i].name != countries[j].name
  }

  lemma SaveKeepsUnique(countries: seq<Country>, api: CountryApiResponse)
    requires UniqueCountries(countries)
    requires SaveOrUpdateCountryIn(countries, api).Success?
    ensures UniqueCountries(SaveOrUpdateCountryIn(countries, api).value)
  {
  }

  lemma {:induction false} SeedAllKeepsUnique(countries: seq<Country>, apis: seq<CountryApiResponse>)
    requires UniqueCountries(countries)
    ensures UniqueCountries(SeedAll(countries, apis).countries)
    decreases |apis|
  {
    if apis != [] && SaveOrUpdateCountryIn(countries, apis[0]).Success? {
      SaveKeepsUnique(countries, apis[0]);
      SeedAllKeepsUnique(SaveOrUpdateCountryIn(countries, apis[0]).value, apis[1..]);
    }
  }

  /** An entry's code is in the table. */
  predicate CodeStored(countries: seq<Country>, api: CountryApiResponse) {
    FindByCode(countries, api.cca3).Some?
  }

  lemma CodeStoredExtends(countries: seq<Country>, more: seq<Country>, api: CountryApiResponse)
    requires countries <= more && CodeStored(countries, api)
    ensures CodeStored(more, api)
  {
    IndexWherePrefix(countries, more, HasCode(api.cca3.value));
  }

  lemma SaveStoresCode(countries: seq<Country>, api: CountryApiResponse)
    requires SaveOrUpdateCountryIn(countries, api).Success?
    ensures CodeStored(SaveOrUpdateCountryIn(countries, api).value, api)
  {
    var r := SaveOrUpdateCountryIn(countries, api).value;
    if !CodeStored(countries, api) {
      IndexWhereAppended(countries, r[|countries|], HasCode(api.cca3.value));
    }
  }

  /** After a run with no exception, every entry's code is stored... */
  lemma {:induction false} SeedAllStoresCode(countries: seq<Country>, apis: seq<CountryApiResponse>, i: nat)
    requires SeedAll(countries, apis).error.None? && i < |apis|
    ensures CodeStored(SeedAll(countries, apis).countries, apis[i])
    decreases |apis|
  {
    var next := SaveOrUpdateCountryIn(countries, apis[0]).value;
    var r := SeedAll(next, apis[1..]);
    if i == 0 {
      SaveStoresCode(countries, apis[0]);
      CodeStoredExtends(next, r.countries, apis[0]);
    } else {
      SeedAllStoresCode(next, apis[1..], i - 1);
      assert apis[1..][i - 1] == apis[i];
    }
  }

  /** ...so a run over a table holding every entry's code changes nothing. */
  lemma {:induction false} SeedAllStoredIsIdentity(countries: seq<Country>, apis: seq<CountryApiResponse>)
    requires forall i :: 0 <= i < |apis| ==> CodeStored(countries, apis[i])
    ensures SeedAll(countries, apis) == SeedOutcome(countries, None)
    decreases |apis|
  {
    if apis != [] {
      assert CodeStored(countries, apis[0]);
      assert forall i :: 0 <= i < |apis[1..]| ==> apis[1..][i] == apis[i + 1];
      SeedAllStoredIsIdentity(countries, apis[1..]);
    }
  }

  /** Re-running a run that ended without an exception is a no-op. */
  lemma SeedIdempotent(countries: seq<Country>, response: Option<seq<CountryApiResponse>>)
    requires Seed(countries, response).error.None?
    ensures Seed(Seed(countries, response).countries, response) == Seed(countries, response)
  {
    if response.Some? {
      var r := SeedAll(countries, response.value).countries;
      forall i | 0 <= i < |response.value|
        ensures CodeStored(r, response.value[i])
      {
        SeedAllStoresCode(countries, response.value, i);
      }
      SeedAllStoredIsIdentity(r, response.value);
    }
  }

  /** A stored country is never updated: whatever the response, the rows
      there before keep their place and their values. */
  lemma ExistingNeverUpdated(countries: seq<Country>, response: Option<seq<CountryApiResponse>>, i: nat)
    requires i < |countries|
    ensures i < |Seed(countries, response).countries| && Seed(countries, response).countries[i] == countries[i]
  {
  }

  /** The row stored for a code comes from the first entry with that code,
      when the code was new and the run ended without an exception. */
  lemma {:induction false} FirstEntryWins(countries: seq<Country>, apis: seq<CountryApiResponse>, code: string, i: nat)
    requires SeedAll(countries, apis).error.None?
    requires i < |apis| && apis[i].cca3 == Some(code)
    requires forall j :: 0 <= j < i ==> apis[j].cca3 != Some(code)
    requires forall k :: 0 <= k < |countries| ==> countries[k].code != code
    ensures var r := SeedAll(countries, apis).countries;
      exists k :: 0 <= k < |r| && Success(r[k]) == NewCountry(apis[i])
    decreases |apis|
  {
    var next := SaveOrUpdateCountryIn(countries, apis[0]).value;
    var r := SeedAll(next, apis[1..]).countries;
    if i == 0 {
      assert FindByCode(countries, apis[0].cca3).None?;
      assert |next| == |countries| + 1;
      assert r[|countries|] == next[|countries|];
    } else {
      assert apis[0].cca3 != Some(code);
      assert forall k :: 0 <= k < |next| ==> next[k].code != code by {
        if |next| == |countries| + 1 {
          assert NewCountry(apis[0]).Success?;
        }
      }
      assert forall j :: 0 <= j < i - 1 ==> apis[1..][j] == apis[j + 1];
      FirstEntryWins(next, apis[1..], code, i - 1);
    }
  }

  /** The run stops at the first failing entry: the entries before it were
      all processed and the failure is that entry's. */
  lemma {:induction false} SeedAllStopsAtFailure(countries: seq<Country>, apis: seq<CountryApiResponse>)
    requires SeedAll(countries, apis).error.Some?
    ensures exists n :: 0 <= n < |apis| &&
              var before := SeedAll(countries, apis[..n]);
              && before.error.None?
              && SaveOrUpdateCountryIn(before.countries, apis[n]) == Failure(SeedAll(countries, apis).error.value)
              && SeedAll(countries, apis).countries == before.countries
    decreases |apis|
  {
    match SaveOrUpdateCountryIn(countries, apis[0])
    case Failure(e) =>
      assert apis[..0] == [];
    case Success(next) =>
      SeedAllStopsAtFailure(next, apis[1..]);
      var n :| 0 <= n < |apis[1..]| &&
              var before := SeedAll(next, apis[1..][..n]);
              && before.error.None?
              && SaveOrUpdateCountryIn(before.countries, apis[1..][n]) == Failure(SeedAll(next, apis[1..]).error.value)
              && SeedAll(next, apis[1..]).countries == before.countries;
      assert apis[..n + 1][1..] == apis[1..][..n];
      assert apis[..n + 1][0] == apis[0];
      assert apis[1..][n] == apis[n + 1];
  }

  // ---------------------------------------------------------------------
  // The service over the country table

  class DataSeedingService {
    var countries: seq<Country>

    constructor (countries: seq<Country>)
      ensures this.countries == countries
    {
      this.countries := countries;
    }

    /** `saveOrUpdateCountry`; a thrown exception is the returned error. */
    method SaveOrUpdateCountry(api: CountryApiResponse) returns (err: Option<SeedError>)
      modifies this
      ensures var spec := SaveOrUpdateCountryIn(old(countries), api);
        && (spec.Success? ==> err.None? && countries == spec.value)
        && (spec.Failure? ==> err == Some(spec.error) && countries == old(countries))
    {
      var existing := FindByCode(countries, api.cca3);
      if existing.None? {
        var country := NewCountry(api);
        if country.Failure? {
          return Some(country.error);
        }
        if NameTaken(countries, country.value.name) {
          return Some(NameAlreadyUsed(country.value.name));
        }
        countries := countries + [country.value];
      }
      err := None;
    }

    /** `seedCountriesData` on the fetched array; the returned error is the
        exception the `catch` logs. */
    method SeedCountriesData(response: Option<seq<CountryApiResponse>>) returns (err: Option<SeedError>)
      modifies this
      ensures Seed(old(countries), response) == SeedOutcome(countries, err)
    {
      err := None;
      if response.Some? {
        var apis := response.value;
        var i := 0;
        while i < |apis|
          invariant 0 <= i <= |apis|
          invariant err.None?
          invariant SeedAll(countries, apis[i..]) == SeedAll(old(countries), apis)
        {
          assert apis[i..][1..] == apis[i + 1..];
          assert apis[i..][0] == apis[i];
          err := SaveOrUpdateCountry(apis[i]);
          if err.Some? {
            return;
          }
          i := i + 1;
        }
      }
    }
  }
}
