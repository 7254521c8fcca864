/** The Home page: the quick search, the category / country filters capped
    at six results, and the three featured destinations. */
module HomePage {
  import opened Seqs
  import opened Text
  import opened Catalogue

  /** The home page's search looks at name, city, state and country only. */
  predicate MatchesQuickSearch(d: Destination, query: string) {
    || FieldMatches(d.name, query)
    || FieldMatches(d.city, query)
    || OptionalFieldMatches(d.state, query)
    || FieldMatches(d.country, query)
  }

  function QuickSearchFilter(query: string): Destination -> bool {
    (d: Destination) => MatchesQuickSearch(d, query)
  }

  /** What the page shows before any search: the first six entries. */
  function InitialResults(catalogue: seq<Destination>): (r: seq<Destination>)
    ensures |r| == if |catalogue| < 6 then |catalogue| else 6
    ensures r == catalogue[..|r|]
  {
    Take(catalogue, 6)
  }

  /** `handleSearch`: a blank query gives the first six entries back; any
      other query gives every matching entry, with no cap. */
  function QuickSearch(catalogue: seq<Destination>, query: string): (r: seq<Destination>)
    ensures IsBlank(query) ==> r == InitialResults(catalogue)
    ensures IsSubsequence(r, catalogue)
    ensures !IsBlank(query) ==> forall d :: d in r <==> d in catalogue && MatchesQuickSearch(d, query)
  {
    if IsBlank(query) then
      TakeIsSubsequence(catalogue, 6);
      InitialResults(catalogue)
    else
      FilterIsSubsequence(catalogue, QuickSearchFilter(query));
      FilterMembersAll(catalogue, QuickSearchFilter(query));
      Filter(catalogue, QuickSearchFilter(query))
  }

  /** A query that occurs in every entry's name finds all of them, more
      than six when the catalogue is longer. */
  lemma {:induction false} QuickSearchUncapped(catalogue: seq<Destination>, query: string)
    requires !IsBlank(query)
    requires forall i :: 0 <= i < |catalogue| ==> FieldMatches(catalogue[i].name, query)
    ensures QuickSearch(catalogue, query) == catalogue
  {
    FilterAll(catalogue, QuickSearchFilter(query));
  }

  /** Category and description are not searched: a query that matches
      neither name, city, state nor country finds nothing, whatever the
      category or description say. */
  lemma QuickSearchIgnoresCategoryAndDescription(catalogue: seq<Destination>, query: string, d: Destination)
    requires !IsBlank(query) && !MatchesQuickSearch(d, query)
    ensures d !in QuickSearch(catalogue, query)
  {
  }

  /** `handleFilterChange`'s result: the first six entries that satisfy
      both equality filters, in catalogue order. */
  function FilterResults(catalogue: seq<Destination>, f: SearchFilters): (r: seq<Destination>)
    ensures |r| <= 6
    ensures IsSubsequence(r, catalogue)
    ensures forall d :: d in r ==> d in catalogue && ByCategoryAndCountry(f)(d)
    ensures r == Take(Filter(catalogue, ByCategoryAndCountry(f)), 6)
  {
    var matching := Filter(catalogue, ByCategoryAndCountry(f));
    FilterIsSubsequence(catalogue, ByCategoryAndCountry(f));
    TakeIsSubsequence(matching, 6);
    SubsequenceTransitive(Take(matching, 6), matching, catalogue);
    Take(matching, 6)
  }

  /** When at most six entries match, all of them are shown. */
  lemma FewMatchesAllShown(catalogue: seq<Destination>, f: SearchFilters, d: Destination)
    requires |Filter(catalogue, ByCategoryAndCountry(f))| <= 6
    requires d in catalogue && ByCategoryAndCountry(f)(d)
    ensures d in FilterResults(catalogue, f)
  {
    FilterMembers(catalogue, ByCategoryAndCountry(f), d);
  }

  /** `destinations.slice(0, 3)`. */
  function FeaturedDestinations(catalogue: seq<Destination>): (r: seq<Destination>)
    ensures |catalogue| >= 3 ==> |r| == 3
    ensures |catalogue| < 3 ==> r == catalogue
    ensures r == catalogue[..|r|]
  {
    Take(catalogue, 3)
  }

  class HomePage {
    const catalogue: seq<Destination>
    var searchResults: seq<Destination>

    /** Every result list is an order-preserving subsequence of the catalogue. */
    ghost predicate Valid()
      reads this
    {
      IsSubsequence(searchResults, catalogue)
    }

    constructor (catalogue: seq<Destination>)
      ensures Valid()
      ensures this.catalogue == catalogue && searchResults == InitialResults(catalogue)
    {
      this.catalogue := catalogue;
      TakeIsSubsequence(catalogue, 6);
      searchResults := InitialResults(catalogue);
    }

    method HandleSearch(query: string)
      requires Valid()
      modifies this
      ensures Valid()
      ensures searchResults == QuickSearch(catalogue, query)
    {
      searchResults := QuickSearch(catalogue, query);
    }

    /** `handleFilterChange`: starts from the whole catalogue, narrows it by
        each filter that is set, then keeps the first six. */
    method HandleFilterChange(filters: SearchFilters)
      requires Valid()
      modifies this
      ensures Valid()
      ensures searchResults == FilterResults(catalogue, filters)
    {
      var filtered := catalogue;
      if filters.category != "" {
        filtered := Filter(filtered, ByCategory(filters.category));
      } else {
        FilterAll(catalogue, ByCategory(filters.category));
      }
      if filters.country != "" {
        filtered := Filter(filtered, ByCountry(filters.country));
      } else {
        FilterAll(filtered, ByCountry(filters.country));
      }
      NarrowByCountry(catalogue, filters);
      assert filtered == Filter(catalogue, ByCategoryAndCountry(filters));
      var r := FilterResults(catalogue, filters);
      searchResults := Take(filtered, 6);
    }
  }
}
