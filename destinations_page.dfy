/** The Destinations page: free-text search over the catalogue, the
    category / country / budget-band filters, and the three sort orders. */
module DestinationsPage {
  import opened Seqs
  import opened Text
  import opened Catalogue

  /** `handleSearch`'s predicate: the lower-cased query occurs in the name,
      city, state (when there is one), country, category or description. */
  predicate MatchesQuery(d: Destination, query: string) {
    || FieldMatches(d.name, query)
    || FieldMatches(d.city, query)
    || OptionalFieldMatches(d.state, query)
    || FieldMatches(d.country, query)
    || FieldMatches(d.category, query)
    || FieldMatches(d.description, query)
  }

  function QueryFilter(query: string): Destination -> bool {
    (d: Destination) => MatchesQuery(d, query)
  }

  /** `handleSearch`: a blank query shows the whole catalogue; otherwise the
      catalogue entries the query matches, in catalogue order. */
  function SearchResults(catalogue: seq<Destination>, query: string): (r: seq<Destination>)
    ensures IsBlank(query) ==> r == catalogue
    ensures IsSubsequence(r, catalogue)
    ensures forall d :: d in r <==> d in catalogue && (IsBlank(query) || MatchesQuery(d, query))
  {
    if IsBlank(query) then
      SubsequenceOfSelf(catalogue);
      catalogue
    else
      FilterIsSubsequence(catalogue, QueryFilter(query));
      FilterMembersAll(catalogue, QueryFilter(query));
      Filter(catalogue, QueryFilter(query))
  }

  /** With a non-blank query, matching a destination's name is enough to find it. */
  lemma SearchFindsByName(catalogue: seq<Destination>, query: string, d: Destination)
    requires d in catalogue && FieldMatches(d.name, query)
    ensures d in SearchResults(catalogue, query)
  {
  }

  // ---------------------------------------------------------------------
  // Filters

  /** The three filters of `handleFilterChange`, joined by AND; an empty
      value imposes no constraint. */
  predicate MatchesFilters(d: Destination, f: SearchFilters) {
    && (f.category == "" || d.category == f.category)
    && (f.country == "" || d.country == f.country)
    && (f.budget == "" || InBudgetBand(f.budget, DailyBudget(d)))
  }

  function FiltersFilter(f: SearchFilters): Destination -> bool {
    (d: Destination) => MatchesFilters(d, f)
  }

  /** What `handleFilterChange` shows: the catalogue entries meeting every
      filter, in catalogue order. */
  function FilteredCatalogue(catalogue: seq<Destination>, f: SearchFilters): (r: seq<Destination>)
    ensures IsSubsequence(r, catalogue)
    ensures forall d :: d in r <==> d in catalogue && MatchesFilters(d, f)
    ensures f.category == "" && f.country == "" && f.budget == "" ==> r == catalogue
  {
    FilterIsSubsequence(catalogue, FiltersFilter(f));
    FilterMembersAll(catalogue, FiltersFilter(f));
    if f.category == "" && f.country == "" && f.budget == "" then
      FilterAll(catalogue, FiltersFilter(f));
      Filter(catalogue, FiltersFilter(f))
    else
      Filter(catalogue, FiltersFilter(f))
  }

  lemma NarrowByBudget(catalogue: seq<Destination>, f: SearchFilters)
    ensures Filter(Filter(catalogue, ByCategoryAndCountry(f)), ByBudgetBand(f.budget))
            == Filter(catalogue, FiltersFilter(f))
  {
    forall d: Destination
      ensures FiltersFilter(f)(d) == (ByCategoryAndCountry(f)(d) && ByBudgetBand(f.budget)(d))
    {
      assert ByCategoryAndCountry(f)(d) == (ByCategory(f.category)(d) && ByCountry(f.country)(d));
    }
    FilterFilter(catalogue, ByCategoryAndCountry(f), ByBudgetBand(f.budget), FiltersFilter(f));
  }

  /** An unknown band value filters on category and country only. */
  lemma UnknownBandIgnored(catalogue: seq<Destination>, f: SearchFilters, d: Destination)
    requires f.budget != "low" && f.budget != "medium" && f.budget != "high"
    ensures d in FilteredCatalogue(catalogue, f) <==> d in FilteredCatalogue(catalogue, f.(budget := ""))
  {
  }

  // ---------------------------------------------------------------------
  // Sorting

  /** Budget for the budget sort: room and meals at budget tier, without transport. */
  function SortBudget(d: Destination): int {
    d.budget.accommodation.budget + d.budget.food.budget
  }

  /** The comparator of `handleSort` as "may come first": `compare(a, b) <= 0`.
      Any other key compares everything as equal. */
  function SortOrder(key: string): (Destination, Destination) -> bool {
    if key == "name" then (a: Destination, b: Destination) => LexLe(a.name, b.name)
    else if key == "rating" then (a: Destination, b: Destination) => a.rating >= b.rating
    else if key == "budget" then (a: Destination, b: Destination) => SortBudget(a) <= SortBudget(b)
    else (a: Destination, b: Destination) => true
  }

  lemma SortOrderIsTotalPreorder(key: string)
    ensures TotalPreorder(SortOrder(key))
  {
    var le := SortOrder(key);
    if key == "name" {
      forall a: Destination, b: Destination
        ensures le(a, b) || le(b, a)
      {
        LexLeTotal(a.name, b.name);
      }
      forall a: Destination, b: Destination, c: Destination | le(a, b) && le(b, c)
        ensures le(a, c)
      {
        LexLeTransitive(a.name, b.name, c.name);
      }
    }
  }

  /** `handleSort`: a permutation of the shown list, ordered by name
      ascending, by rating descending or by budget ascending; any other key
      keeps the order, since the sort is stable. */
  function SortDestinations(s: seq<Destination>, key: string): (r: seq<Destination>)
    ensures multiset(r) == multiset(s)
    ensures key == "name" ==> forall i, j :: 0 <= i < j < |r| ==> LexLe(r[i].name, r[j].name)
    ensures key == "rating" ==> forall i, j :: 0 <= i < j < |r| ==> r[i].rating >= r[j].rating
    ensures key == "budget" ==> forall i, j :: 0 <= i < j < |r| ==> SortBudget(r[i]) <= SortBudget(r[j])
    ensures key != "name" && key != "rating" && key != "budget" ==> r == s
  {
    SortOrderIsTotalPreorder(key);
    SortBySorted(s, SortOrder(key));
    if key != "name" && key != "rating" && key != "budget" then
      SortByAllTies(s, SortOrder(key));
      SortBy(s, SortOrder(key))
    else
      SortBy(s, SortOrder(key))
  }

  /** Names that differ are never listed out of order: a later entry's name
      is either the same or not smaller. */
  lemma NameSortStrict(s: seq<Destination>, i: nat, j: nat)
    requires i < j < |SortDestinations(s, "name")|
    ensures var r := SortDestinations(s, "name");
      r[i].name == r[j].name || !LexLe(r[j].name, r[i].name)
  {
    var r := SortDestinations(s, "name");
    if LexLe(r[j].name, r[i].name) {
      LexLeAntisymmetric(r[i].name, r[j].name);
    }
  }

  /** The sort is stable: entries the comparator ties with `k` keep their
      input order. */
  lemma SortKeepsTiesInOrder(s: seq<Destination>, key: string, k: Destination)
    ensures Filter(SortDestinations(s, key), Tied(SortOrder(key), k))
         == Filter(s, Tied(SortOrder(key), k))
  {
    SortOrderIsTotalPreorder(key);
    SortByKeepsTies(s, SortOrder(key), k);
  }

  /** A filter that picks exactly the ties of some entry is kept in order. */
  lemma SortKeepsClassInOrder(s: seq<Destination>, key: string, k: Destination, p: Destination -> bool)
    requires forall x :: p(x) == Tied(SortOrder(key), k)(x)
    ensures Filter(SortDestinations(s, key), p) == Filter(s, p)
  {
    var r := SortDestinations(s, key);
    SortKeepsTiesInOrder(s, key, k);
    FilterExtensional(r, p, Tied(SortOrder(key), k));
    FilterExtensional(s, p, Tied(SortOrder(key), k));
  }

  function SameName(name: string): Destination -> bool {
    (d: Destination) => d.name == name
  }

  function SameRating(rating: int): Destination -> bool {
    (d: Destination) => d.rating == rating
  }

  function SameBudget(budget: int): Destination -> bool {
    (d: Destination) => SortBudget(d) == budget
  }

  /** After a name sort, the entries with a given name appear in the order
      they had before. */
  lemma NameSortKeepsEqualNamesInOrder(s: seq<Destination>, name: string)
    ensures Filter(SortDestinations(s, "name"), SameName(name)) == Filter(s, SameName(name))
  {
    if s != [] {
      var k := s[0].(name := name);
      forall x: Destination
        ensures SameName(name)(x) == Tied(SortOrder("name"), k)(x)
      {
        LexLeTotal(name, name);
        if LexLe(x.name, name) && LexLe(name, x.name) {
          LexLeAntisymmetric(x.name, name);
        }
      }
      SortKeepsClassInOrder(s, "name", k, SameName(name));
    }
  }

  /** After a rating sort, the entries with a given rating appear in the
      order they had before. */
  lemma RatingSortKeepsEqualRatingsInOrder(s: seq<Destination>, rating: int)
    ensures Filter(SortDestinations(s, "rating"), SameRating(rating)) == Filter(s, SameRating(rating))
  {
    if s != [] {
      SortKeepsClassInOrder(s, "rating", s[0].(rating := rating), SameRating(rating));
    }
  }

  /** After a budget sort, the entries with a given sort budget appear in the
      order they had before. */
  lemma BudgetSortKeepsEqualBudgetsInOrder(s: seq<Destination>, budget: int)
    ensures Filter(SortDestinations(s, "budget"), SameBudget(budget)) == Filter(s, SameBudget(budget))
  {
    if s != [] {
      var d := s[0];
      var k := d.(budget := d.budget.(accommodation := d.budget.accommodation.(budget := budget - d.budget.food.budget)));
      assert SortBudget(k) == budget;
      SortKeepsClassInOrder(s, "budget", k, SameBudget(budget));
    }
  }

  // ---------------------------------------------------------------------
  // Page state

  class DestinationsPage {
    const catalogue: seq<Destination>
    var filteredDestinations: seq<Destination>
    var sortBy: string

    /** The list shown is always drawn from the catalogue. */
    ghost predicate Valid()
      reads this
    {
      multiset(filteredDestinations) <= multiset(catalogue)
    }

    constructor (catalogue: seq<Destination>)
      ensures Valid()
      ensures this.catalogue == catalogue && filteredDestinations == catalogue && sortBy == "name"
    {
      this.catalogue := catalogue;
      filteredDestinations := catalogue;
      sortBy := "name";
    }

    method HandleSearch(query: string)
      requires Valid()
      modifies this
      ensures Valid()
      ensures filteredDestinations == SearchResults(catalogue, query) && sortBy == old(sortBy)
    {
      var r := SearchResults(catalogue, query);
      SubsequenceMultiset(r, catalogue);
      filteredDestinations := r;
    }

    /** `handleFilterChange`: narrows the whole catalogue, never the list
        currently shown, one filter at a time. */
    method HandleFilterChange(filters: SearchFilters)
      requires Valid()
      modifies this
      ensures Valid()
      ensures filteredDestinations == FilteredCatalogue(catalogue, filters) && sortBy == old(sortBy)
    {
      var filtered := catalogue;
      if filters.category != "" {
        filtered := Filter(filtered, ByCategory(filters.category));
      } else {
        FilterAll(catalogue, ByCategory(filters.category));
      }
      if filters.country != "" {
        filtered := Filter(filtered, ByCountry(filters.country));
      } else {
        FilterAll(filtered, ByCountry(filters.country));
      }
      NarrowByCountry(catalogue, filters);
      if filters.budget != "" {
        filtered := Filter(filtered, ByBudgetBand(filters.budget));
      } else {
        FilterAll(filtered, ByBudgetBand(filters.budget));
      }
      NarrowByBudget(catalogue, filters);
      var r := FilteredCatalogue(catalogue, filters);
      SubsequenceMultiset(r, catalogue);
      filteredDestinations := filtered;
    }

    /** `handleSort` on the list currently shown. */
    method HandleSort(value: string)
      requires Valid()
      modifies this
      ensures Valid()
      ensures sortBy == value
      ensures filteredDestinations == SortDestinations(old(filteredDestinations), value)
    {
      sortBy := value;
      filteredDestinations := SortDestinations(filteredDestinations, value);
    }
  }
}
