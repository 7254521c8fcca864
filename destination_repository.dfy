/** The destination queries: the free-text search, the optional filters, the
    six best-rated destinations, the featured ones and the category list.
    Pagination is left to the caller; each function gives the full result. */
module DestinationRepository {
  import opened Seqs
  import opened Text
  import opened Entities

  /** `searchDestinations`: active, and the lower-cased query occurs in the
      name, description, category, or the city, state or country name. */
  predicate SearchMatches(db: Db, d: Destination, query: string) {
    && d.isActive
    && PlaceOf(db, d).Some?
    && var p := PlaceOf(db, d).value;
       || FieldMatches(d.name, query)
       || FieldMatches(d.description, query)
       || FieldMatches(d.category, query)
       || FieldMatches(p.city, query)
       || FieldMatches(p.state, query)
       || FieldMatches(p.country, query)
  }

  function SearchFilter(db: Db, query: string): Destination -> bool {
    (d: Destination) => SearchMatches(db, d, query)
  }

  function SearchDestinations(db: Db, query: string): (r: seq<Destination>)
    ensures IsSubsequence(r, db.destinations)
    ensures forall d :: d in r <==> d in db.destinations && SearchMatches(db, d, query)
    ensures forall d :: d in r ==> d.isActive
  {
    FilterIsSubsequence(db.destinations, SearchFilter(db, query));
    FilterMembersAll(db.destinations, SearchFilter(db, query));
    Filter(db.destinations, SearchFilter(db, query))
  }

  /** The empty query matches every active destination whose place resolves. */
  lemma EmptySearchFindsAllActive(db: Db, d: Destination)
    requires d in db.destinations && d.isActive && PlaceOf(db, d).Some?
    ensures d in SearchDestinations(db, "")
  {
    EmptyQueryMatchesField(d.name);
  }

  /** An inactive destination is never found, whatever it matches. */
  lemma SearchSkipsInactive(db: Db, d: Destination, query: string)
    requires !d.isActive
    ensures d !in SearchDestinations(db, query)
  {
  }

  // ---------------------------------------------------------------------
  // findWithFilters

  /** `(:category IS NULL OR d.category = :category) AND
      (:country IS NULL OR d.city.state.country.name = :country)` over
      active destinations. The country condition follows the path to the
      country, so a destination whose place does not resolve is left out
      even when no country is given. */
  predicate FilterMatches(db: Db, d: Destination, category: Option<string>, country: Option<string>) {
    && d.isActive
    && (category.None? || d.category == category.value)
    && PlaceOf(db, d).Some?
    && (country.None? || PlaceOf(db, d).value.country == country.value)
  }

  function WithFiltersFilter(db: Db, category: Option<string>, country: Option<string>): Destination -> bool {
    (d: Destination) => FilterMatches(db, d, category, country)
  }

  function FindWithFilters(db: Db, category: Option<string>, country: Option<string>): (r: seq<Destination>)
    ensures IsSubsequence(r, db.destinations)
    ensures forall d :: d in r <==> d in db.destinations && FilterMatches(db, d, category, country)
    ensures forall d :: d in r ==> d.isActive
    ensures forall d :: d in r && category.Some? ==> d.category == category.value
  {
    FilterIsSubsequence(db.destinations, WithFiltersFilter(db, category, country));
    FilterMembersAll(db.destinations, WithFiltersFilter(db, category, country));
    Filter(db.destinations, WithFiltersFilter(db, category, country))
  }

  /** With neither filter set every active destination with a resolved
      place is listed, in table order. */
  lemma NoFiltersListsActive(db: Db)
    ensures FindWithFilters(db, None, None)
            == Filter(db.destinations, (d: Destination) => d.isActive && PlaceOf(db, d).Some?)
  {
    FilterExtensional(db.destinations, WithFiltersFilter(db, None, None),
                      (d: Destination) => d.isActive && PlaceOf(db, d).Some?);
  }

  // ---------------------------------------------------------------------
  // findTop6ByIsActiveOrderByRatingDesc

  /** `ORDER BY rating DESC` as "may come first". */
  function RatingDesc(): (Destination, Destination) -> bool {
    (a: Destination, b: Destination) => a.rating >= b.rating
  }

  function HasActiveFlag(isActive: bool): Destination -> bool {
    (d: Destination) => d.isActive == isActive
  }

  lemma RatingDescIsTotalPreorder()
    ensures TotalPreorder(RatingDesc())
  {
  }

  /** A prefix of a list sorted by descending rating holds the best ratings:
      nothing left out rates higher than anything kept. */
  lemma {:induction false} SortedPrefixIsTop(s: seq<Destination>, n: nat, i: nat, d: Destination)
    requires SortedBy(s, RatingDesc())
    requires n <= |s| && i < n
    requires d in s && d !in s[..n]
    ensures d.rating <= s[i].rating
  {
    var j :| 0 <= j < |s| && s[j] == d;
    assert forall k :: 0 <= k < n ==> s[..n][k] == s[k];
    assert j >= n;
  }

  function FindTop6ByIsActiveOrderByRatingDesc(db: Db, isActive: bool): (r: seq<Destination>)
    ensures |r| <= 6
    ensures |r| == if |Filter(db.destinations, HasActiveFlag(isActive))| < 6
                   then |Filter(db.destinations, HasActiveFlag(isActive))| else 6
    ensures forall d :: d in r ==> d in db.destinations && d.isActive == isActive
    ensures forall i, j :: 0 <= i < j < |r| ==> r[i].rating >= r[j].rating
    ensures forall i, d :: 0 <= i < |r| && d in db.destinations && d.isActive == isActive && d !in r ==>
              d.rating <= r[i].rating
  {
    var candidates := Filter(db.destinations, HasActiveFlag(isActive));
    FilterMembersAll(db.destinations, HasActiveFlag(isActive));
    RatingDescIsTotalPreorder();
    var sorted := SortBy(candidates, RatingDesc());
    SortBySorted(candidates, RatingDesc());
    TopOfSorted(db.destinations, candidates, sorted, isActive);
    Take(sorted, 6)
  }

  lemma TopOfSorted(table: seq<Destination>, candidates: seq<Destination>, sorted: seq<Destination>, isActive: bool)
    requires forall d :: d in candidates <==> d in table && d.isActive == isActive
    requires multiset(sorted) == multiset(candidates)
    requires SortedBy(sorted, RatingDesc())
    ensures forall d :: d in Take(sorted, 6) ==> d in table && d.isActive == isActive
    ensures forall i, d :: (0 <= i < |Take(sorted, 6)| && d in table && d.isActive == isActive
                            && d !in Take(sorted, 6)) ==> d.rating <= Take(sorted, 6)[i].rating
  {
    var top := Take(sorted, 6);
    forall d | d in top
      ensures d in table && d.isActive == isActive
    {
      assert d in multiset(sorted);
    }
    forall i, d | 0 <= i < |top| && d in table && d.isActive == isActive && d !in top
      ensures d.rating <= top[i].rating
    {
      assert d in multiset(candidates);
      SortedPrefixIsTop(sorted, |top|, i, d);
    }
  }

  // ---------------------------------------------------------------------
  // findByIsFeaturedTrueAndIsActiveTrue

  /** A NULL featured flag does not satisfy `is_featured = true`. */
  function FeaturedActiveFilter(): Destination -> bool {
    (d: Destination) => d.isFeatured == Some(true) && d.isActive
  }

  function FindByIsFeaturedTrueAndIsActiveTrue(db: Db): (r: seq<Destination>)
    ensures IsSubsequence(r, db.destinations)
    ensures forall d :: d in r <==> d in db.destinations && d.isFeatured == Some(true) && d.isActive
  {
    FilterIsSubsequence(db.destinations, FeaturedActiveFilter());
    FilterMembersAll(db.destinations, FeaturedActiveFilter());
    Filter(db.destinations, FeaturedActiveFilter())
  }

  // ---------------------------------------------------------------------
  // findAllCategories

  predicate LexLt(a: string, b: string) {
    LexLe(a, b) && a != b
  }

  ghost predicate StrictlySorted(s: seq<string>) {
    forall i, j :: 0 <= i < j < |s| ==> LexLt(s[i], s[j])
  }

  lemma ConsStrictlySorted(x: string, t: seq<string>)
    requires StrictlySorted(t)
    requires forall y :: y in t ==> LexLt(x, y)
    ensures StrictlySorted([x] + t)
  {
    var r := [x] + t;
    forall i, j | 0 <= i < j < |r|
      ensures LexLt(r[i], r[j])
    {
      if i == 0 {
        assert r[j] == t[j - 1];
      } else {
        assert r[i] == t[i - 1] && r[j] == t[j - 1];
      }
    }
  }

  /** A value smaller than the head of a strictly sorted list is smaller than all of it. */
  lemma BelowHead(x: string, s: seq<string>)
    requires StrictlySorted(s) && s != []
    requires LexLt(x, s[0])
    ensures forall y :: y in s ==> LexLt(x, y)
  {
    forall y | y in s
      ensures LexLt(x, y)
    {
      var j :| 0 <= j < |s| && s[j] == y;
      if j > 0 {
        LexLeTransitive(x, s[0], y);
        if x == y {
          LexLeAntisymmetric(s[0], y);
        }
      }
    }
  }

  /** Adds `c` to a strictly sorted list of distinct values. */
  function InsertCategory(c: string, s: seq<string>): (r: seq<string>)
    requires StrictlySorted(s)
    ensures StrictlySorted(r)
    ensures forall x :: x in r <==> x == c || x in s
  {
    if s == [] then [c]
    else if c == s[0] then s
    else if LexLe(c, s[0]) then
      BelowHead(c, s);
      ConsStrictlySorted(c, s);
      [c] + s
    else
      LexLeTotal(c, s[0]);
      assert s == [s[0]] + s[1..];
      assert StrictlySorted(s[1..]) by {
        forall i, j | 0 <= i < j < |s[1..]|
          ensures LexLt(s[1..][i], s[1..][j])
        {
          assert s[1..][i] == s[i + 1] && s[1..][j] == s[j + 1];
        }
      }
      var t := InsertCategory(c, s[1..]);
      assert forall y :: y in t ==> LexLt(s[0], y) by {
        forall y | y in t
          ensures LexLt(s[0], y)
        {
          if y != c {
            var j :| 0 <= j < |s[1..]| && s[1..][j] == y;
            assert s[j + 1] == y;
          }
        }
      }
      ConsStrictlySorted(s[0], t);
      [s[0]] + t
  }

  /** The distinct values of `cs`, in ascending order. */
  function DistinctSorted(cs: seq<string>): (r: seq<string>)
    ensures StrictlySorted(r)
    ensures forall x :: x in r <==> x in cs
  {
    if cs == [] then []
    else
      var r := InsertCategory(cs[0], DistinctSorted(cs[1..]));
      assert forall x :: x in cs <==> x == cs[0] || x in cs[1..] by {
        assert cs == [cs[0]] + cs[1..];
      }
      r
  }

  function Categories(ds: seq<Destination>): (r: seq<string>)
    ensures |r| == |ds|
    ensures forall i :: 0 <= i < |ds| ==> r[i] == ds[i].category
  {
    if ds == [] then [] else [ds[0].category] + Categories(ds[1..])
  }

  function ActiveFilter(): Destination -> bool {
    (d: Destination) => d.isActive
  }

  /** `SELECT DISTINCT d.category .. WHERE d.isActive = true ORDER BY d.category`. */
  function FindAllCategories(db: Db): (r: seq<string>)
    ensures StrictlySorted(r)
    ensures forall i, j :: 0 <= i < j < |r| ==> r[i] != r[j]
    ensures forall c :: c in r <==> exists d :: d in db.destinations && d.isActive && d.category == c
  {
    var active := Filter(db.destinations, ActiveFilter());
    FilterMembersAll(db.destinations, ActiveFilter());
    var r := DistinctSorted(Categories(active));
    assert forall c :: c in r <==> exists d :: d in db.destinations && d.isActive && d.category == c by {
      forall c
        ensures c in r <==> exists d :: d in db.destinations && d.isActive && d.category == c
      {
        if c in r {
          var i :| 0 <= i < |Categories(active)| && Categories(active)[i] == c;
          assert active[i] in active;
        }
        if exists d :: d in db.destinations && d.isActive && d.category == c {
          var d :| d in db.destinations && d.isActive && d.category == c;
          var i :| 0 <= i < |active| && active[i] == d;
          assert Categories(active)[i] == c;
        }
      }
    }
    r
  }
}
