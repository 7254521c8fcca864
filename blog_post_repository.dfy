/** The blog post queries: search, the optional category filter, and the
    published, per-category and featured listings ordered newest first.
    Pagination is left to the caller; each function gives the full result. */
module BlogPostRepository {
  import opened Seqs
  import opened Text
  import opened Entities

  /** `searchBlogPosts`: published, and the lower-cased query occurs in the
      title, the content or the excerpt (a NULL excerpt matches nothing). */
  predicate SearchMatches(b: BlogPost, query: string) {
    && b.isPublished
    && (FieldMatches(b.title, query) || FieldMatches(b.content, query) || OptionalFieldMatches(b.excerpt, query))
  }

  function SearchFilter(query: string): BlogPost -> bool {
    (b: BlogPost) => SearchMatches(b, query)
  }

  function SearchBlogPosts(posts: seq<BlogPost>, query: string): (r: seq<BlogPost>)
    ensures IsSubsequence(r, posts)
    ensures forall b :: b in r <==> b in posts && SearchMatches(b, query)
    ensures forall b :: b in r ==> b.isPublished
  {
    FilterIsSubsequence(posts, SearchFilter(query));
    FilterMembersAll(posts, SearchFilter(query));
    Filter(posts, SearchFilter(query))
  }

  /** The empty query lists every published post. */
  lemma EmptySearchFindsAllPublished(posts: seq<BlogPost>, b: BlogPost)
    requires b in posts && b.isPublished
    ensures b in SearchBlogPosts(posts, "")
  {
    EmptyQueryMatchesField(b.title);
  }

  /** `b.isPublished = true AND (:categoryId IS NULL OR b.category.id = :categoryId)`. */
  predicate FilterMatches(b: BlogPost, categoryId: Option<Id>) {
    b.isPublished && (categoryId.None? || b.categoryId == categoryId)
  }

  function WithFiltersFilter(categoryId: Option<Id>): BlogPost -> bool {
    (b: BlogPost) => FilterMatches(b, categoryId)
  }

  function FindWithFilters(posts: seq<BlogPost>, categoryId: Option<Id>): (r: seq<BlogPost>)
    ensures IsSubsequence(r, posts)
    ensures forall b :: b in r <==> b in posts && FilterMatches(b, categoryId)
    ensures categoryId.None? ==> forall b :: b in r <==> b in posts && b.isPublished
    ensures categoryId.Some? ==> forall b :: b in r ==> b.categoryId == categoryId
  {
    FilterIsSubsequence(posts, WithFiltersFilter(categoryId));
    FilterMembersAll(posts, WithFiltersFilter(categoryId));
    Filter(posts, WithFiltersFilter(categoryId))
  }

  // ---------------------------------------------------------------------
  // Listings ordered by `publishedAt DESC`

  /** `ORDER BY published_at DESC` as "may come first": later first, and,
      as PostgreSQL sorts a descending column, NULLs before every date. */
  function NewestFirst(): (BlogPost, BlogPost) -> bool {
    (a: BlogPost, b: BlogPost) =>
      a.publishedAt.None? || (b.publishedAt.Some? && a.publishedAt.value >= b.publishedAt.value)
  }

  lemma NewestFirstIsTotalPreorder()
    ensures TotalPreorder(NewestFirst())
  {
    var le := NewestFirst();
    forall a: BlogPost, b: BlogPost
      ensures le(a, b) || le(b, a)
    {
      if a.publishedAt.Some? && b.publishedAt.Some? {
        assert a.publishedAt.value >= b.publishedAt.value || b.publishedAt.value >= a.publishedAt.value;
      }
    }
  }

  /** The posts satisfying `keep`, each as often as in the table, newest first. */
  function Listing(posts: seq<BlogPost>, keep: BlogPost -> bool): (r: seq<BlogPost>)
    ensures multiset(r) == multiset(Filter(posts, keep))
    ensures forall b :: b in r <==> b in posts && keep(b)
    ensures SortedBy(r, NewestFirst())
  {
    var kept := Filter(posts, keep);
    FilterMembersAll(posts, keep);
    NewestFirstIsTotalPreorder();
    SortBySorted(kept, NewestFirst());
    var r := SortBy(kept, NewestFirst());
    assert forall b :: b in r <==> b in kept by {
      forall b
        ensures b in r <==> b in kept
      {
        assert b in r <==> b in multiset(r);
      }
    }
    r
  }

  /** Later dates come first and undated posts come before every dated one. */
  lemma ListingOrder(r: seq<BlogPost>, i: nat, j: nat)
    requires SortedBy(r, NewestFirst())
    requires i < j < |r|
    ensures r[j].publishedAt.None? ==> r[i].publishedAt.None?
    ensures r[i].publishedAt.Some? && r[j].publishedAt.Some? ==> r[i].publishedAt.value >= r[j].publishedAt.value
  {
    assert NewestFirst()(r[i], r[j]);
  }

  function PublishedFilter(): BlogPost -> bool {
    (b: BlogPost) => b.isPublished
  }

  function InCategoryFilter(categoryId: Id): BlogPost -> bool {
    (b: BlogPost) => b.categoryId == Some(categoryId) && b.isPublished
  }

  function FeaturedFilter(): BlogPost -> bool {
    (b: BlogPost) => b.isFeatured && b.isPublished
  }

  function FindByIsPublishedTrueOrderByPublishedAtDesc(posts: seq<BlogPost>): (r: seq<BlogPost>)
    ensures forall b :: b in r <==> b in posts && b.isPublished
    ensures multiset(r) == multiset(Filter(posts, PublishedFilter()))
    ensures SortedBy(r, NewestFirst())
  {
    Listing(posts, PublishedFilter())
  }

  function FindByCategoryIdAndIsPublishedTrueOrderByPublishedAtDesc(posts: seq<BlogPost>, categoryId: Id): (r: seq<BlogPost>)
    ensures forall b :: b in r <==> b in posts && b.isPublished && b.categoryId == Some(categoryId)
    ensures multiset(r) == multiset(Filter(posts, InCategoryFilter(categoryId)))
    ensures SortedBy(r, NewestFirst())
  {
    Listing(posts, InCategoryFilter(categoryId))
  }

  function FindByIsFeaturedTrueAndIsPublishedTrueOrderByPublishedAtDesc(posts: seq<BlogPost>): (r: seq<BlogPost>)
    ensures forall b :: b in r <==> b in posts && b.isFeatured && b.isPublished
    ensures multiset(r) == multiset(Filter(posts, FeaturedFilter()))
    ensures SortedBy(r, NewestFirst())
  {
    Listing(posts, FeaturedFilter())
  }

  /** Drafts are in none of the listings. */
  lemma DraftsAreNeverListed(posts: seq<BlogPost>, b: BlogPost, categoryId: Id)
    requires !b.isPublished
    ensures b !in FindByIsPublishedTrueOrderByPublishedAtDesc(posts)
    ensures b !in FindByCategoryIdAndIsPublishedTrueOrderByPublishedAtDesc(posts, categoryId)
    ensures b !in FindByIsFeaturedTrueAndIsPublishedTrueOrderByPublishedAtDesc(posts)
    ensures b !in SearchBlogPosts(posts, "")
    ensures b !in FindWithFilters(posts, None)
  {
  }
}
