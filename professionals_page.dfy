/**
 * The search page (`professionals.js`): the filters it posts, the criteria
 * filter it applies to the page of results using per-professional review
 * summaries, and its pager.
 *
 * The page keeps `state` (page, page size, total, the professionals shown
 * and a cache of review summaries by professional id), modelled as a class.
 * The search endpoint it posts to is the server's `Professionals.Search`;
 * the review lists it fetches per professional are a parameter.
 */
module ProfessionalsPage {
  import opened Common
  import opened Professionals
  import opened WebReviews

  /** The page size the page always requests. */
  const PageSize := 6

  /** The filter form as `getFilters` reads it; a slider that does not parse is `None`. */
  datatype Filters = Filters(
    searchTerm: string,
    categoryId: Option<int>,
    minRating: Option<real>,
    sortBy: string,
    sortDirection: string,
    criteria: seq<string>)

  /**
   * `parseFloat(...) || 0` then `minRating > 0 ? minRating : null`: only a
   * positive minimum is sent, so a zero slider does not make the server drop
   * professionals without reviews.
   */
  function MinRatingParam(slider: Option<real>): (r: Option<real>)
    ensures r.Some? <==> slider.Some? && slider.value > 0.0
    ensures r.Some? ==> r == slider
  {
    if slider.Some? && slider.value > 0.0 then slider else None
  }

  /** A slider at zero, or unreadable, leaves every professional to the other filters. */
  lemma ZeroSliderFiltersNothing(slider: Option<real>, p: Domain.Professional, reviews: seq<Domain.Review>)
    requires slider.None? || slider.value <= 0.0
    ensures PassesMinRating(p, reviews, MinRatingParam(slider))
  {
  }

  /** The body `fetchProfessionals` posts to the search endpoint. */
  function Payload(f: Filters, page: int, pageSize: int): (q: SearchQuery)
    ensures q.page == page && q.pageSize == pageSize
    ensures q.minRating == MinRatingParam(f.minRating)
    ensures q.searchTerm == Some(f.searchTerm) && q.categoryId == f.categoryId
    ensures q.sortBy == Some(f.sortBy) && q.sortDirection == Some(f.sortDirection)
  {
    SearchQuery(Some(f.searchTerm), f.categoryId, MinRatingParam(f.minRating), Some(f.sortBy),
      Some(f.sortDirection), page, pageSize)
  }

  // ---------------------------------------------------------------------------
  // Criteria filter
  // ---------------------------------------------------------------------------

  /** `detail[criteria] ?? 0`: the summary's value under a page key, 0 for any other key. */
  function CriterionValue(a: CriteriaAverages, name: string): (v: real)
    ensures forall c :: CriterionName(c) == name ==> v == Field(a, c)
    ensures CriterionOfName(name).None? ==> v == 0.0
  {
    match CriterionOfName(name)
    case Some(c) => Field(a, c)
    case None => 0.0
  }

  /** A professional with a cached summary whose every selected criterion is at least 4. */
  predicate MeetsCriteria(p: ProfessionalSummary, cache: map<int, CriteriaAverages>, criteria: seq<string>)
  {
    p.id in cache && forall k :: 0 <= k < |criteria| ==> CriterionValue(cache[p.id], criteria[k]) >= 4.0
  }

  /**
   * The filter at the end of `enrichWithDetails`: with no criteria selected
   * the list is left as it is; otherwise exactly the professionals meeting
   * every criterion are kept, in order.
   */
  function CriteriaFilter(ps: seq<ProfessionalSummary>, cache: map<int, CriteriaAverages>, criteria: seq<string>)
    : (r: seq<ProfessionalSummary>)
    ensures criteria == [] ==> r == ps
    ensures |r| <= |ps|
    ensures criteria != [] ==> forall i :: 0 <= i < |r| ==> r[i] in ps && MeetsCriteria(r[i], cache, criteria)
    ensures forall i :: 0 <= i < |ps| && MeetsCriteria(ps[i], cache, criteria) ==> ps[i] in r
  {
    if criteria == [] then ps else Filter(ps, p => MeetsCriteria(p, cache, criteria))
  }

  /** A selected key that names no criterion reads as 0 and so empties the list. */
  lemma UnknownCriterionKeepsNone(ps: seq<ProfessionalSummary>, cache: map<int, CriteriaAverages>,
                                  criteria: seq<string>, k: int)
    requires 0 <= k < |criteria| && CriterionOfName(criteria[k]).None?
    ensures CriteriaFilter(ps, cache, criteria) == []
  {
    forall p: ProfessionalSummary ensures !MeetsCriteria(p, cache, criteria) {
      if p.id in cache {
        assert CriterionValue(cache[p.id], criteria[k]) == 0.0;
      }
    }
    FilterNone(ps, p => MeetsCriteria(p, cache, criteria));
  }

  // ---------------------------------------------------------------------------
  // Pager
  // ---------------------------------------------------------------------------

  /** `Math.ceil(a / b)` for a positive divisor: the least `r` with `a <= b * r`. */
  function CeilDiv(a: int, b: int): (r: int)
    requires b > 0
    ensures b * (r - 1) < a <= b * r
  {
    var r := (a + b - 1) / b;
    var m := (a + b - 1) % b;
    assert a + b - 1 == b * r + m && 0 <= m < b;
    assert b * (r - 1) == b * r - b;
    r
  }

  /**
   * `renderPagination`'s page count: one page when there are no results,
   * otherwise the fewest pages that hold them all.
   */
  function TotalPages(total: int, pageSize: int): (n: int)
    requires pageSize > 0
    ensures n >= 1
    ensures total <= 0 ==> n == 1
    ensures total > 0 ==> (n - 1) * pageSize < total <= n * pageSize
  {
    Max(1, CeilDiv(total, pageSize))
  }

  /** The pager is hidden exactly when there is at most one page, that is when everything fits on one page. */
  function PagerHidden(total: int, pageSize: int): (b: bool)
    requires pageSize > 0
    ensures b <==> total <= pageSize
  {
    OnePageIff(total, pageSize);
    TotalPages(total, pageSize) <= 1
  }

  /** There is at most one page exactly when the results fit on one page. */
  lemma OnePageIff(total: int, pageSize: int)
    requires pageSize > 0
    ensures TotalPages(total, pageSize) <= 1 <==> total <= pageSize
  {
    var c := CeilDiv(total, pageSize);
    if total <= pageSize {
      if c >= 2 {
        MulMonotone(pageSize, 1, c - 1);
      }
    } else {
      if c <= 1 {
        MulMonotone(pageSize, c, 1);
      }
    }
  }

  lemma MulMonotone(b: int, x: int, y: int)
    requires b > 0 && x <= y
    ensures b * x <= b * y
  {
    assert b * y - b * x == b * (y - x);
  }

  /** With no more results than fit on one page, "next" is not enabled from any page. */
  lemma NextNeverEnabled(page: int, total: int, pageSize: int)
    requires pageSize > 0 && page >= 1 && total <= pageSize
    ensures !(page < CeilDiv(total, pageSize))
  {
    OnePageIff(total, pageSize);
  }

  /** The page's `state`. */
  class PageState {
    var page: int
    var pageSize: int
    var total: int
    var professionals: seq<ProfessionalSummary>
    var detailCache: map<int, CriteriaAverages>

    /** The page number never drops below 1; the total is at most one page of results. */
    ghost predicate Valid()
      reads this
    {
      page >= 1 && pageSize == PageSize && 0 <= total <= pageSize && |professionals| <= pageSize
    }

    constructor ()
      ensures Valid()
      ensures page == 1 && total == 0 && professionals == [] && detailCache == map[]
    {
      page, pageSize, total := 1, PageSize, 0;
      professionals, detailCache := [], map[];
    }

    /** Submitting or resetting the filter form goes back to the first page. */
    method ResetPage()
      requires Valid()
      modifies this
      ensures Valid() && page == 1
      ensures total == old(total) && professionals == old(professionals) && detailCache == old(detailCache)
    {
      page := 1;
    }

    /** The "prev" button: one page back, but never below page 1. */
    method Prev()
      requires Valid()
      modifies this
      ensures Valid()
      ensures page == if old(page) > 1 then old(page) - 1 else old(page)
      ensures total == old(total) && professionals == old(professionals) && detailCache == old(detailCache)
    {
      if page > 1 {
        page := page - 1;
      }
    }

    /**
     * The "next" button: one page on while the page is below the page count.
     * Since the total is the size of the page just shown, never more than one
     * page, the guard never holds and the page never advances.
     */
    method Next()
      requires Valid()
      modifies this
      ensures Valid()
      ensures page == if old(page) < CeilDiv(old(total), old(pageSize)) then old(page) + 1 else old(page)
      ensures page == old(page)
      ensures total == old(total) && professionals == old(professionals) && detailCache == old(detailCache)
    {
      NextNeverEnabled(page, total, pageSize);
      page := if page < CeilDiv(total, pageSize) then page + 1 else page;
    }

    /**
     * `enrichWithDetails`: every professional shown without a cached summary
     * gets the summary of its fetched reviews (of none when the fetch
     * failed); cached summaries are kept; then the criteria filter is applied.
     */
    method EnrichWithDetails(fetched: map<int, seq<ReviewJson>>, criteria: seq<string>)
      requires Valid()
      modifies this
      ensures Valid()
      ensures page == old(page) && total == old(total)
      ensures forall id :: id in old(detailCache) ==> id in detailCache && detailCache[id] == old(detailCache)[id]
      ensures forall i :: 0 <= i < |old(professionals)| ==> old(professionals)[i].id in detailCache
      ensures forall id :: id in detailCache && id !in old(detailCache) ==>
        (detailCache[id] == SummarizeReviews(if id in fetched then fetched[id] else [])
         && exists i :: 0 <= i < |old(professionals)| && old(professionals)[i].id == id)
      ensures professionals == CriteriaFilter(old(professionals), detailCache, criteria)
    {
      var i := 0;
      while i < |professionals|
        invariant 0 <= i <= |professionals|
        invariant Valid() && page == old(page) && total == old(total) && professionals == old(professionals)
        invariant forall id :: id in old(detailCache) ==> id in detailCache && detailCache[id] == old(detailCache)[id]
        invariant forall j :: 0 <= j < i ==> professionals[j].id in detailCache
        invariant forall id :: id in detailCache && id !in old(detailCache) ==>
          (detailCache[id] == SummarizeReviews(if id in fetched then fetched[id] else [])
           && exists j :: 0 <= j < i && professionals[j].id == id)
      {
        var id := professionals[i].id;
        if id !in detailCache {
          detailCache := detailCache[id := SummarizeReviews(if id in fetched then fetched[id] else [])];
        }
        i := i + 1;
      }
      professionals := CriteriaFilter(professionals, detailCache, criteria);
    }

    /**
     * The rest of `fetchProfessionals` once the page of results is in: it
     * replaces the list, enriches and filters it, and sets the total to the
     * number of professionals left.
     */
    method ShowResults(response: seq<ProfessionalSummary>, fetched: map<int, seq<ReviewJson>>, criteria: seq<string>)
      requires Valid() && |response| <= pageSize
      modifies this
      ensures Valid()
      ensures page == old(page)
      ensures professionals == CriteriaFilter(response, detailCache, criteria)
      ensures total == |professionals|
      ensures forall id :: id in old(detailCache) ==> id in detailCache && detailCache[id] == old(detailCache)[id]
      ensures forall i :: 0 <= i < |response| ==> response[i].id in detailCache
      ensures forall id :: id in detailCache && id !in old(detailCache) ==>
        (detailCache[id] == SummarizeReviews(if id in fetched then fetched[id] else [])
         && exists i :: 0 <= i < |response| && response[i].id == id)
    {
      professionals := response;
      total := |professionals|;
      EnrichWithDetails(fetched, criteria);
      total := |professionals|;
    }

    /**
     * `fetchProfessionals`: the current page of the server's search with
     * the form's filters, shown as above.
     */
    method Fetch(all: seq<Domain.Professional>, categories: seq<Domain.Category>, reviews: seq<Domain.Review>,
                 f: Filters, fetched: map<int, seq<ReviewJson>>)
      requires Valid()
      modifies this
      ensures Valid()
      ensures page == old(page)
      ensures professionals == CriteriaFilter(Search(all, categories, reviews, Payload(f, page, pageSize)),
        detailCache, f.criteria)
      ensures total == |professionals|
      ensures forall id :: id in old(detailCache) ==> id in detailCache && detailCache[id] == old(detailCache)[id]
      ensures var response := Search(all, categories, reviews, Payload(f, old(page), old(pageSize)));
        (forall i :: 0 <= i < |response| ==> response[i].id in detailCache)
        && forall id :: id in detailCache && id !in old(detailCache) ==>
          (detailCache[id] == SummarizeReviews(if id in fetched then fetched[id] else [])
           && exists i :: 0 <= i < |response| && response[i].id == id)
    {
      var response := Search(all, categories, reviews, Payload(f, page, pageSize));
      ShowResults(response, fetched, f.criteria);
    }
  }
}
