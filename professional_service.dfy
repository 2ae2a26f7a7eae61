/**
 * The professional catalogue's read side (`ProfessionalService`): the
 * search pipeline (filter by term, category and minimum rating, then a
 * stable sort, then one page), the top-rated list, the listing of one
 * category, the mapping of a professional to its summary record, and the
 * profile detail with its statistics and most recent reviews.
 *
 * Every operation works on the tables as sequences in store order.
 */
module Professionals {
  import opened Common
  import opened Text
  import opened Domain
  import opened Sorting

  /** `ProfessionalSearchDto`: absent fields are `None`. */
  datatype SearchQuery = SearchQuery(
    searchTerm: Option<string>,
    categoryId: Option<int>,
    minRating: Option<real>,
    sortBy: Option<string>,
    sortDirection: Option<string>,
    page: int,
    pageSize: int)

  /** `ProfessionalDto`: a professional with its category name and review statistics. */
  datatype ProfessionalSummary = ProfessionalSummary(
    id: int,
    name: string,
    email: string,
    phone: string,
    address: string,
    description: Option<string>,
    categoryId: int,
    categoryName: string,
    averageRating: real,
    totalReviews: nat,
    createdAt: int,
    isActive: bool)

  // ---------------------------------------------------------------------------
  // Mapping to the summary record
  // ---------------------------------------------------------------------------

  /** Average overall rating of the professional, 0 with no reviews (the value the search sorts and filters on). */
  function RatingOf(p: Professional, reviews: seq<Review>): real
  {
    ProfessionalAverageRating(p, reviews)
  }

  /**
   * `MapToDto`: the professional's own fields, the name of the first
   * category with its id ("Unknown" when there is none), and the count and
   * mean of the reviews that name the professional (0 with none).
   */
  function ToSummary(p: Professional, categories: seq<Category>, reviews: seq<Review>): (d: ProfessionalSummary)
    ensures d.id == p.id && d.name == p.name && d.email == p.email && d.phone == p.phone
    ensures d.address == p.address && d.description == p.description && d.categoryId == p.categoryId
    ensures d.createdAt == p.createdAt && d.isActive == p.isActive
    ensures (forall j :: 0 <= j < |categories| ==> categories[j].id != p.categoryId) ==> d.categoryName == "Unknown"
    ensures forall j ::
      (0 <= j < |categories| && categories[j].id == p.categoryId
       && forall k :: 0 <= k < j ==> categories[k].id != p.categoryId) ==> d.categoryName == categories[j].name
    ensures d.totalReviews == |ReviewsOf(reviews, p.id)|
    ensures d.totalReviews == 0 <==> forall i :: 0 <= i < |reviews| ==> reviews[i].professionalId != p.id
    ensures d.totalReviews == 0 ==> d.averageRating == 0.0
    ensures d.totalReviews > 0 ==> d.averageRating == Mean(Overalls(ReviewsOf(reviews, p.id)))
  {
    var category := FirstOrNone(categories, (c: Category) => c.id == p.categoryId);
    var name := if category.Some? then category.value.name else "Unknown";
    ProfessionalSummary(p.id, p.name, p.email, p.phone, p.address, p.description, p.categoryId, name,
      RatingOf(p, reviews), TotalReviews(p, reviews), p.createdAt, p.isActive)
  }

  /** With every rating in its declared range, a reviewed professional's summary shows an average in [1, 5]. */
  lemma SummaryRatingBounds(p: Professional, categories: seq<Category>, reviews: seq<Review>)
    requires AllInRange(reviews) && ToSummary(p, categories, reviews).totalReviews > 0
    ensures 1.0 <= ToSummary(p, categories, reviews).averageRating <= 5.0
  {
    ProfessionalAverageBounds(p, reviews);
  }

  /** `Select(p => MapToDto(p, ...))`. */
  function ToSummaries(ps: seq<Professional>, categories: seq<Category>, reviews: seq<Review>): (r: seq<ProfessionalSummary>)
    ensures |r| == |ps|
    ensures forall i :: 0 <= i < |ps| ==> r[i] == ToSummary(ps[i], categories, reviews)
  {
    if ps == [] then [] else [ToSummary(ps[0], categories, reviews)] + ToSummaries(ps[1..], categories, reviews)
  }

  // ---------------------------------------------------------------------------
  // Search: filters
  // ---------------------------------------------------------------------------

  /** The term occurs, ignoring case, in the name or in a present description. */
  predicate MatchesTerm(p: Professional, term: string)
  {
    ContainsIgnoreCase(p.name, term) || (p.description.Some? && ContainsIgnoreCase(p.description.value, term))
  }

  /** An absent or empty term filters nothing. */
  predicate PassesTerm(p: Professional, term: Option<string>)
  {
    term.None? || term.value == [] || MatchesTerm(p, term.value)
  }

  predicate PassesCategory(p: Professional, categoryId: Option<int>)
  {
    categoryId.None? || p.categoryId == categoryId.value
  }

  /** A minimum rating excludes professionals without reviews and keeps the others whose average reaches it. */
  predicate PassesMinRating(p: Professional, reviews: seq<Review>, minRating: Option<real>)
  {
    minRating.None? || (TotalReviews(p, reviews) > 0 && RatingOf(p, reviews) >= minRating.value)
  }

  predicate PassesFilters(p: Professional, reviews: seq<Review>, q: SearchQuery)
  {
    PassesTerm(p, q.searchTerm) && PassesCategory(p, q.categoryId) && PassesMinRating(p, reviews, q.minRating)
  }

  function FilterByTerm(ps: seq<Professional>, term: Option<string>): (r: seq<Professional>)
    ensures |r| <= |ps|
    ensures (term.None? || term.value == []) ==> r == ps
    ensures forall i :: 0 <= i < |r| ==> r[i] in ps && PassesTerm(r[i], term)
    ensures forall i :: 0 <= i < |ps| && PassesTerm(ps[i], term) ==> ps[i] in r
  {
    if term.Some? && term.value != [] then Filter(ps, (p: Professional) => MatchesTerm(p, term.value)) else ps
  }

  function FilterByCategory(ps: seq<Professional>, categoryId: Option<int>): (r: seq<Professional>)
    ensures |r| <= |ps|
    ensures categoryId.None? ==> r == ps
    ensures forall i :: 0 <= i < |r| ==> r[i] in ps && PassesCategory(r[i], categoryId)
    ensures forall i :: 0 <= i < |ps| && PassesCategory(ps[i], categoryId) ==> ps[i] in r
  {
    if categoryId.Some? then Filter(ps, (p: Professional) => p.categoryId == categoryId.value) else ps
  }

  function FilterByMinRating(ps: seq<Professional>, reviews: seq<Review>, minRating: Option<real>): (r: seq<Professional>)
    ensures |r| <= |ps|
    ensures minRating.None? ==> r == ps
    ensures forall i :: 0 <= i < |r| ==> r[i] in ps && PassesMinRating(r[i], reviews, minRating)
    ensures forall i :: 0 <= i < |ps| && PassesMinRating(ps[i], reviews, minRating) ==> ps[i] in r
  {
    if minRating.Some? then
      Filter(ps, (p: Professional) => TotalReviews(p, reviews) > 0 && RatingOf(p, reviews) >= minRating.value)
    else ps
  }

  /** The three filters in the order the search applies them. */
  function Filtered(ps: seq<Professional>, reviews: seq<Review>, q: SearchQuery): (r: seq<Professional>)
    ensures |r| <= |ps|
    ensures forall i :: 0 <= i < |r| ==> r[i] in ps && PassesFilters(r[i], reviews, q)
    ensures forall i :: 0 <= i < |ps| && PassesFilters(ps[i], reviews, q) ==> ps[i] in r
  {
    var t := FilterByTerm(ps, q.searchTerm);
    var c := FilterByCategory(t, q.categoryId);
    var m := FilterByMinRating(c, reviews, q.minRating);
    forall i | 0 <= i < |ps| && PassesFilters(ps[i], reviews, q) ensures ps[i] in m {
      var x := ps[i];
      var j :| 0 <= j < |t| && t[j] == x;
      var k :| 0 <= k < |c| && c[k] == x;
    }
    m
  }

  // ---------------------------------------------------------------------------
  // Search: ordering
  // ---------------------------------------------------------------------------

  datatype SortField = ByRating | ByName | ByCreated

  datatype SortPlan = SortPlan(field: SortField, descending: bool)

  /** The direction argument equals `word` after lower-casing. */
  predicate DirectionIs(dir: Option<string>, word: string)
  {
    dir.Some? && Lower(dir.value) == word
  }

  /** The sort field the `switch` looks at: lower-cased, and "" when none is given. */
  function SortWord(sortBy: Option<string>): string
  {
    if sortBy.Some? then Lower(sortBy.value) else ""
  }

  /**
   * The `switch` on the lower-cased sort field: "rating" is descending
   * unless the direction says "asc", "name" and "created" are ascending
   * unless it says "desc", and anything else sorts by name ascending.
   */
  function PlanSort(sortBy: Option<string>, dir: Option<string>): (plan: SortPlan)
    ensures SortWord(sortBy) == "rating" ==> plan.field == ByRating
    ensures SortWord(sortBy) == "created" ==> plan.field == ByCreated
    ensures SortWord(sortBy) != "rating" && SortWord(sortBy) != "created" ==> plan.field == ByName
    ensures plan.field == ByRating ==> (plan.descending <==> !DirectionIs(dir, "asc"))
    ensures SortWord(sortBy) == "name" || SortWord(sortBy) == "created" ==>
      (plan.descending <==> DirectionIs(dir, "desc"))
    ensures SortWord(sortBy) != "rating" && SortWord(sortBy) != "name" && SortWord(sortBy) != "created" ==>
      !plan.descending
    ensures plan.field != ByRating ==> (plan.descending ==> DirectionIs(dir, "desc"))
    ensures sortBy.None? ==> plan == SortPlan(ByName, false)
  {
    var field := SortWord(sortBy);
    if field == "rating" then SortPlan(ByRating, !DirectionIs(dir, "asc"))
    else if field == "name" then SortPlan(ByName, DirectionIs(dir, "desc"))
    else if field == "created" then SortPlan(ByCreated, DirectionIs(dir, "desc"))
    else SortPlan(ByName, false)
  }

  /** Field and direction are compared without regard to case: upper-casing them changes no plan. */
  lemma PlanSortIgnoresCase(sortBy: string, dir: string)
    ensures PlanSort(Some(Upper(sortBy)), Some(Upper(dir))) == PlanSort(Some(sortBy), Some(dir))
  {
    LowerOfUpper(sortBy);
    LowerOfUpper(dir);
  }

  function RatingKey(reviews: seq<Review>): Professional -> Key
  {
    (p: Professional) => Num(RatingOf(p, reviews))
  }

  function NameKey(p: Professional): Key
  {
    Key.Text(p.name)
  }

  function CreatedKey(p: Professional): Key
  {
    Num(p.createdAt as real)
  }

  function KeyFor(field: SortField, reviews: seq<Review>): Professional -> Key
  {
    match field
    case ByRating => RatingKey(reviews)
    case ByName => NameKey
    case ByCreated => CreatedKey
  }

  /** `OrderBy`/`OrderByDescending` on the planned key: a stable reordering of the filtered list. */
  function Sorted(ps: seq<Professional>, reviews: seq<Review>, plan: SortPlan): (r: seq<Professional>)
    ensures |r| == |ps| && multiset(r) == multiset(ps)
    ensures Ordered(r, KeyFor(plan.field, reviews), plan.descending)
  {
    SortOrdered(ps, KeyFor(plan.field, reviews), plan.descending);
    SortBy(ps, KeyFor(plan.field, reviews), plan.descending)
  }

  // ---------------------------------------------------------------------------
  // Search: paging
  // ---------------------------------------------------------------------------

  /** `Skip((page - 1) * pageSize).Take(pageSize)`: a negative skip skips nothing, a non-positive size takes nothing. */
  function PageOf<T>(s: seq<T>, page: int, pageSize: int): (r: seq<T>)
    ensures pageSize <= 0 ==> r == []
    ensures |r| <= Max(pageSize, 0)
    ensures var start := (page - 1) * pageSize;
      0 <= start <= |s| ==> |r| == Min(Max(pageSize, 0), |s| - start) && r == s[start..start + |r|]
    ensures (page - 1) * pageSize >= |s| ==> r == []
  {
    Take(Skip(s, (page - 1) * pageSize), pageSize)
  }

  /** The page holding index `i` starts at `i` minus its offset within the page. */
  lemma PageStart(i: int, pageSize: int)
    requires pageSize >= 1 && i >= 0
    ensures 0 <= (i / pageSize) * pageSize <= i
    ensures (i / pageSize) * pageSize + i % pageSize == i
  {
    var q, r := i / pageSize, i % pageSize;
    assert i == pageSize * q + r && 0 <= r < pageSize;
    assert q >= 0;
    assert q * pageSize == pageSize * q;
  }

  /** Every element is on page `i / pageSize + 1`, at position `i % pageSize`. */
  lemma PageOfCovers<T>(s: seq<T>, pageSize: int, i: int)
    requires pageSize >= 1 && 0 <= i < |s|
    ensures var page := i / pageSize + 1;
      i % pageSize < |PageOf(s, page, pageSize)| && PageOf(s, page, pageSize)[i % pageSize] == s[i]
  {
    PageStart(i, pageSize);
    var page := i / pageSize + 1;
    assert (page - 1) * pageSize == (i / pageSize) * pageSize;
  }

  // ---------------------------------------------------------------------------
  // Search, top-rated and category listings
  // ---------------------------------------------------------------------------

  /** The professionals on the requested page of the filtered, sorted list. */
  function SearchPage(all: seq<Professional>, reviews: seq<Review>, q: SearchQuery): (r: seq<Professional>)
    ensures |r| <= Max(q.pageSize, 0)
  {
    PageOf(Sorted(Filtered(all, reviews, q), reviews, PlanSort(q.sortBy, q.sortDirection)), q.page, q.pageSize)
  }

  /** `SearchAsync`: the page mapped to summaries. */
  function Search(all: seq<Professional>, categories: seq<Category>, reviews: seq<Review>, q: SearchQuery): (r: seq<ProfessionalSummary>)
    ensures |r| == |SearchPage(all, reviews, q)| && |r| <= Max(q.pageSize, 0)
    ensures forall i :: 0 <= i < |r| ==> r[i] == ToSummary(SearchPage(all, reviews, q)[i], categories, reviews)
  {
    ToSummaries(SearchPage(all, reviews, q), categories, reviews)
  }

  /** Sequences holding the same multiset hold the same elements. */
  lemma InSameMultiset<T>(a: seq<T>, b: seq<T>, x: T)
    requires multiset(a) == multiset(b) && x in a
    ensures x in b
  {
    assert x in multiset(a);
  }

  /** A page holds elements of the paged sequence only. */
  lemma PageOfElements<T>(s: seq<T>, page: int, pageSize: int)
    ensures forall i :: 0 <= i < |PageOf(s, page, pageSize)| ==> PageOf(s, page, pageSize)[i] in s
  {
    var start := (page - 1) * pageSize;
    var base := if start < 0 then 0 else start;
    var r := PageOf(s, page, pageSize);
    if r != [] {
      assert Skip(s, start) == s[base..];
      forall i | 0 <= i < |r| ensures r[i] in s {
        assert r[i] == s[base + i];
      }
    }
  }

  /** A page of an ordered sequence is ordered. */
  lemma PageOfOrdered<T>(s: seq<T>, page: int, pageSize: int, key: T -> Key, desc: bool)
    requires Ordered(s, key, desc)
    ensures Ordered(PageOf(s, page, pageSize), key, desc)
  {
    var start := (page - 1) * pageSize;
    var base := if start < 0 then 0 else start;
    var r := PageOf(s, page, pageSize);
    if r != [] {
      assert Skip(s, start) == s[base..];
      forall i, j | 0 <= i < j < |r| ensures !Before(key(r[j]), key(r[i]), desc) {
        assert r[i] == s[base + i] && r[j] == s[base + j];
      }
    }
  }

  /** Every search result is a stored professional that passes every filter of the query. */
  lemma SearchSound(all: seq<Professional>, reviews: seq<Review>, q: SearchQuery)
    ensures forall i :: 0 <= i < |SearchPage(all, reviews, q)| ==>
      SearchPage(all, reviews, q)[i] in all && PassesFilters(SearchPage(all, reviews, q)[i], reviews, q)
  {
    var f := Filtered(all, reviews, q);
    var s := Sorted(f, reviews, PlanSort(q.sortBy, q.sortDirection));
    var r := SearchPage(all, reviews, q);
    assert r == PageOf(s, q.page, q.pageSize);
    PageOfElements(s, q.page, q.pageSize);
    forall i | 0 <= i < |r| ensures r[i] in all && PassesFilters(r[i], reviews, q) {
      InSameMultiset(s, f, r[i]);
      var j :| 0 <= j < |f| && f[j] == r[i];
    }
  }

  /** The page is in the order the query asked for. */
  lemma SearchOrdered(all: seq<Professional>, reviews: seq<Review>, q: SearchQuery)
    ensures var plan := PlanSort(q.sortBy, q.sortDirection);
      Ordered(SearchPage(all, reviews, q), KeyFor(plan.field, reviews), plan.descending)
  {
    var plan := PlanSort(q.sortBy, q.sortDirection);
    var s := Sorted(Filtered(all, reviews, q), reviews, plan);
    PageOfOrdered(s, q.page, q.pageSize, KeyFor(plan.field, reviews), plan.descending);
  }

  /** A first page at least as large as the catalogue holds every professional that passes the filters. */
  lemma SearchComplete(all: seq<Professional>, reviews: seq<Review>, q: SearchQuery, k: int)
    requires q.page == 1 && q.pageSize >= |all|
    requires 0 <= k < |all| && PassesFilters(all[k], reviews, q)
    ensures all[k] in SearchPage(all, reviews, q)
  {
    var f := Filtered(all, reviews, q);
    var s := Sorted(f, reviews, PlanSort(q.sortBy, q.sortDirection));
    assert SearchPage(all, reviews, q) == s;
    assert all[k] in multiset(f);
  }

  /** The professionals ordered by average rating, highest first, ties in store order. */
  function ByRatingDescending(all: seq<Professional>, reviews: seq<Review>): (r: seq<Professional>)
    ensures |r| == |all| && multiset(r) == multiset(all)
    ensures forall i, j :: 0 <= i < j < |r| ==> RatingOf(r[i], reviews) >= RatingOf(r[j], reviews)
  {
    var r := SortBy(all, RatingKey(reviews), true);
    SortOrdered(all, RatingKey(reviews), true);
    forall i, j | 0 <= i < j < |r| ensures RatingOf(r[i], reviews) >= RatingOf(r[j], reviews) {
      assert !Before(RatingKey(reviews)(r[j]), RatingKey(reviews)(r[i]), true);
    }
    r
  }

  /** The professionals `GetTopRatedAsync` picks: the first `count` of the rating order. */
  function TopRated(all: seq<Professional>, reviews: seq<Review>, count: int): (r: seq<Professional>)
    ensures |r| == if count <= 0 then 0 else Min(count, |all|)
    ensures forall i :: 0 <= i < |r| ==> r[i] in all
    ensures forall i, j :: 0 <= i < j < |r| ==> RatingOf(r[i], reviews) >= RatingOf(r[j], reviews)
  {
    var s := ByRatingDescending(all, reviews);
    var r := Take(s, count);
    forall i | 0 <= i < |r| ensures r[i] in all {
      assert r[i] == s[i] && s[i] in multiset(all);
    }
    r
  }

  /** Nobody left off the top-rated list has a higher average than anybody on it. */
  lemma TopRatedAreBest(all: seq<Professional>, reviews: seq<Review>, count: int, p: Professional)
    requires p in all && p !in TopRated(all, reviews, count)
    ensures forall i :: 0 <= i < |TopRated(all, reviews, count)| ==>
      RatingOf(p, reviews) <= RatingOf(TopRated(all, reviews, count)[i], reviews)
  {
    var s := ByRatingDescending(all, reviews);
    var r := TopRated(all, reviews, count);
    assert p in multiset(s);
    var k :| 0 <= k < |s| && s[k] == p;
    forall i | 0 <= i < |r| ensures RatingOf(p, reviews) <= RatingOf(r[i], reviews) {
      assert r[i] == s[i];
    }
  }

  /** `GetTopRatedAsync`. */
  function GetTopRated(all: seq<Professional>, categories: seq<Category>, reviews: seq<Review>, count: int): (r: seq<ProfessionalSummary>)
    ensures |r| == if count <= 0 then 0 else Min(count, |all|)
    ensures forall i, j :: 0 <= i < j < |r| ==> r[i].averageRating >= r[j].averageRating
    ensures r == ToSummaries(TopRated(all, reviews, count), categories, reviews)
  {
    var top := TopRated(all, reviews, count);
    ToSummaries(top, categories, reviews)
  }

  /** The professionals of one category, in store order. */
  function InCategory(all: seq<Professional>, categoryId: int): (r: seq<Professional>)
    ensures forall i :: 0 <= i < |r| ==> r[i] in all && r[i].categoryId == categoryId
    ensures forall i :: 0 <= i < |all| && all[i].categoryId == categoryId ==> all[i] in r
  {
    Filter(all, (p: Professional) => p.categoryId == categoryId)
  }

  /** `GetByCategoryAsync`: every summary is of a professional of that category. */
  function GetByCategory(all: seq<Professional>, categories: seq<Category>, reviews: seq<Review>, categoryId: int): (r: seq<ProfessionalSummary>)
    ensures forall i :: 0 <= i < |r| ==> r[i].categoryId == categoryId
    ensures |r| == |InCategory(all, categoryId)|
    ensures r == ToSummaries(InCategory(all, categoryId), categories, reviews)
  {
    ToSummaries(InCategory(all, categoryId), categories, reviews)
  }

  // ---------------------------------------------------------------------------
  // Profile detail
  // ---------------------------------------------------------------------------

  /** `ReviewSummaryDto`. */
  datatype ReviewSummary = ReviewSummary(
    id: int,
    clientName: string,
    overallRating: real,
    priceRating: int,
    qualityRating: int,
    timeRating: int,
    communicationRating: int,
    professionalismRating: int,
    comment: Option<string>,
    positivePoints: Option<string>,
    negativePoints: Option<string>,
    reviewDate: int,
    serviceTitle: string)

  /** `ProfessionalDetailDto`. */
  datatype ProfessionalDetail = ProfessionalDetail(
    id: int,
    name: string,
    email: string,
    phone: string,
    address: string,
    description: Option<string>,
    categoryId: int,
    categoryName: string,
    categoryIcon: Option<string>,
    createdAt: int,
    isActive: bool,
    averageRating: real,
    totalReviews: nat,
    averagePriceRating: real,
    averageQualityRating: real,
    averageTimeRating: real,
    averageCommunicationRating: real,
    averageProfessionalismRating: real,
    totalServicesCompleted: nat,
    totalServicesPending: nat,
    recentReviews: seq<ReviewSummary>)

  /** Statuses the profile counts as pending: still open, not yet finished. */
  predicate IsOpen(s: ServiceStatus)
  {
    s == Pending || s == InProgress || s == Accepted
  }

  predicate IsClosedUnfinished(s: ServiceStatus)
  {
    s == Rejected || s == Cancelled
  }

  /** How many of the requests are completed. */
  function CountCompleted(requests: seq<ServiceRequest>): (n: nat)
    ensures n <= |requests|
    ensures |requests| == 1 ==> (n == 1 <==> requests[0].status == Completed)
  {
    if requests == [] then 0
    else (if requests[0].status == Completed then 1 else 0) + CountCompleted(requests[1..])
  }

  /** How many of the requests are still open: pending, accepted or in progress. */
  function CountOpen(requests: seq<ServiceRequest>): (n: nat)
    ensures n <= |requests|
    ensures |requests| == 1 ==>
      (n == 1 <==> requests[0].status == Pending || requests[0].status == Accepted || requests[0].status == InProgress)
  {
    if requests == [] then 0
    else (if IsOpen(requests[0].status) then 1 else 0) + CountOpen(requests[1..])
  }

  /** How many of the requests were rejected or cancelled. */
  function CountClosedUnfinished(requests: seq<ServiceRequest>): (n: nat)
    ensures n <= |requests|
    ensures |requests| == 1 ==> (n == 1 <==> requests[0].status == Rejected || requests[0].status == Cancelled)
  {
    if requests == [] then 0
    else (if IsClosedUnfinished(requests[0].status) then 1 else 0) + CountClosedUnfinished(requests[1..])
  }

  /**
   * Every request is counted once: as completed, as pending, or as rejected
   * or cancelled, which the profile counts in neither figure.
   */
  lemma {:induction false} StatusCountsPartition(requests: seq<ServiceRequest>)
    ensures CountCompleted(requests) + CountOpen(requests) + CountClosedUnfinished(requests) == |requests|
  {
    if requests != [] {
      StatusCountsPartition(requests[1..]);
    }
  }

  /** One more request raises exactly the count of its own status. */
  lemma {:induction false} CountsAppend(requests: seq<ServiceRequest>, r: ServiceRequest)
    ensures CountCompleted(requests + [r]) == CountCompleted(requests) + (if r.status == Completed then 1 else 0)
    ensures CountOpen(requests + [r]) == CountOpen(requests) + (if IsOpen(r.status) then 1 else 0)
    ensures CountClosedUnfinished(requests + [r])
            == CountClosedUnfinished(requests) + (if IsClosedUnfinished(r.status) then 1 else 0)
  {
    if requests != [] {
      assert (requests + [r])[1..] == requests[1..] + [r];
      CountsAppend(requests[1..], r);
    } else {
      assert requests + [r] == [r];
    }
  }

  /** A request that is rejected or cancelled raises neither the completed nor the pending figure. */
  lemma ClosedCountsInNeither(requests: seq<ServiceRequest>, r: ServiceRequest)
    requires IsClosedUnfinished(r.status)
    ensures CountCompleted(requests + [r]) == CountCompleted(requests)
    ensures CountOpen(requests + [r]) == CountOpen(requests)
  {
    CountsAppend(requests, r);
  }

  function ReviewCreatedKey(r: Review): Key
  {
    Num(r.createdAt as real)
  }

  /** `OrderByDescending(r => r.CreatedAt)`: newest first, equal dates in store order. */
  function NewestFirst(reviews: seq<Review>): (r: seq<Review>)
    ensures |r| == |reviews| && multiset(r) == multiset(reviews)
    ensures forall i, j :: 0 <= i < j < |r| ==> r[i].createdAt >= r[j].createdAt
  {
    var r := SortBy(reviews, ReviewCreatedKey, true);
    SortOrdered(reviews, ReviewCreatedKey, true);
    forall i, j | 0 <= i < j < |r| ensures r[i].createdAt >= r[j].createdAt {
      assert !Before(ReviewCreatedKey(r[j]), ReviewCreatedKey(r[i]), true);
    }
    r
  }

  /** The (at most) five most recent reviews. */
  function Recent(reviews: seq<Review>): (r: seq<Review>)
    ensures |r| == Min(5, |reviews|)
    ensures forall i :: 0 <= i < |r| ==> r[i] in reviews
    ensures forall i, j :: 0 <= i < j < |r| ==> r[i].createdAt >= r[j].createdAt
  {
    var s := NewestFirst(reviews);
    var r := Take(s, 5);
    forall i | 0 <= i < |r| ensures r[i] in reviews {
      assert r[i] == s[i] && s[i] in multiset(reviews);
    }
    r
  }

  /** No review left out of the recent list is newer than any review on it. */
  lemma RecentAreNewest(reviews: seq<Review>, x: Review)
    requires x in reviews && x !in Recent(reviews)
    ensures forall i :: 0 <= i < |Recent(reviews)| ==> x.createdAt <= Recent(reviews)[i].createdAt
  {
    var s := NewestFirst(reviews);
    var r := Recent(reviews);
    assert x in multiset(s);
    var k :| 0 <= k < |s| && s[k] == x;
    forall i | 0 <= i < |r| ensures x.createdAt <= r[i].createdAt {
      assert r[i] == s[i];
    }
  }

  /**
   * `r.Client?.Name ?? $"Cliente #{r.ClientId}"`: the navigation is set only
   * when the reviewer's client record is already loaded; `loaded` holds the
   * client records loaded at that point.
   */
  function ClientName(r: Review, loaded: seq<Client>): (name: string)
    ensures (forall j :: 0 <= j < |loaded| ==> loaded[j].id != r.clientId) ==> name == "Cliente #" + IntToString(r.clientId)
    ensures forall j ::
      (0 <= j < |loaded| && loaded[j].id == r.clientId
       && forall k :: 0 <= k < j ==> loaded[k].id != r.clientId) ==> name == loaded[j].name
  {
    var c := FirstOrNone(loaded, (c: Client) => c.id == r.clientId);
    if c.Some? then c.value.name else "Cliente #" + IntToString(r.clientId)
  }

  /** Title of the professional's request the review is about, or "" when it is not among them. */
  function ServiceTitle(r: Review, requests: seq<ServiceRequest>): (title: string)
    ensures (forall j :: 0 <= j < |requests| ==> requests[j].id != r.serviceRequestId) ==> title == ""
    ensures forall j ::
      (0 <= j < |requests| && requests[j].id == r.serviceRequestId
       && forall k :: 0 <= k < j ==> requests[k].id != r.serviceRequestId) ==> title == requests[j].title
  {
    var req := FirstOrNone(requests, (s: ServiceRequest) => s.id == r.serviceRequestId);
    if req.Some? then req.value.title else ""
  }

  function Summarize(r: Review, requests: seq<ServiceRequest>, loaded: seq<Client>): (s: ReviewSummary)
    ensures s.id == r.id && s.reviewDate == r.createdAt && s.overallRating == OverallRating(r)
    ensures s.clientName == ClientName(r, loaded) && s.serviceTitle == ServiceTitle(r, requests)
    ensures s.priceRating == r.priceRating && s.qualityRating == r.qualityRating && s.timeRating == r.speedRating
    ensures s.communicationRating == r.communicationRating && s.professionalismRating == r.professionalismRating
    ensures s.comment == r.comment && s.positivePoints == r.positivePoints && s.negativePoints == r.negativePoints
  {
    ReviewSummary(r.id, ClientName(r, loaded), OverallRating(r), r.priceRating, r.qualityRating,
      r.speedRating, r.communicationRating, r.professionalismRating, r.comment, r.positivePoints,
      r.negativePoints, r.createdAt, ServiceTitle(r, requests))
  }

  function SummarizeAll(rs: seq<Review>, requests: seq<ServiceRequest>, loaded: seq<Client>): (s: seq<ReviewSummary>)
    ensures |s| == |rs|
    ensures forall i :: 0 <= i < |rs| ==> s[i] == Summarize(rs[i], requests, loaded)
  {
    if rs == [] then [] else [Summarize(rs[0], requests, loaded)] + SummarizeAll(rs[1..], requests, loaded)
  }

  /**
   * `MapToDetailDto` over the professional's own reviews and requests:
   * averages that are 0 with no reviews, the "Time" average taken from the
   * speed rating, request counts by status, and the recent reviews newest
   * first.
   */
  function ToDetail(p: Professional, category: Option<Category>, reviews: seq<Review>,
                    requests: seq<ServiceRequest>, loaded: seq<Client>): (d: ProfessionalDetail)
    ensures d.id == p.id && d.name == p.name && d.categoryId == p.categoryId
    ensures d.email == p.email && d.phone == p.phone && d.address == p.address
    ensures d.description == p.description && d.createdAt == p.createdAt && d.isActive == p.isActive
    ensures d.categoryName == (if category.Some? then category.value.name else "Categoria")
    ensures d.categoryIcon == (if category.Some? then category.value.icon else None)
    ensures d.totalReviews == |reviews|
    ensures d.averageRating == AverageRating(reviews)
    ensures d.averagePriceRating == CriterionMean(reviews, Price)
    ensures d.averageQualityRating == CriterionMean(reviews, Quality)
    ensures d.averageTimeRating == CriterionMean(reviews, Speed)
    ensures d.averageCommunicationRating == CriterionMean(reviews, Communication)
    ensures d.averageProfessionalismRating == CriterionMean(reviews, Professionalism)
    ensures reviews == [] ==>
      (d.averageRating == 0.0 && d.averagePriceRating == 0.0
       && d.averageQualityRating == 0.0 && d.averageTimeRating == 0.0
       && d.averageCommunicationRating == 0.0 && d.averageProfessionalismRating == 0.0)
    ensures d.totalServicesCompleted == CountCompleted(requests)
    ensures d.totalServicesPending == CountOpen(requests)
    ensures d.totalServicesCompleted + d.totalServicesPending <= |requests|
    ensures d.recentReviews == SummarizeAll(Recent(reviews), requests, loaded)
    ensures |d.recentReviews| == Min(5, |reviews|)
    ensures forall i, j :: 0 <= i < j < |d.recentReviews| ==> d.recentReviews[i].reviewDate >= d.recentReviews[j].reviewDate
  {
    StatusCountsPartition(requests);
    var recent := Recent(reviews);
    ProfessionalDetail(p.id, p.name, p.email, p.phone, p.address, p.description, p.categoryId,
      if category.Some? then category.value.name else "Categoria",
      if category.Some? then category.value.icon else None,
      p.createdAt, p.isActive,
      AverageRating(reviews), |reviews|,
      CriterionMean(reviews, Price), CriterionMean(reviews, Quality), CriterionMean(reviews, Speed),
      CriterionMean(reviews, Communication), CriterionMean(reviews, Professionalism),
      CountCompleted(requests), CountOpen(requests),
      SummarizeAll(recent, requests, loaded))
  }

  /** The requests addressed to one professional (`FindAsync(s => s.ProfessionalId == id)`). */
  function RequestsOf(all: seq<ServiceRequest>, professionalId: int): (r: seq<ServiceRequest>)
    ensures forall i :: 0 <= i < |r| ==> r[i].professionalId == professionalId && r[i] in all
    ensures forall i :: 0 <= i < |all| && all[i].professionalId == professionalId ==> all[i] in r
  {
    Filter(all, (s: ServiceRequest) => s.professionalId == professionalId)
  }

  /**
   * `GetDetailAsync`: `None` for an unknown id; otherwise the detail of the
   * professional with that id, computed over its own reviews and requests.
   */
  function GetDetail(professionals: seq<Professional>, categories: seq<Category>, reviews: seq<Review>,
                     requests: seq<ServiceRequest>, loaded: seq<Client>, id: int): (r: Option<ProfessionalDetail>)
    ensures r.None? <==> forall j :: 0 <= j < |professionals| ==> professionals[j].id != id
    ensures r.Some? ==> r.value.id == id
    ensures r.Some? ==> r.value.totalReviews == |ReviewsOf(reviews, id)|
    ensures r.Some? ==> r.value.totalServicesCompleted + r.value.totalServicesPending <= |RequestsOf(requests, id)|
    ensures r.Some? ==> exists p: Professional, c: Option<Category> ::
      p in professionals && p.id == id
      && (c.None? <==> forall k :: 0 <= k < |categories| ==> categories[k].id != p.categoryId)
      && (c.Some? ==> c.value in categories && c.value.id == p.categoryId)
      && r.value == ToDetail(p, c, ReviewsOf(reviews, id), RequestsOf(requests, id), loaded)
  {
    var p := FirstOrNone(professionals, (x: Professional) => x.id == id);
    if p.None? then None
    else
      var category := FirstOrNone(categories, (c: Category) => c.id == p.value.categoryId);
      var d := ToDetail(p.value, category, ReviewsOf(reviews, p.value.id), RequestsOf(requests, id), loaded);
      assert p.value in professionals && p.value.id == id;
      Some(d)
  }
}
