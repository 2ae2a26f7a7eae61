/**
 * `ReviewService`: creating, editing and deleting reviews, looking them up by
 * service request or professional, and a professional's average rating and
 * per-criterion breakdown.
 *
 * The review table is a sequence in storage order, so that `FirstOrDefault`
 * and `Where` read it in a defined order. The database's unique index on
 * `ServiceRequestId` is part of the store's invariant.
 */
module Reviews {
  import opened Common
  import opened Domain

  datatype ReviewError =
    | RequestNotFound(serviceRequestId: int)
      /** "A review already exists for this service request". */
    | ReviewExists(serviceRequestId: int)
    | ReviewNotFound(id: int)

  datatype CreateReviewDto = CreateReviewDto(
    clientId: int,
    professionalId: int,
    serviceRequestId: int,
    priceRating: int,
    qualityRating: int,
    speedRating: int,
    communicationRating: int,
    professionalismRating: int,
    comment: Option<string>,
    positivePoints: Option<string>,
    negativePoints: Option<string>)

  datatype UpdateReviewDto = UpdateReviewDto(
    id: int,
    priceRating: int,
    qualityRating: int,
    speedRating: int,
    communicationRating: int,
    professionalismRating: int,
    comment: Option<string>,
    positivePoints: Option<string>,
    negativePoints: Option<string>)

  /**
   * The review `CreateAsync` adds: every field copied verbatim, active. The
   * ratings are not range-checked and the request's status is not consulted.
   */
  function NewReview(id: int, dto: CreateReviewDto, now: int): (r: Review)
    ensures r.id == id && r.isActive && r.createdAt == now && r.updatedAt.None?
    ensures r.clientId == dto.clientId && r.professionalId == dto.professionalId
    ensures r.serviceRequestId == dto.serviceRequestId
    ensures Ratings(r) == [dto.priceRating, dto.qualityRating, dto.speedRating, dto.communicationRating,
                           dto.professionalismRating]
    ensures r.comment == dto.comment && r.positivePoints == dto.positivePoints
    ensures r.negativePoints == dto.negativePoints
  {
    Review(id, dto.clientId, dto.professionalId, dto.serviceRequestId, dto.priceRating, dto.qualityRating,
      dto.speedRating, dto.communicationRating, dto.professionalismRating, dto.comment, dto.positivePoints,
      dto.negativePoints, now, None, true)
  }

  /** `UpdateAsync`'s assignments: ratings and texts replaced, ids and creation date kept. */
  function ApplyReviewUpdate(r: Review, dto: UpdateReviewDto, now: int): (u: Review)
    ensures Ratings(u) == [dto.priceRating, dto.qualityRating, dto.speedRating, dto.communicationRating,
                           dto.professionalismRating]
    ensures u.comment == dto.comment && u.positivePoints == dto.positivePoints
    ensures u.negativePoints == dto.negativePoints && u.updatedAt == Some(now)
    ensures u.id == r.id && u.clientId == r.clientId && u.professionalId == r.professionalId
    ensures u.serviceRequestId == r.serviceRequestId && u.createdAt == r.createdAt && u.isActive == r.isActive
  {
    r.(priceRating := dto.priceRating, qualityRating := dto.qualityRating, speedRating := dto.speedRating,
       communicationRating := dto.communicationRating, professionalismRating := dto.professionalismRating,
       comment := dto.comment, positivePoints := dto.positivePoints, negativePoints := dto.negativePoints,
       updatedAt := Some(now))
  }

  /** `GetByServiceRequestIdAsync`: the first review for that request, or none. */
  function FindByServiceRequest(reviews: seq<Review>, serviceRequestId: int): (r: Option<Review>)
    ensures r.None? <==> forall i :: 0 <= i < |reviews| ==> reviews[i].serviceRequestId != serviceRequestId
    ensures r.Some? ==> r.value in reviews && r.value.serviceRequestId == serviceRequestId
  {
    FirstOrNone(reviews, (x: Review) => x.serviceRequestId == serviceRequestId)
  }

  /** Position of the review with primary key `id` (`GetByIdAsync`). */
  function IndexOfId(reviews: seq<Review>, id: int): (r: Option<nat>)
    ensures r.Some? ==> r.value < |reviews| && reviews[r.value].id == id
    ensures r.None? <==> forall i :: 0 <= i < |reviews| ==> reviews[i].id != id
  {
    FirstIndex(reviews, (x: Review) => x.id == id)
  }

  /** `GetAverageRatingAsync`: 0.0 without reviews, else the mean overall rating of that professional's reviews. */
  function AverageFor(reviews: seq<Review>, professionalId: int): (a: real)
    ensures (forall i :: 0 <= i < |reviews| ==> reviews[i].professionalId != professionalId) ==> a == 0.0
    ensures var mine := ReviewsOf(reviews, professionalId);
      mine != [] ==> a * (|mine| as real) == SumReal(Overalls(mine))
  {
    var mine := ReviewsOf(reviews, professionalId);
    assert mine != [] ==> mine[0] in reviews;
    AverageRating(mine)
  }

  /** Other professionals' reviews do not move a professional's average. */
  lemma {:induction false} AverageIgnoresOthers(reviews: seq<Review>, other: Review, professionalId: int)
    requires other.professionalId != professionalId
    ensures AverageFor(reviews + [other], professionalId) == AverageFor(reviews, professionalId)
  {
    FilterAppend(reviews, [other], (x: Review) => x.professionalId == professionalId);
    assert Filter([other], (x: Review) => x.professionalId == professionalId) == [];
    assert ReviewsOf(reviews + [other], professionalId) == ReviewsOf(reviews, professionalId);
  }

  /**
   * `GetRatingBreakdownAsync`: always exactly the five criterion keys; each
   * value the criterion's mean over the professional's reviews, or 0.0
   * without reviews.
   */
  function Breakdown(reviews: seq<Review>, professionalId: int): (m: map<string, real>)
    ensures m.Keys == {"Price", "Quality", "Speed", "Communication", "Professionalism"}
    ensures m["Price"] == CriterionMean(ReviewsOf(reviews, professionalId), Price)
    ensures m["Quality"] == CriterionMean(ReviewsOf(reviews, professionalId), Quality)
    ensures m["Speed"] == CriterionMean(ReviewsOf(reviews, professionalId), Speed)
    ensures m["Communication"] == CriterionMean(ReviewsOf(reviews, professionalId), Communication)
    ensures m["Professionalism"] == CriterionMean(ReviewsOf(reviews, professionalId), Professionalism)
  {
    var mine := ReviewsOf(reviews, professionalId);
    map[
      "Price" := CriterionMean(mine, Price),
      "Quality" := CriterionMean(mine, Quality),
      "Speed" := CriterionMean(mine, Speed),
      "Communication" := CriterionMean(mine, Communication),
      "Professionalism" := CriterionMean(mine, Professionalism)]
  }

  /** A professional without reviews gets 0.0 for every criterion. */
  lemma BreakdownWithoutReviews(reviews: seq<Review>, professionalId: int)
    requires forall i :: 0 <= i < |reviews| ==> reviews[i].professionalId != professionalId
    ensures var m := Breakdown(reviews, professionalId);
      forall k :: k in m ==> m[k] == 0.0
  {
  }

  /** The average rating equals the mean of the five breakdown values. */
  lemma BreakdownAgreesWithAverage(reviews: seq<Review>, professionalId: int)
    ensures var m := Breakdown(reviews, professionalId);
      AverageFor(reviews, professionalId)
        == (m["Price"] + m["Quality"] + m["Speed"] + m["Communication"] + m["Professionalism"]) / 5.0
  {
    var m := Breakdown(reviews, professionalId);
    AverageIsMeanOfCriterionMeans(ReviewsOf(reviews, professionalId));
  }

  /** At most one review per service request: the unique index on `ServiceRequestId`. */
  predicate OnePerRequest(reviews: seq<Review>)
  {
    forall i, j :: 0 <= i < j < |reviews| ==> reviews[i].serviceRequestId != reviews[j].serviceRequestId
  }

  predicate UniqueIds(reviews: seq<Review>)
  {
    forall i, j :: 0 <= i < j < |reviews| ==> reviews[i].id != reviews[j].id
  }

  class ReviewStore {
    var reviews: seq<Review>
    var nextId: int

    ghost predicate Valid()
      reads this
    {
      UniqueIds(reviews) && OnePerRequest(reviews)
      && forall i :: 0 <= i < |reviews| ==> reviews[i].id < nextId
    }

    constructor ()
      ensures Valid() && reviews == []
    {
      reviews := [];
      nextId := 1;
    }

    /**
     * `CreateAsync`: the request must exist and have no review yet; the new
     * review is appended with the next id.
     */
    method Create(requestIds: set<int>, dto: CreateReviewDto, now: int) returns (res: Result<Review, ReviewError>)
      requires Valid()
      modifies this
      ensures Valid()
      ensures dto.serviceRequestId !in requestIds ==>
        res == Failure(RequestNotFound(dto.serviceRequestId)) && reviews == old(reviews)
      ensures dto.serviceRequestId in requestIds && FindByServiceRequest(old(reviews), dto.serviceRequestId).Some? ==>
        res == Failure(ReviewExists(dto.serviceRequestId)) && reviews == old(reviews)
      ensures dto.serviceRequestId in requestIds && FindByServiceRequest(old(reviews), dto.serviceRequestId).None? ==>
        res == Success(NewReview(old(nextId), dto, now)) && reviews == old(reviews) + [res.value]
      ensures res.Success? ==> FindByServiceRequest(reviews, dto.serviceRequestId) == Some(res.value)
    {
      if dto.serviceRequestId !in requestIds {
        return Failure(RequestNotFound(dto.serviceRequestId));
      }
      var existing := FindByServiceRequest(reviews, dto.serviceRequestId);
      if existing.Some? {
        return Failure(ReviewExists(dto.serviceRequestId));
      }
      var r := NewReview(nextId, dto, now);
      FoundAfterAppend(reviews, r);
      reviews := reviews + [r];
      nextId := nextId + 1;
      res := Success(r);
    }

    /** `UpdateAsync`: replace the ratings and texts of an existing review. */
    method Update(dto: UpdateReviewDto, now: int) returns (res: Result<Review, ReviewError>)
      requires Valid()
      modifies this
      ensures Valid() && nextId == old(nextId)
      ensures IndexOfId(old(reviews), dto.id).None? ==>
        res == Failure(ReviewNotFound(dto.id)) && reviews == old(reviews)
      ensures IndexOfId(old(reviews), dto.id).Some? ==>
        var i := IndexOfId(old(reviews), dto.id).value;
        res == Success(ApplyReviewUpdate(old(reviews)[i], dto, now)) && reviews == old(reviews)[i := res.value]
    {
      var k := IndexOfId(reviews, dto.id);
      if k.None? {
        return Failure(ReviewNotFound(dto.id));
      }
      var u := ApplyReviewUpdate(reviews[k.value], dto, now);
      reviews := reviews[k.value := u];
      res := Success(u);
    }

    /** `DeleteAsync`: false and nothing removed for an unknown id, else that review removed. */
    method Delete(id: int) returns (deleted: bool)
      requires Valid()
      modifies this
      ensures Valid() && nextId == old(nextId)
      ensures deleted <==> IndexOfId(old(reviews), id).Some?
      ensures !deleted ==> reviews == old(reviews)
      ensures deleted ==>
        var i := IndexOfId(old(reviews), id).value;
        reviews == old(reviews)[..i] + old(reviews)[i + 1..]
      ensures forall i :: 0 <= i < |reviews| ==> reviews[i].id != id
    {
      var k := IndexOfId(reviews, id);
      if k.None? {
        return false;
      }
      var i := k.value;
      ghost var before := reviews;
      reviews := reviews[..i] + reviews[i + 1..];
      forall a, b | 0 <= a < b < |reviews|
        ensures reviews[a].serviceRequestId != reviews[b].serviceRequestId && reviews[a].id != reviews[b].id
      {
        var a', b' := if a < i then a else a + 1, if b < i then b else b + 1;
        assert reviews[a] == before[a'] && reviews[b] == before[b'];
      }
      forall j | 0 <= j < |reviews| ensures reviews[j].id != id && reviews[j].id < nextId {
        var j' := if j < i then j else j + 1;
        assert reviews[j] == before[j'];
      }
      deleted := true;
    }
  }

  /** A review appended for a request with no review is the one found for that request. */
  lemma FoundAfterAppend(reviews: seq<Review>, r: Review)
    requires FindByServiceRequest(reviews, r.serviceRequestId).None?
    ensures FindByServiceRequest(reviews + [r], r.serviceRequestId) == Some(r)
    ensures OnePerRequest(reviews) ==> OnePerRequest(reviews + [r])
  {
    var s := reviews + [r];
    var f := (x: Review) => x.serviceRequestId == r.serviceRequestId;
    assert forall j :: 0 <= j < |reviews| ==> !f(s[j]);
    assert f(s[|reviews|]);
  }
}
