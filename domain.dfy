/**
 * The marketplace's entities: service requests and their status, reviews
 * with their five criteria, professionals, clients and categories, and the
 * computed properties the entities expose (a review's overall rating, a
 * professional's average rating and review count).
 *
 * Dates are instants on an abstract integer clock; `decimal` amounts are reals.
 */
module Domain {
  import opened Common

  /** The lifecycle states of a service request, in the order of their numeric codes. */
  datatype ServiceStatus = Pending | Accepted | Rejected | InProgress | Completed | Cancelled

  /** The enum's numeric value, which is also what the API sends as JSON. */
  function StatusCode(s: ServiceStatus): int
  {
    match s
    case Pending => 0
    case Accepted => 1
    case Rejected => 2
    case InProgress => 3
    case Completed => 4
    case Cancelled => 5
  }

  /** The status a numeric code denotes; only 0..5 denote one. */
  function StatusOfCode(c: int): (r: Option<ServiceStatus>)
    ensures r.Some? <==> 0 <= c <= 5
    ensures r.Some? ==> StatusCode(r.value) == c
  {
    if c == 0 then Some(Pending)
    else if c == 1 then Some(Accepted)
    else if c == 2 then Some(Rejected)
    else if c == 3 then Some(InProgress)
    else if c == 4 then Some(Completed)
    else if c == 5 then Some(Cancelled)
    else None
  }

  /** Every status has a distinct code in 0..5 that reads back as that status. */
  lemma StatusCodeRoundTrip(s: ServiceStatus)
    ensures 0 <= StatusCode(s) <= 5
    ensures StatusOfCode(StatusCode(s)) == Some(s)
  {
  }

  datatype ServiceRequest = ServiceRequest(
    id: int,
    clientId: int,
    professionalId: int,
    title: string,
    description: Option<string>,
    serviceAddress: Option<string>,
    scheduledDate: Option<int>,
    proposedValue: Option<real>,
    status: ServiceStatus,
    observations: Option<string>,
    verificationCode: Option<string>,
    completionDate: Option<int>,
    createdAt: int,
    updatedAt: Option<int>,
    isActive: bool)

  datatype Review = Review(
    id: int,
    clientId: int,
    professionalId: int,
    serviceRequestId: int,
    priceRating: int,
    qualityRating: int,
    speedRating: int,
    communicationRating: int,
    professionalismRating: int,
    comment: Option<string>,
    positivePoints: Option<string>,
    negativePoints: Option<string>,
    createdAt: int,
    updatedAt: Option<int>,
    isActive: bool)

  datatype Professional = Professional(
    id: int,
    name: string,
    email: string,
    phone: string,
    address: string,
    description: Option<string>,
    categoryId: int,
    createdAt: int,
    isActive: bool)

  datatype Client = Client(
    id: int,
    name: string,
    email: string,
    phone: string,
    address: Option<string>,
    age: Option<int>,
    createdAt: int,
    updatedAt: Option<int>,
    isActive: bool)

  datatype Category = Category(id: int, name: string, icon: Option<string>)

  /** The five rating criteria of a review. */
  datatype Criterion = Price | Quality | Speed | Communication | Professionalism

  function RatingOf(r: Review, c: Criterion): int
  {
    match c
    case Price => r.priceRating
    case Quality => r.qualityRating
    case Speed => r.speedRating
    case Communication => r.communicationRating
    case Professionalism => r.professionalismRating
  }

  /** The five ratings in declaration order. */
  function Ratings(r: Review): seq<int>
  {
    [r.priceRating, r.qualityRating, r.speedRating, r.communicationRating, r.professionalismRating]
  }

  /** Each rating within its declared range of 1 to 5 stars (declared, not enforced by the services). */
  predicate RatingsInRange(r: Review)
  {
    forall c: Criterion :: 1 <= RatingOf(r, c) <= 5
  }

  /** `Review.OverallRating`: the five ratings summed and divided by 5.0, with no rounding. */
  function OverallRating(r: Review): (o: real)
    ensures RatingsInRange(r) ==> 1.0 <= o <= 5.0
  {
    assert RatingsInRange(r) ==>
      (1 <= RatingOf(r, Price) <= 5 && 1 <= RatingOf(r, Quality) <= 5 && 1 <= RatingOf(r, Speed) <= 5
       && 1 <= RatingOf(r, Communication) <= 5 && 1 <= RatingOf(r, Professionalism) <= 5);
    (r.priceRating + r.qualityRating + r.speedRating + r.communicationRating + r.professionalismRating) as real / 5.0
  }

  /** The overall rating is the arithmetic mean of the five ratings. */
  lemma OverallIsMeanOfRatings(r: Review)
    ensures OverallRating(r) == Mean(AsReals(Ratings(r)))
  {
    var s := Ratings(r);
    SumAsReals(s);
    var s1, s2, s3, s4 := s[1..], s[2..], s[3..], s[4..];
    assert s1[1..] == s2 && s2[1..] == s3 && s3[1..] == s4 && s4[1..] == [];
    assert Sum(s4) == r.professionalismRating;
    assert Sum(s3) == r.communicationRating + Sum(s4);
    assert Sum(s2) == r.speedRating + Sum(s3);
    assert Sum(s1) == r.qualityRating + Sum(s2);
    assert Sum(s) == r.priceRating + Sum(s1);
  }

  /** Ratings 5, 4, 3, 2 and 1 give an overall rating of exactly 3. */
  lemma OverallRatingExample(r: Review)
    requires Ratings(r) == [5, 4, 3, 2, 1]
    ensures OverallRating(r) == 3.0
  {
    assert r.priceRating == Ratings(r)[0];
    assert r.qualityRating == Ratings(r)[1];
    assert r.speedRating == Ratings(r)[2];
    assert r.communicationRating == Ratings(r)[3];
    assert r.professionalismRating == Ratings(r)[4];
  }

  /** Ids, texts, dates and flags play no part in the overall rating. */
  lemma OverallRatingDependsOnlyOnRatings(a: Review, b: Review)
    requires Ratings(a) == Ratings(b)
    ensures OverallRating(a) == OverallRating(b)
  {
    assert a.priceRating == Ratings(a)[0] == Ratings(b)[0] == b.priceRating;
    assert a.qualityRating == Ratings(a)[1] == Ratings(b)[1] == b.qualityRating;
    assert a.speedRating == Ratings(a)[2] == Ratings(b)[2] == b.speedRating;
    assert a.communicationRating == Ratings(a)[3] == Ratings(b)[3] == b.communicationRating;
    assert a.professionalismRating == Ratings(a)[4] == Ratings(b)[4] == b.professionalismRating;
  }

  /** The reviews of one professional, in store order (`Where(r => r.ProfessionalId == id)`). */
  function ReviewsOf(all: seq<Review>, professionalId: int): (r: seq<Review>)
    ensures forall i :: 0 <= i < |r| ==> r[i].professionalId == professionalId && r[i] in all
    ensures forall i :: 0 <= i < |all| && all[i].professionalId == professionalId ==> all[i] in r
  {
    Filter(all, (x: Review) => x.professionalId == professionalId)
  }

  function Overalls(rs: seq<Review>): (o: seq<real>)
    ensures |o| == |rs| && forall i :: 0 <= i < |rs| ==> o[i] == OverallRating(rs[i])
  {
    if rs == [] then [] else [OverallRating(rs[0])] + Overalls(rs[1..])
  }

  function CriterionValues(rs: seq<Review>, c: Criterion): (v: seq<int>)
    ensures |v| == |rs| && forall i :: 0 <= i < |rs| ==> v[i] == RatingOf(rs[i], c)
  {
    if rs == [] then [] else [RatingOf(rs[0], c)] + CriterionValues(rs[1..], c)
  }

  predicate AllInRange(rs: seq<Review>)
  {
    forall i :: 0 <= i < |rs| ==> RatingsInRange(rs[i])
  }

  /**
   * `Professional.AverageRating` over the professional's reviews: 0 with no
   * reviews, otherwise the mean overall rating.
   */
  function AverageRating(rs: seq<Review>): (a: real)
    ensures rs == [] ==> a == 0.0
    ensures rs != [] ==> a * (|rs| as real) == SumReal(Overalls(rs))
  {
    if rs == [] then 0.0 else Mean(Overalls(rs))
  }

  /** With every rating in its declared range, a professional with reviews averages between 1 and 5. */
  lemma AverageRatingBounds(rs: seq<Review>)
    requires rs != [] && AllInRange(rs)
    ensures 1.0 <= AverageRating(rs) <= 5.0
  {
    MeanBounds(Overalls(rs), 1.0, 5.0);
  }

  /** Mean of one criterion over reviews, 0 when there are none. */
  function CriterionMean(rs: seq<Review>, c: Criterion): (m: real)
    ensures rs == [] ==> m == 0.0
    ensures rs != [] ==> m * (|rs| as real) == CriterionTotal(rs, c)
  {
    if rs == [] then 0.0 else Mean(AsReals(CriterionValues(rs, c)))
  }

  /** With every rating in its declared range, each criterion mean over some reviews lies in [1, 5]. */
  lemma CriterionMeanBounds(rs: seq<Review>, c: Criterion)
    requires rs != [] && AllInRange(rs)
    ensures 1.0 <= CriterionMean(rs, c) <= 5.0
  {
    var v := AsReals(CriterionValues(rs, c));
    assert forall i :: 0 <= i < |v| ==> 1.0 <= v[i] <= 5.0 by {
      forall i | 0 <= i < |v| ensures 1.0 <= v[i] <= 5.0 {
        assert RatingsInRange(rs[i]);
        assert 1 <= RatingOf(rs[i], c) <= 5;
      }
    }
    MeanBounds(v, 1.0, 5.0);
  }

  function CriterionTotal(rs: seq<Review>, c: Criterion): real
  {
    SumReal(AsReals(CriterionValues(rs, c)))
  }

  /** Five times the summed overall ratings is the sum of the five criterion totals. */
  lemma {:induction false} OverallTotal(rs: seq<Review>)
    ensures 5.0 * SumReal(Overalls(rs)) ==
      CriterionTotal(rs, Price) + CriterionTotal(rs, Quality) + CriterionTotal(rs, Speed)
      + CriterionTotal(rs, Communication) + CriterionTotal(rs, Professionalism)
  {
    if rs != [] {
      OverallTotal(rs[1..]);
      assert Overalls(rs)[1..] == Overalls(rs[1..]);
      forall c: Criterion
        ensures CriterionTotal(rs, c) == RatingOf(rs[0], c) as real + CriterionTotal(rs[1..], c)
      {
        assert CriterionValues(rs, c)[1..] == CriterionValues(rs[1..], c);
        assert AsReals(CriterionValues(rs, c))[1..] == AsReals(CriterionValues(rs[1..], c));
      }
    }
  }

  /**
   * Averaging is linear: a professional's average rating is the mean of the
   * five per-criterion means.
   */
  lemma AverageIsMeanOfCriterionMeans(rs: seq<Review>)
    ensures AverageRating(rs) ==
      (CriterionMean(rs, Price) + CriterionMean(rs, Quality) + CriterionMean(rs, Speed)
       + CriterionMean(rs, Communication) + CriterionMean(rs, Professionalism)) / 5.0
  {
    if rs != [] {
      OverallTotal(rs);
      DivideSum(|rs| as real, SumReal(Overalls(rs)), CriterionTotal(rs, Price), CriterionTotal(rs, Quality),
        CriterionTotal(rs, Speed), CriterionTotal(rs, Communication), CriterionTotal(rs, Professionalism));
    }
  }

  lemma DivideSum(n: real, total: real, a: real, b: real, c: real, d: real, e: real)
    requires n > 0.0 && 5.0 * total == a + b + c + d + e
    ensures total / n == (a / n + b / n + c / n + d / n + e / n) / 5.0
  {
    var m := a / n + b / n + c / n + d / n + e / n;
    assert m * n == a + b + c + d + e;
    assert (total / n) * n == total;
    assert (5.0 * (total / n) - m) * n == 0.0;
  }

  /** `Professional.TotalReviews`: how many reviews name the professional. */
  function TotalReviews(p: Professional, all: seq<Review>): (n: nat)
    ensures n <= |all|
    ensures n == 0 <==> forall i :: 0 <= i < |all| ==> all[i].professionalId != p.id
  {
    var rs := ReviewsOf(all, p.id);
    assert rs != [] ==> rs[0] in all;
    |rs|
  }

  /** Storing one more review counts it for the professional exactly when it names them. */
  lemma TotalReviewsAppend(p: Professional, all: seq<Review>, r: Review)
    ensures TotalReviews(p, all + [r]) == TotalReviews(p, all) + (if r.professionalId == p.id then 1 else 0)
  {
    FilterAppend(all, [r], (x: Review) => x.professionalId == p.id);
    assert [r][1..] == [];
  }

  /**
   * `Professional.AverageRating`: 0 without reviews, otherwise the mean
   * overall rating of the reviews that name the professional.
   */
  function ProfessionalAverageRating(p: Professional, all: seq<Review>): (a: real)
    ensures TotalReviews(p, all) == 0 ==> a == 0.0
    ensures TotalReviews(p, all) > 0 ==> a == Mean(Overalls(ReviewsOf(all, p.id)))
  {
    AverageRating(ReviewsOf(all, p.id))
  }

  /** With ratings in range, a reviewed professional's average lies in [1, 5]. */
  lemma ProfessionalAverageBounds(p: Professional, all: seq<Review>)
    requires AllInRange(all) && TotalReviews(p, all) > 0
    ensures 1.0 <= ProfessionalAverageRating(p, all) <= 5.0
  {
    AverageRatingBounds(ReviewsOf(all, p.id));
  }
}
