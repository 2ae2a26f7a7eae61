/**
 * The profile page (`professionalDetail.js`): the reviews it keeps after
 * loading, which of them the rating and criterion filters let through, and
 * whether the signed-in user is looking at their own profile. The averages
 * it shows and the description cleaner are those of `WebReviews`.
 */
module ProfessionalDetailPage {
  import opened Common
  import opened Text
  import opened WebReviews

  /** At most this many reviews are listed. */
  const MaxShown := 10

  /** A review's overall rating, a missing one read as 0. */
  function Overall(r: ReviewJson): real
  {
    if r.overallRating.Some? then r.overallRating.value else 0.0
  }

  /**
   * The filter in `renderReviews`. The minimum is `parseFloat` of the rating
   * filter (`None` when it does not parse, which excludes nothing); an empty
   * criterion key selects no criterion; a key naming no criterion reads as 0.
   */
  function ReviewShown(r: ReviewJson, minRating: Option<real>, criterion: string): (b: bool)
    ensures minRating.None? && criterion == "" ==> b
    ensures minRating.Some? && Overall(r) < minRating.value ==> !b
    ensures criterion == "" ==> (b <==> minRating.None? || Overall(r) >= minRating.value)
    ensures b && criterion == "time" ==> r.speedRating.Some? && r.speedRating.value >= 4
    ensures b && criterion == "quality" ==> r.qualityRating.Some? && r.qualityRating.value >= 4
    ensures (criterion != "" && criterion != "quality" && criterion != "time"
             && criterion != "communication" && criterion != "professionalism") ==> !b
    ensures b <==> (minRating.None? || Overall(r) >= minRating.value)
                   && (criterion == "" || exists c :: CriterionName(c) == criterion && PageRating(r, c) >= 4)
  {
    (minRating.None? || Overall(r) >= minRating.value)
    && (criterion == "" || (CriterionOfName(criterion).Some? && PageRating(r, CriterionOfName(criterion).value) >= 4))
  }

  /** The reviews that pass the filter, in list order. */
  function Passing(rs: seq<ReviewJson>, minRating: Option<real>, criterion: string): (r: seq<ReviewJson>)
    ensures forall i :: 0 <= i < |r| ==> r[i] in rs && ReviewShown(r[i], minRating, criterion)
    ensures forall i :: 0 <= i < |rs| && ReviewShown(rs[i], minRating, criterion) ==> rs[i] in r
  {
    Filter(rs, r => ReviewShown(r, minRating, criterion))
  }

  /** The reviews listed: the first ten that pass the filter, in list order. */
  function ShownReviews(rs: seq<ReviewJson>, minRating: Option<real>, criterion: string): (shown: seq<ReviewJson>)
    ensures shown <= Passing(rs, minRating, criterion)
    ensures |shown| == Min(MaxShown, |Passing(rs, minRating, criterion)|)
    ensures |shown| <= MaxShown
    ensures forall i :: 0 <= i < |shown| ==> shown[i] in rs && ReviewShown(shown[i], minRating, criterion)
    ensures |shown| < MaxShown ==>
      forall i :: 0 <= i < |rs| && ReviewShown(rs[i], minRating, criterion) ==> rs[i] in shown
  {
    var passing := Passing(rs, minRating, criterion);
    Take(passing, MaxShown)
  }

  /** With no criterion and a zero minimum, the first ten reviews with a non-negative rating are listed as they are. */
  lemma UnfilteredShowsFirstTen(rs: seq<ReviewJson>)
    requires forall i :: 0 <= i < |rs| ==> Overall(rs[i]) >= 0.0
    ensures ShownReviews(rs, Some(0.0), "") == Take(rs, MaxShown)
  {
    FilterAll(rs, r => ReviewShown(r, Some(0.0), ""));
  }

  /** Raising the minimum never lists a review the lower minimum hid. */
  lemma HigherMinimumShowsFewer(r: ReviewJson, lo: real, hi: real, criterion: string)
    requires lo <= hi && ReviewShown(r, Some(hi), criterion)
    ensures ReviewShown(r, Some(lo), criterion)
  {
  }

  /**
   * `isOwnProfile`: both e-mail addresses present and non-empty, and equal
   * once lower-cased.
   */
  function IsOwnProfile(userEmail: Option<string>, profileEmail: Option<string>): (b: bool)
    ensures b ==> userEmail.Some? && profileEmail.Some? && userEmail.value != "" && profileEmail.value != ""
    ensures b ==> |userEmail.value| == |profileEmail.value|
    ensures userEmail.Some? && profileEmail.Some? && userEmail.value != "" && userEmail.value == profileEmail.value ==> b
    ensures b <==> userEmail.Some? && profileEmail.Some? && userEmail.value != "" && profileEmail.value != ""
                   && Lower(userEmail.value) == Lower(profileEmail.value)
  {
    userEmail.Some? && userEmail.value != "" && profileEmail.Some? && profileEmail.value != ""
    && EqualsIgnoreCase(userEmail.value, profileEmail.value)
  }

  /** The check is symmetric and blind to the case in which the user's address was typed. */
  lemma OwnProfileIgnoresCase(userEmail: string, profileEmail: string)
    ensures IsOwnProfile(Some(Upper(userEmail)), Some(profileEmail)) == IsOwnProfile(Some(userEmail), Some(profileEmail))
    ensures IsOwnProfile(Some(userEmail), Some(profileEmail)) == IsOwnProfile(Some(profileEmail), Some(userEmail))
  {
    LowerOfUpper(userEmail);
  }

  /** The page's `state.reviews`. */
  class DetailState {
    var reviews: seq<ReviewJson>

    constructor ()
      ensures reviews == []
    {
      reviews := [];
    }

    /** `loadDetail`: the fetched list when the response is an array, otherwise no reviews. */
    method Load(response: Option<seq<ReviewJson>>)
      modifies this
      ensures reviews == if response.Some? then response.value else []
      ensures response.None? ==> DisplayedAverage(reviews) == 0.0 && PopulateCriteria(reviews) == Zeros
    {
      reviews := if response.Some? then response.value else [];
    }
  }
}
