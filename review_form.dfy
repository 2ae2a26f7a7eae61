/**
 * The review form and the administrators' review list (`reviewForm.js`):
 * the range inputs of the form, the guard on its submission, the list's
 * status and rating filter, and the removal of an archived review.
 */
module ReviewFormPage {
  import opened Common
  import opened Reviews
  import opened WebReviews

  // ---------------------------------------------------------------------------
  // Review form
  // ---------------------------------------------------------------------------

  /** An `<input type="range">`: its bounds, step and initial value. */
  datatype RangeInput = RangeInput(name: string, min: int, max: int, step: int, value: int)

  /** A value the browser lets the slider take. */
  predicate Accepts(r: RangeInput, v: int)
  {
    r.step > 0 && r.min <= v <= r.max && (v - r.min) % r.step == 0
  }

  /** `criteriaInput`: a slider over the integers 1 to 5 starting at 5. */
  function CriteriaInput(name: string): (r: RangeInput)
    ensures r.name == name
    ensures Accepts(r, r.value)
    ensures forall v :: Accepts(r, v) <==> 1 <= v <= 5
    ensures forall v :: Accepts(r, v) ==> v <= r.value
  {
    RangeInput(name, 1, 5, 1, 5)
  }

  /**
   * `handleSubmit`: `Number(...)` of the two identifier fields (`None` when
   * not a number). Nothing is posted when either is 0 or not a number;
   * otherwise the review with the five slider values and the texts, an empty
   * text sent as null.
   */
  function SubmitPayload(clientId: int, professionalId: Option<int>, serviceRequestId: Option<int>,
                         price: int, quality: int, speed: int, communication: int, professionalism: int,
                         comment: string, positivePoints: string, negativePoints: string)
    : (dto: Option<CreateReviewDto>)
    ensures dto.None? <==>
      (professionalId.None? || professionalId.value == 0 || serviceRequestId.None? || serviceRequestId.value == 0)
    ensures dto.Some? ==>
      (dto.value.clientId == clientId && dto.value.professionalId == professionalId.value
       && dto.value.serviceRequestId == serviceRequestId.value)
    ensures dto.Some? ==>
      (dto.value.priceRating == price && dto.value.qualityRating == quality && dto.value.speedRating == speed
       && dto.value.communicationRating == communication && dto.value.professionalismRating == professionalism)
    ensures dto.Some? ==> (dto.value.comment.None? <==> comment == "")
    ensures dto.Some? && comment != "" ==> dto.value.comment == Some(comment)
    ensures dto.Some? ==> (dto.value.positivePoints.None? <==> positivePoints == "")
    ensures dto.Some? && positivePoints != "" ==> dto.value.positivePoints == Some(positivePoints)
    ensures dto.Some? ==> (dto.value.negativePoints.None? <==> negativePoints == "")
    ensures dto.Some? && negativePoints != "" ==> dto.value.negativePoints == Some(negativePoints)
  {
    if professionalId.None? || professionalId.value == 0 || serviceRequestId.None? || serviceRequestId.value == 0 then None
    else Some(CreateReviewDto(clientId, professionalId.value, serviceRequestId.value, price, quality, speed,
      communication, professionalism, OrNull(comment), OrNull(positivePoints), OrNull(negativePoints)))
  }

  /** `value || null` on a form text. */
  function OrNull(s: string): Option<string>
  {
    if s == "" then None else Some(s)
  }

  /** Sliders left where the form puts them give a review whose ratings all lie in the declared range. */
  lemma SliderValuesInRange(clientId: int, professionalId: int, serviceRequestId: int,
                            price: int, quality: int, speed: int, communication: int, professionalism: int,
                            id: int, now: int)
    requires professionalId != 0 && serviceRequestId != 0
    requires Accepts(CriteriaInput("priceRating"), price) && Accepts(CriteriaInput("qualityRating"), quality)
    requires Accepts(CriteriaInput("speedRating"), speed) && Accepts(CriteriaInput("communicationRating"), communication)
    requires Accepts(CriteriaInput("professionalismRating"), professionalism)
    ensures var dto := SubmitPayload(clientId, Some(professionalId), Some(serviceRequestId),
      price, quality, speed, communication, professionalism, "", "", "");
      dto.Some? && Domain.RatingsInRange(NewReview(id, dto.value, now))
  {
  }

  // ---------------------------------------------------------------------------
  // Administrators' list
  // ---------------------------------------------------------------------------

  /**
   * The filter of `renderAdminReviews`: "active" hides reviews explicitly
   * inactive, "inactive" shows only those, any other status hides nothing;
   * a review whose overall rating (0 when missing) is below the minimum is
   * hidden, and a minimum that does not parse (`None`) hides nothing.
   */
  function AdminVisible(r: ReviewJson, status: string, minRating: Option<real>): (b: bool)
    ensures status != "active" && status != "inactive" && minRating.None? ==> b
    ensures status == "active" && r.isActive == Some(false) ==> !b
    ensures status == "active" && r.isActive != Some(false) && minRating.None? ==> b
    ensures status == "inactive" ==> (b ==> r.isActive == Some(false))
    ensures minRating.Some? && minRating.value > 0.0 && r.overallRating.None? ==> !b
    ensures minRating.Some? && (if r.overallRating.Some? then r.overallRating.value else 0.0) < minRating.value ==> !b
    ensures status == "inactive" && r.isActive == Some(false) && minRating.None? ==> b
    ensures minRating.Some? && (if r.overallRating.Some? then r.overallRating.value else 0.0) >= minRating.value ==>
      (b <==> (status == "active" ==> r.isActive != Some(false)) && (status == "inactive" ==> r.isActive == Some(false)))
  {
    var inactive := r.isActive == Some(false);
    !(status == "active" && inactive)
    && !(status == "inactive" && !inactive)
    && !(minRating.Some? && (if r.overallRating.Some? then r.overallRating.value else 0.0) < minRating.value)
  }

  /** The reviews listed, in list order. */
  function AdminFilter(rs: seq<ReviewJson>, status: string, minRating: Option<real>): (r: seq<ReviewJson>)
    ensures |r| <= |rs|
    ensures forall i :: 0 <= i < |r| ==> r[i] in rs && AdminVisible(r[i], status, minRating)
    ensures forall i :: 0 <= i < |rs| && AdminVisible(rs[i], status, minRating) ==> rs[i] in r
  {
    Filter(rs, x => AdminVisible(x, status, minRating))
  }

  /** Every review is listed under exactly one of "active" and "inactive". */
  lemma ActiveInactivePartition(rs: seq<ReviewJson>)
    ensures |AdminFilter(rs, "active", None)| + |AdminFilter(rs, "inactive", None)| == |rs|
  {
    FilterPartition(rs, x => AdminVisible(x, "active", None), x => AdminVisible(x, "inactive", None));
  }

  /** Any status other than the two filters nothing by status. */
  lemma OtherStatusListsAll(rs: seq<ReviewJson>, status: string)
    requires status != "active" && status != "inactive"
    ensures AdminFilter(rs, status, None) == rs
  {
    FilterAll(rs, x => AdminVisible(x, status, None));
  }

  /** Number of entries with the given id. */
  function CountId(rs: seq<ReviewJson>, id: int): nat
  {
    if rs == [] then 0 else (if rs[0].id == id then 1 else 0) + CountId(rs[1..], id)
  }

  /** `reviewState.adminReviews`. */
  class AdminReviewList {
    var adminReviews: seq<ReviewJson>

    constructor ()
      ensures adminReviews == []
    {
      adminReviews := [];
    }

    /** `loadAdminReviews`: the fetched list, or none when the response is null. */
    method Load(response: Option<seq<ReviewJson>>)
      modifies this
      ensures adminReviews == if response.Some? then response.value else []
    {
      adminReviews := if response.Some? then response.value else [];
    }

    /**
     * `handleAdminAction` after the delete succeeds: every entry with the id
     * is dropped and the others are kept in order.
     */
    method Remove(id: int)
      modifies this
      ensures adminReviews == Filter(old(adminReviews), (r: ReviewJson) => r.id != id)
      ensures forall i :: 0 <= i < |adminReviews| ==> adminReviews[i].id != id
      ensures forall i :: 0 <= i < |old(adminReviews)| && old(adminReviews)[i].id != id ==> old(adminReviews)[i] in adminReviews
      ensures |adminReviews| == |old(adminReviews)| - CountId(old(adminReviews), id)
      ensures CountId(old(adminReviews), id) == 0 ==> adminReviews == old(adminReviews)
    {
      RemovedCount(adminReviews, id);
      if CountId(adminReviews, id) == 0 {
        NoIdKeepsAll(adminReviews, id);
      }
      adminReviews := Filter(adminReviews, (r: ReviewJson) => r.id != id);
    }
  }

  /** Removing an id shortens the list by its number of entries. */
  lemma {:induction false} RemovedCount(rs: seq<ReviewJson>, id: int)
    ensures |Filter(rs, (r: ReviewJson) => r.id != id)| == |rs| - CountId(rs, id)
  {
    if rs != [] {
      RemovedCount(rs[1..], id);
    }
  }

  /** An id with no entry removes nothing. */
  lemma {:induction false} NoIdKeepsAll(rs: seq<ReviewJson>, id: int)
    requires CountId(rs, id) == 0
    ensures Filter(rs, (r: ReviewJson) => r.id != id) == rs
  {
    if rs != [] {
      NoIdKeepsAll(rs[1..], id);
    }
  }
}
