/**
 * The client's request list (`my-requests.js`): which buttons a request's
 * status enables, the rating dialog with its derived price rating, the
 * review it posts, and the set of requests already rated.
 */
module MyRequests {
  import opened Common
  import opened Domain
  import opened Reviews
  import opened Inbox

  /** A status after which the request can no longer be cancelled or closed. */
  function IsFinal(status: int): (b: bool)
    ensures b <==> StatusOfCode(status).Some?
                   && StatusOfCode(status).value in {Completed, Cancelled, Rejected}
  {
    status == JsStatus(Completed) || status == JsStatus(Cancelled) || status == JsStatus(Rejected)
  }

  /** `disableIfFinal`: the attribute placed on the cancel and close buttons. */
  function DisableIfFinal(status: int): (attr: string)
    ensures attr == "disabled" <==> IsFinal(status)
    ensures attr != "disabled" ==> attr == ""
  {
    if IsFinal(status) then "disabled" else ""
  }

  /** Whether the rate button can be clicked, and whether it is shown at all. */
  datatype RateButton = RateButton(enabled: bool, hidden: bool)

  /** The rate button: enabled on a completed request not rated yet, hidden once rated. */
  function RateButtonFor(status: int, alreadyRated: bool): (b: RateButton)
    ensures b.enabled <==> status == JsStatus(Completed) && !alreadyRated
    ensures b.hidden <==> alreadyRated
    ensures b.enabled ==> !b.hidden && DisableIfFinal(status) == "disabled"
  {
    RateButton(status == JsStatus(Completed) && !alreadyRated, alreadyRated)
  }

  // ---------------------------------------------------------------------------
  // Rating dialog
  // ---------------------------------------------------------------------------

  /** JavaScript's `Math.round`: the nearest integer, halves rounded up. */
  function JsRound(x: real): (n: int)
    ensures n as real - 0.5 <= x < n as real + 0.5
  {
    (x + 0.5).Floor
  }

  /** `submitReview`'s price rating: the four chosen ratings' mean, rounded. */
  function PriceRating(quality: int, speed: int, communication: int, professionalism: int): (p: int)
    ensures var sum := quality + speed + communication + professionalism;
      4 * p - 2 <= sum < 4 * p + 2
  {
    JsRound((quality + speed + communication + professionalism) as real / 4.0)
  }

  /** In integers, the rounded mean of four ratings is `(sum + 2) div 4`. */
  lemma PriceRatingInIntegers(quality: int, speed: int, communication: int, professionalism: int)
    ensures PriceRating(quality, speed, communication, professionalism)
      == (quality + speed + communication + professionalism + 2) / 4
  {
    var sum := quality + speed + communication + professionalism;
    var p := PriceRating(quality, speed, communication, professionalism);
    var q := (sum + 2) / 4;
    assert 4 * q <= sum + 2 < 4 * q + 4;
    assert 4 * p - 2 <= sum < 4 * p + 2;
  }

  /** Four ratings in [1, 5] give a price rating in [1, 5]. */
  lemma PriceRatingBounds(quality: int, speed: int, communication: int, professionalism: int)
    requires 1 <= quality <= 5 && 1 <= speed <= 5 && 1 <= communication <= 5 && 1 <= professionalism <= 5
    ensures 1 <= PriceRating(quality, speed, communication, professionalism) <= 5
  {
  }

  datatype DialogCriterion = QualityStars | SpeedStars | CommunicationStars | ProfessionalismStars

  /** The `ratings` object of an open rating dialog. */
  class RatingDialog {
    var quality: int
    var speed: int
    var communication: int
    var professionalism: int

    /** Every criterion starts at five stars. */
    constructor ()
      ensures quality == 5 && speed == 5 && communication == 5 && professionalism == 5
    {
      quality, speed, communication, professionalism := 5, 5, 5, 5;
    }

    /** A click on a star sets that criterion to the star's value and leaves the others. */
    method Choose(c: DialogCriterion, value: int)
      modifies this
      ensures quality == (if c == QualityStars then value else old(quality))
      ensures speed == (if c == SpeedStars then value else old(speed))
      ensures communication == (if c == CommunicationStars then value else old(communication))
      ensures professionalism == (if c == ProfessionalismStars then value else old(professionalism))
    {
      match c
      case QualityStars => quality := value;
      case SpeedStars => speed := value;
      case CommunicationStars => communication := value;
      case ProfessionalismStars => professionalism := value;
    }
  }

  /**
   * `submitReview`: nothing without a signed-in client; otherwise the review
   * posted, with the price rating derived from the four chosen ones and no
   * positive or negative points.
   */
  function ReviewPayload(clientId: Option<int>, professionalId: int, serviceRequestId: int,
                         quality: int, speed: int, communication: int, professionalism: int,
                         comment: string): (dto: Option<CreateReviewDto>)
    ensures dto.None? <==> clientId.None?
    ensures dto.Some? ==> dto.value.clientId == clientId.value && dto.value.serviceRequestId == serviceRequestId
    ensures dto.Some? ==> dto.value.professionalId == professionalId && dto.value.comment == Some(comment)
    ensures dto.Some? ==> dto.value.positivePoints.None? && dto.value.negativePoints.None?
    ensures dto.Some? ==> dto.value.priceRating == PriceRating(quality, speed, communication, professionalism)
    ensures dto.Some? ==>
      (dto.value.qualityRating == quality && dto.value.speedRating == speed
       && dto.value.communicationRating == communication && dto.value.professionalismRating == professionalism)
  {
    if clientId.None? then None
    else Some(CreateReviewDto(clientId.value, professionalId, serviceRequestId,
      PriceRating(quality, speed, communication, professionalism), quality, speed, communication,
      professionalism, Some(comment), None, None))
  }

  /** Stars in range give a review whose five ratings all lie in their declared range once stored. */
  lemma PayloadRatingsInRange(clientId: int, professionalId: int, serviceRequestId: int,
                              quality: int, speed: int, communication: int, professionalism: int,
                              comment: string, id: int, now: int)
    requires 1 <= quality <= 5 && 1 <= speed <= 5 && 1 <= communication <= 5 && 1 <= professionalism <= 5
    ensures var dto := ReviewPayload(Some(clientId), professionalId, serviceRequestId,
      quality, speed, communication, professionalism, comment).value;
      RatingsInRange(NewReview(id, dto, now))
  {
    PriceRatingBounds(quality, speed, communication, professionalism);
  }

  // ---------------------------------------------------------------------------
  // Rated requests
  // ---------------------------------------------------------------------------

  /** The set of rated request ids kept in local storage. */
  class RatedRequests {
    var ids: set<int>

    constructor ()
      ensures ids == {}
    {
      ids := {};
    }

    /** `hasRated`. */
    predicate HasRated(id: int)
      reads this
    {
      id in ids
    }

    /** `markAsRated`: the id is rated afterwards; every other id keeps its answer. */
    method MarkAsRated(id: int)
      modifies this
      ensures ids == old(ids) + {id}
      ensures HasRated(id)
      ensures forall other :: other != id ==> (HasRated(other) <==> old(HasRated(other)))
      ensures old(HasRated(id)) ==> ids == old(ids)
    {
      ids := ids + {id};
    }
  }
}
