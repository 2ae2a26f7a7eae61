/**
 * The professional's inbox page (`inbox.js`): the numeric status table, the
 * buttons offered for each status and what each button sends, the summary
 * line, the request bodies of status changes, and the page state that
 * holds the loaded requests and the client reviews indexed by request.
 *
 * Requests arrive as JSON with the status as its numeric code.
 */
module Inbox {
  import opened Common
  import opened Text
  import opened Domain
  import opened ServiceRequests
  import opened Reviews

  /** The `STATUS` table of the page. */
  function JsStatus(s: ServiceStatus): (code: int)
    ensures code == StatusCode(s)
    ensures StatusOfCode(code) == Some(s)
  {
    StatusCodeRoundTrip(s);
    match s
    case Pending => 0
    case Accepted => 1
    case Rejected => 2
    case InProgress => 3
    case Completed => 4
    case Cancelled => 5
  }

  /** The fields of a listed request the page acts on. */
  datatype RequestView = RequestView(id: int, status: int, verificationCode: Option<string>)

  // ---------------------------------------------------------------------------
  // Buttons and what they do
  // ---------------------------------------------------------------------------

  /** `renderActions`: the `data-action` of each button shown for a status. */
  function OfferedActions(status: int): (actions: seq<string>)
    ensures actions != [] <==> status in {JsStatus(Pending), JsStatus(Accepted), JsStatus(InProgress)}
    ensures "complete" in actions <==> status == JsStatus(InProgress)
    ensures "accept" in actions <==> status == JsStatus(Pending)
    ensures status == JsStatus(Pending) ==> actions == ["accept", "reject"]
    ensures status == JsStatus(Accepted) ==> actions == ["start", "cancel"]
    ensures status == JsStatus(InProgress) ==> actions == ["complete", "generate"]
  {
    if status == JsStatus(Pending) then ["accept", "reject"]
    else if status == JsStatus(Accepted) then ["start", "cancel"]
    else if status == JsStatus(InProgress) then ["complete", "generate"]
    else []
  }

  /** What a click sends: a new status, the completion prompt, a code request, or nothing. */
  datatype Effect = SendStatus(status: ServiceStatus) | PromptCompletion | RequestCode | Ignore

  /** `handleAction`: "generate" and "complete" first, then the `statusMap`; an unknown action does nothing. */
  function HandleAction(action: string): (e: Effect)
    ensures e == Ignore <==> action !in ["generate", "complete", "accept", "reject", "start", "cancel"]
    ensures e.SendStatus? ==> e.status in {Accepted, Rejected, InProgress, Cancelled}
    ensures e.SendStatus? ==> e.status != Completed && e.status != Pending
    ensures action == "generate" ==> e == RequestCode
    ensures action == "complete" ==> e == PromptCompletion
    ensures action == "accept" ==> e == SendStatus(Accepted)
    ensures action == "reject" ==> e == SendStatus(Rejected)
    ensures action == "start" ==> e == SendStatus(InProgress)
    ensures action == "cancel" ==> e == SendStatus(Cancelled)
  {
    if action == "generate" then RequestCode
    else if action == "complete" then PromptCompletion
    else if action == "accept" then SendStatus(Accepted)
    else if action == "reject" then SendStatus(Rejected)
    else if action == "start" then SendStatus(InProgress)
    else if action == "cancel" then SendStatus(Cancelled)
    else Ignore
  }

  /**
   * The status a request has after a click, when the server accepts the
   * change: the status sent, Completed after the prompt, unchanged after a
   * code request.
   */
  function StatusAfter(current: ServiceStatus, action: string): (r: Option<ServiceStatus>)
    ensures r.None? <==> action !in ["generate", "complete", "accept", "reject", "start", "cancel"]
    ensures action == "complete" ==> r == Some(Completed)
    ensures action == "generate" ==> r == Some(current)
    ensures action == "accept" ==> r == Some(Accepted)
    ensures action == "reject" ==> r == Some(Rejected)
    ensures action == "start" ==> r == Some(InProgress)
    ensures action == "cancel" ==> r == Some(Cancelled)
    ensures r.Some? && action != "generate" ==> r.value != Pending
  {
    match HandleAction(action)
    case SendStatus(t) => Some(t)
    case PromptCompletion => Some(Completed)
    case RequestCode => Some(current)
    case Ignore => None
  }

  /** One click on a button the page offers takes a request from `a` to `b`. */
  predicate UiStep(a: ServiceStatus, b: ServiceStatus)
  {
    var actions := OfferedActions(JsStatus(a));
    exists i :: 0 <= i < |actions| && StatusAfter(a, actions[i]) == Some(b)
  }

  /** The steps the buttons allow, status by status. */
  lemma UiStepTable(a: ServiceStatus, b: ServiceStatus)
    ensures UiStep(a, b) <==>
      (a == Pending && (b == Accepted || b == Rejected))
      || (a == Accepted && (b == InProgress || b == Cancelled))
      || (a == InProgress && (b == Completed || b == InProgress))
  {
    var actions := OfferedActions(JsStatus(a));
    if a == Pending && (b == Accepted || b == Rejected) {
      assert StatusAfter(a, actions[if b == Accepted then 0 else 1]) == Some(b);
    } else if a == Accepted && (b == InProgress || b == Cancelled) {
      assert StatusAfter(a, actions[if b == InProgress then 0 else 1]) == Some(b);
    } else if a == InProgress && (b == Completed || b == InProgress) {
      assert StatusAfter(a, actions[if b == Completed then 0 else 1]) == Some(b);
    }
  }

  /** A sequence of statuses a request passes through using the page's buttons only. */
  predicate UiPath(p: seq<ServiceStatus>)
  {
    forall i :: 0 <= i < |p| - 1 ==> UiStep(p[i], p[i + 1])
  }

  /**
   * With the page's buttons only, a pending request reaches Completed only
   * by being accepted and then started: the path runs Pending, Accepted,
   * InProgress, and every arrival at Completed comes from InProgress.
   */
  lemma CompletedOnlyThroughAcceptedAndStarted(p: seq<ServiceStatus>)
    requires UiPath(p) && |p| >= 1 && p[0] == Pending && p[|p| - 1] == Completed
    ensures |p| >= 4 && p[1] == Accepted && p[2] == InProgress
    ensures forall i :: 1 <= i < |p| && p[i] == Completed ==> p[i - 1] == InProgress
  {
    UiStepTable(p[0], p[1]);
    if p[1] == Rejected {
      UiStepTable(p[1], p[2]);
    }
    UiStepTable(p[1], p[2]);
    if p[2] == Cancelled {
      UiStepTable(p[2], p[3]);
    }
    forall i | 1 <= i < |p| && p[i] == Completed ensures p[i - 1] == InProgress {
      UiStepTable(p[i - 1], p[i]);
    }
  }

  // ---------------------------------------------------------------------------
  // Summary line
  // ---------------------------------------------------------------------------

  /** How many listed requests have the status `code` (`filter(...).length`). */
  function CountWithStatus(requests: seq<RequestView>, code: int): (n: nat)
    ensures n <= |requests|
    ensures |requests| == 1 ==> (n == 1 <==> requests[0].status == code)
  {
    if requests == [] then 0
    else (if requests[0].status == code then 1 else 0) + CountWithStatus(requests[1..], code)
  }

  /** One more listed request raises the count exactly when it has that status. */
  lemma {:induction false} CountWithStatusAppend(requests: seq<RequestView>, r: RequestView, code: int)
    ensures CountWithStatus(requests + [r], code) == CountWithStatus(requests, code) + (if r.status == code then 1 else 0)
  {
    if requests != [] {
      assert (requests + [r])[1..] == requests[1..] + [r];
      CountWithStatusAppend(requests[1..], r, code);
    } else {
      assert requests + [r] == [r];
    }
  }

  /** Pending and in-progress requests are disjoint parts of the total. */
  lemma {:induction false} SummaryCountsWithinTotal(requests: seq<RequestView>)
    ensures CountWithStatus(requests, JsStatus(Pending)) + CountWithStatus(requests, JsStatus(InProgress)) <= |requests|
  {
    if requests != [] {
      SummaryCountsWithinTotal(requests[1..]);
    }
  }

  /** `updateSummary`: total, pending and in-progress counts, or "Nenhuma solicitacao" with no requests. */
  function SummaryText(requests: seq<RequestView>): (text: string)
    ensures text == "Nenhuma solicitacao" <==> requests == []
  {
    var total := |requests|;
    if total == 0 then "Nenhuma solicitacao"
    else
      var t := IntToString(total) + " solicitacoes - " + IntToString(CountWithStatus(requests, JsStatus(Pending)))
        + " pendentes - " + IntToString(CountWithStatus(requests, JsStatus(InProgress))) + " em andamento";
      assert IsDigit(t[0]) && !IsDigit('N');
      t
  }

  // ---------------------------------------------------------------------------
  // Request bodies of status changes
  // ---------------------------------------------------------------------------

  /** The body of `PUT /service-requests/{id}/status`. */
  datatype StatusPayload = StatusPayload(id: int, status: int, verificationCode: Option<string>)

  /** `updateStatus`: the code goes into the body only when it is a non-empty string. */
  function StatusBody(id: int, status: int, code: Option<string>): (p: StatusPayload)
    ensures p.id == id && p.status == status
    ensures p.verificationCode.Some? <==> code.Some? && code.value != ""
    ensures p.verificationCode.Some? ==> p.verificationCode == code
  {
    if code.Some? && code.value != "" then StatusPayload(id, status, code) else StatusPayload(id, status, None)
  }

  /**
   * `handleComplete`: a dismissed prompt or a blank answer sends nothing;
   * otherwise Completed is sent with the trimmed answer as the code.
   */
  function CompletionBody(id: int, typed: Option<string>): (p: Option<StatusPayload>)
    ensures p.None? <==> typed.None? || IsBlank(typed.value)
    ensures p.Some? ==> p.value.id == id && p.value.status == JsStatus(Completed)
    ensures p.Some? ==> p.value.verificationCode == Some(Trim(typed.value)) && Trim(typed.value) != ""
  {
    if typed.None? || typed.value == "" || Trim(typed.value) == "" then None
    else Some(StatusBody(id, JsStatus(Completed), Some(Trim(typed.value))))
  }

  /**
   * Typing the stored code, with any white space around it, completes the
   * request on the server: the page sends it trimmed and the server finds it
   * equal to the stored one.
   */
  lemma TypedCodeCompletes(r: ServiceRequest, typed: string, drawn: int, now: int)
    requires Drawable(drawn)
    requires r.verificationCode.Some? && r.verificationCode.value == Trim(typed) && !IsBlank(typed)
    ensures CompletionBody(r.id, Some(typed)).Some?
    ensures var body := CompletionBody(r.id, Some(typed)).value;
      StatusOfCode(body.status) == Some(Completed)
      && StatusUpdate(r, Completed, body.verificationCode, drawn, now).Success?
  {
    var code := Trim(typed);
    assert code != "";
    assert !IsBlank(code) by {
      assert !IsSpace(code[0]);
    }
  }

  // ---------------------------------------------------------------------------
  // Page state
  // ---------------------------------------------------------------------------

  /** The reviews found for the listed requests, one per request id that has a review on the server. */
  function ReviewsIndex(requests: seq<RequestView>, reviews: seq<Review>): (m: map<int, Review>)
    ensures forall id :: id in m <==>
      (exists k :: 0 <= k < |requests| && requests[k].id == id) && FindByServiceRequest(reviews, id).Some?
    ensures forall id :: id in m ==> m[id] == FindByServiceRequest(reviews, id).value
  {
    if requests == [] then map[]
    else
      var init := requests[..|requests| - 1];
      var id := requests[|requests| - 1].id;
      var m := ReviewsIndex(init, reviews);
      assert forall k :: 0 <= k < |init| ==> init[k] == requests[k];
      var found := FindByServiceRequest(reviews, id);
      if found.Some? then m[id := found.value] else m
  }

  /** `renderCard`: the client's rating is shown on a completed request whose review was loaded. */
  function RatingShown(req: RequestView, index: map<int, Review>): (b: bool)
    ensures b <==> StatusOfCode(req.status) == Some(Completed) && req.id in index
  {
    req.status == JsStatus(Completed) && req.id in index
  }

  class InboxState {
    var requests: seq<RequestView>
    var reviewsByRequest: map<int, Review>

    constructor ()
      ensures requests == [] && reviewsByRequest == map[]
    {
      requests := [];
      reviewsByRequest := map[];
    }

    /** `loadReviewsByRequest`: clear the index, then fetch the review of each listed request. */
    method LoadReviewsByRequest(reviews: seq<Review>)
      modifies this
      ensures requests == old(requests)
      ensures reviewsByRequest == ReviewsIndex(requests, reviews)
    {
      reviewsByRequest := map[];
      var i := 0;
      while i < |requests|
        invariant 0 <= i <= |requests| && requests == old(requests)
        invariant reviewsByRequest == ReviewsIndex(requests[..i], reviews)
      {
        var id := requests[i].id;
        var found := FindByServiceRequest(reviews, id);
        if found.Some? {
          reviewsByRequest := reviewsByRequest[id := found.value];
        }
        assert requests[..i + 1][..i] == requests[..i];
        i := i + 1;
      }
      assert requests[..i] == requests;
    }

    /** `loadRequests`: the list is the response, or empty when the response is null. */
    method LoadRequests(data: Option<seq<RequestView>>)
      modifies this
      ensures requests == (if data.Some? then data.value else [])
      ensures reviewsByRequest == old(reviewsByRequest)
    {
      requests := if data.Some? then data.value else [];
    }

    /**
     * `init` as written: the review index is built from the requests listed
     * before the requests are loaded.
     */
    method Init(data: Option<seq<RequestView>>, reviews: seq<Review>)
      modifies this
      ensures reviewsByRequest == ReviewsIndex(old(requests), reviews)
      ensures requests == (if data.Some? then data.value else [])
    {
      LoadReviewsByRequest(reviews);
      LoadRequests(data);
    }

    /** `init` with the two loads in the intended order: requests first, then their reviews. */
    method InitRequestsFirst(data: Option<seq<RequestView>>, reviews: seq<Review>)
      modifies this
      ensures requests == (if data.Some? then data.value else [])
      ensures reviewsByRequest == ReviewsIndex(requests, reviews)
    {
      LoadRequests(data);
      LoadReviewsByRequest(reviews);
    }
  }

  /**
   * On a fresh page `init` indexes the reviews of an empty request list, so
   * no completed request shows its client's rating; loading the requests
   * first shows it for every completed request that has a review.
   */
  lemma InitOrderHidesRatings(requests: seq<RequestView>, reviews: seq<Review>, k: int)
    requires 0 <= k < |requests| && requests[k].status == JsStatus(Completed)
    requires FindByServiceRequest(reviews, requests[k].id).Some?
    ensures !RatingShown(requests[k], ReviewsIndex([], reviews))
    ensures RatingShown(requests[k], ReviewsIndex(requests, reviews))
  {
    var m := ReviewsIndex(requests, reviews);
    assert requests[k].id in m;
  }
}
