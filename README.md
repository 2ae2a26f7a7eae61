# MaoCerta core, modelled in Dafny

MaoCerta is a marketplace where clients hire local professionals. A client
opens a service request; the professional accepts, starts and completes it;
completion needs a six-digit verification code that the client hands over;
the client then reviews the professional on five criteria. A search page
filters, sorts and pages the professionals, and a profile page shows each
professional's averages and most recent reviews.

This project models the core of that system:

- the domain entities and their computed properties: a review's overall
  rating, a professional's average rating and review count;
- the application services for service requests (status handshake and
  verification codes), reviews (one per request, averages and the
  per-criterion breakdown), clients (e-mail de-duplication) and
  professionals (search, top rated, by category, profile detail);
- the browser pages that compute from what the API returns:
  - the professional's inbox and the client's request list;
  - the search page with its criteria filter and pager;
  - the profile page with its averages and review filter;
  - the review form and the review admin list;
  - the two registration forms;
  - the URL and query-string builder of the API client.

One Dafny module corresponds to one source component:

| module | file | component |
|---|---|---|
| `Common` | common.dfy | option/result types, sums and means, filter, skip and take |
| `Text` | text.dfy | trimming, case folding, search, split and join on strings |
| `Sorting` | sorting.dfy | the stable sort behind LINQ `OrderBy` and `OrderByDescending` |
| `Domain` | domain.dfy | entities, status codes and computed ratings |
| `ServiceRequests` | service_request_service.dfy | `ServiceRequestService` |
| `Reviews` | review_service.dfy | `ReviewService` |
| `Clients` | client_service.dfy | `ClientService` |
| `Professionals` | professional_service.dfy | `ProfessionalService` |
| `WebReviews` | review_summaries.dfy | review summaries and the description cleaner shared by the pages |
| `Inbox` | inbox.dfy | `inbox.js` |
| `MyRequests` | my_requests.dfy | `my-requests.js` |
| `ProfessionalsPage` | professionals_page.dfy | `professionals.js` |
| `ProfessionalDetailPage` | professional_detail.dfy | `professionalDetail.js` |
| `ReviewFormPage` | review_form.dfy | `reviewForm.js` |
| `Registration` | registration.dfy | `register-professional.js`, `register-client.js` |
| `Api` | api.dfy | `api.js` |

The services' stores are classes whose methods change the table in place
and keep an invariant (`Valid()`): unique ids, and for reviews the database's
unique index on `ServiceRequestId`. An operation that throws saves nothing, so
it returns `Failure` and leaves the store unchanged. Some source values become
parameters:

- the clock (`DateTime.UtcNow`) is the parameter `now`;
- the number `Random.Next` draws is `drawn`;
- the review lists the pages fetch are `fetched`.

The pages' `state` objects are classes as well. Missing JSON fields are
`None`, and a value that does not parse as a number (JavaScript's `NaN`) is
`None` too.

The verification-code handshake is proved end to end:

- `ServiceRequests.AcceptThenComplete`: accepting a request issues a code,
  and completing it then succeeds exactly with that code.
- `Inbox.TypedCodeCompletes`: the page trims what the professional types, so
  typing the code with white space around it still completes the request on
  the server.

The client's "close" button in `my-requests.js` (lines 104-111) sends the same
body as the inbox's completion prompt, so `Inbox.CompletionBody` models both.

Four behaviours of the code worth noting:

- The verification code is drawn from 100000 to 999998, since the upper bound
  of `Random.Next` is exclusive.
- `UpdateAsync` of a service request overwrites the status with no transition
  check and no code check. `ServiceRequests.UpdateBreaksCompletionInvariant`
  shows that it can leave a Completed request without a completion date.
- Review ratings are declared as 1 to 5 but no service enforces that range.
  The bounds lemmas therefore assume it explicitly (`RatingsInRange`,
  `AllInRange`).
- The professionals page sets its result total to the length of the page it
  has just received (`professionals.js:137-139`), which is at most the page
  size of 6. The "next" guard at `professionals.js:85` therefore never
  holds, "next" never moves past page 1, and the pager at
  `professionals.js:251-252` is always hidden. `ProfessionalsPage.PageState.Next`
  and `ProfessionalsPage.NextNeverEnabled` state this.

## Model

| member | source | states |
|---|---|---|
| Domain.StatusOfCode | MaoCerta.Domain/Enums/ServiceStatus.cs:6-14 | a code denotes a status exactly when it is in 0..5, and the status read back has that code |
| Domain.StatusCodeRoundTrip | MaoCerta.Domain/Enums/ServiceStatus.cs:8-13 | every status has a code in 0..5 that reads back as that same status |
| Domain.OverallRating | MaoCerta.Domain/Entities/Review.cs:42 | with the ratings in their declared 1..5 range, the overall rating lies in [1, 5] |
| Domain.OverallIsMeanOfRatings | MaoCerta.Domain/Entities/Review.cs:42 | the overall rating is the arithmetic mean of the five criterion ratings |
| Domain.OverallRatingExample | MaoCerta.Domain/Entities/Review.cs:42 | ratings 5, 4, 3, 2, 1 give exactly 3.0, with no rounding |
| Domain.OverallRatingDependsOnlyOnRatings | MaoCerta.Domain/Entities/Review.cs:42 | two reviews with the same five ratings have the same overall rating |
| Domain.ReviewsOf | MaoCerta.Domain/Entities/Professional.cs:37 | exactly the reviews that name the professional, all taken from the table |
| Domain.AverageRating | MaoCerta.Domain/Entities/Professional.cs:40 | 0 for a professional without reviews; otherwise, times the number of reviews, it gives the sum of their overall ratings |
| Domain.AverageRatingBounds | MaoCerta.Domain/Entities/Professional.cs:40 | with ratings in range, a reviewed professional averages between 1 and 5 |
| Domain.CriterionMean | MaoCerta.Application/Services/ProfessionalService.cs:377 | 0 over no reviews; otherwise, times the number of reviews, the total of that criterion's ratings |
| Domain.CriterionMeanBounds | MaoCerta.Domain/Entities/Review.cs:21-39 | with ratings in range, each criterion mean over some reviews lies in [1, 5] |
| Domain.OverallTotal | MaoCerta.Domain/Entities/Review.cs:42 | five times the summed overall ratings equals the sum of the five criterion totals |
| Domain.AverageIsMeanOfCriterionMeans | MaoCerta.Domain/Entities/Professional.cs:40 | the average rating is the mean of the five per-criterion means |
| Domain.TotalReviews | MaoCerta.Domain/Entities/Professional.cs:41 | the count is at most the table size and is 0 exactly when no review names the professional |
| Domain.TotalReviewsAppend | MaoCerta.Domain/Entities/Professional.cs:41 | one more stored review raises the count by one exactly when it names the professional |
| Domain.ProfessionalAverageRating | MaoCerta.Domain/Entities/Professional.cs:40 | 0 when the professional has no reviews; otherwise the mean overall rating of the reviews that name the professional |
| Domain.ProfessionalAverageBounds | MaoCerta.Domain/Entities/Professional.cs:40-41 | with ratings in range and at least one review, the average lies in [1, 5] |
| ServiceRequests.GenerateCodeValue | MaoCerta.Application/Services/ServiceRequestService.cs:344-347 | six decimal digits with no leading zero, whose value is the drawn number |
| ServiceRequests.GeneratedCodeNotBlank | MaoCerta.Application/Services/ServiceRequestService.cs:344-347 | a generated code is neither null, empty nor white space |
| ServiceRequests.NewRequest | MaoCerta.Application/Services/ServiceRequestService.cs:80-93 | a new request is Pending and active, with no code, no completion date and the DTO's fields |
| ServiceRequests.ApplyUpdate | MaoCerta.Application/Services/ServiceRequestService.cs:120-127 | editable fields and status are overwritten; code, completion date, parties and creation date are kept |
| ServiceRequests.UpdateBreaksCompletionInvariant | MaoCerta.Application/Services/ServiceRequestService.cs:120-127 | an update can mark a request Completed without any completion date |
| ServiceRequests.StatusUpdate | MaoCerta.Application/Services/ServiceRequestService.cs:227-257 | fails exactly when completing without a stored code, without a supplied code, or with a different code; each error (not generated, not informed, incorrect) arises exactly in its own case; on success the status is applied, accepting issues a code when none exists, completing sets the completion date, and nothing else changes |
| ServiceRequests.ForClient | MaoCerta.Application/Services/ServiceRequestService.cs:181-198 | exactly the stored requests of that client, unchanged |
| ServiceRequests.ForProfessional | MaoCerta.Application/Services/ServiceRequestService.cs:200-217 | exactly the stored requests addressed to that professional, unchanged |
| ServiceRequests.ListedForItsParties | MaoCerta.Application/Services/ServiceRequestService.cs:181-217 | a request is listed for a client or professional exactly when it is theirs |
| ServiceRequests.GeneratedCodeCompletes | MaoCerta.Application/Services/ServiceRequestService.cs:234-245 | a request holding a generated code completes when that code is supplied |
| ServiceRequests.AcceptThenComplete | MaoCerta.Application/Services/ServiceRequestService.cs:229-245 | accepting a request with no code succeeds; completing it afterwards succeeds exactly with the issued code |
| ServiceRequests.ServiceRequestStore.constructor | MaoCerta.Application/Services/ServiceRequestService.cs:66-110 | an empty store that satisfies the invariant |
| ServiceRequests.ServiceRequestStore.Create | MaoCerta.Application/Services/ServiceRequestService.cs:66-110 | an unknown client fails first, then an unknown professional, and neither changes the store; otherwise exactly one new Pending request is added under a fresh id |
| ServiceRequests.ServiceRequestStore.Update | MaoCerta.Application/Services/ServiceRequestService.cs:112-144 | an unknown id fails with nothing changed; otherwise only that request is replaced by the update |
| ServiceRequests.ServiceRequestStore.Delete | MaoCerta.Application/Services/ServiceRequestService.cs:146-165 | the result is whether the id was stored, and exactly that id is removed |
| ServiceRequests.ServiceRequestStore.UpdateStatus | MaoCerta.Application/Services/ServiceRequestService.cs:219-274 | an unknown id fails; otherwise the outcome is `StatusUpdate` of the stored request, saved on success and discarded on failure |
| ServiceRequests.ServiceRequestStore.GenerateVerificationCode | MaoCerta.Application/Services/ServiceRequestService.cs:276-299 | a fresh code replaces any previous one, is returned, and then verifies |
| ServiceRequests.ServiceRequestStore.VerifyCode | MaoCerta.Application/Services/ServiceRequestService.cs:301-316 | true exactly when the request exists and its stored code is the given one |
| Reviews.NewReview | MaoCerta.Application/Services/ReviewService.cs:78-93 | every DTO field copied verbatim, the review active and created now |
| Reviews.ApplyReviewUpdate | MaoCerta.Application/Services/ReviewService.cs:116-128 | ratings and texts replaced; ids, creation date and activity kept |
| Reviews.FindByServiceRequest | MaoCerta.Application/Services/ReviewService.cs:220-240 | none exactly when no review is for that request; otherwise a stored review for it |
| Reviews.IndexOfId | MaoCerta.Application/Services/ReviewService.cs:151-158 | the position of the review with that id, or none exactly when no review has it |
| Reviews.AverageFor | MaoCerta.Application/Services/ReviewService.cs:242-259 | 0 for a professional with no reviews; otherwise, times the number of the professional's reviews, the sum of their overall ratings |
| Reviews.AverageIgnoresOthers | MaoCerta.Application/Services/ReviewService.cs:246-252 | another professional's review does not change the average |
| Reviews.Breakdown | MaoCerta.Application/Services/ReviewService.cs:261-294 | exactly the five criterion keys, each the mean of that criterion over the professional's reviews |
| Reviews.BreakdownWithoutReviews | MaoCerta.Application/Services/ReviewService.cs:268-287 | a professional without reviews gets 0 for every criterion |
| Reviews.BreakdownAgreesWithAverage | MaoCerta.Application/Services/ReviewService.cs:242-294 | the average rating is the mean of the five breakdown values |
| Reviews.FoundAfterAppend | MaoCerta.Application/Services/ReviewService.cs:74-93 | a review added for a request without one is the one found for it, and one review per request still holds |
| Reviews.ReviewStore.constructor | MaoCerta.Infrastructure/Data/Configurations/ReviewConfiguration.cs:53-54 | an empty table that satisfies the one-review-per-request invariant |
| Reviews.ReviewStore.Create | MaoCerta.Application/Services/ReviewService.cs:64-110 | an unknown request fails, then an already reviewed one, neither changing the table; otherwise one review is appended and is the one found for that request |
| Reviews.ReviewStore.Update | MaoCerta.Application/Services/ReviewService.cs:112-145 | an unknown id fails with nothing changed; otherwise only that review is replaced by the update |
| Reviews.ReviewStore.Delete | MaoCerta.Application/Services/ReviewService.cs:147-166 | the result is whether the id was stored; that review is removed, every other kept in order |
| Clients.FindByEmail | MaoCerta.Application/Services/ClientService.cs:173-186 | the first client with exactly that e-mail, or none when nobody has it |
| Clients.IndexOfId | MaoCerta.Application/Services/ClientService.cs:142-144 | the position of the client with that id, or none exactly when no client has it |
| Clients.NewClient | MaoCerta.Application/Services/ClientService.cs:65-77 | the DTO's fields, active, created now |
| Clients.ApplyClientUpdate | MaoCerta.Application/Services/ClientService.cs:114-122 | contact fields and age overwritten; id, creation date and activity kept |
| Clients.FoundAfterAppend | MaoCerta.Application/Services/ClientService.cs:65-77 | a client added under an unused e-mail is the one found for it |
| Clients.ClientStore.constructor | MaoCerta.Application/Services/ClientService.cs:52-108 | an empty registry that satisfies the invariant |
| Clients.ClientStore.Create | MaoCerta.Application/Services/ClientService.cs:52-108 | a known e-mail returns its client and adds nothing; otherwise one new client is appended; either way a lookup by that e-mail finds the returned client |
| Clients.ClientStore.Update | MaoCerta.Application/Services/ClientService.cs:110-136 | an unknown id fails with nothing changed; otherwise only that client is replaced |
| Clients.ClientStore.Delete | MaoCerta.Application/Services/ClientService.cs:138-157 | the result is whether the id was stored; that client is removed, every other kept in order |
| Clients.ClientStore.Exists | MaoCerta.Application/Services/ClientService.cs:159-171 | true exactly when some stored client has the id |
| Professionals.ToSummary | MaoCerta.Application/Services/ProfessionalService.cs:348-368 | the professional's own fields, the first matching category's name or "Unknown", the review count, and the mean overall rating or 0 |
| Professionals.SummaryRatingBounds | MaoCerta.Application/Services/ProfessionalService.cs:363 | with ratings in range, a reviewed professional's summary average lies in [1, 5] |
| Professionals.ToSummaries | MaoCerta.Application/Services/ProfessionalService.cs:267 | one summary per professional, in order |
| Professionals.FilterByTerm | MaoCerta.Application/Services/ProfessionalService.cs:199-205 | an absent or empty term keeps all; otherwise exactly the professionals whose name or description holds the term, ignoring case |
| Professionals.FilterByCategory | MaoCerta.Application/Services/ProfessionalService.cs:208-211 | no category keeps all; otherwise exactly the professionals of that category |
| Professionals.FilterByMinRating | MaoCerta.Application/Services/ProfessionalService.cs:214-224 | no minimum keeps all; otherwise exactly the reviewed professionals whose average reaches it |
| Professionals.Filtered | MaoCerta.Application/Services/ProfessionalService.cs:199-224 | exactly the professionals that pass all three filters |
| Professionals.PlanSort | MaoCerta.Application/Services/ProfessionalService.cs:228-261 | on the lower-cased field: "rating" sorts by rating, descending unless the direction says "asc"; "name" and "created" sort by that field, descending exactly when it says "desc"; any other or no field sorts by name ascending |
| Professionals.PlanSortIgnoresCase | MaoCerta.Application/Services/ProfessionalService.cs:228-261 | sort field and direction are read without regard to case |
| Professionals.Sorted | MaoCerta.Application/Services/ProfessionalService.cs:228-261 | a permutation of the filtered list, ordered on the planned key and direction |
| Professionals.PageOf | MaoCerta.Application/Services/ProfessionalService.cs:264-265 | at most a page of elements: the contiguous slice at `(page - 1) * pageSize`, empty past the end or for a non-positive size |
| Professionals.PageOfCovers | MaoCerta.Application/Services/ProfessionalService.cs:264-265 | every element appears on page `i / pageSize + 1` at position `i % pageSize` |
| Professionals.PageOfOrdered | MaoCerta.Application/Services/ProfessionalService.cs:264-265 | a page of an ordered list is ordered |
| Professionals.SearchPage | MaoCerta.Application/Services/ProfessionalService.cs:199-265 | at most a page of professionals |
| Professionals.Search | MaoCerta.Application/Services/ProfessionalService.cs:187-274 | at most a page of results, each the summary of the professional at that place on the filtered, sorted page |
| Professionals.SearchSound | MaoCerta.Application/Services/ProfessionalService.cs:199-265 | every result is a stored professional that passes every filter |
| Professionals.SearchOrdered | MaoCerta.Application/Services/ProfessionalService.cs:228-265 | the results are in the requested order |
| Professionals.SearchComplete | MaoCerta.Application/Services/ProfessionalService.cs:199-265 | a first page as large as the catalogue holds every professional passing the filters |
| Professionals.ByRatingDescending | MaoCerta.Application/Services/ProfessionalService.cs:305-312 | a permutation of the catalogue ordered by average rating, highest first |
| Professionals.TopRated | MaoCerta.Application/Services/ProfessionalService.cs:305-314 | the first `count` (at most the catalogue) professionals, stored ones, highest rated first |
| Professionals.TopRatedAreBest | MaoCerta.Application/Services/ProfessionalService.cs:305-314 | nobody left off the list rates higher than anybody on it |
| Professionals.GetTopRated | MaoCerta.Application/Services/ProfessionalService.cs:295-323 | the summaries of the first `count` professionals of the rating order (`TopRated`), at most the catalogue, averages non-increasing |
| Professionals.InCategory | MaoCerta.Application/Services/ProfessionalService.cs:281 | exactly the stored professionals of that category |
| Professionals.GetByCategory | MaoCerta.Application/Services/ProfessionalService.cs:276-293 | the summaries of the category's professionals in store order (`InCategory`), each of that category |
| Professionals.CountCompleted | MaoCerta.Application/Services/ProfessionalService.cs:399 | at most the number of requests; a single request counts exactly when it is Completed |
| Professionals.CountOpen | MaoCerta.Application/Services/ProfessionalService.cs:400 | at most the number of requests; a single request counts exactly when it is Pending, Accepted or InProgress |
| Professionals.StatusCountsPartition | MaoCerta.Application/Services/ProfessionalService.cs:399-400 | completed, pending and rejected-or-cancelled counts add up to all requests |
| Professionals.CountsAppend | MaoCerta.Application/Services/ProfessionalService.cs:399-400 | one more request raises exactly the count of its own status: completed, open, or rejected-or-cancelled |
| Professionals.ClosedCountsInNeither | MaoCerta.Application/Services/ProfessionalService.cs:399-400 | a rejected or cancelled request raises neither the completed nor the pending figure |
| Professionals.NewestFirst | MaoCerta.Application/Services/ProfessionalService.cs:403-404 | a permutation of the reviews, newest first |
| Professionals.Recent | MaoCerta.Application/Services/ProfessionalService.cs:403-405 | at most five of the reviews, newest first |
| Professionals.RecentAreNewest | MaoCerta.Application/Services/ProfessionalService.cs:403-405 | no review left out is newer than any review listed |
| Professionals.ClientName | MaoCerta.Application/Services/ProfessionalService.cs:412 | the loaded client's name, or "Cliente #" and the id when the client is not loaded |
| Professionals.ServiceTitle | MaoCerta.Application/Services/ProfessionalService.cs:408-423 | the title of the first request with the review's request id, or "" |
| Professionals.Summarize | MaoCerta.Application/Services/ProfessionalService.cs:409-424 | the review's id, date, overall rating, the five criterion ratings (time taken from speed), comment and points, the reviewer's client name and the title of the request reviewed |
| Professionals.SummarizeAll | MaoCerta.Application/Services/ProfessionalService.cs:406-426 | one summary per review, in order |
| Professionals.ToDetail | MaoCerta.Application/Services/ProfessionalService.cs:370-429 | the profile fields copied; category name or "Categoria" and its icon; review count; the average and each of the five criterion means, all 0 without reviews, time from speed; completed and pending counts by status; the recent reviews are the summaries of the five newest, newest first |
| Professionals.RequestsOf | MaoCerta.Application/Services/ProfessionalService.cs:337 | exactly the stored requests addressed to that professional |
| Professionals.GetDetail | MaoCerta.Application/Services/ProfessionalService.cs:325-346 | none exactly for an unknown id; otherwise `ToDetail` of a professional with that id, with the category of its category id (none when no category has it), over the reviews and requests of that id |
| Sorting.SortBy | MaoCerta.Application/Services/ProfessionalService.cs:228-261 | a permutation ordered on the key |
| Sorting.SortStable | MaoCerta.Application/Services/ProfessionalService.cs:228-261 | elements with equal keys keep their relative order |
| WebReviews.CriterionOfName | MaoCerta.Web/wwwroot/js/professionals.js:161-167 | each page criterion has exactly one key |
| WebReviews.ToJson | MaoCerta.Application/DTOs/ReviewDto.cs:7-31 | the review sent as JSON keeps its id and active flag, carries its overall rating, and under each page criterion the rating of the server criterion behind it |
| WebReviews.SummarizeReviews | MaoCerta.Web/wwwroot/js/professionals.js:170-187 | zeros for no reviews; otherwise each criterion's total, missing ratings as 0, divided by the review count |
| WebReviews.PopulateCriteria | MaoCerta.Web/wwwroot/js/professionalDetail.js:77-100 | the profile page's averages are the search page's summary |
| WebReviews.TotalMatchesServer | MaoCerta.Application/DTOs/ReviewDto.cs:7-31 | on the API's review list each page total is the server's criterion total, "time" being speed |
| WebReviews.SummaryMatchesServer | MaoCerta.Web/wwwroot/js/professionals.js:170-187 | on the API's review list each page average is the server's criterion mean |
| WebReviews.SummaryBounds | MaoCerta.Web/wwwroot/js/professionals.js:174-186 | with ratings in [0, 5], every page average lies in [0, 5] |
| WebReviews.DisplayedAverage | MaoCerta.Web/wwwroot/js/professionalDetail.js:66-75 | 0 without reviews; otherwise the mean overall rating, missing ones as 0 |
| WebReviews.DisplayedAverageMatchesServer | MaoCerta.Web/wwwroot/js/professionalDetail.js:67-70 | on the API's review list the profile shows the server's average rating |
| WebReviews.CleanDescription | MaoCerta.Web/wwwroot/js/professionals.js:240-247 | absent stays absent; without the marker the text is unchanged; with it, the text is cut before the marker and trimmed |
| WebReviews.CleanedHasNoMarker | MaoCerta.Web/wwwroot/js/professionalDetail.js:102-109 | a cleaned description holds the marker in no case |
| WebReviews.CleanIdempotent | MaoCerta.Web/wwwroot/js/professionals.js:240-247 | cleaning twice gives the same as cleaning once |
| Inbox.JsStatus | MaoCerta.Web/wwwroot/js/inbox.js:11-18 | the page's status table agrees with the server's codes |
| Inbox.OfferedActions | MaoCerta.Web/wwwroot/js/inbox.js:201-218 | accept/reject for pending, start/cancel for accepted, complete/generate for in-progress requests, and no button otherwise |
| Inbox.HandleAction | MaoCerta.Web/wwwroot/js/inbox.js:232-260 | "generate" requests a code, "complete" prompts for the code, accept/reject/start/cancel send Accepted/Rejected/InProgress/Cancelled, any other action does nothing |
| Inbox.StatusAfter | MaoCerta.Web/wwwroot/js/inbox.js:232-260 | an unknown action leaves no status; "complete" leads to Completed, "generate" keeps the status, accept/reject/start/cancel lead to Accepted/Rejected/InProgress/Cancelled; no action but "generate" leads to Pending |
| Inbox.UiStepTable | MaoCerta.Web/wwwroot/js/inbox.js:201-260 | the status moves the buttons allow: pending to accepted or rejected, accepted to in progress or cancelled, in progress to completed or unchanged |
| Inbox.CompletedOnlyThroughAcceptedAndStarted | MaoCerta.Web/wwwroot/js/inbox.js:201-260 | using the buttons, a pending request reaches Completed only after Accepted and InProgress, and always from InProgress |
| Inbox.CountWithStatus | MaoCerta.Web/wwwroot/js/inbox.js:154-155 | at most the number of requests; a single request counts exactly when it has the status |
| Inbox.CountWithStatusAppend | MaoCerta.Web/wwwroot/js/inbox.js:154-155 | one more request raises the count exactly when it has the status |
| Inbox.SummaryCountsWithinTotal | MaoCerta.Web/wwwroot/js/inbox.js:153-158 | pending and in-progress counts together are at most the total |
| Inbox.SummaryText | MaoCerta.Web/wwwroot/js/inbox.js:150-159 | the "no requests" text exactly when the list is empty |
| Inbox.StatusBody | MaoCerta.Web/wwwroot/js/inbox.js:294-305 | the code goes in the body exactly when it is a non-empty string |
| Inbox.CompletionBody | MaoCerta.Web/wwwroot/js/inbox.js:279-292 | nothing is sent for a dismissed or blank prompt; otherwise Completed with the trimmed, non-empty code |
| Inbox.TypedCodeCompletes | MaoCerta.Web/wwwroot/js/inbox.js:279-292 | typing the stored code with any surrounding white space completes the request on the server |
| Inbox.ReviewsIndex | MaoCerta.Web/wwwroot/js/inbox.js:54-67 | exactly the listed request ids that have a review, each mapped to that review |
| Inbox.RatingShown | MaoCerta.Web/wwwroot/js/inbox.js:166-169 | the client's rating is shown exactly when the request's code reads as Completed and its review was loaded |
| Inbox.InboxState.constructor | MaoCerta.Web/wwwroot/js/inbox.js:22-27 | no requests and no reviews |
| Inbox.InboxState.LoadReviewsByRequest | MaoCerta.Web/wwwroot/js/inbox.js:54-67 | the index is rebuilt for the requests currently listed |
| Inbox.InboxState.LoadRequests | MaoCerta.Web/wwwroot/js/inbox.js:130-148 | the list is the response, or empty for a null response; the index is untouched |
| Inbox.InboxState.Init | MaoCerta.Web/wwwroot/js/inbox.js:35-52 | the index is built from the requests listed before loading |
| Inbox.InboxState.InitRequestsFirst | MaoCerta.Web/wwwroot/js/inbox.js:49-51 | with requests loaded first, the index covers the loaded requests |
| Inbox.InitOrderHidesRatings | MaoCerta.Web/wwwroot/js/inbox.js:49-51 | on a fresh page no completed request shows its rating; loading requests first shows every one that has a review |
| MyRequests.DisableIfFinal | MaoCerta.Web/wwwroot/js/my-requests.js:87-91 | "disabled" exactly for completed, cancelled and rejected requests, otherwise "" |
| MyRequests.IsFinal | MaoCerta.Web/wwwroot/js/my-requests.js:87-91 | final exactly when the code reads as Completed, Cancelled or Rejected |
| MyRequests.RateButtonFor | MaoCerta.Web/wwwroot/js/my-requests.js:82 | enabled exactly on a completed request not rated yet; hidden exactly once rated |
| MyRequests.JsRound | MaoCerta.Web/wwwroot/js/my-requests.js:175 | the nearest integer, halves rounded up |
| MyRequests.PriceRating | MaoCerta.Web/wwwroot/js/my-requests.js:175 | the rounded mean of the four chosen ratings |
| MyRequests.PriceRatingInIntegers | MaoCerta.Web/wwwroot/js/my-requests.js:175 | the price rating is `(sum + 2) div 4` |
| MyRequests.PriceRatingBounds | MaoCerta.Web/wwwroot/js/my-requests.js:175 | four ratings in [1, 5] give a price rating in [1, 5] |
| MyRequests.RatingDialog.constructor | MaoCerta.Web/wwwroot/js/my-requests.js:143-148 | every criterion starts at five stars |
| MyRequests.RatingDialog.Choose | MaoCerta.Web/wwwroot/js/my-requests.js:150-161 | the clicked criterion takes the star's value; the others stay |
| MyRequests.ReviewPayload | MaoCerta.Web/wwwroot/js/my-requests.js:172-186 | nothing without a signed-in client; otherwise the client, professional and request ids, the chosen ratings, the derived price rating, the comment, and no positive or negative points |
| MyRequests.PayloadRatingsInRange | MaoCerta.Web/wwwroot/js/my-requests.js:172-186 | stars in range give a stored review whose five ratings are all in range |
| MyRequests.RatedRequests.constructor | MaoCerta.Web/wwwroot/js/my-requests.js:200-207 | no request rated |
| MyRequests.RatedRequests.MarkAsRated | MaoCerta.Web/wwwroot/js/my-requests.js:213-221 | the id is rated afterwards and every other id keeps its answer |
| ProfessionalsPage.MinRatingParam | MaoCerta.Web/wwwroot/js/professionals.js:113 | a minimum is sent exactly when the slider reads a positive number |
| ProfessionalsPage.ZeroSliderFiltersNothing | MaoCerta.Web/wwwroot/js/professionals.js:113 | a zero or unreadable slider keeps professionals without reviews |
| ProfessionalsPage.Payload | MaoCerta.Web/wwwroot/js/professionals.js:126-134 | the posted query carries the page, page size, term, category, minimum, sort field and sort direction |
| ProfessionalsPage.CriterionValue | MaoCerta.Web/wwwroot/js/professionals.js:161-167 | the summary's value under a known key, 0 under any other |
| ProfessionalsPage.CriteriaFilter | MaoCerta.Web/wwwroot/js/professionals.js:161-167 | no criteria keeps all; otherwise exactly the professionals whose every selected criterion is at least 4 |
| ProfessionalsPage.UnknownCriterionKeepsNone | MaoCerta.Web/wwwroot/js/professionals.js:161-167 | a selected key naming no criterion empties the list |
| ProfessionalsPage.CeilDiv | MaoCerta.Web/wwwroot/js/professionals.js:85 | the least multiple count covering the total |
| ProfessionalsPage.TotalPages | MaoCerta.Web/wwwroot/js/professionals.js:251 | one page without results; otherwise the fewest pages of the given size that hold them all |
| ProfessionalsPage.OnePageIff | MaoCerta.Web/wwwroot/js/professionals.js:251 | there is at most one page exactly when the total fits on one page |
| ProfessionalsPage.PagerHidden | MaoCerta.Web/wwwroot/js/professionals.js:251-252 | the pager is hidden exactly when the total fits on one page |
| ProfessionalsPage.NextNeverEnabled | MaoCerta.Web/wwwroot/js/professionals.js:85-88 | with at most one page of results, "next" is never enabled |
| ProfessionalsPage.PageState.constructor | MaoCerta.Web/wwwroot/js/professionals.js:2-9 | page 1, nothing shown, empty cache |
| ProfessionalsPage.PageState.ResetPage | MaoCerta.Web/wwwroot/js/professionals.js:65-73 | back to page 1, nothing else changed |
| ProfessionalsPage.PageState.Prev | MaoCerta.Web/wwwroot/js/professionals.js:81-83 | one page back, never below 1 |
| ProfessionalsPage.PageState.Next | MaoCerta.Web/wwwroot/js/professionals.js:85-88 | one page on only below the page count, which in practice never happens |
| ProfessionalsPage.PageState.EnrichWithDetails | MaoCerta.Web/wwwroot/js/professionals.js:147-168 | cached summaries kept, every shown professional summarized once, then the criteria filter applied |
| ProfessionalsPage.PageState.ShowResults | MaoCerta.Web/wwwroot/js/professionals.js:136-139 | the list is the filtered response and the total its length; cached summaries are kept, every professional of the response has one, and each new one is the summary of that professional's fetched reviews |
| ProfessionalsPage.PageState.Fetch | MaoCerta.Web/wwwroot/js/professionals.js:120-145 | the list is the criteria-filtered server search for the form's filters; cached summaries are kept, and every professional found has one, a new one being the summary of its fetched reviews |
| ProfessionalDetailPage.ShownReviews | MaoCerta.Web/wwwroot/js/professionalDetail.js:118-135 | a prefix of the reviews passing the filter, in list order, of length the smaller of ten and their number |
| ProfessionalDetailPage.ReviewShown | MaoCerta.Web/wwwroot/js/professionalDetail.js:120-130 | a review passes exactly when it meets the minimum (if any) and, for a non-empty key, the key names a criterion the review rates at least 4; a key naming no criterion hides every review |
| ProfessionalDetailPage.UnfilteredShowsFirstTen | MaoCerta.Web/wwwroot/js/professionalDetail.js:118-135 | with no filter, the first ten reviews as they are |
| ProfessionalDetailPage.HigherMinimumShowsFewer | MaoCerta.Web/wwwroot/js/professionalDetail.js:121 | a review shown at a higher minimum is shown at a lower one |
| ProfessionalDetailPage.OwnProfileIgnoresCase | MaoCerta.Web/wwwroot/js/professionalDetail.js:157-161 | the check is symmetric and ignores case |
| ProfessionalDetailPage.IsOwnProfile | MaoCerta.Web/wwwroot/js/professionalDetail.js:157-161 | exactly when both addresses are present and non-empty and equal once lower-cased; identical addresses always match |
| ProfessionalDetailPage.DetailState.constructor | MaoCerta.Web/wwwroot/js/professionalDetail.js:22-32 | no reviews |
| ProfessionalDetailPage.DetailState.Load | MaoCerta.Web/wwwroot/js/professionalDetail.js:22-36 | the fetched list when it is an array, otherwise no reviews and all figures 0 |
| ReviewFormPage.CriteriaInput | MaoCerta.Web/wwwroot/js/reviewForm.js:113-118 | a slider accepting exactly 1..5, starting at its maximum 5 |
| ReviewFormPage.SubmitPayload | MaoCerta.Web/wwwroot/js/reviewForm.js:42-58 | nothing when either id is missing or 0; otherwise the ids, the form's ratings, and the comment and positive and negative points, each empty text sent as null |
| ReviewFormPage.SliderValuesInRange | MaoCerta.Web/wwwroot/js/reviewForm.js:42-58 | slider values give a review whose ratings are all in range |
| ReviewFormPage.AdminFilter | MaoCerta.Web/wwwroot/js/reviewForm.js:146-156 | exactly the reviews matching the status and minimum rating, in order |
| ReviewFormPage.AdminVisible | MaoCerta.Web/wwwroot/js/reviewForm.js:151-156 | an unknown status with no minimum hides nothing; "active" hides exactly the explicitly inactive reviews when no minimum is set; "inactive" shows only those; a review whose rating (0 when missing) is below a set minimum is hidden; with no minimum, "inactive" shows every explicitly inactive review; a review meeting a set minimum is listed exactly when it passes the status rule ("active" excludes explicitly inactive reviews, "inactive" admits only those) |
| ReviewFormPage.ActiveInactivePartition | MaoCerta.Web/wwwroot/js/reviewForm.js:152-153 | every review is listed under exactly one of "active" and "inactive" |
| ReviewFormPage.OtherStatusListsAll | MaoCerta.Web/wwwroot/js/reviewForm.js:149-155 | any other status filters nothing |
| ReviewFormPage.AdminReviewList.constructor | MaoCerta.Web/wwwroot/js/reviewForm.js:133-136 | an empty list |
| ReviewFormPage.AdminReviewList.Load | MaoCerta.Web/wwwroot/js/reviewForm.js:133-144 | the fetched list, or empty for a null response |
| ReviewFormPage.AdminReviewList.Remove | MaoCerta.Web/wwwroot/js/reviewForm.js:190 | every entry with the id removed, the others kept in order |
| ReviewFormPage.RemovedCount | MaoCerta.Web/wwwroot/js/reviewForm.js:190 | the list shrinks by the number of entries with the id |
| ReviewFormPage.NoIdKeepsAll | MaoCerta.Web/wwwroot/js/reviewForm.js:190 | an absent id removes nothing |
| Registration.Digits | MaoCerta.Web/wwwroot/js/register-professional.js:183-185 | only digits, never longer than the input; a single character is kept exactly when it is a digit |
| Registration.DigitsAppend | MaoCerta.Web/wwwroot/js/register-professional.js:183-185 | digits of a concatenation are the concatenated digits |
| Registration.DigitsOfDigits | MaoCerta.Web/wwwroot/js/register-professional.js:183-185 | a string of digits is kept whole |
| Registration.NormalizeDigits | MaoCerta.Web/wwwroot/js/register-client.js:125-127 | a missing value gives ""; otherwise its digits |
| Registration.NormalizeIdempotent | MaoCerta.Web/wwwroot/js/register-professional.js:183-185 | normalising twice is normalising once |
| Registration.ValidatePhone | MaoCerta.Web/wwwroot/js/register-professional.js:173-177 | valid exactly with 10 or 11 digits |
| Registration.FormatCep | MaoCerta.Web/wwwroot/js/register-professional.js:187-191 | eight digits become "DDDDD-DDD" holding those digits; anything else is unchanged |
| Registration.FormatCepIdempotent | MaoCerta.Web/wwwroot/js/register-professional.js:187-191 | formatting keeps the digits and is idempotent |
| Registration.SplitName | MaoCerta.Web/wwwroot/js/register-professional.js:162-167 | the first word and the rest joined by spaces; one word is both; no words keeps the input |
| Registration.WordsOfJoin | MaoCerta.Web/wwwroot/js/register-client.js:110-115 | splitting words joined by spaces gives back the words |
| Registration.SplitNameRoundTrip | MaoCerta.Web/wwwroot/js/register-client.js:110-115 | first and last name joined by a space give back the full name |
| Registration.SplitSingleWord | MaoCerta.Web/wwwroot/js/register-client.js:110-115 | a one-word name is both first and last name |
| Registration.FirstFailure | MaoCerta.Web/wwwroot/js/register-professional.js:113-125 | none exactly when every check passes; otherwise the message of the first failing one |
| Registration.ValidateProfessional | MaoCerta.Web/wwwroot/js/register-professional.js:113-125 | no message exactly when the whole form is valid |
| Registration.ValidateProfessionalFirstFailure | MaoCerta.Web/wwwroot/js/register-professional.js:113-125 | the validator reports the first failing check in the listed order |
| Registration.ProfessionalAddressChecks | MaoCerta.Web/wwwroot/js/register-professional.js:119-123 | once the identity checks pass, the remaining checks decide |
| Registration.ValidateClient | MaoCerta.Web/wwwroot/js/register-client.js:58-65 | no message exactly with name, e-mail, accepted terms and matching passwords |
| Registration.ValidateClientFirstFailure | MaoCerta.Web/wwwroot/js/register-client.js:58-65 | terms are checked before passwords, and the first failure is reported |
| Registration.AddressParts | MaoCerta.Web/wwwroot/js/register-professional.js:139-145 | the five parts with their labels: street and number, complement, "Bairro" neighbourhood, city/state, "CEP" formatted CEP; the optional ones empty exactly when not given |
| Registration.AddressKeptParts | MaoCerta.Web/wwwroot/js/register-professional.js:139-144 | the parts kept on the line: street and number, and city and state, always; complement, neighbourhood and CEP exactly when given; in that order |
| Registration.BuildAddress | MaoCerta.Web/wwwroot/js/register-professional.js:139-145 | the kept parts, in order, joined by " - " |
| Text.NonEmptyAppend | MaoCerta.Web/wwwroot/js/register-professional.js:144 | dropping empty strings distributes over concatenation, so the kept strings keep their order |
| Registration.FullAddress | MaoCerta.Web/wwwroot/js/register-professional.js:139-145 | with every optional part given, all five parts are joined by " - " |
| Registration.MinimalAddress | MaoCerta.Web/wwwroot/js/register-professional.js:139-145 | without the optional parts, the line is "street, number - city/state" |
| Registration.ClientRegisterPayload | MaoCerta.Web/wwwroot/js/register-client.js:90-99 | the split name, e-mail and password; an empty phone sent as null |
| Registration.ProfessionalRegisterPayload | MaoCerta.Web/wwwroot/js/register-professional.js:127-136 | the split name, e-mail and password; the phone always sent |
| Registration.BuildClientPayload | MaoCerta.Web/wwwroot/js/register-client.js:101-108 | an empty phone stays ""; an empty CPF sent as null |
| Api.StripTrailingSlash | MaoCerta.Web/wwwroot/js/api.js:16-20 | a missing address gives ""; exactly one trailing "/" is removed |
| Api.StripOnlyOneSlash | MaoCerta.Web/wwwroot/js/api.js:19 | an address ending in "//" keeps one "/" |
| Api.BuildUrl | MaoCerta.Web/wwwroot/js/api.js:24-33 | no path gives the base; an absolute URL is kept; a path starting with "/" is appended to the base; any other path is appended after one "/" |
| Api.LeadingSlashOptional | MaoCerta.Web/wwwroot/js/api.js:31 | writing the path's leading "/" oneself changes nothing |
| Api.KeptEntries | MaoCerta.Web/wwwroot/js/api.js:120-121 | exactly the entries that are neither undefined, null nor "", in order |
| Api.Pairs | MaoCerta.Web/wwwroot/js/api.js:125 | one encoded `key=value` per kept entry |
| Api.BuildQuery | MaoCerta.Web/wwwroot/js/api.js:119-126 | "" exactly when nothing is kept; otherwise starts with "?" |
| Api.QuerySplitsIntoPairs | MaoCerta.Web/wwwroot/js/api.js:119-126 | when encoding leaves no "&", the query splits back into its pairs |

## Left out

- HTTP controllers, routing, authentication and authorization are outside the core; each service call is modelled directly.
- Entity Framework persistence is modelled as in-memory tables. Navigation properties become explicit parameters, and the unique e-mail index is not enforced by the client store.
- Asynchrony and logging are left out. So is `ClientService.CreateAsync`'s recovery from `DbUpdateException` (ClientService.cs:82-102), which depends on database timing.
- The services' `MapToDto` for service requests and reviews are not modelled: they only copy fields into transfer objects.
- `GetByClientIdAsync` and `GetByProfessionalIdAsync` return maps keyed by id, so their list order is not modelled.
- Culture-sensitive comparisons (`ToLower`, `OrderBy` on names) are modelled with ordinal order and ASCII case folding. Unicode white space and case are not modelled.
- The int32 arithmetic of `(page - 1) * pageSize` is unbounded here, so its overflow is not modelled.
- Floating point is exact `real` arithmetic. `toFixed` rounding for display is not modelled.
- `encodeURIComponent` is a parameter of the query builder; its encoding table is not modelled.
- The DOM, the network, `localStorage`, `window.prompt` and `Promise.all` concurrency are replaced by parameters and return values.
- JavaScript lookups of page keys on prototype properties (such as "constructor") are not modelled; unknown keys read as 0.
- Each operation reads `DateTime.UtcNow` once here, where the source reads it up to twice.
- `ensureEmailAvailable` is not modelled, in either `register-client.js` or `register-professional.js` (`register-professional.js:74-89`): both versions consist only of network calls.
- The professional payload's plain field copies are not modelled beyond the address line. The category parsing of the search form is not modelled either: the category arrives already parsed.
- `inbox.js`'s profile loading and caching (`loadProfessionalProfile`, `readCachedProfessional`) and `loadAverageRating` are not modelled: they consist only of network and storage calls.

## Findings

| source | as written | input that shows it | evidently intended | confidence | as-written member | corrected member |
|---|---|---|---|---|---|---|
| MaoCerta.Web/wwwroot/js/inbox.js:49-51 | `init` loads the reviews by request before it loads the requests, so the index is built over an empty list | a professional opening the inbox with a completed request that the client has reviewed | load the requests first, then the reviews of those requests, so the client's rating is shown | not executed | Inbox.InboxState.Init, Inbox.InitOrderHidesRatings | Inbox.InboxState.InitRequestsFirst |
