/**
 * What the web pages compute from the review list the API returns: the
 * per-criterion summaries of `professionals.js` (`summarizeReviews`) and
 * `professionalDetail.js` (`populateCriteria`), the displayed average of
 * `populateMetrics`, and the description cleaner both pages share.
 *
 * A review arrives as JSON, where any rating may be missing; the pages count
 * a missing rating as 0. The API itself always sends every field, and for
 * such lists the pages' figures are the server's own means.
 */
module WebReviews {
  import opened Common
  import opened Text
  import opened Domain

  /** A review as the pages read it from JSON. */
  datatype ReviewJson = ReviewJson(
    id: int,
    qualityRating: Option<int>,
    speedRating: Option<int>,
    communicationRating: Option<int>,
    professionalismRating: Option<int>,
    overallRating: Option<real>,
    isActive: Option<bool>)

  /** The JSON the API sends for a stored review (`ReviewDto`): every field present. */
  function ToJson(r: Review): (j: ReviewJson)
    ensures j.id == r.id && j.isActive == Some(r.isActive)
    ensures j.overallRating == Some(OverallRating(r))
    ensures forall c :: PageRating(j, c) == RatingOf(r, ServerCriterion(c))
  {
    ReviewJson(r.id, Some(r.qualityRating), Some(r.speedRating), Some(r.communicationRating),
      Some(r.professionalismRating), Some(OverallRating(r)), Some(r.isActive))
  }

  function ToJsonAll(rs: seq<Review>): seq<ReviewJson>
  {
    seq(|rs|, i requires 0 <= i < |rs| => ToJson(rs[i]))
  }

  // ---------------------------------------------------------------------------
  // Criterion keys
  // ---------------------------------------------------------------------------

  /** The four criteria the pages show, under their page keys. */
  datatype PageCriterion = QualityKey | TimeKey | CommunicationKey | ProfessionalismKey

  function CriterionName(c: PageCriterion): string
  {
    match c
    case QualityKey => "quality"
    case TimeKey => "time"
    case CommunicationKey => "communication"
    case ProfessionalismKey => "professionalism"
  }

  /** The criterion a page key names, if any: each criterion has exactly one key. */
  function CriterionOfName(name: string): (r: Option<PageCriterion>)
    ensures forall c :: r == Some(c) <==> CriterionName(c) == name
  {
    if name == "quality" then Some(QualityKey)
    else if name == "time" then Some(TimeKey)
    else if name == "communication" then Some(CommunicationKey)
    else if name == "professionalism" then Some(ProfessionalismKey)
    else None
  }

  /** The server criterion behind a page key: "time" is the speed rating. */
  function ServerCriterion(c: PageCriterion): Criterion
  {
    match c
    case QualityKey => Quality
    case TimeKey => Speed
    case CommunicationKey => Communication
    case ProfessionalismKey => Professionalism
  }

  /** A review's rating for a page criterion, a missing one read as 0 (`?? 0`). */
  function PageRating(r: ReviewJson, c: PageCriterion): int
  {
    var v := match c
      case QualityKey => r.qualityRating
      case TimeKey => r.speedRating
      case CommunicationKey => r.communicationRating
      case ProfessionalismKey => r.professionalismRating;
    if v.Some? then v.value else 0
  }

  /** The page ratings of a criterion over a review list, in list order. */
  function PageRatings(rs: seq<ReviewJson>, c: PageCriterion): (v: seq<int>)
    ensures |v| == |rs| && forall i :: 0 <= i < |rs| ==> v[i] == PageRating(rs[i], c)
  {
    if rs == [] then [] else [PageRating(rs[0], c)] + PageRatings(rs[1..], c)
  }

  /** One criterion's running total in the `reduce`. */
  function Total(rs: seq<ReviewJson>, c: PageCriterion): int
  {
    Sum(PageRatings(rs, c))
  }

  /** The four averages of a summary, under their page keys. */
  datatype CriteriaAverages = CriteriaAverages(quality: real, time: real, communication: real, professionalism: real)

  function Field(a: CriteriaAverages, c: PageCriterion): real
  {
    match c
    case QualityKey => a.quality
    case TimeKey => a.time
    case CommunicationKey => a.communication
    case ProfessionalismKey => a.professionalism
  }

  const Zeros := CriteriaAverages(0.0, 0.0, 0.0, 0.0)

  // ---------------------------------------------------------------------------
  // Summaries
  // ---------------------------------------------------------------------------

  /**
   * `summarizeReviews` (professionals.js): all zeros for no reviews, otherwise
   * each criterion's total over the number of reviews.
   */
  function SummarizeReviews(rs: seq<ReviewJson>): (a: CriteriaAverages)
    ensures rs == [] ==> a == Zeros
    ensures rs != [] ==> forall c :: Field(a, c) == Total(rs, c) as real / |rs| as real
  {
    if rs == [] then Zeros
    else
      var n := |rs| as real;
      CriteriaAverages(Total(rs, QualityKey) as real / n, Total(rs, TimeKey) as real / n,
        Total(rs, CommunicationKey) as real / n, Total(rs, ProfessionalismKey) as real / n)
  }

  /**
   * `populateCriteria` (professionalDetail.js): totals divided by the number
   * of reviews, or by 1 when there are none. It shows exactly what the search
   * page's summary shows.
   */
  function PopulateCriteria(rs: seq<ReviewJson>): (a: CriteriaAverages)
    ensures rs == [] ==> a == Zeros
    ensures a == SummarizeReviews(rs)
  {
    var d := if |rs| == 0 then 1.0 else |rs| as real;
    CriteriaAverages(Total(rs, QualityKey) as real / d, Total(rs, TimeKey) as real / d,
      Total(rs, CommunicationKey) as real / d, Total(rs, ProfessionalismKey) as real / d)
  }

  /** On the API's review list, each page criterion's total is the server's total of that criterion. */
  lemma TotalMatchesServer(rs: seq<Review>, c: PageCriterion)
    ensures Total(ToJsonAll(rs), c) == Sum(CriterionValues(rs, ServerCriterion(c)))
  {
    var js := ToJsonAll(rs);
    assert PageRatings(js, c) == CriterionValues(rs, ServerCriterion(c)) by {
      forall i | 0 <= i < |rs|
        ensures PageRatings(js, c)[i] == CriterionValues(rs, ServerCriterion(c))[i]
      {
        assert js[i] == ToJson(rs[i]);
      }
    }
  }

  /**
   * On the API's review list of a professional, every criterion the search
   * page summarizes is the server's per-criterion mean (`time` being speed),
   * 0 included for a professional without reviews.
   */
  lemma SummaryMatchesServer(rs: seq<Review>, c: PageCriterion)
    ensures Field(SummarizeReviews(ToJsonAll(rs)), c) == CriterionMean(rs, ServerCriterion(c))
  {
    if rs != [] {
      TotalMatchesServer(rs, c);
      SumAsReals(CriterionValues(rs, ServerCriterion(c)));
    }
  }

  /** With every present rating in [1, 5], each summarized criterion lies in [0, 5]. */
  lemma {:induction false} TotalBounds(rs: seq<ReviewJson>, c: PageCriterion)
    requires forall i :: 0 <= i < |rs| ==> 0 <= PageRating(rs[i], c) <= 5
    ensures 0 <= Total(rs, c) <= 5 * |rs|
  {
    if rs != [] {
      TotalBounds(rs[1..], c);
      assert PageRatings(rs, c) == [PageRating(rs[0], c)] + PageRatings(rs[1..], c);
    }
  }

  lemma SummaryBounds(rs: seq<ReviewJson>, c: PageCriterion)
    requires forall i :: 0 <= i < |rs| ==> 0 <= PageRating(rs[i], c) <= 5
    ensures 0.0 <= Field(SummarizeReviews(rs), c) <= 5.0
  {
    TotalBounds(rs, c);
    if rs != [] {
      RatioBounds(Total(rs, c) as real, |rs| as real);
    }
  }

  lemma RatioBounds(total: real, n: real)
    requires n > 0.0 && 0.0 <= total <= 5.0 * n
    ensures 0.0 <= total / n <= 5.0
  {
    var q := total / n;
    assert q * n == total;
  }

  // ---------------------------------------------------------------------------
  // Displayed average
  // ---------------------------------------------------------------------------

  /** The reviews' overall ratings, a missing one read as 0. */
  function OverallValues(rs: seq<ReviewJson>): (v: seq<real>)
    ensures |v| == |rs|
    ensures forall i :: 0 <= i < |rs| ==> v[i] == (if rs[i].overallRating.Some? then rs[i].overallRating.value else 0.0)
  {
    if rs == [] then []
    else [if rs[0].overallRating.Some? then rs[0].overallRating.value else 0.0] + OverallValues(rs[1..])
  }

  /** `populateMetrics`: 0 without reviews, otherwise the mean overall rating. */
  function DisplayedAverage(rs: seq<ReviewJson>): (avg: real)
    ensures rs == [] ==> avg == 0.0
    ensures rs != [] ==> avg == Mean(OverallValues(rs))
  {
    if |rs| == 0 then 0.0 else SumReal(OverallValues(rs)) / |rs| as real
  }

  /** On the API's review list the profile page shows the server's average rating. */
  lemma DisplayedAverageMatchesServer(rs: seq<Review>)
    ensures DisplayedAverage(ToJsonAll(rs)) == AverageRating(rs)
  {
    var js := ToJsonAll(rs);
    if rs != [] {
      assert OverallValues(js) == Overalls(rs) by {
        forall i | 0 <= i < |rs| ensures OverallValues(js)[i] == Overalls(rs)[i] {
          assert js[i] == ToJson(rs[i]);
        }
      }
    }
  }

  // ---------------------------------------------------------------------------
  // Description cleaner
  // ---------------------------------------------------------------------------

  /** The label after which registration appended document links to a description. */
  const Marker := "documentos/links:"

  /**
   * `cleanDescription`: a missing or empty description is returned as it is;
   * otherwise the text before the first case-insensitive marker, trimmed, or
   * the whole text when there is no marker.
   */
  function CleanDescription(text: Option<string>): (r: Option<string>)
    ensures text.None? ==> r.None?
    ensures text.Some? ==> r.Some?
    ensures text.Some? && IndexOf(Lower(text.value), Marker).None? ==> r == text
    ensures text.Some? && text.value != [] && IndexOf(Lower(text.value), Marker).Some? ==>
      r == Some(Trim(text.value[..IndexOf(Lower(text.value), Marker).value]))
  {
    if text.None? || text.value == "" then text
    else
      var m := IndexOf(Lower(text.value), Marker);
      if m.Some? then Some(Trim(text.value[..m.value])) else text
  }

  /** Case folding commutes with slicing. */
  lemma LowerOfSlice(s: string, a: int, b: int)
    requires 0 <= a <= b <= |s|
    ensures Lower(s[a..b]) == Lower(s)[a..b]
  {
  }

  /** An occurrence inside a slice is an occurrence in the whole string, shifted by the slice's start. */
  lemma OccursInSlice(s: string, a: int, b: int, pat: string, j: int)
    requires 0 <= a <= b <= |s| && OccursAt(s[a..b], pat, j)
    ensures OccursAt(s, pat, a + j)
  {
    forall x | 0 <= x < |pat| ensures s[a + j + x] == pat[x] {
      assert s[a..b][j + x] == pat[x];
    }
    assert s[a + j..a + j + |pat|] == pat;
  }

  /** `pat` starts nowhere in `t` before position `m`. */
  predicate AbsentBefore(t: string, pat: string, m: nat)
  {
    forall j :: 0 <= j < m ==> !OccursAt(t, pat, j)
  }

  /** A slice of `t` ending before the first occurrence of a non-empty `pat` holds no `pat`. */
  lemma NoOccurrenceInSlice(t: string, pat: string, m: nat, a: nat, b: nat, u: string)
    requires a <= b <= m <= |t| && |pat| > 0 && AbsentBefore(t, pat, m) && u == t[a..b]
    ensures IndexOf(u, pat).None?
  {
    var found := IndexOf(u, pat);
    if found.Some? {
      OccursInSlice(t, a, b, pat, found.value);
      assert false;
    }
  }

  /** A piece of `s` ending before the first occurrence of `pat` in `Lower(s)` holds no `pat` once folded. */
  lemma NoOccurrenceBefore(s: string, pat: string, m: nat, k: nat, len: nat)
    requires k + len <= m <= |s| && |pat| > 0 && AbsentBefore(Lower(s), pat, m)
    ensures IndexOf(Lower(s[k..k + len]), pat).None?
  {
    LowerOfSlice(s, k, k + len);
    NoOccurrenceInSlice(Lower(s), pat, m, k, k + len, Lower(s[k..k + len]));
  }

  lemma SliceOfPrefix<T>(s: seq<T>, m: nat, a: nat, b: nat)
    requires a <= b <= m <= |s|
    ensures s[..m][a..b] == s[a..b]
  {
  }

  /** A trimmed prefix of `s` is a contiguous piece of `s` within that prefix. */
  lemma TrimPrefixSlice(s: string, m: nat) returns (k: nat)
    requires m <= |s|
    ensures k + |Trim(s[..m])| <= m && Trim(s[..m]) == s[k..k + |Trim(s[..m])|]
  {
    k := TrimSlice(s[..m]);
    SliceOfPrefix(s, m, k, k + |Trim(s[..m])|);
  }

  /** Cutting `s` at the first folded occurrence of `pat` and trimming leaves no occurrence of `pat`. */
  lemma CutHasNoOccurrence(s: string, pat: string)
    requires |pat| > 0 && IndexOf(Lower(s), pat).Some?
    ensures IndexOf(Lower(Trim(s[..IndexOf(Lower(s), pat).value])), pat).None?
  {
    var m := IndexOf(Lower(s), pat).value;
    var k := TrimPrefixSlice(s, m);
    assert AbsentBefore(Lower(s), pat, m);
    NoOccurrenceBefore(s, pat, m, k, |Trim(s[..m])|);
  }

  /** A cleaned description holds no marker, in any case. */
  lemma CleanedHasNoMarker(text: Option<string>)
    requires text.Some? && IndexOf(Lower(text.value), Marker).Some?
    ensures CleanDescription(text).Some?
    ensures IndexOf(Lower(CleanDescription(text).value), Marker).None?
  {
    assert |Lower(text.value)| >= |Marker|;
    CutHasNoOccurrence(text.value, Marker);
  }


  /** Cleaning a cleaned description changes nothing. */
  lemma CleanIdempotent(text: Option<string>)
    ensures CleanDescription(CleanDescription(text)) == CleanDescription(text)
  {
    if text.Some? && text.value != [] && IndexOf(Lower(text.value), Marker).Some? {
      CleanedHasNoMarker(text);
    }
  }
}
