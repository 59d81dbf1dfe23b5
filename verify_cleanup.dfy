/** The cleanup-verification page (app/verify-cleanup/page.tsx): it finds the
    report identifier, checks that it is a 24-digit hexadecimal object id,
    loads the original report (or a placeholder), and posts an "after" image
    for verification, classifying the backend's reply. */
module VerifyCleanup {
  import opened Common
  import opened Strings

  // ---------------------------------------------------------------------------
  // The report identifier

  /** The token some links put in front of the backend's object id. */
  const ReportPrefix: string := "report_"

  /** `raw.replace(/^report_/, "")`: one leading prefix is removed, nothing
      else changes. */
  function StripReportPrefix(raw: string): (cleaned: string)
    ensures ReportPrefix <= raw ==> raw == ReportPrefix + cleaned
    ensures !(ReportPrefix <= raw) ==> cleaned == raw
  {
    if ReportPrefix <= raw then raw[|ReportPrefix|..] else raw
  }

  /** Stripping undoes prepending the prefix, and only one copy goes. */
  lemma StripRemovesOnePrefix(id: string)
    ensures StripReportPrefix(ReportPrefix + id) == id
    ensures StripReportPrefix(ReportPrefix + ReportPrefix + id) == ReportPrefix + id
  {
    assert ReportPrefix + ReportPrefix + id == ReportPrefix + (ReportPrefix + id);
  }

  /** The identifier the page settles on: the URL parameter `reportId` when
      it is truthy, otherwise the window handoff value when that is truthy,
      otherwise none (and the page keeps the identifier it had). */
  function SelectReportId(urlParam: Option<string>, windowValue: Option<string>): (id: Option<string>)
    ensures Truthy(urlParam) ==> id == Some(StripReportPrefix(urlParam.value))
    ensures !Truthy(urlParam) && Truthy(windowValue) ==> id == Some(StripReportPrefix(windowValue.value))
    ensures !Truthy(urlParam) && !Truthy(windowValue) ==> id == None
  {
    if Truthy(urlParam) then Some(StripReportPrefix(urlParam.value))
    else if Truthy(windowValue) then Some(StripReportPrefix(windowValue.value))
    else None
  }

  /** A truthy URL parameter decides alone: the window value is never read. */
  lemma UrlParameterWins(urlParam: Option<string>, w1: Option<string>, w2: Option<string>)
    requires Truthy(urlParam)
    ensures SelectReportId(urlParam, w1) == SelectReportId(urlParam, w2)
  {
  }

  /** The regular expression `/^[0-9a-fA-F]{24}$/`: a MongoDB object id. */
  predicate IsObjectId(id: string)
  {
    |id| == 24 && forall i :: 0 <= i < |id| ==> IsHexDigit(id[i])
  }

  /** An object id cannot start with the prefix (`r` is no hex digit), so a
      clean id passes through the strip unchanged. */
  lemma ObjectIdHasNoPrefix(id: string)
    requires IsObjectId(id)
    ensures StripReportPrefix(id) == id
  {
    assert ReportPrefix[0] == 'r' && !IsHexDigit('r');
    assert IsHexDigit(id[0]);
  }

  /** A prefixed object id fails the format check as it stands, and is
      resolved to the bare, valid id from either source. */
  lemma PrefixedObjectIdResolves(hex: string, other: Option<string>)
    requires IsObjectId(hex)
    ensures !IsObjectId(ReportPrefix + hex)
    ensures SelectReportId(Some(ReportPrefix + hex), other) == Some(hex)
    ensures SelectReportId(None, Some(ReportPrefix + hex)) == Some(hex)
  {
    StripRemovesOnePrefix(hex);
  }

  // ---------------------------------------------------------------------------
  // Messages

  const MissingIdError: string := "Report ID is missing"
  const NoImageError: string := "Please upload an after-cleanup image"
  const ReportLoadError: string := "Failed to load the original report details"
  const InvalidFormatError: string := "Invalid API response format"
  const UnknownFailureError: string := "Failed to verify cleanup"

  function InvalidIdError(id: string): string
  {
    "Invalid report ID format: " + id
      + ". The API requires a 24-character hex string (MongoDB ObjectId)."
  }

  function StatusError(status: nat, text: string): string
  {
    "Verification failed with status: " + NatToString(status) + ". " + text
  }

  // ---------------------------------------------------------------------------
  // Pre-flight guards of the submit handler

  /** The error the submit handler stops with before any request, checking
      in order: a missing identifier, a malformed identifier, a missing
      image. `None` means every guard passed and the request is sent. */
  function PreflightError(reportId: Option<string>, hasImage: bool): (e: Option<string>)
    ensures e.None? <==> Truthy(reportId) && IsObjectId(reportId.value) && hasImage
    ensures !Truthy(reportId) ==> e == Some(MissingIdError)
    ensures Truthy(reportId) && !IsObjectId(reportId.value) ==> e == Some(InvalidIdError(reportId.value))
    ensures Truthy(reportId) && IsObjectId(reportId.value) && !hasImage ==> e == Some(NoImageError)
  {
    if !Truthy(reportId) then Some(MissingIdError)
    else if !IsObjectId(reportId.value) then Some(InvalidIdError(reportId.value))
    else if !hasImage then Some(NoImageError)
    else None
  }

  /** The three guard messages differ, so the error names the first guard
      that failed. */
  lemma PreflightMessagesDistinct(id: string)
    ensures MissingIdError != NoImageError
    ensures InvalidIdError(id) != MissingIdError
    ensures InvalidIdError(id) != NoImageError
  {
    assert MissingIdError[0] == 'R' && NoImageError[0] == 'P';
    assert InvalidIdError(id)[0] == 'I';
  }

  // ---------------------------------------------------------------------------
  // The verification reply

  /** A JSON value as `response.json()` produces it. */
  datatype Json =
    | JNull
    | JBool(b: bool)
    | JNum(n: real)
    | JStr(s: string)
    | JArr(items: seq<Json>)
    | JObj(fields: map<string, Json>)

  /** What a failed `fetch` or body read throws: an `Error` with its message,
      or some other value. */
  datatype Thrown = ErrorValue(message: string) | NonErrorValue

  /** How the verification request ends: it throws, the response is not ok
      (status and body text), or a JSON body arrives. */
  datatype VerifyReply =
    | Rejected(thrown: Thrown)
    | NotOk(status: nat, text: string)
    | Delivered(data: Json)

  /** The result record the page stores; `None` is a field the reply lacked
      (read as `undefined`). */
  datatype VerificationResult = VerificationResult(
    status: Option<Json>,
    isSameLocation: Option<Json>,
    isClean: Option<Json>,
    improvementPercentage: Option<Json>)

  /** The check `!data || typeof data !== "object"` rejects `null` and the
      primitives; arrays and objects pass. */
  predicate IsObjectLike(data: Json)
  {
    data.JArr? || data.JObj?
  }

  /** `data.key` (and `key in data`) for the four keys the page reads; an
      array has none of them. */
  function Property(data: Json, key: string): Option<Json>
  {
    if data.JObj? && key in data.fields then Some(data.fields[key]) else None
  }

  predicate HasExpectedFields(data: Json)
  {
    && Property(data, "status").Some?
    && Property(data, "is_same_location").Some?
    && Property(data, "is_clean").Some?
    && Property(data, "improvement_percentage").Some?
  }

  /** The message the `catch` block shows for a thrown value. */
  function ThrownMessage(t: Thrown): string
  {
    match t
    case ErrorValue(m) => m
    case NonErrorValue => UnknownFailureError
  }

  /** The reply either fails with the message the page shows, or is accepted
      with the result it stores; `complete` is false when the page only
      warns about missing fields. */
  datatype Outcome = Failed(message: string) | Accepted(result: VerificationResult, complete: bool)

  /** The response checks in order: a thrown value, a response that is not
      ok, a body that is not an object. Any object-like body is accepted,
      with or without the expected fields. */
  function ClassifyReply(reply: VerifyReply): (o: Outcome)
    ensures o.Accepted? <==> reply.Delivered? && IsObjectLike(reply.data)
    ensures reply.Rejected? ==> o == Failed(ThrownMessage(reply.thrown))
    ensures reply.NotOk? ==> o == Failed(StatusError(reply.status, reply.text))
    ensures reply.Delivered? && !IsObjectLike(reply.data) ==> o == Failed(InvalidFormatError)
    ensures o.Accepted? ==> o.complete == HasExpectedFields(reply.data)
    ensures o.Accepted? ==> && o.result.status == Property(reply.data, "status")
                            && o.result.isSameLocation == Property(reply.data, "is_same_location")
                            && o.result.isClean == Property(reply.data, "is_clean")
                            && o.result.improvementPercentage == Property(reply.data, "improvement_percentage")
  {
    match reply
    case Rejected(t) => Failed(ThrownMessage(t))
    case NotOk(status, text) => Failed(StatusError(status, text))
    case Delivered(data) =>
      if !IsObjectLike(data) then Failed(InvalidFormatError)
      else Accepted(
        VerificationResult(
          Property(data, "status"), Property(data, "is_same_location"),
          Property(data, "is_clean"), Property(data, "improvement_percentage")),
        HasExpectedFields(data))
  }

  /** A complete accepted result has all four fields, and an object carrying
      the four keys is accepted completely with exactly their values. */
  lemma CompleteReplyFillsResult(reply: VerifyReply)
    requires ClassifyReply(reply).Accepted? && ClassifyReply(reply).complete
    ensures var r := ClassifyReply(reply).result;
      r.status.Some? && r.isSameLocation.Some? && r.isClean.Some? && r.improvementPercentage.Some?
  {
  }

  lemma ObjectReplyAccepted(status: Json, same: Json, clean: Json, pct: Json, extra: map<string, Json>)
    ensures var data := JObj(extra["status" := status]["is_same_location" := same]
                                  ["is_clean" := clean]["improvement_percentage" := pct]);
      ClassifyReply(Delivered(data))
        == Accepted(VerificationResult(Some(status), Some(same), Some(clean), Some(pct)), true)
  {
  }

  // ---------------------------------------------------------------------------
  // Rendering rules

  /** The assessment shown under the improvement bar. */
  datatype Band = Excellent | GoodProgress | MinimalImprovement

  /** Both thresholds are inclusive: 90 and above is excellent, 50 up to 90
      is good progress, below 50 is minimal. */
  function ImprovementBand(p: real): (b: Band)
    ensures b == Excellent <==> p >= 90.0
    ensures b == GoodProgress <==> 50.0 <= p < 90.0
    ensures b == MinimalImprovement <==> p < 50.0
  {
    if p >= 90.0 then Excellent else if p >= 50.0 then GoodProgress else MinimalImprovement
  }

  const ExcellentMessage: string := "Excellent cleanup! The area looks significantly better."
  const GoodProgressMessage: string := "Good progress, but there's still room for improvement."
  const MinimalMessage: string := "Minimal improvement detected. The area needs more attention."

  /** The sentence shown for each band. */
  function BandMessage(b: Band): string
  {
    match b
    case Excellent => ExcellentMessage
    case GoodProgress => GoodProgressMessage
    case MinimalImprovement => MinimalMessage
  }

  /** The sentence under the bar names the band of the percentage: each of
      the three sentences appears exactly on its range. */
  lemma AssessmentText(p: real)
    ensures BandMessage(ImprovementBand(p)) == ExcellentMessage <==> p >= 90.0
    ensures BandMessage(ImprovementBand(p)) == GoodProgressMessage <==> 50.0 <= p < 90.0
    ensures BandMessage(ImprovementBand(p)) == MinimalMessage <==> p < 50.0
  {
    assert |ExcellentMessage| != |GoodProgressMessage| && |GoodProgressMessage| != |MinimalMessage| && |ExcellentMessage| != |MinimalMessage|;
  }

  function BandRank(b: Band): nat
  {
    match b
    case MinimalImprovement => 0
    case GoodProgress => 1
    case Excellent => 2
  }

  /** A larger improvement never gets a worse assessment. */
  lemma BandMonotone(p: real, q: real)
    requires p <= q
    ensures BandRank(ImprovementBand(p)) <= BandRank(ImprovementBand(q))
  {
  }

  const StatusVerified: string := "bg-green-100 text-green-800 border-green-200"
  const StatusUnverified: string := "bg-amber-100 text-amber-800 border-amber-200"
  const StatusRejected: string := "bg-red-100 text-red-800 border-red-200"
  const StatusDefault: string := "bg-slate-100 text-slate-800 border-slate-200"

  /** `getStatusClass`: the badge classes for a status, matched after
      lower-casing; anything unknown gets the slate default. */
  function StatusClass(status: string): (cls: string)
    ensures cls == StatusVerified <==> ToLower(status) == "verified"
    ensures cls == StatusUnverified <==> ToLower(status) == "unverified"
    ensures cls == StatusRejected <==> ToLower(status) == "rejected"
    ensures cls == StatusDefault <==>
      ToLower(status) != "verified" && ToLower(status) != "unverified" && ToLower(status) != "rejected"
  {
    var s := ToLower(status);
    if s == "verified" then StatusVerified
    else if s == "unverified" then StatusUnverified
    else if s == "rejected" then StatusRejected
    else StatusDefault
  }

  const SeverityClean: string := "bg-green-100 text-green-800"
  const SeverityLow: string := "bg-yellow-100 text-yellow-800"
  const SeverityMedium: string := "bg-orange-100 text-orange-800"
  const SeverityHigh: string := "bg-red-100 text-red-800"
  const SeverityDefault: string := "bg-slate-100 text-slate-800"

  /** `getSeverityClass`: the badge classes for a severity, matched after
      lower-casing; anything unknown gets the slate default. */
  function SeverityClass(severity: string): (cls: string)
    ensures cls == SeverityClean <==> ToLower(severity) == "clean"
    ensures cls == SeverityLow <==> ToLower(severity) == "low"
    ensures cls == SeverityMedium <==> ToLower(severity) == "medium"
    ensures cls == SeverityHigh <==> ToLower(severity) == "high"
    ensures cls == SeverityDefault <==>
      ToLower(severity) != "clean" && ToLower(severity) != "low" && ToLower(severity) != "medium"
      && ToLower(severity) != "high"
  {
    var s := ToLower(severity);
    if s == "clean" then SeverityClean
    else if s == "low" then SeverityLow
    else if s == "medium" then SeverityMedium
    else if s == "high" then SeverityHigh
    else SeverityDefault
  }

  /** Spellings that differ only in case get the same classes, and so does
      a string and its lower-cased form. */
  lemma ClassesIgnoreCase(a: string, b: string)
    requires SameIgnoringCase(a, b)
    ensures StatusClass(a) == StatusClass(b)
    ensures SeverityClass(a) == SeverityClass(b)
    ensures StatusClass(ToLower(a)) == StatusClass(a)
    ensures SeverityClass(ToLower(a)) == SeverityClass(a)
  {
    ToLowerIgnoresCase(a, b);
    ToLowerIdempotent(a);
  }

  // ---------------------------------------------------------------------------
  // The original report

  datatype WasteReport = WasteReport(
    id: string,
    imageUrl: string,
    description: string,
    coordinates: (real, real),
    placeName: string,
    timestamp: string,
    status: string,
    severity: string)

  /** What the report fetch can end with: a report, or a failure (a thrown
      request, a response that is not ok, a body that is not JSON). */
  datatype ReportFetch = Fetched(data: WasteReport) | FetchFailed

  /** The record installed when the report cannot be loaded, stamped with
      the current time `now`. */
  function PlaceholderReport(id: string, now: string): (w: WasteReport)
    ensures w.id == id && w.timestamp == now
    ensures w.status == "pending" && w.severity == "unknown"
    ensures w.imageUrl == "/placeholder-waste-image.jpg"
    ensures w.description == "Report details could not be loaded"
    ensures w.coordinates == (0.0, 0.0) && w.placeName == "Unknown location"
  {
    WasteReport(id, "/placeholder-waste-image.jpg", "Report details could not be loaded",
                (0.0, 0.0), "Unknown location", now, "pending", "unknown")
  }

  /** The placeholder's status and severity are both unknown to the badge
      rules, so it renders with the neutral slate badges. */
  lemma PlaceholderRendersNeutral(id: string, now: string)
    ensures StatusClass(PlaceholderReport(id, now).status) == StatusDefault
    ensures SeverityClass(PlaceholderReport(id, now).severity) == SeverityDefault
  {
    var w := PlaceholderReport(id, now);
    assert |ToLower(w.status)| == 7 && |ToLower(w.severity)| == 7;
  }

  // ---------------------------------------------------------------------------
  // The page

  /** A verification request as it leaves the page. */
  datatype VerifyRequest = VerifyRequest(reportId: string, afterImage: ImageFile)

  class VerifyCleanupPage {
    var reportId: Option<string>
    var afterImage: Option<ImageFile>
    var previewUrl: string
    var isLoading: bool
    var isLoadingReport: bool
    var error: Option<string>
    var result: Option<VerificationResult>
    var report: Option<WasteReport>
    /** The verification requests sent so far, oldest first. */
    var verifyRequests: seq<VerifyRequest>
    /** The preview URLs released so far. */
    var revokedUrls: seq<string>

    constructor ()
      ensures reportId == None && afterImage == None && previewUrl == ""
      ensures !isLoading && !isLoadingReport
      ensures error == None && result == None && report == None
      ensures verifyRequests == [] && revokedUrls == []
    {
      reportId := None;
      afterImage := None;
      previewUrl := "";
      isLoading := false;
      isLoadingReport := false;
      error := None;
      result := None;
      report := None;
      verifyRequests := [];
      revokedUrls := [];
    }

    /** The effect that looks for the identifier in the URL, then in the
        window handoff value. */
    method ResolveReportId(urlParam: Option<string>, windowValue: Option<string>)
      modifies this`reportId
      ensures SelectReportId(urlParam, windowValue).Some? ==> reportId == SelectReportId(urlParam, windowValue)
      ensures SelectReportId(urlParam, windowValue).None? ==> reportId == old(reportId)
    {
      if Truthy(urlParam) {
        reportId := Some(StripReportPrefix(urlParam.value));
      } else if Truthy(windowValue) {
        reportId := Some(StripReportPrefix(windowValue.value));
      }
    }

    /** The effect that reports a malformed identifier as soon as it is set. */
    method CheckReportIdFormat()
      modifies this`error
      ensures Truthy(reportId) && !IsObjectId(reportId.value) ==> error == Some(InvalidIdError(reportId.value))
      ensures !(Truthy(reportId) && !IsObjectId(reportId.value)) ==> error == old(error)
    {
      if Truthy(reportId) {
        var id := reportId.value;
        if !IsObjectId(id) {
          error := Some(InvalidIdError(id));
        }
      }
    }

    /** The effect that loads the original report; on failure it shows an
        error and installs the placeholder, stamped `now`. */
    method LoadReport(reply: ReportFetch, now: string)
      modifies this`report, this`error, this`isLoadingReport
      ensures !Truthy(reportId) ==> report == old(report) && error == old(error) && isLoadingReport == old(isLoadingReport)
      ensures Truthy(reportId) ==> !isLoadingReport
      ensures Truthy(reportId) && reply.Fetched? ==> report == Some(reply.data) && error == old(error)
      ensures Truthy(reportId) && reply.FetchFailed? ==>
                report == Some(PlaceholderReport(reportId.value, now)) && error == Some(ReportLoadError)
    {
      if Truthy(reportId) {
        isLoadingReport := true;
        match reply {
          case Fetched(data) =>
            report := Some(data);
          case FetchFailed =>
            error := Some(ReportLoadError);
            report := Some(PlaceholderReport(reportId.value, now));
        }
        isLoadingReport := false;
      }
    }

    /** `handleImageUpload`: a chosen file becomes the after image, with its
        object URL `objectUrl` as preview, and any old result is cleared. */
    method HandleImageUpload(file: Option<ImageFile>, objectUrl: string)
      modifies this`afterImage, this`previewUrl, this`result
      ensures file.Some? ==> afterImage == file && previewUrl == objectUrl && result == None
      ensures file.None? ==> afterImage == old(afterImage) && previewUrl == old(previewUrl) && result == old(result)
    {
      if file.Some? {
        afterImage := file;
        previewUrl := objectUrl;
        result := None;
      }
    }

    /** `handleReset`: image, preview, result and error are cleared; a
        preview URL in use is released first. */
    method HandleReset()
      modifies this`afterImage, this`previewUrl, this`result, this`error, this`revokedUrls
      ensures afterImage == None && previewUrl == "" && result == None && error == None
      ensures revokedUrls == if old(previewUrl) != "" then old(revokedUrls) + [old(previewUrl)] else old(revokedUrls)
    {
      afterImage := None;
      if previewUrl != "" {
        revokedUrls := revokedUrls + [previewUrl];
        previewUrl := "";
      }
      result := None;
      error := None;
    }

    /** `handleSubmit`: either a guard fails (its error is shown, nothing is
        sent, loading and result are untouched), or one request is sent and
        the reply decides between an error and a new result. Loading ends
        false either way. A failed reply keeps the previous result. */
    method HandleSubmit(reply: VerifyReply)
      modifies this`error, this`isLoading, this`result, this`verifyRequests
      ensures PreflightError(reportId, afterImage.Some?).Some? ==>
                && error == PreflightError(reportId, afterImage.Some?)
                && isLoading == old(isLoading) && result == old(result)
                && verifyRequests == old(verifyRequests)
      ensures PreflightError(reportId, afterImage.Some?).None? ==>
                && verifyRequests == old(verifyRequests) + [VerifyRequest(reportId.value, afterImage.value)]
                && !isLoading
                && (ClassifyReply(reply).Failed? ==> error == Some(ClassifyReply(reply).message) && result == old(result))
                && (ClassifyReply(reply).Accepted? ==> error == None && result == Some(ClassifyReply(reply).result))
    {
      if !Truthy(reportId) {
        error := Some(MissingIdError);
        return;
      }
      var id := reportId.value;
      if !IsObjectId(id) {
        error := Some(InvalidIdError(id));
        return;
      }
      if afterImage.None? {
        error := Some(NoImageError);
        return;
      }

      isLoading := true;
      error := None;
      verifyRequests := verifyRequests + [VerifyRequest(id, afterImage.value)];
      match reply {
        case Rejected(t) =>
          error := Some(ThrownMessage(t));
        case NotOk(status, text) =>
          error := Some(StatusError(status, text));
        case Delivered(data) =>
          if !IsObjectLike(data) {
            error := Some(InvalidFormatError);
          } else {
            // missing fields only produce a console warning
            result := Some(VerificationResult(
              Property(data, "status"), Property(data, "is_same_location"),
              Property(data, "is_clean"), Property(data, "improvement_percentage")));
          }
      }
      isLoading := false;
    }

    /** The submit button is enabled when nothing is loading and an image is
        chosen. */
    predicate SubmitEnabled()
      reads this
    {
      !isLoading && afterImage.Some?
    }
  }

  /** Through the enabled button the image guard never fires: only the two
      identifier guards can stop the request. */
  lemma EnabledSubmitPassesImageGuard(p: VerifyCleanupPage)
    requires p.SubmitEnabled()
    ensures PreflightError(p.reportId, p.afterImage.Some?) != Some(NoImageError)
  {
    if Truthy(p.reportId) {
      PreflightMessagesDistinct(p.reportId.value);
    }
  }
}
