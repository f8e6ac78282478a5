/** The deterministic parts of the HTTP client: the upload percentage
    reported from progress events, how a finished upload request settles its
    promise, and how the two `fetch`-based calls read their response text.
    `JSON.parse` is the parameter `parse` (None where it throws). */
module Api {
  import opened JsonValue

  // ---- upload progress ------------------------------------------------------

  /** `Math.round((loaded / total) * 100)` in integers: the nearest integer to
      `100 * loaded / total`, halves rounded up. */
  function Percent(loaded: nat, total: nat): (p: int)
    requires total > 0
    ensures 2 * total * p - total <= 200 * loaded < 2 * total * p + total
  {
    (200 * loaded + total) / (2 * total)
  }

  /** The `onprogress` handler: reports only when the length is computable. */
  function ProgressReport(lengthComputable: bool, loaded: nat, total: nat): (r: Option<int>)
    requires lengthComputable ==> total > 0
    ensures r.Some? <==> lengthComputable
    ensures r.Some? ==> r.value == Percent(loaded, total)
  {
    if lengthComputable then Some(Percent(loaded, total)) else None
  }

  /** `c * a <= c * b` for a non-negative `c` and `a <= b`. */
  lemma MulMonotone(c: int, a: int, b: int)
    requires 0 <= c && a <= b
    ensures c * a <= c * b
  {
    assert c * b - c * a == c * (b - a);
  }

  /** While no more than the total has been sent the percentage is within
      0..100, and it is 0 at the start and 100 at the end. */
  lemma PercentBounds(loaded: nat, total: nat)
    requires 0 < total && loaded <= total
    ensures 0 <= Percent(loaded, total) <= 100
    ensures loaded == 0 ==> Percent(loaded, total) == 0
    ensures loaded == total ==> Percent(loaded, total) == 100
  {
    var p, t := Percent(loaded, total), 2 * total;
    MulMonotone(200, loaded, total);
    if p < 0 {
      MulMonotone(t, p, -1);
    }
    if p > 100 {
      MulMonotone(t, 101, p);
    }
    if loaded == 0 && p > 0 {
      MulMonotone(t, 1, p);
    }
    if loaded == total && p < 100 {
      MulMonotone(t, p, 99);
    }
  }

  /** More bytes sent never lowers the percentage. */
  lemma PercentMonotone(loaded1: nat, loaded2: nat, total: nat)
    requires 0 < total && loaded1 <= loaded2
    ensures Percent(loaded1, total) <= Percent(loaded2, total)
  {
    var p1, p2, t := Percent(loaded1, total), Percent(loaded2, total), 2 * total;
    MulMonotone(200, loaded1, loaded2);
    if p1 > p2 {
      MulMonotone(t, p2 + 1, p1);
    }
  }

  // ---- settling an upload -----------------------------------------------------

  /** Why an upload promise was rejected. */
  datatype Rejection =
    | ErrorBody(body: Json)     // the parsed error body
    | Error(message: string)    // `new Error(message)`

  datatype Settlement = Resolved(value: Json) | Rejected(reason: Rejection)

  predicate IsSuccess(status: int) {
    200 <= status < 300
  }

  /** `JSON.parse(text || "{}")` */
  function ParseBody(text: string, parse: string -> Option<Json>): Option<Json> {
    parse(if text == "" then "{}" else text)
  }

  function UploadFailedMessage(status: int, text: string): string {
    "Upload failed: " + IntToString(status) + "\n" + text
  }

  /** The `readyState === 4` branch of `onreadystatechange`, shared verbatim by
      `uploadProviderProfile` and `uploadSRSOverview`; `status` is
      `xhr.status || 0` and `text` is `xhr.responseText || ""`. */
  function Complete(status: int, text: string, parse: string -> Option<Json>): (s: Settlement)
    ensures s.Resolved? <==> IsSuccess(status)
    ensures IsSuccess(status) && ParseBody(text, parse).Some? ==> s == Resolved(ParseBody(text, parse).value)
    ensures IsSuccess(status) && ParseBody(text, parse).None? ==>
              s == Resolved(Obj([Field("ok", Bool(true)), Field("raw", Str(text))]))
    ensures !IsSuccess(status) && ParseBody(text, parse).Some? ==> s == Rejected(ErrorBody(ParseBody(text, parse).value))
    ensures !IsSuccess(status) && ParseBody(text, parse).None? ==>
              s == Rejected(Error(UploadFailedMessage(status, text)))
  {
    var body := ParseBody(text, parse);
    if IsSuccess(status) then
      match body
      case Some(json) => Resolved(json)
      case None => Resolved(Obj([Field("ok", Bool(true)), Field("raw", Str(text))]))
    else
      match body
      case Some(json) => Rejected(ErrorBody(json))
      case None => Rejected(Error(UploadFailedMessage(status, text)))
  }

  /** What ends an upload request. */
  datatype XhrEnd =
    | Done(status: int, text: string)   // the response arrived
    | NetworkFailure                    // the request errored

  /** A promise settles once. On a network failure the request reaches
      `readyState` 4 with status 0 and an empty body before `onerror` runs, so
      `onreadystatechange` rejects first and the "Network error" rejection is
      ignored. */
  function SettleUpload(end: XhrEnd, parse: string -> Option<Json>): (s: Settlement)
    ensures s.Resolved? <==> end.Done? && IsSuccess(end.status)
    ensures end.Done? ==> s == Complete(end.status, end.text, parse)
    ensures end.NetworkFailure? ==> s == Complete(0, "", parse)
  {
    match end
    case Done(status, text) => Complete(status, text, parse)
    case NetworkFailure => Complete(0, "", parse)
  }

  /** An empty successful body resolves to the empty object. */
  lemma EmptySuccessResolvesEmptyObject(status: int, parse: string -> Option<Json>)
    requires IsSuccess(status)
    requires parse("{}") == Some(Obj([]))
    ensures Complete(status, "", parse) == Resolved(Obj([]))
  {
  }

  /** A network failure always rejects, with the parsed empty body. */
  lemma NetworkFailureRejects(parse: string -> Option<Json>)
    ensures SettleUpload(NetworkFailure, parse).Rejected?
    ensures parse("{}") == Some(Obj([])) ==> SettleUpload(NetworkFailure, parse) == Rejected(ErrorBody(Obj([])))
  {
  }

  /** A rejection built from the status carries the status and the body text. */
  lemma FailureMessageCarriesText(status: nat, text: string, parse: string -> Option<Json>)
    requires !IsSuccess(status) && ParseBody(text, parse).None?
    ensures Complete(status, text, parse).reason.Error?
    ensures var m := Complete(status, text, parse).reason.message;
      m == "Upload failed: " + NatToString(status) + "\n" + text &&
      m[|m| - |text|..] == text
  {
  }

  // ---- fetch ---------------------------------------------------------------

  /** `fetchJson` (verify-token, get-profile): the parsed body, or the text
      itself as a string when it does not parse. */
  function FetchJson(text: string, parse: string -> Option<Json>): (r: Json)
    ensures parse(text).Some? ==> r == parse(text).value
    ensures parse(text).None? ==> r == Str(text)
  {
    match parse(text)
    case Some(json) => json
    case None => Str(text)
  }

  datatype Result<T> = Ok(value: T) | Err(message: string)

  /** `generateProposal`: the parsed body, or a thrown error naming the
      status and carrying the text. */
  function GenerateProposal(status: int, text: string, parse: string -> Option<Json>): (r: Result<Json>)
    ensures r.Ok? <==> parse(text).Some?
    ensures r.Err? ==> r.message == "generateProposal: invalid JSON response (" + IntToString(status) + ")\n" + text
  {
    match parse(text)
    case Some(json) => Ok(json)
    case None => Err("generateProposal: invalid JSON response (" + IntToString(status) + ")\n" + text)
  }

  /** The two readers agree whenever the body parses; where it does not,
      `fetchJson` hands back the text and `generateProposal` throws
      instead, whatever the status. */
  lemma FetchAndGenerateAgree(status: int, text: string, parse: string -> Option<Json>)
    ensures GenerateProposal(status, text, parse).Ok? ==>
              GenerateProposal(status, text, parse).value == FetchJson(text, parse)
    ensures GenerateProposal(status, text, parse).Err? <==> FetchJson(text, parse) == Str(text) && parse(text) != Some(Str(text))
  {
  }
}
