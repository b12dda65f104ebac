/** The server's request logger (pkg/middleware/logging.go): which request
    and response bodies reach the log, how handler errors are copied, and the
    level a log line gets. Clocks, trace spans and JSON encoding are left
    out; the request and response are values. */
module RequestLogging {
  import opened Wrappers

  /** An octet of a request or response body. */
  newtype byte = b: int | 0 <= b < 256

  /** The bodies of requests below 1 MiB are read for logging, the bodies of
      responses below 10 KiB are kept; both limits count bytes. */
  const MaxRequestBody: int := 1024 * 1024
  const MaxResponseBody: int := 10240

  /** The authentication endpoints whose request bodies carry credentials. */
  const SensitiveEndpoints: seq<string> := [
    "/api/v1/auth/login",
    "/api/v1/auth/register",
    "/api/v1/auth/change-password",
    "/api/v1/auth/reset-password",
    "/api/v1/auth/forgot-password"]

  /** `isSensitiveEndpoint`: a linear search with an early return. */
  method IsSensitiveEndpoint(path: string) returns (sensitive: bool)
    ensures sensitive <==> path in SensitiveEndpoints
  {
    var i := 0;
    while i < |SensitiveEndpoints|
      invariant 0 <= i <= |SensitiveEndpoints|
      invariant path !in SensitiveEndpoints[..i]
    {
      if path == SensitiveEndpoints[i] {
        return true;
      }
      assert SensitiveEndpoints[..i + 1] == SensitiveEndpoints[..i] + [SensitiveEndpoints[i]];
      i := i + 1;
    }
    assert SensitiveEndpoints[..i] == SensitiveEndpoints;
    return false;
  }

  /** `isJSONResponse`: two exact spellings of the JSON media type. */
  predicate IsJsonResponse(contentType: string) {
    contentType == "application/json" || contentType == "application/json; charset=utf-8"
  }

  /** The match is exact: other spellings of the same media type, which
      section 3.1.1.1 of RFC 7231 treats as equivalent, are not recognised. */
  lemma JsonMatchIsExact()
    ensures IsJsonResponse("application/json") && IsJsonResponse("application/json; charset=utf-8")
    ensures !IsJsonResponse("application/json;charset=utf-8")
    ensures !IsJsonResponse("Application/JSON")
  {
    assert |"application/json;charset=utf-8"| == 30 && |"application/json; charset=utf-8"| == 31;
    assert "Application/JSON"[0] != "application/json"[0];
  }

  datatype Level = Info | Warn | Error

  function Severity(l: Level): nat {
    match l
    case Info => 0
    case Warn => 1
    case Error => 2
  }

  /** The level switch of `logHTTPRequest`. */
  function LevelFor(status: int): (l: Level)
    ensures l == Error <==> status >= 500
    ensures l == Warn <==> 400 <= status < 500
    ensures l == Info <==> status < 400
  {
    if status >= 500 then Error
    else if status >= 400 then Warn
    else if status >= 300 then Info
    else Info
  }

  /** A higher status is never logged at a lower level. */
  lemma LevelsByStatus(status: int, other: int)
    ensures status <= other ==> Severity(LevelFor(status)) <= Severity(LevelFor(other))
  {
  }

  /** The request as the logger sees it. `body` is `None` when the request
      has no body; `contentLength` is the declared length in bytes. */
  datatype Request = Request(path: string, contentLength: int, body: Option<seq<byte>>)

  /** The fields of `LogEntry` this model keeps; `None` stands for an omitted
      field. */
  datatype LogEntry = LogEntry(
    path: string,
    statusCode: int,
    requestSize: int,
    requestBody: Option<seq<byte>>,
    responseBody: Option<seq<byte>>,
    errors: Option<seq<string>>)

  /** Whether the logger reads the request body. */
  predicate ReadsBody(req: Request) {
    req.body.Some? && 0 < req.contentLength < MaxRequestBody
  }

  /** The body-handling part of `Logger`: the request body is read (and put
      back for the handlers) when its declared length is below 1 MiB, and it
      is logged unless empty or the path is sensitive; the response body is
      logged when it is JSON and below 10 KiB; every handler error is copied,
      in order. `forwarded` is the body the handlers then read. The response
      body is the byte buffer the wrapped writer captured. */
  method Logger(req: Request, status: int, responseBody: seq<byte>, contentType: string, handlerErrors: seq<string>)
    returns (entry: LogEntry, forwarded: Option<seq<byte>>, level: Level)
    ensures forwarded == req.body
    ensures entry.path == req.path && entry.statusCode == status && entry.requestSize == req.contentLength
    ensures entry.requestBody.Some? <==>
      ReadsBody(req) && req.body.value != [] && req.path !in SensitiveEndpoints
    ensures entry.requestBody.Some? ==> entry.requestBody.value == req.body.value
    ensures entry.responseBody.Some? <==>
      0 < |responseBody| < MaxResponseBody && IsJsonResponse(contentType)
    ensures entry.responseBody.Some? ==> entry.responseBody.value == responseBody
    ensures entry.errors.Some? <==> handlerErrors != []
    ensures entry.errors.Some? ==> entry.errors.value == handlerErrors
    ensures level == LevelFor(status)
  {
    var requestBody: seq<byte> := [];
    forwarded := req.body;
    if req.body.Some? && req.contentLength > 0 && req.contentLength < MaxRequestBody {
      requestBody := req.body.value;
      forwarded := Some(requestBody);
    }
    entry := LogEntry(req.path, status, req.contentLength, None, None, None);
    var sensitive := IsSensitiveEndpoint(req.path);
    if |requestBody| > 0 && !sensitive {
      entry := entry.(requestBody := Some(requestBody));
    }
    if |responseBody| > 0 && |responseBody| < MaxResponseBody {
      if IsJsonResponse(contentType) {
        entry := entry.(responseBody := Some(responseBody));
      }
    }
    if |handlerErrors| > 0 {
      var copied := new string[|handlerErrors|];
      for i := 0 to |handlerErrors|
        invariant forall j :: 0 <= j < i ==> copied[j] == handlerErrors[j]
      {
        copied[i] := handlerErrors[i];
      }
      entry := entry.(errors := Some(copied[..]));
    }
    level := LevelFor(status);
  }
}
