/** The REST client's error and retry policy (backend/api.ts): the `ApiError`
    record, the errors `makeRequest` raises, `ErrorHandler`, `RetryUtil.withRetry`,
    the token held by `HttpClient` and the query string built by `get`. The
    network call itself is an oracle: the outcome of each attempt is a
    parameter. */
module ApiClient {
  import opened Wrappers
  import opened Numbers
  import opened Text

  const DefaultCode: string := "API_ERROR"
  const HttpErrorCode: string := "HTTP_ERROR"
  const TokenStorageKey: string := "homegenie_auth_token"

  /** The part of an error's `details` object the client reads: its `code`. */
  datatype Details = Details(code: Option<string>)

  datatype ApiError = ApiError(message: string, status: int, code: string, details: Option<Details>)

  /** What a `catch` clause can receive. */
  datatype Thrown = ApiErr(err: ApiError) | PlainError(message: string) | NonError

  /** The `ApiError` constructor: `code` is the details' code when that is a
      non-empty string (JavaScript's `||` treats "" as absent), else "API_ERROR". */
  function NewApiError(message: string, status: int, details: Option<Details>): (e: ApiError)
    ensures e.message == message && e.status == status && e.details == details
    ensures details.Some? && details.value.code.Some? && details.value.code.value != "" ==>
      e.code == details.value.code.value
    ensures (details.None? || details.value.code.None? || details.value.code.value == "") ==>
      e.code == DefaultCode
  {
    var code := if details.Some? && details.value.code.Some? && details.value.code.value != ""
      then details.value.code.value else DefaultCode;
    ApiError(message, status, code, details)
  }

  // The errors `makeRequest` throws

  /** The body of a failed response, when it parses as JSON. */
  datatype ErrorBody = ErrorBody(error: string, code: Option<string>)

  /** A response that is not ok: the server's error body, or a synthesised
      `HTTP <status>: <statusText>` body with code "HTTP_ERROR" when the body
      does not parse. */
  function ResponseError(status: int, statusText: string, body: Option<ErrorBody>): (e: ApiError)
    ensures e.status == status
    ensures body.Some? ==> e.message == body.value.error
    ensures body.None? ==> e.code == HttpErrorCode && e.message == "HTTP " + IntToString(status) + ": " + statusText
  {
    match body
    case Some(b) => NewApiError(b.error, status, Some(Details(b.code)))
    case None => NewApiError("HTTP " + IntToString(status) + ": " + statusText, status, Some(Details(Some(HttpErrorCode))))
  }

  /** An aborted request: status 408 with the timeout in the details. */
  function TimeoutError(): (e: ApiError)
    ensures e.status == 408 && e.code == DefaultCode && e.message == "Request timeout"
  {
    NewApiError("Request timeout", 408, Some(Details(None)))
  }

  /** Any other failure is wrapped with status 500. */
  function WrappedError(thrown: Thrown): (e: ApiError)
    ensures e.status == 500 || thrown.ApiErr?
    ensures thrown.ApiErr? ==> e == thrown.err
    ensures thrown.PlainError? ==> e.message == thrown.message && e.code == DefaultCode
    ensures thrown.NonError? ==> e.message == "Unknown error occurred" && e.code == DefaultCode
  {
    match thrown
    case ApiErr(err) => err
    case PlainError(message) => NewApiError(message, 500, Some(Details(None)))
    case NonError => NewApiError("Unknown error occurred", 500, Some(Details(None)))
  }

  // ErrorHandler

  /** The fixed user-facing text of the six error codes the server defines. */
  function CodeMessage(code: string): (r: Option<string>)
    ensures r.Some? <==> code in KnownCodes
  {
    if code == "VALIDATION_ERROR" then Some("Please check your input and try again.")
    else if code == "AUTHENTICATION_ERROR" then Some("Please log in to continue.")
    else if code == "AUTHORIZATION_ERROR" then Some("You do not have permission to perform this action.")
    else if code == "NOT_FOUND" then Some("The requested resource was not found.")
    else if code == "CONFLICT" then Some("This action conflicts with existing data.")
    else if code == "RATE_LIMITED" then Some("Too many requests. Please wait a moment and try again.")
    else None
  }

  const KnownCodes: set<string> := {"VALIDATION_ERROR", "AUTHENTICATION_ERROR", "AUTHORIZATION_ERROR",
                                    "NOT_FOUND", "CONFLICT", "RATE_LIMITED"}

  const GenericMessage: string := "An unexpected error occurred. Please try again."

  /** `handleApiError`. */
  function HandleApiError(error: Thrown): (msg: string)
    ensures error.ApiErr? && error.err.code in KnownCodes ==> Some(msg) == CodeMessage(error.err.code)
    ensures error.ApiErr? && error.err.code !in KnownCodes ==> msg == error.err.message
    ensures error.PlainError? ==> msg == error.message
    ensures error.NonError? ==> msg == GenericMessage
  {
    match error
    case ApiErr(e) => (match CodeMessage(e.code) case Some(m) => m case None => e.message)
    case PlainError(m) => m
    case NonError => GenericMessage
  }

  /** Each known code has its own message, and none of them is the generic text:
      the mapping loses no information about which code was received. */
  lemma CodeMessagesDistinct(a: string, b: string)
    requires a in KnownCodes && b in KnownCodes && a != b
    ensures CodeMessage(a) != CodeMessage(b)
    ensures CodeMessage(a) != Some(GenericMessage)
  {
    MessageLengths(a);
    MessageLengths(b);
  }

  /** The six messages have six different lengths. */
  lemma MessageLengths(code: string)
    requires code in KnownCodes
    ensures |CodeMessage(code).value| == (
      if code == "VALIDATION_ERROR" then 38 else if code == "AUTHENTICATION_ERROR" then 26
      else if code == "AUTHORIZATION_ERROR" then 50 else if code == "NOT_FOUND" then 37
      else if code == "CONFLICT" then 41 else 54)
  {
  }

  /** `isNetworkError`. */
  predicate IsNetworkError(error: Thrown) {
    error.ApiErr? &&
    (error.err.status == 0 || error.err.status == 408 ||
     Contains(error.err.message, "Failed to fetch") || Contains(error.err.message, "timeout"))
  }

  /** `shouldRetry`: network failures and server errors. */
  predicate ShouldRetry(error: Thrown) {
    error.ApiErr? &&
    (error.err.status == 0 || error.err.status == 408 || 500 <= error.err.status < 600)
  }

  /** How the retry policy treats the errors `makeRequest` raises: a timeout is
      a network error and is retried, a server error is retried, a wrapped
      failure is retried, and a client error other than 408 (401, 404, 409,
      422, 429, ...) never is. */
  lemma RetryPolicyOfRequestErrors(status: int, statusText: string, body: Option<ErrorBody>, thrown: Thrown)
    ensures IsNetworkError(ApiErr(TimeoutError())) && ShouldRetry(ApiErr(TimeoutError()))
    ensures HandleApiError(ApiErr(TimeoutError())) == "Request timeout"
    ensures 500 <= status < 600 ==> ShouldRetry(ApiErr(ResponseError(status, statusText, body)))
    ensures 400 <= status < 500 && status != 408 ==> !ShouldRetry(ApiErr(ResponseError(status, statusText, body)))
    ensures !thrown.ApiErr? ==> ShouldRetry(ApiErr(WrappedError(thrown)))
    ensures !ShouldRetry(PlainError("Failed to fetch")) && !ShouldRetry(NonError)
  {
    assert OccursAt(TimeoutError().message, "timeout", 8);
    assert HandleApiError(ApiErr(TimeoutError())) == "Request timeout" by {
      assert TimeoutError().code == DefaultCode;
      assert DefaultCode !in KnownCodes;
    }
  }

  /** A status 0 or 408 error is both a network error and retried; the message
      tests make some errors network errors that are not retried. */
  lemma NetworkErrorsAndRetries(e: ApiError)
    ensures (e.status == 0 || e.status == 408) ==> IsNetworkError(ApiErr(e)) && ShouldRetry(ApiErr(e))
    ensures e.status == 400 && e.message == "timeout" ==> IsNetworkError(ApiErr(e)) && !ShouldRetry(ApiErr(e))
  {
    if e.message == "timeout" {
      assert OccursAt(e.message, "timeout", 0);
    }
  }

  // RetryUtil.withRetry

  /** The observable run of `withRetry`: what it settles with (`Err(None)`
      is the `undefined` it throws when no attempt is made), how many times it
      called the operation, and the waits between calls. */
  datatype RetryRun<T> = RetryRun(outcome: Result<T, Option<Thrown>>, calls: nat, delays: seq<int>)

  /** The run of `withRetry` from attempt `attempt` on, when attempt `k`
      of the operation settles as `operation(k)`. */
  function RetryFrom<T>(operation: nat -> Result<T, Thrown>, maxAttempts: int, delayMs: int, attempt: nat): (r: RetryRun<T>)
    requires attempt >= 1
    decreases if attempt <= maxAttempts then maxAttempts - attempt + 1 else 0
  {
    if attempt > maxAttempts then RetryRun(Err(None), 0, [])
    else match operation(attempt)
      case Ok(v) => RetryRun(Ok(v), 1, [])
      case Err(e) =>
        if attempt == maxAttempts || !ShouldRetry(e) then RetryRun(Err(Some(e)), 1, [])
        else
          var rest := RetryFrom(operation, maxAttempts, delayMs, attempt + 1);
          RetryRun(rest.outcome, rest.calls + 1, [delayMs * Pow2(attempt - 1)] + rest.delays)
  }

  function Retry<T>(operation: nat -> Result<T, Thrown>, maxAttempts: int, delayMs: int): RetryRun<T>
  {
    RetryFrom(operation, maxAttempts, delayMs, 1)
  }

  /** `withRetry`: the `for` loop with its early `return` and `throw`. */
  method WithRetry<T>(operation: nat -> Result<T, Thrown>, maxAttempts: int, delayMs: int)
    returns (outcome: Result<T, Option<Thrown>>, calls: nat, delays: seq<int>)
    ensures RetryRun(outcome, calls, delays) == Retry(operation, maxAttempts, delayMs)
  {
    var lastError: Option<Thrown> := None;
    calls, delays := 0, [];
    var attempt := 1;
    while attempt <= maxAttempts
      invariant attempt >= 1 && calls == attempt - 1
      invariant var rest := RetryFrom(operation, maxAttempts, delayMs, attempt);
        Retry(operation, maxAttempts, delayMs) == RetryRun(rest.outcome, calls + rest.calls, delays + rest.delays)
      invariant attempt <= maxAttempts || attempt == 1
      invariant attempt == 1 ==> lastError == None
      decreases maxAttempts - attempt
    {
      var result := operation(attempt);
      calls := calls + 1;
      if result.Ok? {
        outcome := Ok(result.value);
        assert delays + [] == delays;
        return;
      }
      lastError := Some(result.error);
      if attempt == maxAttempts || !ShouldRetry(result.error) {
        outcome := Err(lastError);
        assert delays + [] == delays;
        return;
      }
      var delay := delayMs * Pow2(attempt - 1);
      ghost var rest := RetryFrom(operation, maxAttempts, delayMs, attempt + 1);
      assert delays + ([delay] + rest.delays) == (delays + [delay]) + rest.delays;
      delays := delays + [delay];
      attempt := attempt + 1;
    }
    assert attempt == 1;
    outcome := Err(lastError);
    assert delays + [] == delays;
  }

  /** With no attempt allowed the operation is never called and `undefined`
      is thrown. */
  lemma NoAttempts<T>(operation: nat -> Result<T, Thrown>, maxAttempts: int, delayMs: int)
    requires maxAttempts <= 0
    ensures Retry(operation, maxAttempts, delayMs) == RetryRun(Err(None), 0, [])
  {
  }

  /** A run from attempt `attempt` makes at least one and at most the
      remaining number of calls, and waits between consecutive calls. */
  lemma {:induction false} RetryCalls<T>(operation: nat -> Result<T, Thrown>, maxAttempts: int, delayMs: int, attempt: nat)
    requires 1 <= attempt <= maxAttempts
    ensures 1 <= RetryFrom(operation, maxAttempts, delayMs, attempt).calls <= maxAttempts - attempt + 1
    ensures |RetryFrom(operation, maxAttempts, delayMs, attempt).delays| == RetryFrom(operation, maxAttempts, delayMs, attempt).calls - 1
    decreases maxAttempts - attempt
  {
    if attempt < maxAttempts && operation(attempt).Err? && ShouldRetry(operation(attempt).error) {
      RetryCalls(operation, maxAttempts, delayMs, attempt + 1);
    }
  }

  /** Every call but the last failed with a retryable error, and the wait
      after failed attempt k is `delayMs * 2^(k-1)`. */
  lemma {:induction false} RetryDelays<T>(operation: nat -> Result<T, Thrown>, maxAttempts: int, delayMs: int, attempt: nat, k: int)
    requires 1 <= attempt <= k
    requires k < attempt + RetryFrom(operation, maxAttempts, delayMs, attempt).calls - 1
    ensures operation(k).Err? && ShouldRetry(operation(k).error)
    ensures k - attempt < |RetryFrom(operation, maxAttempts, delayMs, attempt).delays|
    ensures RetryFrom(operation, maxAttempts, delayMs, attempt).delays[k - attempt] == delayMs * Pow2(k - 1)
    decreases k - attempt
  {
    if k > attempt {
      RetryDelays(operation, maxAttempts, delayMs, attempt + 1, k);
    }
  }

  /** The run settles with the outcome of its last call, and a failure is
      rethrown only when it is not retryable or the attempts are spent. */
  lemma {:induction false} RetryOutcome<T>(operation: nat -> Result<T, Thrown>, maxAttempts: int, delayMs: int, attempt: nat)
    requires 1 <= attempt <= maxAttempts
    ensures var r := RetryFrom(operation, maxAttempts, delayMs, attempt);
      var last := attempt + r.calls - 1;
      (r.outcome.Ok? ==> operation(last) == Ok(r.outcome.value)) &&
      (r.outcome.Err? ==> (r.outcome.error.Some? && operation(last) == Err(r.outcome.error.value) &&
        (last == maxAttempts || !ShouldRetry(r.outcome.error.value))))
    decreases maxAttempts - attempt
  {
    if attempt < maxAttempts && operation(attempt).Err? && ShouldRetry(operation(attempt).error) {
      RetryOutcome(operation, maxAttempts, delayMs, attempt + 1);
    }
  }

  /** `withRetry` calls the operation at most `maxAttempts` times, returns
      the first success, and rethrows the first non-retryable error or the
      error of the last allowed attempt; after failed attempt k it waits
      `delayMs * 2^(k-1)`. */
  lemma RetryContract<T>(operation: nat -> Result<T, Thrown>, maxAttempts: int, delayMs: int)
    requires maxAttempts >= 1
    ensures var r := Retry(operation, maxAttempts, delayMs);
      1 <= r.calls <= maxAttempts && |r.delays| == r.calls - 1 &&
      (forall k :: 1 <= k < r.calls ==>
        operation(k).Err? && ShouldRetry(operation(k).error) && r.delays[k - 1] == delayMs * Pow2(k - 1)) &&
      (r.outcome.Ok? ==> operation(r.calls) == Ok(r.outcome.value)) &&
      (r.outcome.Err? ==> (r.outcome.error.Some? && operation(r.calls) == Err(r.outcome.error.value) &&
        (r.calls == maxAttempts || !ShouldRetry(r.outcome.error.value))))
  {
    RetryCalls(operation, maxAttempts, delayMs, 1);
    RetryOutcome(operation, maxAttempts, delayMs, 1);
    var r := Retry(operation, maxAttempts, delayMs);
    forall k | 1 <= k < r.calls
      ensures operation(k).Err? && ShouldRetry(operation(k).error) && r.delays[k - 1] == delayMs * Pow2(k - 1)
    {
      RetryDelays(operation, maxAttempts, delayMs, 1, k);
    }
  }

  // HttpClient

  /** A query parameter's value: `undefined`, `null`, or a value whose
      `String(value)` is `text`. */
  datatype ParamValue = Undefined | Null | Value(text: string)

  /** The `(key, String(value))` pairs appended to `url.searchParams`. */
  function KeptParams(params: seq<(string, ParamValue)>): (r: seq<(string, string)>)
    ensures |r| <= |params|
    ensures forall k, v :: (k, v) in r <==> (k, Value(v)) in params
  {
    if params == [] then []
    else
      var rest := KeptParams(params[1..]);
      assert forall p :: p in params <==> p == params[0] || p in params[1..];
      match params[0].1
      case Value(v) => [(params[0].0, v)] + rest
      case _ => rest
  }

  /** Parameters are kept in entry order: the kept pairs of a concatenation
      are the kept pairs of each part, in turn. */
  lemma {:induction false} KeptParamsAppend(a: seq<(string, ParamValue)>, b: seq<(string, ParamValue)>)
    ensures KeptParams(a + b) == KeptParams(a) + KeptParams(b)
  {
    if a != [] {
      assert (a + b)[0] == a[0] by {}
      assert (a + b)[1..] == a[1..] + b by {}
      KeptParamsAppend(a[1..], b);
    } else {
      assert a + b == b by {}
    }
  }

  /** The `forEach` over `Object.entries(params)` in `get`. */
  method AppendParams(params: seq<(string, ParamValue)>) returns (search: seq<(string, string)>)
    ensures search == KeptParams(params)
  {
    search := [];
    var i := 0;
    while i < |params|
      invariant 0 <= i <= |params|
      invariant search == KeptParams(params[..i])
    {
      var (key, value) := params[i];
      KeptParamsAppend(params[..i], [params[i]]);
      assert params[..i + 1] == params[..i] + [params[i]];
      if value.Value? {
        search := search + [(key, value.text)];
      }
      i := i + 1;
    }
    assert params[..|params|] == params;
  }

  /** `url.search` for the appended pairs; percent-encoding is not modelled. */
  function Search(pairs: seq<(string, string)>): (s: string)
    ensures pairs == [] <==> s == ""
  {
    if pairs == [] then "" else "?" + Join(seq(|pairs|, i requires 0 <= i < |pairs| => pairs[i].0 + "=" + pairs[i].1), "&")
  }

  /** The path `get` requests: the endpoint, then the query string. With no
      parameters, or only undefined and null ones, it is the endpoint itself. */
  lemma GetPathWithoutValues(endpoint: string, params: seq<(string, ParamValue)>)
    requires forall p :: p in params ==> !p.1.Value?
    ensures endpoint + Search(KeptParams(params)) == endpoint
  {
  }

  /** A truthy token: present and not the empty string. */
  predicate Truthy(token: Option<string>) {
    token.Some? && token.value != ""
  }

  class HttpClient {
    var baseUrl: string
    var timeout: int
    var authToken: Option<string>
    /** The `localStorage` entry under `homegenie_auth_token`. */
    var stored: Option<string>

    /** The constructor reads the stored token. */
    constructor (baseUrl: string, timeout: int, stored: Option<string>)
      ensures this.baseUrl == baseUrl && this.timeout == timeout
      ensures this.authToken == stored && this.stored == stored
    {
      this.baseUrl := baseUrl;
      this.timeout := timeout;
      this.authToken := stored;
      this.stored := stored;
    }

    /** `setAuthToken`: a truthy token is kept and stored; `null` or "" is
        kept in memory and the stored entry is removed. */
    method SetAuthToken(token: Option<string>)
      modifies this
      ensures authToken == token
      ensures stored == if Truthy(token) then token else None
      ensures baseUrl == old(baseUrl) && timeout == old(timeout)
    {
      authToken := token;
      if Truthy(token) {
        stored := token;
      } else {
        stored := None;
      }
    }

    /** The `Authorization` header `makeRequest` adds. */
    function AuthorizationHeader(): (h: Option<string>)
      reads this
      ensures h.Some? <==> Truthy(authToken)
      ensures h.Some? ==> h.value == "Bearer " + authToken.value
    {
      if Truthy(authToken) then Some("Bearer " + authToken.value) else None
    }

    /** A 401 response clears the token before the error is thrown. */
    method OnUnauthorized()
      modifies this
      ensures authToken == None && stored == None
      ensures baseUrl == old(baseUrl) && timeout == old(timeout)
    {
      SetAuthToken(None);
    }
  }
}
