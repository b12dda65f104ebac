/** The server's bearer-token gate (pkg/middleware/auth.go). The request
    context is a class holding the `Authorization` header, the values handlers
    store with `Set`, the JSON responses written, and whether the chain was
    aborted or continued. Token validation is an oracle parameter. */
module AuthMiddleware {
  import opened Wrappers
  import opened Text
  import ApiClient

  const UserIdKey: string := "userID"
  const AuthenticationError: string := "AUTHENTICATION_ERROR"
  const Unauthorized: int := 401

  // extractToken

  /** The index of the first space, if any. */
  function FirstSpace(s: string): (r: Option<nat>)
    ensures r.Some? ==> r.value < |s| && s[r.value] == ' ' && ' ' !in s[..r.value]
    ensures r.None? ==> ' ' !in s
  {
    if s == [] then None
    else if s[0] == ' ' then Some(0)
    else match FirstSpace(s[1..])
      case None => None
      case Some(i) =>
        assert s[..i + 1] == [s[0]] + s[1..][..i];
        Some(i + 1)
  }

  /** `strings.SplitN(s, " ", 2)`: the whole string, or the parts before and
      after the first space. */
  function SplitOnce(s: string): (parts: seq<string>)
    ensures 1 <= |parts| <= 2
    ensures |parts| == 1 <==> ' ' !in s
    ensures |parts| == 1 ==> parts[0] == s
    ensures |parts| == 2 ==> s == parts[0] + " " + parts[1] && ' ' !in parts[0]
  {
    match FirstSpace(s)
    case None => [s]
    case Some(i) =>
      assert s == s[..i] + " " + s[i + 1..];
      [s[..i], s[i + 1..]]
  }

  /** `extractToken`: the credentials of a `Bearer` header, with the scheme
      matched case-insensitively, or "" when there are none. */
  function ExtractToken(header: string): (token: string)
    ensures token != "" ==> HasBearerPrefix(header) && token == header[7..]
  {
    if header == "" then ""
    else
      var parts := SplitOnce(header);
      if |parts| != 2 || Lower(parts[0]) != "bearer" then ""
      else
        assert |parts[0]| == 6 && header[..6] == parts[0] && header[7..] == parts[1];
        parts[1]
  }

  /** Whether the header's first seven characters are the scheme `bearer`, in
      any letter case, and one space. */
  predicate HasBearerPrefix(header: string) {
    |header| >= 7 && Lower(header[..6]) == "bearer" && header[6] == ' '
  }

  /** The token is everything after the first space of a header whose first
      word is `bearer` in any case, further spaces included; every other
      header (the empty one among them) yields "". */
  lemma ExtractTokenMeaning(header: string)
    ensures ExtractToken(header) == if HasBearerPrefix(header) then header[7..] else ""
  {
    if HasBearerPrefix(header) {
      BearerSpaceAtSix(header);
      assert SplitOnce(header) == [header[..6], header[7..]];
    }
  }

  /** In a header that starts with "bearer " in any case, the first space is
      the one after the scheme. */
  lemma BearerSpaceAtSix(header: string)
    requires HasBearerPrefix(header)
    ensures FirstSpace(header) == Some(6)
  {
    forall i | 0 <= i < 6 ensures header[i] != ' ' {
      assert LowerChar(header[i]) == Lower(header[..6])[i] == "bearer"[i];
      assert "bearer"[i] != ' ';
      assert LowerChar(' ') == ' ';
    }
    var r := FirstSpace(header);
    assert header[6] == ' ';
    assert r.Some?;
    forall i | 0 <= i < r.value ensures header[i] != ' ' {
      assert header[..r.value][i] == header[i];
    }
  }

  /** The header the web client sends for a stored token carries that token
      through unchanged. */
  lemma ClientHeaderAccepted(client: ApiClient.HttpClient)
    requires ApiClient.Truthy(client.authToken)
    ensures ExtractToken(client.AuthorizationHeader().value) == client.authToken.value
  {
    var h := client.AuthorizationHeader().value;
    ExtractTokenMeaning(h);
    assert h[..6] == "Bearer";
  }

  // The request context

  datatype Value = IntValue(i: int) | OtherValue

  /** A JSON error body written with status 401. */
  datatype ErrorResponse = ErrorResponse(status: int, error: string, code: string, validationError: Option<string>)

  class Context {
    var authorization: string
    var values: map<string, Value>
    var responses: seq<ErrorResponse>
    var aborted: bool
    var continued: bool

    constructor (authorization: string, values: map<string, Value>)
      ensures this.authorization == authorization && this.values == values
      ensures responses == [] && !aborted && !continued
    {
      this.authorization := authorization;
      this.values := values;
      responses := [];
      aborted := false;
      continued := false;
    }

    /** `GetUserID`: the stored user id when one was stored as an int. */
    function UserId(): (r: (int, bool))
      reads this
      ensures r.1 <==> UserIdKey in values && values[UserIdKey].IntValue?
      ensures r.1 ==> r.0 == values[UserIdKey].i
      ensures !r.1 ==> r.0 == 0
    {
      if UserIdKey in values && values[UserIdKey].IntValue? then (values[UserIdKey].i, true) else (0, false)
    }

    /** `AuthRequired`: a request without a token, or with one the validator
        rejects, is answered 401 and stops; otherwise the user id is stored
        and the chain continues. `validated` is the token handed to the
        validator, if it was called. */
    method AuthRequired(validate: string -> Result<int, string>) returns (validated: Option<string>)
      modifies this
      ensures var token := ExtractToken(old(authorization));
        validated == (if token == "" then None else Some(token))
      ensures authorization == old(authorization)
      ensures var token := ExtractToken(old(authorization));
        if token == "" then
          responses == old(responses) + [ErrorResponse(Unauthorized, "Authorization token required", AuthenticationError, None)] &&
          aborted && continued == old(continued) && values == old(values)
        else if validate(token).Err? then
          responses == old(responses) + [ErrorResponse(Unauthorized, "Invalid or expired token", AuthenticationError, Some(validate(token).error))] &&
          aborted && continued == old(continued) && values == old(values)
        else
          values == old(values)[UserIdKey := IntValue(validate(token).value)] &&
          continued && aborted == old(aborted) && responses == old(responses)
      ensures !aborted ==> UserId() == (validate(ExtractToken(authorization)).value, true)
    {
      var token := ExtractToken(authorization);
      if token == "" {
        responses := responses + [ErrorResponse(Unauthorized, "Authorization token required", AuthenticationError, None)];
        aborted := true;
        return None;
      }
      validated := Some(token);
      var result := validate(token);
      if result.Err? {
        responses := responses + [ErrorResponse(Unauthorized, "Invalid or expired token", AuthenticationError, Some(result.error))];
        aborted := true;
        return;
      }
      values := values[UserIdKey := IntValue(result.value)];
      continued := true;
    }

    /** `OptionalAuth`: never answers and never aborts; stores the user id
        only when a token is present and valid. */
    method OptionalAuth(validate: string -> Result<int, string>) returns (validated: Option<string>)
      modifies this
      ensures var token := ExtractToken(old(authorization));
        validated == (if token == "" then None else Some(token))
      ensures authorization == old(authorization) && responses == old(responses) && aborted == old(aborted)
      ensures continued
      ensures var token := ExtractToken(old(authorization));
        values == if token != "" && validate(token).Ok? then old(values)[UserIdKey := IntValue(validate(token).value)]
                  else old(values)
    {
      var token := ExtractToken(authorization);
      validated := None;
      if token != "" {
        validated := Some(token);
        var result := validate(token);
        if result.Ok? {
          values := values[UserIdKey := IntValue(result.value)];
        }
      }
      continued := true;
    }
  }
}
