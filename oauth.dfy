/**
 * The OAuth 2.0 token endpoint (`POST /oauth/token`). Its failures come with
 * the error envelope of section 5.2 of RFC 6749, `{error, error_description}`,
 * so classification is two-tier: by the envelope's error code when the body
 * reads as one, otherwise by the HTTP status.
 */
module Oauth {
  import opened Wrappers
  import opened Http
  import opened Json
  import opened Errors
  import opened Domains

  const TokenPath: string := "/oauth/token"

  /** `OauthTokenRequest`: two required strings and seven optional ones. */
  datatype OauthTokenRequest = OauthTokenRequest(
    grantType: string,
    clientId: string,
    clientSecret: Option<string>,
    audience: Option<string>,
    code: Option<string>,
    redirectUri: Option<string>,
    codeVerifier: Option<string>,
    refreshToken: Option<string>,
    scope: Option<string>)

  /** The keys a token request can emit. */
  const FieldNames: set<string> := {"grant_type", "client_id", "client_secret", "audience", "code",
                                    "redirect_uri", "code_verifier", "refresh_token", "scope"}

  /** The JSON value serde emits under `key`; None for a skipped (absent) optional. */
  function Field(r: OauthTokenRequest, key: string): Option<Json> {
    if key == "grant_type" then Some(JString(r.grantType))
    else if key == "client_id" then Some(JString(r.clientId))
    else if key == "client_secret" then StringValue(r.clientSecret)
    else if key == "audience" then StringValue(r.audience)
    else if key == "code" then StringValue(r.code)
    else if key == "redirect_uri" then StringValue(r.redirectUri)
    else if key == "code_verifier" then StringValue(r.codeVerifier)
    else if key == "refresh_token" then StringValue(r.refreshToken)
    else if key == "scope" then StringValue(r.scope)
    else None
  }

  /** The JSON object serde emits for a token request; an absent optional emits no key. */
  function Serialize(r: OauthTokenRequest): map<string, Json> {
    map k | k in FieldNames && Field(r, k).Some? :: Field(r, k).value
  }

  /** The key names of the serialized request. */
  function Keys(r: OauthTokenRequest): set<string> {
    Serialize(r).Keys
  }

  /** Re-extracting the fields from a serialized request's JSON object. */
  function FromObject(obj: map<string, Json>): Option<OauthTokenRequest> {
    var grantType := RequiredString(obj, "grant_type");
    var clientId := RequiredString(obj, "client_id");
    var clientSecret := OptionalString(obj, "client_secret");
    var audience := OptionalString(obj, "audience");
    var code := OptionalString(obj, "code");
    var redirectUri := OptionalString(obj, "redirect_uri");
    var codeVerifier := OptionalString(obj, "code_verifier");
    var refreshToken := OptionalString(obj, "refresh_token");
    var scope := OptionalString(obj, "scope");
    if && grantType.Some? && clientId.Some? && clientSecret.Some? && audience.Some? && code.Some?
       && redirectUri.Some? && codeVerifier.Some? && refreshToken.Some? && scope.Some?
    then
      Some(OauthTokenRequest(grantType.value, clientId.value, clientSecret.value, audience.value, code.value,
                             redirectUri.value, codeVerifier.value, refreshToken.value, scope.value))
    else
      None
  }

  /** The two required keys are always emitted; an optional key exactly when its field is Some. */
  lemma KeysExact(r: OauthTokenRequest)
    ensures Keys(r) <= FieldNames
    ensures "grant_type" in Keys(r) && "client_id" in Keys(r)
    ensures "client_secret" in Keys(r) <==> r.clientSecret.Some?
    ensures "audience" in Keys(r) <==> r.audience.Some?
    ensures "code" in Keys(r) <==> r.code.Some?
    ensures "redirect_uri" in Keys(r) <==> r.redirectUri.Some?
    ensures "code_verifier" in Keys(r) <==> r.codeVerifier.Some?
    ensures "refresh_token" in Keys(r) <==> r.refreshToken.Some?
    ensures "scope" in Keys(r) <==> r.scope.Some?
  {
  }

  /** Serializing loses nothing: every field is read back unchanged from the emitted object. */
  lemma SerializeRoundTrip(r: OauthTokenRequest)
    ensures FromObject(Serialize(r)) == Some(r)
  {
    var obj := Serialize(r);
    assert RequiredString(obj, "grant_type") == Some(r.grantType) by { assert obj["grant_type"] == JString(r.grantType); }
    assert RequiredString(obj, "client_id") == Some(r.clientId) by { assert obj["client_id"] == JString(r.clientId); }
    OptionalRecovered(r, "client_secret", r.clientSecret);
    OptionalRecovered(r, "audience", r.audience);
    OptionalRecovered(r, "code", r.code);
    OptionalRecovered(r, "redirect_uri", r.redirectUri);
    OptionalRecovered(r, "code_verifier", r.codeVerifier);
    OptionalRecovered(r, "refresh_token", r.refreshToken);
    OptionalRecovered(r, "scope", r.scope);
  }

  /** One optional field of the round trip: what was emitted under its key reads back as the field. */
  lemma OptionalRecovered(r: OauthTokenRequest, key: string, v: Option<string>)
    requires key in FieldNames && Field(r, key) == StringValue(v)
    ensures OptionalString(Serialize(r), key) == Some(v)
  {
    if v.Some? {
      assert Serialize(r)[key] == JString(v.value);
    } else {
      assert key !in Serialize(r);
    }
  }

  /** `OauthTokenResponse`, the success payload. `expiresIn` is a `u64`. */
  datatype OauthTokenResponse = OauthTokenResponse(
    accessToken: string,
    scope: Option<string>,
    tokenType: string,
    expiresIn: nat,
    refreshToken: Option<string>,
    idToken: Option<string>)

  /** serde's reading of `OauthTokenResponse` from a JSON object. */
  function TokenResponseOf(j: Json): (r: Option<OauthTokenResponse>)
    ensures r.Some? ==> && j.JObject? && "access_token" in j.fields && "token_type" in j.fields && "expires_in" in j.fields
                        && j.fields["access_token"] == JString(r.value.accessToken)
                        && j.fields["token_type"] == JString(r.value.tokenType)
                        && j.fields["expires_in"] == JNumber(r.value.expiresIn)
                        && r.value.expiresIn < U64Limit
    ensures j.JObject? && "access_token" !in j.fields ==> r.None?
  {
    match j
    case JObject(obj) =>
      var accessToken := RequiredString(obj, "access_token");
      var scope := OptionalString(obj, "scope");
      var tokenType := RequiredString(obj, "token_type");
      var expiresIn := RequiredU64(obj, "expires_in");
      var refreshToken := OptionalString(obj, "refresh_token");
      var idToken := OptionalString(obj, "id_token");
      if && accessToken.Some? && scope.Some? && tokenType.Some? && expiresIn.Some?
         && refreshToken.Some? && idToken.Some?
      then
        Some(OauthTokenResponse(accessToken.value, scope.value, tokenType.value, expiresIn.value,
                                refreshToken.value, idToken.value))
      else
        None
    case _ => None
  }

  /** `OauthErrorResponse`, the error envelope; `error_uri` is optional. */
  datatype OauthErrorResponse = OauthErrorResponse(error: string, errorDescription: string, errorUri: Option<string>)

  /** serde's reading of the envelope: both `error` and `error_description` must be strings. */
  function EnvelopeOf(j: Json): (r: Option<OauthErrorResponse>)
    ensures r.Some? ==> && j.JObject? && "error" in j.fields && "error_description" in j.fields
                        && j.fields["error"] == JString(r.value.error)
                        && j.fields["error_description"] == JString(r.value.errorDescription)
    ensures j.JObject? && ("error" !in j.fields || "error_description" !in j.fields) ==> r.None?
  {
    match j
    case JObject(obj) =>
      var error := RequiredString(obj, "error");
      var description := RequiredString(obj, "error_description");
      var uri := OptionalString(obj, "error_uri");
      if error.Some? && description.Some? && uri.Some? then
        Some(OauthErrorResponse(error.value, description.value, uri.value))
      else
        None
    case _ => None
  }

  /** `serde_json::from_str::<OauthErrorResponse>(body)`, with the text parser as a parameter. */
  function TryParseEnvelope(parse: string -> Option<Json>, body: string): (r: Option<OauthErrorResponse>)
    ensures parse(body).None? ==> r.None?
    ensures parse(body).Some? ==> r == EnvelopeOf(parse(body).value)
  {
    match parse(body)
    case None => None
    case Some(j) => EnvelopeOf(j)
  }

  /** The provider error codes with a dedicated variant. */
  const InvalidRequestCode: string := "invalid_request"
  const UnauthorizedCodes: set<string> := {"unauthorized_client", "invalid_client"}
  const ForbiddenCodes: set<string> := {"access_denied", "insufficient_scope"}

  predicate IsKnownCode(code: string) {
    code == InvalidRequestCode || code in UnauthorizedCodes || code in ForbiddenCodes
  }

  /**
   * First tier: classify by the envelope's error code. A known code decides
   * the variant and carries the description, whatever the HTTP status; any
   * other code is unexpected, with status and "code: description" as body.
   */
  function ClassifyEnvelope(env: OauthErrorResponse, status: StatusCode): (e: Auth0Error)
    ensures env.error == InvalidRequestCode ==> e == InvalidRequest(env.errorDescription)
    ensures env.error in UnauthorizedCodes ==> e == Unauthorized(env.errorDescription)
    ensures env.error in ForbiddenCodes ==> e == Forbidden(env.errorDescription)
    ensures !IsKnownCode(env.error) ==>
              e == UnexpectedResponse(status, env.error + ": " + env.errorDescription)
    ensures !e.Transport? && !e.Conflict? && !e.TooManyRequests?
  {
    if env.error == InvalidRequestCode then InvalidRequest(env.errorDescription)
    else if env.error in UnauthorizedCodes then Unauthorized(env.errorDescription)
    else if env.error in ForbiddenCodes then Forbidden(env.errorDescription)
    else UnexpectedResponse(status, env.error + ": " + env.errorDescription)
  }

  /** The statuses the fallback tier names: those of `from_response` without 409. */
  const FallbackStatuses: set<int> := {400, 401, 403, 429}

  /**
   * Second tier: the status table of `from_response` without its 409 arm.
   * Status and body can be read back from the error; `Conflict` never arises.
   */
  function OauthFallback(status: StatusCode, body: string): (e: Auth0Error)
    ensures !e.Transport? && !e.Conflict?
    ensures e.UnexpectedResponse? <==> status !in FallbackStatuses
    ensures ReportedStatus(e) == Some(status)
    ensures Payload(e) == Some(body)
  {
    match status
    case 400 => InvalidRequest(body)
    case 401 => Unauthorized(body)
    case 403 => Forbidden(body)
    case 429 => TooManyRequests(body)
    case code => UnexpectedResponse(code, body)
  }

  /**
   * Both tiers together: the envelope when one was read, else the status.
   * Neither tier yields `Transport` or `Conflict`.
   */
  function ClassifyOauthError(envelope: Option<OauthErrorResponse>, status: StatusCode, body: string): (e: Auth0Error)
    ensures !e.Transport? && !e.Conflict?
    ensures envelope.Some? && IsKnownCode(envelope.value.error) ==> Payload(e) == Some(envelope.value.errorDescription)
    ensures envelope.Some? && !IsKnownCode(envelope.value.error) ==>
              e == UnexpectedResponse(status, envelope.value.error + ": " + envelope.value.errorDescription)
    ensures envelope.None? ==> ReportedStatus(e) == Some(status) && Payload(e) == Some(body)
    ensures envelope.Some? ==> e == ClassifyEnvelope(envelope.value, status)
    ensures envelope.None? ==> e == OauthFallback(status, body)
    ensures envelope.None? ==> (e.UnexpectedResponse? <==> status !in FallbackStatuses)
  {
    match envelope
    case Some(env) => ClassifyEnvelope(env, status)
    case None => OauthFallback(status, body)
  }

  /**
   * The response handling of `get_oauth_token`: a 2xx body must decode as a
   * token response (else `Transport`); any other status is classified in two
   * tiers from the body text, an unreadable body reading as "".
   */
  function OauthDispatch(resp: Response, parse: string -> Option<Json>): (r: Result<OauthTokenResponse, Auth0Error>)
    ensures r.Ok? ==> IsSuccess(resp.status) && resp.body.Some? && parse(resp.body.value).Some?
                      && TokenResponseOf(parse(resp.body.value).value) == Some(r.value)
    ensures IsSuccess(resp.status) && r.Err? ==> r.error == Transport
    ensures IsSuccess(resp.status) && resp.body.Some? && parse(resp.body.value).Some?
            && TokenResponseOf(parse(resp.body.value).value).Some? ==>
              r == Ok(TokenResponseOf(parse(resp.body.value).value).value)
    ensures !IsSuccess(resp.status) ==> r.Err? && !r.error.Transport? && !r.error.Conflict?
    ensures !IsSuccess(resp.status) ==>
              r.error == ClassifyOauthError(TryParseEnvelope(parse, Text(resp)), resp.status, Text(resp))
  {
    if IsSuccess(resp.status) then
      match resp.body
      case None => Err(Transport)
      case Some(text) =>
        match parse(text)
        case None => Err(Transport)
        case Some(j) =>
          match TokenResponseOf(j)
          case None => Err(Transport)
          case Some(token) => Ok(token)
    else
      var body := Text(resp);
      Err(ClassifyOauthError(TryParseEnvelope(parse, body), resp.status, body))
  }

  /** The request `get_oauth_token` sends: an unauthenticated POST of the serialized request. */
  function TokenRequest(domain: Domain, request: OauthTokenRequest): Request {
    Request(Post, ToUrl(domain, TokenPath), None, Keys(request))
  }

  /**
   * The token request is an unauthenticated POST to `/oauth/token` whose body
   * carries exactly the request's keys, the path readable back from the URL.
   */
  lemma TokenRequestShape(domain: Domain, request: OauthTokenRequest)
    ensures TokenRequest(domain, request).verb == Post
    ensures TokenRequest(domain, request).bearer.None?
    ensures TokenRequest(domain, request).url == ToUrl(domain, TokenPath)
    ensures ToUrl(domain, "") <= TokenRequest(domain, request).url
    ensures TokenRequest(domain, request).url[|ToUrl(domain, "")|..] == TokenPath
    ensures TokenRequest(domain, request).bodyKeys == Keys(request)
  {
    ToUrlPathRecovered(domain, TokenPath);
  }

  /**
   * `get_oauth_token`: send the request, map a transport failure to
   * `Transport`, and dispatch the response.
   */
  function GetOauthToken(domain: Domain, request: OauthTokenRequest,
                         send: Request -> Option<Response>, parse: string -> Option<Json>)
    : (r: Result<OauthTokenResponse, Auth0Error>)
    ensures send(TokenRequest(domain, request)).None? ==> r == Err(Transport)
    ensures send(TokenRequest(domain, request)).Some? ==>
              r == OauthDispatch(send(TokenRequest(domain, request)).value, parse)
    ensures r.Ok? ==> send(TokenRequest(domain, request)).Some?
                      && IsSuccess(send(TokenRequest(domain, request)).value.status)
  {
    match send(TokenRequest(domain, request))
    case None => Err(Transport)
    case Some(resp) => OauthDispatch(resp, parse)
  }

  /** A recognised envelope decides the error by its code alone: the HTTP status plays no part. */
  lemma KnownCodeIgnoresStatus(env: OauthErrorResponse, s1: StatusCode, s2: StatusCode)
    requires IsKnownCode(env.error)
    ensures ClassifyEnvelope(env, s1) == ClassifyEnvelope(env, s2)
  {
  }

  /**
   * The fallback tier agrees with `from_response` on every status but 409,
   * where it reports `UnexpectedResponse{409, body}` instead of `Conflict`.
   */
  lemma FallbackVersusFromResponse(status: StatusCode, body: string)
    ensures status != 409 ==> OauthFallback(status, body) == FromResponse(Response(status, Some(body)))
    ensures status == 409 ==> (OauthFallback(status, body) == UnexpectedResponse(409, body)
                           && FromResponse(Response(status, Some(body))) == Conflict(409, body))
  {
  }

  /** `{"error": "Too Many Requests"}` at 429 is no envelope (no description), so it falls back to `TooManyRequests`. */
  lemma RateLimitWithoutDescription(parse: string -> Option<Json>, body: string)
    requires parse(body) == Some(JObject(map["error" := JString("Too Many Requests")]))
    ensures OauthDispatch(Response(429, Some(body)), parse) == Err(TooManyRequests(body))
  {
    assert TryParseEnvelope(parse, body).None?;
  }

  /** A body that is not JSON at status 400 falls back to `InvalidRequest` carrying the raw text. */
  lemma NonJsonBadRequest(parse: string -> Option<Json>)
    requires parse("Bad Request").None?
    ensures OauthDispatch(Response(400, Some("Bad Request")), parse) == Err(InvalidRequest("Bad Request"))
  {
  }

  /** A non-envelope body at 409 is `UnexpectedResponse`, never `Conflict`, on this endpoint. */
  lemma PlainTextConflict(parse: string -> Option<Json>, body: string)
    requires parse(body).None?
    ensures OauthDispatch(Response(409, Some(body)), parse) == Err(UnexpectedResponse(409, body))
  {
  }

  /** An `invalid_client` envelope is `Unauthorized` with its description at any failure status. */
  lemma InvalidClientAtAnyStatus(parse: string -> Option<Json>, body: string, status: StatusCode)
    requires !IsSuccess(status)
    requires parse(body) == Some(JObject(map["error" := JString("invalid_client"), "error_description" := JString("bad")]))
    ensures OauthDispatch(Response(status, Some(body)), parse) == Err(Unauthorized("bad"))
  {
    assert TryParseEnvelope(parse, body) == Some(OauthErrorResponse("invalid_client", "bad", None));
  }

  /** A success body with the three required fields decodes with the optional ones absent. */
  lemma MinimalTokenResponse(parse: string -> Option<Json>, body: string)
    requires parse(body) == Some(JObject(map["access_token" := JString("t"), "token_type" := JString("Bearer"),
                                             "expires_in" := JNumber(3600)]))
    ensures OauthDispatch(Response(200, Some(body)), parse) == Ok(OauthTokenResponse("t", None, "Bearer", 3600, None, None))
  {
  }
}
