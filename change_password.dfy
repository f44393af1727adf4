/**
 * Change Password (`POST /dbconnections/change_password`, Authentication API):
 * the request, its builder with ordered validation and the response dispatch.
 */
module DbConnections {
  import opened Wrappers
  import opened Http
  import opened Json
  import opened Errors
  import opened Domains

  const ChangePasswordPath: string := "/dbconnections/change_password"

  const ClientIdRequired: string := "Client ID is required"
  const EmailRequired: string := "Email is required"
  const InvalidEmail: string := "Invalid email format"
  const ConnectionRequired: string := "Connection is required"

  /** `ChangePasswordRequest`. */
  datatype ChangePasswordRequest = ChangePasswordRequest(
    clientId: string, email: string, connection: string, organization: Option<string>)

  const FieldNames: set<string> := {"client_id", "email", "connection", "organization"}

  /** The JSON value serde emits under `key`; None for a skipped optional. */
  function Field(r: ChangePasswordRequest, key: string): Option<Json> {
    if key == "client_id" then Some(JString(r.clientId))
    else if key == "email" then Some(JString(r.email))
    else if key == "connection" then Some(JString(r.connection))
    else if key == "organization" then StringValue(r.organization)
    else None
  }

  function Serialize(r: ChangePasswordRequest): map<string, Json> {
    map k | k in FieldNames && Field(r, k).Some? :: Field(r, k).value
  }

  function Keys(r: ChangePasswordRequest): set<string> {
    Serialize(r).Keys
  }

  /** `ChangePasswordRequestBuilder`. */
  datatype ChangePasswordRequestBuilder = ChangePasswordRequestBuilder(
    clientId: Option<string>, email: Option<string>, connection: Option<string>, organization: Option<string>)
  {
    function ClientId(clientId: string): ChangePasswordRequestBuilder { this.(clientId := Some(clientId)) }
    function Email(email: string): ChangePasswordRequestBuilder { this.(email := Some(email)) }
    function Connection(connection: string): ChangePasswordRequestBuilder { this.(connection := Some(connection)) }
    function Organization(organization: string): ChangePasswordRequestBuilder { this.(organization := Some(organization)) }

    /**
     * `build`: client id, then email, then the email's `@`, then connection;
     * the email format is checked BEFORE the connection's presence here.
     */
    function Build(): (r: Result<ChangePasswordRequest, Auth0Error>)
      ensures clientId.None? ==> r == Err(InvalidRequest(ClientIdRequired))
      ensures clientId.Some? && email.None? ==> r == Err(InvalidRequest(EmailRequired))
      ensures clientId.Some? && email.Some? && '@' !in email.value ==> r == Err(InvalidRequest(InvalidEmail))
      ensures clientId.Some? && email.Some? && '@' in email.value && connection.None?
              ==> r == Err(InvalidRequest(ConnectionRequired))
      ensures r.Ok? <==> clientId.Some? && email.Some? && '@' in email.value && connection.Some?
      ensures r.Ok? ==> ToBuilder(r.value) == this
    {
      match clientId
      case None => Err(InvalidRequest(ClientIdRequired))
      case Some(clientId) =>
        match email
        case None => Err(InvalidRequest(EmailRequired))
        case Some(email) =>
          if '@' !in email then
            Err(InvalidRequest(InvalidEmail))
          else
            match connection
            case None => Err(InvalidRequest(ConnectionRequired))
            case Some(connection) => Ok(ChangePasswordRequest(clientId, email, connection, organization))
    }
  }

  function Builder(): ChangePasswordRequestBuilder {
    ChangePasswordRequestBuilder(None, None, None, None)
  }

  function ToBuilder(r: ChangePasswordRequest): ChangePasswordRequestBuilder {
    ChangePasswordRequestBuilder(Some(r.clientId), Some(r.email), Some(r.connection), r.organization)
  }

  /** Every request with an `@` in its email is rebuilt from its own builder. */
  lemma BuildFromRequest(r: ChangePasswordRequest)
    requires '@' in r.email
    ensures ToBuilder(r).Build() == Ok(r)
  {
  }

  /** The three required keys are always emitted, the organization exactly when set. */
  lemma KeysExact(r: ChangePasswordRequest)
    ensures Keys(r) <= FieldNames
    ensures "client_id" in Keys(r) && "email" in Keys(r) && "connection" in Keys(r)
    ensures "organization" in Keys(r) <==> r.organization.Some?
  {
  }

  /**
   * A malformed email and a missing connection together report the email
   * here, while create-user (which checks the connection first) reports the
   * connection.
   */
  lemma FormatBeforeConnection(clientId: string)
    ensures Builder().ClientId(clientId).Email("invalid_email").Build() == Err(InvalidRequest(InvalidEmail))
  {
  }

  /** The crate's tests. */
  lemma BuildExamples()
    ensures Builder().ClientId("test_client_id").Email("user@example.com").Connection("Username-Password-Authentication")
              .Organization("org_123").Build()
            == Ok(ChangePasswordRequest("test_client_id", "user@example.com", "Username-Password-Authentication",
                                        Some("org_123")))
    ensures Builder().Email("user@example.com").Connection("Username-Password-Authentication").Build()
            == Err(InvalidRequest(ClientIdRequired))
    ensures Builder().ClientId("test_client_id").Connection("Username-Password-Authentication").Build()
            == Err(InvalidRequest(EmailRequired))
    ensures Builder().ClientId("test_client_id").Email("user@example.com").Build()
            == Err(InvalidRequest(ConnectionRequired))
    ensures Builder().ClientId("test_client_id").Email("invalid_email").Connection("Username-Password-Authentication")
              .Build()
            == Err(InvalidRequest(InvalidEmail))
  {
  }

  /** The request `change_password` sends: no bearer token on this endpoint. */
  function ChangePasswordRequestFor(domain: Domain, request: ChangePasswordRequest): (q: Request)
    ensures q.bearer.None?
    ensures q.verb == Post && q.bodyKeys == Keys(request)
    ensures q.url == ToUrl(domain, ChangePasswordPath)
    ensures ToUrl(domain, "") <= q.url && q.url[|ToUrl(domain, "")|..] == ChangePasswordPath
  {
    ToUrlPathRecovered(domain, ChangePasswordPath);
    Request(Post, ToUrl(domain, ChangePasswordPath), None, Keys(request))
  }

  /** A 2xx answers with the body text verbatim (unreadable: Transport); anything else is `from_response`. */
  function ChangePasswordDispatch(resp: Response): (r: Result<string, Auth0Error>)
    ensures IsSuccess(resp.status) ==> (r.Ok? <==> resp.body.Some?)
    ensures r.Ok? ==> resp.body == Some(r.value)
    ensures IsSuccess(resp.status) && r.Err? ==> r.error == Transport
    ensures !IsSuccess(resp.status) ==> r == Err(FromResponse(resp))
  {
    if IsSuccess(resp.status) then
      match resp.body
      case None => Err(Transport)
      case Some(text) => Ok(text)
    else
      Err(FromResponse(resp))
  }

  /** `change_password`. */
  function ChangePassword(domain: Domain, request: ChangePasswordRequest, send: Request -> Option<Response>)
    : (r: Result<string, Auth0Error>)
    ensures send(ChangePasswordRequestFor(domain, request)).None? ==> r == Err(Transport)
    ensures send(ChangePasswordRequestFor(domain, request)).Some? ==>
              r == ChangePasswordDispatch(send(ChangePasswordRequestFor(domain, request)).value)
  {
    match send(ChangePasswordRequestFor(domain, request))
    case None => Err(Transport)
    case Some(resp) => ChangePasswordDispatch(resp)
  }

  /** Any 2xx text is passed through unchanged, even an empty one. */
  lemma SuccessTextPassedThrough(status: StatusCode, text: string)
    requires IsSuccess(status)
    ensures ChangePasswordDispatch(Response(status, Some(text))) == Ok(text)
  {
  }
}
