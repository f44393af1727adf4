/**
 * Create Password Change Ticket (`POST /api/v2/tickets/password-change`):
 * the request, its builder with ordered validation, the serialized body and
 * the response dispatch.
 */
module Tickets {
  import opened Wrappers
  import opened Http
  import opened Json
  import opened Errors
  import opened Domains
  import opened Tokens

  const TicketsPath: string := "/api/v2/tickets/password-change"

  const UserIdRequired: string := "User ID is required"
  const InvalidEmail: string := "Invalid email format"
  const TtlNotPositive: string := "TTL must be positive"

  /** Rust's `i32`. */
  type i32 = n: int | -0x8000_0000 <= n < 0x8000_0000

  /** `CreatePasswordChangeTicketRequest`. */
  datatype TicketRequest = TicketRequest(
    userId: string,
    resultUrl: Option<string>,
    ttlSec: Option<i32>,
    markEmailAsVerified: Option<bool>,
    includeEmailInRedirect: Option<bool>,
    newEmail: Option<string>,
    connectionId: Option<string>,
    clientId: Option<string>,
    organizationId: Option<string>)

  /** The keys a ticket request can emit; `include_email_in_redirect` is renamed on the wire. */
  const FieldNames: set<string> := {
    "user_id", "result_url", "ttl_sec", "mark_email_as_verified", "includeEmailInRedirect", "new_email",
    "connection_id", "client_id", "organization_id"}

  function TtlValue(o: Option<i32>): Option<Json> {
    match o
    case None => None
    case Some(n) => Some(JNumber(n))
  }

  /** The JSON value serde emits under `key`; None for a skipped optional. */
  function Field(r: TicketRequest, key: string): Option<Json> {
    if key == "user_id" then Some(JString(r.userId))
    else if key == "result_url" then StringValue(r.resultUrl)
    else if key == "ttl_sec" then TtlValue(r.ttlSec)
    else if key == "mark_email_as_verified" then BoolValue(r.markEmailAsVerified)
    else if key == "includeEmailInRedirect" then BoolValue(r.includeEmailInRedirect)
    else if key == "new_email" then StringValue(r.newEmail)
    else if key == "connection_id" then StringValue(r.connectionId)
    else if key == "client_id" then StringValue(r.clientId)
    else if key == "organization_id" then StringValue(r.organizationId)
    else None
  }

  /** The JSON object serde emits for the request. */
  function Serialize(r: TicketRequest): map<string, Json> {
    map k | k in FieldNames && Field(r, k).Some? :: Field(r, k).value
  }

  function Keys(r: TicketRequest): set<string> {
    Serialize(r).Keys
  }

  /** What every built ticket request satisfies: a new email has an `@`, a TTL is positive. */
  predicate Valid(r: TicketRequest) {
    (r.newEmail.Some? ==> '@' in r.newEmail.value) && (r.ttlSec.Some? ==> r.ttlSec.value > 0)
  }

  /** `CreatePasswordChangeTicketRequestBuilder`. */
  datatype TicketRequestBuilder = TicketRequestBuilder(
    userId: Option<string>,
    resultUrl: Option<string>,
    ttlSec: Option<i32>,
    markEmailAsVerified: Option<bool>,
    includeEmailInRedirect: Option<bool>,
    newEmail: Option<string>,
    connectionId: Option<string>,
    clientId: Option<string>,
    organizationId: Option<string>)
  {
    function UserId(userId: string): TicketRequestBuilder { this.(userId := Some(userId)) }
    function ResultUrl(resultUrl: string): TicketRequestBuilder { this.(resultUrl := Some(resultUrl)) }
    function TtlSec(ttlSec: i32): TicketRequestBuilder { this.(ttlSec := Some(ttlSec)) }
    function MarkEmailAsVerified(verified: bool): TicketRequestBuilder { this.(markEmailAsVerified := Some(verified)) }
    function IncludeEmailInRedirect(includeEmail: bool): TicketRequestBuilder { this.(includeEmailInRedirect := Some(includeEmail)) }
    function NewEmail(email: string): TicketRequestBuilder { this.(newEmail := Some(email)) }
    function ConnectionId(connectionId: string): TicketRequestBuilder { this.(connectionId := Some(connectionId)) }
    function ClientId(clientId: string): TicketRequestBuilder { this.(clientId := Some(clientId)) }
    function OrganizationId(organizationId: string): TicketRequestBuilder { this.(organizationId := Some(organizationId)) }

    /**
     * `build`: user id first, then the new email's `@`, then the TTL's sign;
     * the first failure wins, and a success carries every field over.
     */
    function Build(): (r: Result<TicketRequest, Auth0Error>)
      ensures userId.None? ==> r == Err(InvalidRequest(UserIdRequired))
      ensures userId.Some? && newEmail.Some? && '@' !in newEmail.value ==> r == Err(InvalidRequest(InvalidEmail))
      ensures userId.Some? && (newEmail.Some? ==> '@' in newEmail.value) && ttlSec.Some? && ttlSec.value <= 0
              ==> r == Err(InvalidRequest(TtlNotPositive))
      ensures r.Ok? <==> userId.Some? && (newEmail.Some? ==> '@' in newEmail.value)
                         && (ttlSec.Some? ==> ttlSec.value > 0)
      ensures r.Ok? ==> Valid(r.value) && ToBuilder(r.value) == this
    {
      match userId
      case None => Err(InvalidRequest(UserIdRequired))
      case Some(userId) =>
        if newEmail.Some? && '@' !in newEmail.value then
          Err(InvalidRequest(InvalidEmail))
        else if ttlSec.Some? && ttlSec.value <= 0 then
          Err(InvalidRequest(TtlNotPositive))
        else
          Ok(TicketRequest(userId, resultUrl, ttlSec, markEmailAsVerified, includeEmailInRedirect, newEmail,
                           connectionId, clientId, organizationId))
    }
  }

  /** `CreatePasswordChangeTicketRequest::builder()`: nothing set. */
  function Builder(): TicketRequestBuilder {
    TicketRequestBuilder(None, None, None, None, None, None, None, None, None)
  }

  /** The builder holding every field of a request. */
  function ToBuilder(r: TicketRequest): TicketRequestBuilder {
    TicketRequestBuilder(Some(r.userId), r.resultUrl, r.ttlSec, r.markEmailAsVerified, r.includeEmailInRedirect,
                         r.newEmail, r.connectionId, r.clientId, r.organizationId)
  }

  /** A request can be built exactly when it is valid, and then the build gives it back. */
  lemma BuildAcceptsExactlyValid(r: TicketRequest)
    ensures ToBuilder(r).Build().Ok? <==> Valid(r)
    ensures Valid(r) ==> ToBuilder(r).Build() == Ok(r)
  {
  }

  /** The TTL check only looks at the sign: one second is accepted, zero refused. */
  lemma TtlBoundary(userId: string)
    ensures Builder().UserId(userId).TtlSec(1).Build().Ok?
    ensures Builder().UserId(userId).TtlSec(0).Build() == Err(InvalidRequest(TtlNotPositive))
    ensures Builder().UserId(userId).TtlSec(-0x8000_0000).Build() == Err(InvalidRequest(TtlNotPositive))
  {
  }

  /** With both a bad email and a bad TTL the email is reported. */
  lemma EmailCheckedBeforeTtl(userId: string)
    ensures Builder().UserId(userId).NewEmail("invalid_email").TtlSec(-1).Build() == Err(InvalidRequest(InvalidEmail))
  {
  }

  /** The user id is always emitted; each optional key exactly when its field is Some. */
  lemma KeysExact(r: TicketRequest)
    ensures Keys(r) <= FieldNames
    ensures "user_id" in Keys(r)
    ensures "result_url" in Keys(r) <==> r.resultUrl.Some?
    ensures "ttl_sec" in Keys(r) <==> r.ttlSec.Some?
    ensures "mark_email_as_verified" in Keys(r) <==> r.markEmailAsVerified.Some?
    ensures "includeEmailInRedirect" in Keys(r) <==> r.includeEmailInRedirect.Some?
    ensures "include_email_in_redirect" !in Keys(r)
    ensures "new_email" in Keys(r) <==> r.newEmail.Some?
    ensures "connection_id" in Keys(r) <==> r.connectionId.Some?
    ensures "client_id" in Keys(r) <==> r.clientId.Some?
    ensures "organization_id" in Keys(r) <==> r.organizationId.Some?
  {
  }

  /** The minimal build emits only the user id. */
  lemma MinimalBuild(userId: string)
    ensures Builder().UserId(userId).Build() == Ok(TicketRequest(userId, None, None, None, None, None, None, None, None))
    ensures Serialize(Builder().UserId(userId).Build().value) == map["user_id" := JString(userId)]
  {
    var r := Builder().UserId(userId).Build().value;
    assert Serialize(r).Keys == {"user_id"};
  }

  /** The crate's tests: missing user id, bad email, negative TTL. */
  lemma BuildErrorExamples()
    ensures Builder().ResultUrl("https://myapp.com/password-changed").Build() == Err(InvalidRequest(UserIdRequired))
    ensures Builder().UserId("auth0|507f1f77bcf86cd799439011").NewEmail("invalid_email").Build()
            == Err(InvalidRequest(InvalidEmail))
    ensures Builder().UserId("auth0|507f1f77bcf86cd799439011").TtlSec(-1).Build() == Err(InvalidRequest(TtlNotPositive))
  {
  }

  /** The request `create_password_change_ticket` sends. */
  function TicketRequestFor(domain: Domain, token: BearerToken, request: TicketRequest): Request {
    Request(Post, ToUrl(domain, TicketsPath), Some(Tokens.AsStr(token)), Keys(request))
  }

  /** `create_password_change_ticket`: one authenticated exchange, then any 2xx decodes and anything else is `from_response`. */
  function CreatePasswordChangeTicket<T>(domain: Domain, token: BearerToken, request: TicketRequest,
                                         send: Request -> Option<Response>, decode: string -> Option<T>)
    : (r: Result<T, Auth0Error>)
    ensures send(TicketRequestFor(domain, token, request)).None? ==> r == Err(Transport)
    ensures send(TicketRequestFor(domain, token, request)).Some? ==>
              r == DecodeOnSuccess(send(TicketRequestFor(domain, token, request)).value, decode)
  {
    match send(TicketRequestFor(domain, token, request))
    case None => Err(Transport)
    case Some(resp) => DecodeOnSuccess(resp, decode)
  }
}
