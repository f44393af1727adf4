/**
 * Patch Organization (`PATCH /api/v2/organizations/{id}`): the emitted keys
 * of the all-optional request, the endpoint path and the 200-only dispatch.
 */
module OrganizationPatch {
  import opened Wrappers
  import opened Http
  import opened Json
  import opened Errors
  import opened Domains
  import opened Tokens
  import OrganizationMembers

  /** Branding settings and an enabled connection; their fields are not part of this model. */
  type OrganizationBranding(==)
  type EnabledConnection(==)

  const OrganizationsPrefix: string := "/api/v2/organizations/"

  /** `PatchOrganizationRequest`: every field optional, absent ones are not sent. */
  datatype PatchOrganizationRequest = PatchOrganizationRequest(
    displayName: Option<string>,
    name: Option<string>,
    branding: Option<OrganizationBranding>,
    metadata: Option<Json>,
    enabledConnections: Option<seq<EnabledConnection>>)

  /** `PatchOrganizationRequest::default()`. */
  function Default(): PatchOrganizationRequest {
    PatchOrganizationRequest(None, None, None, None, None)
  }

  const FieldNames: set<string> := {"display_name", "name", "branding", "metadata", "enabled_connections"}

  /** Whether serde emits `key` for the request. */
  predicate Emits(r: PatchOrganizationRequest, key: string) {
    if key == "display_name" then r.displayName.Some?
    else if key == "name" then r.name.Some?
    else if key == "branding" then r.branding.Some?
    else if key == "metadata" then r.metadata.Some?
    else if key == "enabled_connections" then r.enabledConnections.Some?
    else false
  }

  /** The key names of the serialized request. */
  function Keys(r: PatchOrganizationRequest): set<string> {
    set k | k in FieldNames && Emits(r, k)
  }

  /** Each key is emitted exactly when its field is Some. */
  lemma KeysExact(r: PatchOrganizationRequest)
    ensures Keys(r) <= FieldNames
    ensures "display_name" in Keys(r) <==> r.displayName.Some?
    ensures "name" in Keys(r) <==> r.name.Some?
    ensures "branding" in Keys(r) <==> r.branding.Some?
    ensures "metadata" in Keys(r) <==> r.metadata.Some?
    ensures "enabled_connections" in Keys(r) <==> r.enabledConnections.Some?
  {
  }

  /** The body is the empty object exactly for the default request. */
  lemma EmptyBodyOnlyForDefault(r: PatchOrganizationRequest)
    ensures Keys(r) == {} <==> r == Default()
  {
    if r != Default() {
      if r.displayName.Some? { assert "display_name" in Keys(r); }
      else if r.name.Some? { assert "name" in Keys(r); }
      else if r.branding.Some? { assert "branding" in Keys(r); }
      else if r.metadata.Some? { assert "metadata" in Keys(r); }
      else { assert "enabled_connections" in Keys(r); }
    }
  }

  /** The crate's serialization test: display name and branding set, nothing else emitted. */
  lemma KeysExample(b: OrganizationBranding)
    ensures Keys(PatchOrganizationRequest(Some("Updated Org"), None, Some(b), None, None)) == {"display_name", "branding"}
  {
    var r := PatchOrganizationRequest(Some("Updated Org"), None, Some(b), None, None);
    assert "display_name" in Keys(r) && "branding" in Keys(r);
  }

  /** The path, with the organization id inserted as given. */
  function OrganizationPath(organizationId: string): string {
    OrganizationsPrefix + organizationId
  }

  /** The organization id can be read back from the path. */
  lemma OrganizationPathRecoversId(organizationId: string)
    ensures OrganizationPath(organizationId)[|OrganizationsPrefix|..] == organizationId
  {
    assert (OrganizationsPrefix + organizationId)[|OrganizationsPrefix|..] == organizationId;
  }

  /** Two organization ids give the same URL only when they are the same id. */
  lemma OrganizationUrlInjective(d: Domain, id1: string, id2: string)
    ensures ToUrl(d, OrganizationPath(id1)) == ToUrl(d, OrganizationPath(id2)) ==> id1 == id2
  {
    ToUrlInjective(d, OrganizationPath(id1), OrganizationPath(id2));
    OrganizationPathRecoversId(id1);
    OrganizationPathRecoversId(id2);
  }

  /** The request `patch_organization` sends. */
  function PatchRequestFor(domain: Domain, token: BearerToken, organizationId: string,
                           request: PatchOrganizationRequest): Request
  {
    Request(Patch, ToUrl(domain, OrganizationPath(organizationId)), Some(Tokens.AsStr(token)), Keys(request))
  }

  /** Only 200 decodes the body; every other status, other 2xx codes included, is `from_response`. */
  function PatchDispatch<T>(resp: Response, decode: string -> Option<T>): (r: Result<T, Auth0Error>)
    ensures r.Ok? ==> resp.status == 200 && resp.body.Some? && decode(resp.body.value) == Some(r.value)
    ensures resp.status == 200 && r.Err? ==> r.error == Transport
    ensures resp.status == 200 && resp.body.Some? && decode(resp.body.value).Some? ==>
              r == Ok(decode(resp.body.value).value)
    ensures resp.status != 200 ==> r == Err(FromResponse(resp))
  {
    if resp.status == 200 then DecodeBody(resp, decode) else Err(FromResponse(resp))
  }

  /** `patch_organization`: one authenticated exchange, then the dispatch. */
  function PatchOrganization<T>(domain: Domain, token: BearerToken, organizationId: string,
                                request: PatchOrganizationRequest, send: Request -> Option<Response>,
                                decode: string -> Option<T>): (r: Result<T, Auth0Error>)
    ensures send(PatchRequestFor(domain, token, organizationId, request)).None? ==> r == Err(Transport)
    ensures send(PatchRequestFor(domain, token, organizationId, request)).Some? ==>
              r == PatchDispatch(send(PatchRequestFor(domain, token, organizationId, request)).value, decode)
  {
    match send(PatchRequestFor(domain, token, organizationId, request))
    case None => Err(Transport)
    case Some(resp) => PatchDispatch(resp, decode)
  }

  /** 201 and 204 are success statuses for `is_success` and for `post_members`, but errors here. */
  lemma OtherSuccessCodesRejected<T>(body: Option<string>, decode: string -> Option<T>)
    ensures IsSuccess(201) && IsSuccess(204)
    ensures OrganizationMembers.MembersDispatch(Response(201, body)).Ok?
    ensures PatchDispatch(Response(201, body), decode) == Err(UnexpectedResponse(201, body.GetOr("")))
    ensures PatchDispatch(Response(204, body), decode) == Err(UnexpectedResponse(204, body.GetOr("")))
  {
  }

  /** The success sets nest: 200 only, inside {200, 201, 204}, inside every 2xx. */
  lemma SuccessSetsNest(status: StatusCode)
    ensures status == 200 ==> status in OrganizationMembers.MembersSuccessStatuses
    ensures status in OrganizationMembers.MembersSuccessStatuses ==> IsSuccess(status)
  {
  }

  /** A 200 whose body decodes yields the decoded organization; an unreadable or undecodable 200 is `Transport`. */
  lemma SuccessExamples(text: string)
    ensures PatchDispatch(Response(200, Some(text)), (t: string) => Some(|t|)) == Ok(|text|)
    ensures PatchDispatch(Response(200, Some(text)), (t: string) => if t == "" then None else Some(t))
            == if text == "" then Err(Transport) else Ok(text)
    ensures PatchDispatch(Response(200, None), (t: string) => Some(t)) == Err(Transport)
  {
  }

  /** The crate's tests: 404 unexpected, 401 unauthorized, 429 rate limited, 400 invalid request. */
  lemma DispatchExamples<T>(body: string, decode: string -> Option<T>)
    ensures PatchDispatch(Response(404, Some(body)), decode) == Err(UnexpectedResponse(404, body))
    ensures PatchDispatch(Response(401, Some(body)), decode) == Err(Unauthorized(body))
    ensures PatchDispatch(Response(429, Some(body)), decode) == Err(TooManyRequests(body))
    ensures PatchDispatch(Response(400, Some(body)), decode) == Err(InvalidRequest(body))
  {
  }
}
