/**
 * Add Organization Members (`POST /api/v2/organizations/{id}/members`):
 * the two argument checks, the endpoint path and the success-status set.
 */
module OrganizationMembers {
  import opened Wrappers
  import opened Http
  import opened Json
  import opened Errors
  import opened Domains
  import opened Tokens
  import Strings

  const OrganizationsPrefix: string := "/api/v2/organizations/"
  const MembersSuffix: string := "/members"

  const EmptyOrganizationId: string := "Organization ID cannot be empty"
  const EmptyMembers: string := "Members array cannot be empty"

  /** `AddMembersRequest`: the user ids to add. */
  datatype AddMembersRequest = AddMembersRequest(members: seq<string>)

  /** The body serde emits: one key holding the ids as an array of strings, in order. */
  function Serialize(r: AddMembersRequest): (obj: map<string, Json>)
    ensures obj.Keys == {"members"}
    ensures obj["members"].JArray? && |obj["members"].items| == |r.members|
    ensures forall i :: 0 <= i < |r.members| ==> obj["members"].items[i] == JString(r.members[i])
  {
    map["members" := JArray(seq(|r.members|, i requires 0 <= i < |r.members| => JString(r.members[i])))]
  }

  /** The ids read back from a JSON array of strings; None when an item is not a string. */
  function MembersOf(items: seq<Json>): Option<seq<string>>
    decreases |items|
  {
    if items == [] then Some([])
    else match items[0]
      case JString(s) =>
        (match MembersOf(items[1..])
         case None => None
         case Some(rest) => Some([s] + rest))
      case _ => None
  }

  /** Reading the body back gives the request's ids, in order. */
  lemma {:induction false} SerializeRoundTrip(r: AddMembersRequest)
    ensures MembersOf(Serialize(r)["members"].items) == Some(r.members)
    decreases |r.members|
  {
    var items := Serialize(r)["members"].items;
    if r.members != [] {
      var tail := AddMembersRequest(r.members[1..]);
      SerializeRoundTrip(tail);
      assert items[1..] == Serialize(tail)["members"].items;
      assert items[0] == JString(r.members[0]);
      assert [r.members[0]] + r.members[1..] == r.members;
    }
  }

  /** The checks `post_members` makes before building any request: organization id first, then members. */
  function Validate(organizationId: string, request: AddMembersRequest): (e: Option<Auth0Error>)
    ensures organizationId == [] ==> e == Some(InvalidRequest(EmptyOrganizationId))
    ensures organizationId != [] && request.members == [] ==> e == Some(InvalidRequest(EmptyMembers))
    ensures e.None? <==> organizationId != [] && request.members != []
  {
    if organizationId == [] then Some(InvalidRequest(EmptyOrganizationId))
    else if request.members == [] then Some(InvalidRequest(EmptyMembers))
    else None
  }

  /** The path, with the organization id inserted as given (no percent-encoding). */
  function MembersPath(organizationId: string): string {
    OrganizationsPrefix + organizationId + MembersSuffix
  }

  /** The organization id can be read back from the path, so distinct ids reach distinct paths. */
  lemma {:induction false} MembersPathRecoversId(organizationId: string)
    ensures OrganizationsPrefix <= MembersPath(organizationId)
    ensures MembersPath(organizationId)[|OrganizationsPrefix|..|MembersPath(organizationId)| - |MembersSuffix|]
            == organizationId
  {
    var p := MembersPath(organizationId);
    assert p == OrganizationsPrefix + (organizationId + MembersSuffix);
    assert p[|OrganizationsPrefix|..] == organizationId + MembersSuffix;
    assert p[|OrganizationsPrefix|..|p| - |MembersSuffix|] == (organizationId + MembersSuffix)[..|organizationId|];
  }

  /** Two organization ids give the same URL only when they are the same id. */
  lemma MembersUrlInjective(d: Domain, id1: string, id2: string)
    ensures ToUrl(d, MembersPath(id1)) == ToUrl(d, MembersPath(id2)) ==> id1 == id2
  {
    ToUrlInjective(d, MembersPath(id1), MembersPath(id2));
    MembersPathRecoversId(id1);
    MembersPathRecoversId(id2);
  }

  /** The request `post_members` sends. */
  function MembersRequestFor(domain: Domain, token: BearerToken, organizationId: string, request: AddMembersRequest)
    : Request
  {
    Request(Post, ToUrl(domain, MembersPath(organizationId)), Some(Tokens.AsStr(token)), Serialize(request).Keys)
  }

  /** The statuses `post_members` treats as success: 200 OK, 201 Created and 204 No Content. */
  const MembersSuccessStatuses: set<int> := {200, 201, 204}

  /** A success status gives `Ok(())` without reading the body; any other is `from_response`. */
  function MembersDispatch(resp: Response): (r: Result<(), Auth0Error>)
    ensures r.Ok? <==> resp.status in MembersSuccessStatuses
    ensures r.Err? ==> r.error == FromResponse(resp)
    ensures r.Ok? ==> IsSuccess(resp.status)
  {
    if resp.status in MembersSuccessStatuses then Ok(()) else Err(FromResponse(resp))
  }

  /** `post_members`: validation, then one authenticated exchange, then the dispatch. */
  function PostMembers(domain: Domain, token: BearerToken, organizationId: string, request: AddMembersRequest,
                       send: Request -> Option<Response>): (r: Result<(), Auth0Error>)
    ensures Validate(organizationId, request).Some? ==> r == Err(Validate(organizationId, request).value)
    ensures Validate(organizationId, request).None? && send(MembersRequestFor(domain, token, organizationId, request)).None?
            ==> r == Err(Transport)
    ensures Validate(organizationId, request).None? && send(MembersRequestFor(domain, token, organizationId, request)).Some?
            ==> r == MembersDispatch(send(MembersRequestFor(domain, token, organizationId, request)).value)
  {
    match Validate(organizationId, request)
    case Some(e) => Err(e)
    case None =>
      match send(MembersRequestFor(domain, token, organizationId, request))
      case None => Err(Transport)
      case Some(resp) => MembersDispatch(resp)
  }

  /** A rejected argument never reaches the network: the result is the same whatever the transport does. */
  lemma ValidationPrecedesSend(domain: Domain, token: BearerToken, organizationId: string, request: AddMembersRequest,
                               send1: Request -> Option<Response>, send2: Request -> Option<Response>)
    requires organizationId == [] || request.members == []
    ensures PostMembers(domain, token, organizationId, request, send1)
            == PostMembers(domain, token, organizationId, request, send2)
    ensures PostMembers(domain, token, organizationId, request, send1).Err?
  {
  }

  /** An empty id is reported even when the members list is empty too. */
  lemma EmptyIdReportedFirst(domain: Domain, token: BearerToken, send: Request -> Option<Response>)
    ensures PostMembers(domain, token, "", AddMembersRequest([]), send) == Err(InvalidRequest(EmptyOrganizationId))
  {
  }

  /** Other 2xx codes are not success here: 202 is an unexpected response. */
  lemma AcceptedIsUnexpected(body: Option<string>)
    ensures MembersDispatch(Response(202, body)) == Err(UnexpectedResponse(202, body.GetOr("")))
  {
  }

  /** The crate's tests: 204 succeeds, 404 is unexpected, 401 is unauthorized, 400 is an invalid request. */
  lemma DispatchExamples(body: string)
    ensures MembersDispatch(Response(204, None)) == Ok(())
    ensures MembersDispatch(Response(404, Some(body))) == Err(UnexpectedResponse(404, body))
    ensures MembersDispatch(Response(401, Some(body))) == Err(Unauthorized(body))
    ensures MembersDispatch(Response(400, Some(body))) == Err(InvalidRequest(body))
  {
  }

  /** The crate's serialization test: the ids appear in order under `members`. */
  lemma SerializeExample()
    ensures Serialize(AddMembersRequest(["auth0|507f1f77bcf86cd799439011", "auth0|507f1f77bcf86cd799439012"]))
            == map["members" := JArray([JString("auth0|507f1f77bcf86cd799439011"),
                                        JString("auth0|507f1f77bcf86cd799439012")])]
  {
    var r := AddMembersRequest(["auth0|507f1f77bcf86cd799439011", "auth0|507f1f77bcf86cd799439012"]);
    assert Serialize(r)["members"].items == [JString(r.members[0]), JString(r.members[1])];
  }
  /**
   * Two of the crate's tests for the argument checks build their domain from
   * "https://test.auth0.com" under `cfg(test)`, where `Domain::new` refuses
   * every `https://` input, so they stop at the domain and never reach the
   * checks they are named after.
   */
  lemma TestDomainAsWritten()
    ensures Domains.New("https://test.auth0.com", true) == Err(InvalidRequest(TestSchemeMessage))
  {
    assert Strings.StartsWith("https://test.auth0.com", HttpsScheme);
  }

  /** With the scheme left off, the domain is accepted and both checks report as the tests expect. */
  lemma TestDomainCorrected(token: BearerToken, send: Request -> Option<Response>)
    ensures Domains.New("test.auth0.com", true) == Ok(Domain("test.auth0.com"))
    ensures PostMembers(Domain("test.auth0.com"), token, "", AddMembersRequest(["auth0|507f1f77bcf86cd799439011"]), send)
            == Err(InvalidRequest(EmptyOrganizationId))
    ensures PostMembers(Domain("test.auth0.com"), token, "org_123456", AddMembersRequest([]), send)
            == Err(InvalidRequest(EmptyMembers))
  {
    assert !Strings.StartsWith("test.auth0.com", HttpsScheme) by {
      assert "test.auth0.com"[0] != HttpsScheme[0];
    }
    assert !Strings.EndsWithChar("test.auth0.com", '/');
  }
}
