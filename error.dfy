/**
 * The client's error taxonomy (`Auth0Error`) and the standard classification
 * of a non-success HTTP response by its status code.
 */
module Errors {
  import opened Wrappers
  import opened Http

  /** Rust's `u16`, the width of the status carried by `Conflict` and `UnexpectedResponse`. */
  type u16 = n: int | 0 <= n < 0x1_0000

  /**
   * The seven outcomes of a failed call. `Transport` stands for every reqwest
   * error (connection, TLS, timeout, body decoding); its foreign payload is dropped.
   */
  datatype Auth0Error =
    | Transport
    | InvalidRequest(message: string)
    | Unauthorized(message: string)
    | Forbidden(message: string)
    | Conflict(status: u16, body: string)
    | TooManyRequests(message: string)
    | UnexpectedResponse(status: u16, body: string)

  /** The status codes that have a variant of their own. */
  const ClassifiedStatuses: set<int> := {400, 401, 403, 409, 429}

  /**
   * The HTTP status an error reports: the code its variant is documented
   * for, or the code it carries. `Transport` reports none.
   */
  function ReportedStatus(e: Auth0Error): Option<int> {
    match e
    case Transport => None
    case InvalidRequest(_) => Some(400)
    case Unauthorized(_) => Some(401)
    case Forbidden(_) => Some(403)
    case Conflict(status, _) => Some(status)
    case TooManyRequests(_) => Some(429)
    case UnexpectedResponse(status, _) => Some(status)
  }

  /** The text an error carries, whether its message or its body. */
  function Payload(e: Auth0Error): Option<string> {
    match e
    case Transport => None
    case InvalidRequest(m) => Some(m)
    case Unauthorized(m) => Some(m)
    case Forbidden(m) => Some(m)
    case Conflict(_, b) => Some(b)
    case TooManyRequests(m) => Some(m)
    case UnexpectedResponse(_, b) => Some(b)
  }

  /**
   * `Auth0Error::from_response`: classify a non-success response by exact
   * status code, carrying the body text (or "" when it cannot be read).
   * The status and the body can be read back from the error, so no
   * information is lost, and an uncatalogued status keeps its own code.
   */
  function FromResponse(resp: Response): (e: Auth0Error)
    ensures !e.Transport?
    ensures e.Conflict? ==> e.status == 409
    ensures e.UnexpectedResponse? <==> resp.status !in ClassifiedStatuses
    ensures ReportedStatus(e) == Some(resp.status)
    ensures Payload(e) == Some(Text(resp))
  {
    var body := Text(resp);
    match resp.status
    case 400 => InvalidRequest(body)
    case 401 => Unauthorized(body)
    case 403 => Forbidden(body)
    case 409 => Conflict(resp.status, body)
    case 429 => TooManyRequests(body)
    case code => UnexpectedResponse(code, body)
  }

  /** The status table of `from_response`, arm by arm. */
  lemma FromResponseTable(status: StatusCode, body: string)
    ensures status == 400 ==> FromResponse(Response(status, Some(body))) == InvalidRequest(body)
    ensures status == 401 ==> FromResponse(Response(status, Some(body))) == Unauthorized(body)
    ensures status == 403 ==> FromResponse(Response(status, Some(body))) == Forbidden(body)
    ensures status == 409 ==> FromResponse(Response(status, Some(body))) == Conflict(409, body)
    ensures status == 429 ==> FromResponse(Response(status, Some(body))) == TooManyRequests(body)
    ensures status !in ClassifiedStatuses ==>
              FromResponse(Response(status, Some(body))) == UnexpectedResponse(status, body)
  {
  }

  /** An unreadable body is classified exactly as an empty one: by status alone. */
  lemma UnreadableBodyClassifiedAsEmpty(status: StatusCode)
    ensures FromResponse(Response(status, None)) == FromResponse(Response(status, Some("")))
    ensures Payload(FromResponse(Response(status, None))) == Some("")
  {
  }

  /** Two responses yield the same error exactly when they agree on status and body text. */
  lemma FromResponseInjective(r1: Response, r2: Response)
    ensures FromResponse(r1) == FromResponse(r2) <==> r1.status == r2.status && Text(r1) == Text(r2)
  {
    if FromResponse(r1) == FromResponse(r2) {
      assert ReportedStatus(FromResponse(r1)) == Some(r1.status);
      assert Payload(FromResponse(r1)) == Some(Text(r1));
    }
  }

  /**
   * `resp.json::<T>().await?` on a success response: reading the body and
   * decoding it both fail as `Transport`. The decoder is serde's, a parameter.
   */
  function DecodeBody<T>(resp: Response, decode: string -> Option<T>): (r: Result<T, Auth0Error>)
    ensures r.Err? ==> r.error == Transport
    ensures r.Ok? <==> resp.body.Some? && decode(resp.body.value).Some?
    ensures r.Ok? ==> r.value == decode(resp.body.value).value
  {
    match resp.body
    case None => Err(Transport)
    case Some(text) =>
      match decode(text)
      case None => Err(Transport)
      case Some(v) => Ok(v)
  }

  /**
   * The response handling shared by `create_user` and
   * `create_password_change_ticket`: any 2xx decodes the body, anything else
   * is `from_response`.
   */
  function DecodeOnSuccess<T>(resp: Response, decode: string -> Option<T>): (r: Result<T, Auth0Error>)
    ensures r.Ok? <==> IsSuccess(resp.status) && resp.body.Some? && decode(resp.body.value).Some?
    ensures r.Ok? ==> decode(resp.body.value) == Some(r.value)
    ensures IsSuccess(resp.status) && r.Err? ==> r.error == Transport
    ensures !IsSuccess(resp.status) ==> r == Err(FromResponse(resp))
  {
    if IsSuccess(resp.status) then DecodeBody(resp, decode) else Err(FromResponse(resp))
  }
}
