/**
 * The boundary to the HTTP transport. A request is what the client hands to
 * reqwest; a response is what comes back. Sending itself is a parameter of
 * every endpoint (`send`), returning None when reqwest reports an error.
 */
module Http {
  import opened Wrappers

  /** reqwest's `StatusCode` only holds the three-digit codes 100..=999. */
  type StatusCode = n: int | 100 <= n <= 999 witness 200

  /** `StatusCode::is_success`: any 2xx code. */
  predicate IsSuccess(status: StatusCode) {
    200 <= status <= 299
  }

  datatype Method = Post | Patch

  /** An outgoing request: HTTP method, absolute URL, bearer credential (if any), and the keys of its JSON body. */
  datatype Request = Request(verb: Method, url: string, bearer: Option<string>, bodyKeys: set<string>)

  /** A completed exchange. `body` is None when reading the body text failed. */
  datatype Response = Response(status: StatusCode, body: Option<string>)

  /** `resp.text().await.unwrap_or_default()`: an unreadable body reads as "". */
  function Text(resp: Response): string {
    resp.body.GetOr("")
  }
}
