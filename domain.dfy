/**
 * `Domain`: the validated host of an Auth0 tenant. The crate compiles its
 * checks differently under `cfg(test)`; here that build mode is the explicit
 * parameter `testMode`.
 */
module Domains {
  import opened Wrappers
  import opened Strings
  import opened Errors

  const HttpScheme: string := "http://"
  const HttpsScheme: string := "https://"

  const EmptyMessage: string := "Domain cannot be empty"
  const SchemeMessage: string := "Domain should not include protocol (http:// or https://)"
  const TestSchemeMessage: string := "Domain should not include protocol (https://)"
  const TrailingSlashMessage: string := "Domain should not end with a trailing slash"
  const NoDotMessage: string := "Domain must be a valid Auth0 domain (e.g., tenant.auth0.com)"

  /** The stored host string; only `New` produces one in the crate (the field is private). */
  datatype Domain = Domain(inner: string)

  /** The scheme rule: production rejects both schemes, test mode only `https://`. */
  predicate HasForbiddenScheme(raw: string, testMode: bool) {
    StartsWith(raw, HttpsScheme) || (!testMode && StartsWith(raw, HttpScheme))
  }

  /** What a valid domain is, independent of the order the checks run in. */
  predicate IsValidDomain(raw: string, testMode: bool) {
    && raw != ""
    && !HasForbiddenScheme(raw, testMode)
    && !EndsWithChar(raw, '/')
    && (testMode || '.' in raw)
  }

  /**
   * `Domain::new`: empty, then scheme, then trailing slash, then (production
   * only) the missing dot; the first failing check decides the message. On
   * success the input is stored verbatim.
   */
  function New(raw: string, testMode: bool): (r: Result<Domain, Auth0Error>)
    ensures r.Ok? <==> IsValidDomain(raw, testMode)
    ensures r.Ok? ==> r.value.inner == raw
    ensures raw == "" ==> r == Err(InvalidRequest(EmptyMessage))
    ensures raw != "" && HasForbiddenScheme(raw, testMode) ==>
              r == Err(InvalidRequest(if testMode then TestSchemeMessage else SchemeMessage))
    ensures raw != "" && !HasForbiddenScheme(raw, testMode) && EndsWithChar(raw, '/') ==>
              r == Err(InvalidRequest(TrailingSlashMessage))
    ensures raw != "" && !HasForbiddenScheme(raw, testMode) && !EndsWithChar(raw, '/') && !testMode && '.' !in raw ==>
              r == Err(InvalidRequest(NoDotMessage))
  {
    if raw == "" then
      Err(InvalidRequest(EmptyMessage))
    else if !testMode && (StartsWith(raw, HttpScheme) || StartsWith(raw, HttpsScheme)) then
      Err(InvalidRequest(SchemeMessage))
    else if testMode && StartsWith(raw, HttpsScheme) then
      Err(InvalidRequest(TestSchemeMessage))
    else if EndsWithChar(raw, '/') then
      Err(InvalidRequest(TrailingSlashMessage))
    else if !testMode && '.' !in raw then
      Err(InvalidRequest(NoDotMessage))
    else
      Ok(Domain(raw))
  }

  /** `Domain::as_str` */
  function AsStr(d: Domain): string {
    d.inner
  }

  /** `impl Display for Domain` */
  function Display(d: Domain): string {
    d.inner
  }

  /**
   * `Domain::to_url`: a stored `http://` origin (a local mock server) is used
   * as it is; every other domain gets `https://` in front.
   */
  function ToUrl(d: Domain, path: string): string {
    if StartsWith(d.inner, HttpScheme) then d.inner + path else HttpsScheme + d.inner + path
  }

  /** `as_str` and `Display` give back exactly the string `New` accepted. */
  lemma AsStrRoundTrip(raw: string, testMode: bool)
    requires New(raw, testMode).Ok?
    ensures AsStr(New(raw, testMode).value) == raw
    ensures Display(New(raw, testMode).value) == raw
  {
  }

  /** Test mode only relaxes: whatever production accepts, test mode accepts unchanged. */
  lemma TestModeRelaxes(raw: string)
    ensures New(raw, false).Ok? ==> New(raw, true) == New(raw, false)
  {
  }

  /** The two relaxations of test mode, each shown by an input production refuses. */
  lemma TestModeDifferences()
    ensures New("http://127.0.0.1:1234", false) == Err(InvalidRequest(SchemeMessage))
    ensures New("http://127.0.0.1:1234", true) == Ok(Domain("http://127.0.0.1:1234"))
    ensures New("localhost", false) == Err(InvalidRequest(NoDotMessage))
    ensures New("localhost", true) == Ok(Domain("localhost"))
  {
    assert StartsWith("http://127.0.0.1:1234", HttpScheme);
    assert !StartsWith("http://127.0.0.1:1234", HttpsScheme) by {
      assert "http://127.0.0.1:1234"[4] != HttpsScheme[4];
    }
    assert !StartsWith("localhost", HttpScheme) by {
      assert "localhost"[0] != HttpScheme[0];
    }
    assert !StartsWith("localhost", HttpsScheme) by {
      assert "localhost"[0] != HttpsScheme[0];
    }
  }

  /** The crate's tests: a tenant host is accepted in both build modes and gets an https URL. */
  lemma DomainAcceptedExample(testMode: bool)
    ensures New("tenant.auth0.com", testMode) == Ok(Domain("tenant.auth0.com"))
  {
    var raw := "tenant.auth0.com";
    assert !StartsWith(raw, HttpScheme) && !StartsWith(raw, HttpsScheme) by {
      assert raw[0] != HttpScheme[0] && raw[0] != HttpsScheme[0];
    }
    assert !EndsWithChar(raw, '/') by {
      assert raw[|raw| - 1] == 'm';
    }
    assert '.' in raw by {
      assert raw[6] == '.';
    }
  }

  /** The crate's tests: the URL of a tenant host. */
  lemma ToUrlExample()
    ensures ToUrl(Domain("tenant.auth0.com"), "/api/v2/users") == "https://tenant.auth0.com/api/v2/users"
  {
    var d := Domain("tenant.auth0.com");
    assert !StartsWith(d.inner, HttpScheme) by {
      assert d.inner[0] != HttpScheme[0];
    }
    var origin := HttpsScheme + d.inner;
    assert origin == "https://tenant.auth0.com";
    assert ToUrl(d, "/api/v2/users") == origin + "/api/v2/users";
  }

  /** The crate's tests: the empty string, an https URL and a trailing slash are refused in both build modes. */
  lemma DomainRejectedExamples(testMode: bool)
    ensures New("", testMode) == Err(InvalidRequest(EmptyMessage))
    ensures New("https://tenant.auth0.com", testMode)
            == Err(InvalidRequest(if testMode then TestSchemeMessage else SchemeMessage))
    ensures New("tenant.auth0.com/", testMode) == Err(InvalidRequest(TrailingSlashMessage))
  {
    assert StartsWith("https://tenant.auth0.com", HttpsScheme);
    var raw := "tenant.auth0.com/";
    assert !StartsWith(raw, HttpScheme) && !StartsWith(raw, HttpsScheme) by {
      assert raw[0] != HttpScheme[0] && raw[0] != HttpsScheme[0];
    }
    assert EndsWithChar(raw, '/');
  }

  /** A domain accepted in production mode always yields an https URL: the domain, then the path. */
  lemma ProductionUrlsAreHttps(raw: string, path: string)
    requires New(raw, false).Ok?
    ensures ToUrl(New(raw, false).value, path) == HttpsScheme + raw + path
    ensures StartsWith(ToUrl(New(raw, false).value, path), HttpsScheme)
  {
  }

  /**
   * The URL is the domain's origin followed by the path unchanged, so the path
   * can be read back and distinct paths give distinct URLs.
   */
  lemma {:induction false} ToUrlPathRecovered(d: Domain, path: string)
    ensures ToUrl(d, "") <= ToUrl(d, path)
    ensures ToUrl(d, path)[|ToUrl(d, "")|..] == path
  {
    var origin := ToUrl(d, "");
    assert ToUrl(d, path) == origin + path by {
      if StartsWith(d.inner, HttpScheme) {
        assert origin == d.inner;
      } else {
        assert origin == HttpsScheme + d.inner;
      }
    }
    assert (origin + path)[|origin|..] == path;
  }

  /** Two paths reach the same URL only if they are the same path. */
  lemma ToUrlInjective(d: Domain, p1: string, p2: string)
    ensures ToUrl(d, p1) == ToUrl(d, p2) ==> p1 == p2
  {
    ToUrlPathRecovered(d, p1);
    ToUrlPathRecovered(d, p2);
  }
}
