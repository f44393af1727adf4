/**
 * `BearerToken`: a management-API credential. Construction rejects values
 * that could not travel in an `Authorization` header, and every textual
 * rendering of a token hides its value.
 */
module Tokens {
  import opened Wrappers
  import opened Strings
  import opened Errors

  const EmptyMessage: string := "Bearer token cannot be empty"
  const WhitespaceMessage: string := "Bearer token cannot contain whitespace"

  /** The redaction marker. */
  const Redacted: string := "[REDACTED]"

  /** The stored credential; only `New` produces one in the crate (the field is private). */
  datatype BearerToken = BearerToken(inner: string)

  /**
   * `BearerToken::new`: the empty check runs first, then the whitespace
   * check (any Unicode white space, so CR and LF cannot smuggle in headers);
   * an accepted string is stored verbatim.
   */
  function New(raw: string): (r: Result<BearerToken, Auth0Error>)
    ensures r.Ok? <==> raw != "" && (forall i :: 0 <= i < |raw| ==> !IsWhitespace(raw[i]))
    ensures r.Ok? ==> r.value.inner == raw
    ensures raw == "" ==> r == Err(InvalidRequest(EmptyMessage))
    ensures raw != "" && HasWhitespace(raw) ==> r == Err(InvalidRequest(WhitespaceMessage))
  {
    if raw == "" then Err(InvalidRequest(EmptyMessage))
    else if HasWhitespace(raw) then Err(InvalidRequest(WhitespaceMessage))
    else Ok(BearerToken(raw))
  }

  /** `BearerToken::as_str` */
  function AsStr(t: BearerToken): string {
    t.inner
  }

  /** `impl Display for BearerToken` */
  function Display(t: BearerToken): string {
    Redacted
  }

  /** `impl Debug for BearerToken`: a `debug_struct` whose one field shows the quoted marker. */
  function Debug(t: BearerToken): string {
    "BearerToken { inner: \"" + Redacted + "\" }"
  }

  /** An accepted token is stored verbatim and `as_str` gives it back. */
  lemma AsStrRoundTrip(raw: string)
    requires New(raw).Ok?
    ensures AsStr(New(raw).value) == raw
  {
  }

  /** No rendering of a token depends on its value. */
  lemma RenderingsIndependentOfValue(t1: BearerToken, t2: BearerToken)
    ensures Display(t1) == Display(t2) == Redacted
    ensures Debug(t1) == Debug(t2)
  {
  }

  /** The Debug rendering contains the redaction marker. */
  lemma DebugShowsMarker(t: BearerToken)
    ensures IsSubstring(Redacted, Debug(t))
  {
    assert OccursAt(Redacted, Debug(t), 22);
  }

  /**
   * A token with any character that the fixed Debug text lacks never appears
   * in that text; since the text is the same for every token, nothing about
   * the value can be read from it.
   */
  lemma DebugHidesValue(t: BearerToken, j: nat)
    requires j < |t.inner| && t.inner[j] !in Debug(t)
    ensures !IsSubstring(t.inner, Debug(t))
  {
    if IsSubstring(t.inner, Debug(t)) {
      SubstringCharsOccur(t.inner, Debug(t), j);
    }
  }

  /** Printable ASCII other than the space is never white space. */
  predicate IsGraphicAscii(s: string) {
    forall i :: 0 <= i < |s| ==> 0x21 <= s[i] as int <= 0x7E
  }

  /** A non-empty token of visible ASCII characters is accepted unchanged. */
  lemma GraphicAsciiAccepted(raw: string)
    requires raw != "" && IsGraphicAscii(raw)
    ensures New(raw) == Ok(BearerToken(raw))
  {
    assert !HasWhitespace(raw) by {
      forall i | 0 <= i < |raw| ensures !IsWhitespace(raw[i]) {
        assert 0x21 <= raw[i] as int <= 0x7E;
      }
    }
  }

  /** Visible ASCII text stays visible ASCII when joined. */
  lemma GraphicAsciiConcat(a: string, b: string)
    requires IsGraphicAscii(a) && IsGraphicAscii(b)
    ensures IsGraphicAscii(a + b)
  {
    forall i | 0 <= i < |a + b| ensures 0x21 <= (a + b)[i] as int <= 0x7E {
      if i >= |a| {
        assert (a + b)[i] == b[i - |a|];
      }
    }
  }

  /** The crate's tests: a well-formed JWT-shaped token is accepted as it is. */
  lemma AcceptedTokenExample()
    ensures New("eyJhbGciOiJIUzI1NiIsInR5cCI6IkpXVCJ9") == Ok(BearerToken("eyJhbGciOiJIUzI1NiIsInR5cCI6IkpXVCJ9"))
  {
    var a, b, c := "eyJhbGciOiJI", "UzI1NiIsInR5", "cCI6IkpXVCJ9";
    assert IsGraphicAscii(a);
    assert IsGraphicAscii(b);
    assert IsGraphicAscii(c);
    GraphicAsciiConcat(a, b);
    GraphicAsciiConcat(a + b, c);
    assert a + b == "eyJhbGciOiJIUzI1NiIsInR5";
    assert a + b + c == "eyJhbGciOiJIUzI1NiIsInR5cCI6IkpXVCJ9";
    GraphicAsciiAccepted(a + b + c);
  }

  /** The crate's tests: the empty token and tokens with a space or a newline are refused. */
  lemma RejectedTokenExamples()
    ensures New("") == Err(InvalidRequest(EmptyMessage))
    ensures New("token with spaces") == Err(InvalidRequest(WhitespaceMessage))
    ensures New("token\nwith\nnewlines") == Err(InvalidRequest(WhitespaceMessage))
  {
    assert IsWhitespace("token with spaces"[5]);
    assert IsWhitespace("token\nwith\nnewlines"[5]);
  }

  /** The crate's tests: the Debug text of a token does not contain its secret. */
  lemma DebugExample()
    ensures !IsSubstring("secret_token", Debug(BearerToken("secret_token")))
  {
    var t := BearerToken("secret_token");
    assert t.inner[0] == 's';
    assert 's' !in Debug(t) by {
      assert 's' !in "BearerToken { inner: \"";
      assert 's' !in Redacted;
      assert 's' !in "\" }";
    }
    DebugHidesValue(t, 0);
  }
}
