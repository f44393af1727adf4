# Auth0 client model

A Dafny model of the decision logic in the `mtjp9-rs-auth0-client` Rust crate, with proofs about it. The crate is a thin async client for the Auth0 Authentication and Management APIs. What it decides on its own, and what is modelled here, is:

- which values are valid `Domain`s and `BearerToken`s, and how they render;
- how the request builders validate (ordered checks, first error wins) and what they carry over;
- which JSON keys each request body emits (`skip_serializing_if = "Option::is_none"`, one rename);
- which HTTP statuses count as success for each endpoint;
- how a failed response becomes an `Auth0Error`: the status table of `from_response`, and the two-tier classification of the OAuth token endpoint, which reads the RFC 6749 section 5.2 error envelope first and falls back to the status.

Every endpoint is a pure function over an abstract exchange:

- `send: Request -> Option<Response>` stands for reqwest. None is a transport error.
- A `Response` is a status code in 100..=999 and a body that may be unreadable (None).
- serde_json's text parser is a parameter `parse: string -> Option<Json>`. The typed readings of the OAuth envelope and of the token response over the parsed JSON are modelled exactly.
- The other success payloads are a generic decoder `decode: string -> Option<T>`.
- The build-mode switch `cfg(test)` of `Domain::new` is the explicit parameter `testMode`.
- `char::is_whitespace` is the Unicode White_Space property, the 25 code points Rust's definition lists.

Modules, one per source file, plus support modules:

| file | module | source |
|---|---|---|
| wrappers.dfy, strings.dfy, http.dfy, json.dfy | Wrappers, Strings, Http, Json | Option/Result, the `str` predicates used, the reqwest boundary, serde's field rules |
| error.dfy | Errors | crates/mtjp9-rs-auth0-client/src/error.rs |
| domain.dfy | Domains | crates/mtjp9-rs-auth0-client/src/domain.rs |
| token.dfy | Tokens | crates/mtjp9-rs-auth0-client/src/token.rs |
| oauth.dfy | Oauth | crates/mtjp9-rs-auth0-client/src/oauth/get_oauth_token.rs |
| create_user.dfy | Users | crates/mtjp9-rs-auth0-client/src/users/create_user.rs |
| post_password_change.dfy | Tickets | crates/mtjp9-rs-auth0-client/src/tickets/post_password_change.rs |
| change_password.dfy | DbConnections | crates/mtjp9-rs-auth0-client/src/dbconnections/change_password.rs |
| post_members.dfy | OrganizationMembers | crates/mtjp9-rs-auth0-client/src/organizations/post_members.rs |
| patch_organization.dfy | OrganizationPatch | crates/mtjp9-rs-auth0-client/src/organizations/patch_organization.rs |

## Model

| member | source | states |
|---|---|---|
| Errors.FromResponse | crates/mtjp9-rs-auth0-client/src/error.rs:36-50 | never `Transport`; a `Conflict` always carries 409; `UnexpectedResponse` exactly for statuses outside {400, 401, 403, 409, 429}; the status and the body text (or "" when unreadable) can be read back from every result |
| Errors.FromResponseTable | crates/mtjp9-rs-auth0-client/src/error.rs:39-49 | the table arm by arm: 400, 401, 403, 429 to their variants carrying the body, 409 to `Conflict{409, body}`, any other code to `UnexpectedResponse{code, body}` |
| Errors.UnreadableBodyClassifiedAsEmpty | crates/mtjp9-rs-auth0-client/src/error.rs:38 | an unreadable body is classified exactly like an empty one, by status alone |
| Errors.FromResponseInjective | crates/mtjp9-rs-auth0-client/src/error.rs:36-50 | two responses give the same error iff they agree on status and body text, so no information is lost |
| Errors.DecodeOnSuccess | crates/mtjp9-rs-auth0-client/src/users/create_user.rs:323-328 | Ok iff the status is 2xx and the body is readable and decodes, carrying the decoded value; a 2xx failure is `Transport`; any other status is `from_response` (the ticket endpoint shares this handling) |
| Errors.DecodeBody | crates/mtjp9-rs-auth0-client/src/users/create_user.rs:323-325 | `resp.json()?` on a success: Ok iff the body is readable and decodes, carrying the decoded value; every failure is `Transport` |
| Domains.New | crates/mtjp9-rs-auth0-client/src/domain.rs:10-49 | accepted iff non-empty, no forbidden scheme for the mode, no trailing slash, and (production only) a dot; stored verbatim; each failure gives its exact message in the order empty, scheme, slash, dot |
| Domains.AsStrRoundTrip | crates/mtjp9-rs-auth0-client/src/domain.rs:48-69 | `as_str` and `Display` give back the accepted input unchanged |
| Domains.TestModeRelaxes | crates/mtjp9-rs-auth0-client/src/domain.rs:19-46 | whatever production mode accepts, test mode accepts with the same result |
| Domains.TestModeDifferences | crates/mtjp9-rs-auth0-client/src/domain.rs:19-46 | an `http://` origin and a dotless host are refused in production and accepted in test mode |
| Domains.DomainAcceptedExample | crates/mtjp9-rs-auth0-client/src/domain.rs:91-99 | `tenant.auth0.com` is accepted in both modes |
| Domains.ToUrlExample | crates/mtjp9-rs-auth0-client/src/domain.rs:91-99 | `tenant.auth0.com` with `/api/v2/users` gives `https://tenant.auth0.com/api/v2/users` |
| Domains.DomainRejectedExamples | crates/mtjp9-rs-auth0-client/src/domain.rs:101-106 | "", `https://tenant.auth0.com` and `tenant.auth0.com/` are refused in both modes, with their messages |
| Domains.ProductionUrlsAreHttps | crates/mtjp9-rs-auth0-client/src/domain.rs:55-62 | a domain accepted in production always yields `https://` + domain + path |
| Domains.ToUrlPathRecovered | crates/mtjp9-rs-auth0-client/src/domain.rs:55-62 | the URL is the domain's origin followed by the path, which can be read back |
| Domains.ToUrlInjective | crates/mtjp9-rs-auth0-client/src/domain.rs:55-62 | distinct paths give distinct URLs on one domain |
| Tokens.New | crates/mtjp9-rs-auth0-client/src/token.rs:10-26 | accepted iff non-empty and free of white space, stored verbatim; empty is reported before white space |
| Tokens.AsStrRoundTrip | crates/mtjp9-rs-auth0-client/src/token.rs:25-30 | `as_str` gives back the accepted input |
| Tokens.RenderingsIndependentOfValue | crates/mtjp9-rs-auth0-client/src/token.rs:33-45 | `Display` is exactly `[REDACTED]` and `Debug` is the same text for every token |
| Tokens.DebugShowsMarker | crates/mtjp9-rs-auth0-client/src/token.rs:33-39 | the `Debug` text contains `[REDACTED]` |
| Tokens.DebugHidesValue | crates/mtjp9-rs-auth0-client/src/token.rs:33-39 | a token with any character absent from the fixed `Debug` text never occurs in it |
| Tokens.GraphicAsciiAccepted | crates/mtjp9-rs-auth0-client/src/token.rs:19-25 | any non-empty token of visible ASCII characters is accepted unchanged |
| Tokens.AcceptedTokenExample | crates/mtjp9-rs-auth0-client/src/token.rs:67-71 | the JWT-shaped test token is accepted as it is |
| Tokens.RejectedTokenExamples | crates/mtjp9-rs-auth0-client/src/token.rs:73-78 | "", a token with spaces and one with newlines are refused with their messages |
| Tokens.DebugExample | crates/mtjp9-rs-auth0-client/src/token.rs:80-86 | the `Debug` text of `secret_token` does not contain the secret |
| Oauth.KeysExact | crates/mtjp9-rs-auth0-client/src/oauth/get_oauth_token.rs:36-72 | `grant_type` and `client_id` are always emitted; each optional key exactly when its field is Some; nothing else |
| Oauth.SerializeRoundTrip | crates/mtjp9-rs-auth0-client/src/oauth/get_oauth_token.rs:36-72 | reading the emitted object back gives the request unchanged |
| Oauth.TokenResponseOf | crates/mtjp9-rs-auth0-client/src/oauth/get_oauth_token.rs:77-99 | a decoded token response has `access_token` and `token_type` as strings and `expires_in` as a u64 in the object; without `access_token` nothing decodes |
| Oauth.EnvelopeOf | crates/mtjp9-rs-auth0-client/src/oauth/get_oauth_token.rs:104-116 | an envelope needs `error` and `error_description`, both strings, and carries them; either one missing means no envelope |
| Oauth.TryParseEnvelope | crates/mtjp9-rs-auth0-client/src/oauth/get_oauth_token.rs:196 | text that does not parse gives no envelope; text that parses gives exactly the typed reading of the parsed JSON |
| Oauth.ClassifyEnvelope | crates/mtjp9-rs-auth0-client/src/oauth/get_oauth_token.rs:196-209 | `invalid_request`, `unauthorized_client`/`invalid_client` and `access_denied`/`insufficient_scope` map to their variants carrying the description; any other code gives `UnexpectedResponse{status, "code: description"}` |
| Oauth.OauthFallback | crates/mtjp9-rs-auth0-client/src/oauth/get_oauth_token.rs:210-221 | never `Conflict` or `Transport`; `UnexpectedResponse` exactly outside {400, 401, 403, 429}; status and body can be read back |
| Oauth.ClassifyOauthError | crates/mtjp9-rs-auth0-client/src/oauth/get_oauth_token.rs:191-222 | an envelope gives exactly `ClassifyEnvelope` of it (its code decides); without one the result is exactly `OauthFallback` of the status and raw body, `UnexpectedResponse` exactly outside 400/401/403/429; neither tier gives `Transport` or `Conflict` |
| Oauth.OauthDispatch | crates/mtjp9-rs-auth0-client/src/oauth/get_oauth_token.rs:184-223 | a 2xx whose body parses and decodes as a token response yields `Ok` of that token; only a 2xx can succeed, and a 2xx that fails to decode is `Transport`; any other status is the two-tier classification of the body text |
| Oauth.GetOauthToken | crates/mtjp9-rs-auth0-client/src/oauth/get_oauth_token.rs:170-224 | a transport failure is `Transport`; a received response gives exactly `OauthDispatch` of it, so success implies a 2xx |
| Oauth.TokenRequestShape | crates/mtjp9-rs-auth0-client/src/oauth/get_oauth_token.rs:174-179 | the token request is a POST without bearer credential to `/oauth/token` on the domain, the path readable back from the URL, its body the request's keys |
| Oauth.KnownCodeIgnoresStatus | crates/mtjp9-rs-auth0-client/src/oauth/get_oauth_token.rs:197-204 | a known envelope code gives the same error at every status |
| Oauth.FallbackVersusFromResponse | crates/mtjp9-rs-auth0-client/src/oauth/get_oauth_token.rs:212-221 | the fallback agrees with `from_response` on every status except 409, where it gives `UnexpectedResponse{409, body}` instead of `Conflict` |
| Oauth.RateLimitWithoutDescription | crates/mtjp9-rs-auth0-client/src/oauth/get_oauth_token.rs:423-450 | `{"error": "Too Many Requests"}` at 429 is no envelope and falls back to `TooManyRequests` |
| Oauth.NonJsonBadRequest | crates/mtjp9-rs-auth0-client/src/oauth/get_oauth_token.rs:391-420 | the non-JSON body "Bad Request" at 400 gives `InvalidRequest("Bad Request")` |
| Oauth.PlainTextConflict | crates/mtjp9-rs-auth0-client/src/oauth/get_oauth_token.rs:210-221 | a non-envelope body at 409 gives `UnexpectedResponse` on this endpoint |
| Oauth.InvalidClientAtAnyStatus | crates/mtjp9-rs-auth0-client/src/oauth/get_oauth_token.rs:353-388 | an `invalid_client` envelope is `Unauthorized` with its description at every failure status |
| Oauth.MinimalTokenResponse | crates/mtjp9-rs-auth0-client/src/oauth/get_oauth_token.rs:77-99 | a success body with only the three required fields decodes with every optional absent |
| Users.CreateUserRequestBuilder.Build | crates/mtjp9-rs-auth0-client/src/users/create_user.rs:202-234 | missing email first, then missing connection, then an email without `@`; Ok iff all three pass; on success every emitted value is the builder's |
| Users.ProfileKeysExact | crates/mtjp9-rs-auth0-client/src/users/create_user.rs:40-75 | `email` and `connection` are always emitted; each profile key exactly when its field is Some; nothing outside the field names |
| Users.StatusKeysExact | crates/mtjp9-rs-auth0-client/src/users/create_user.rs:76-99 | the verification, phone, metadata and `blocked` keys each exactly when their field is Some |
| Users.SerializeRoundTrip | crates/mtjp9-rs-auth0-client/src/users/create_user.rs:40-99 | reading the emitted object back gives the request unchanged, provided no metadata field holds JSON `null` |
| Users.NullMetadataLost | crates/mtjp9-rs-auth0-client/src/users/create_user.rs:89-94 | a `user_metadata` of `null` is emitted but reads back as absent |
| Users.SetterFillsKey | crates/mtjp9-rs-auth0-client/src/users/create_user.rs:127-200 | each setter fills its own field with its argument |
| Users.ProfileSetterFraming | crates/mtjp9-rs-auth0-client/src/users/create_user.rs:127-160 | the email, connection and profile setters leave every other field unchanged |
| Users.OtherSetterFraming | crates/mtjp9-rs-auth0-client/src/users/create_user.rs:162-200 | the remaining setters leave every other field unchanged |
| Users.SetterFraming | crates/mtjp9-rs-auth0-client/src/users/create_user.rs:127-200 | a setter changes its own field to its argument and nothing else |
| Users.ApplyAllStagedKeys | crates/mtjp9-rs-auth0-client/src/users/create_user.rs:127-200 | after a chain of setter calls the builder holds values for its old fields plus the fields of the calls |
| Users.BuiltKeysAreSetterKeys | crates/mtjp9-rs-auth0-client/src/users/create_user.rs:202-233 | from `builder()`, a successful build emits exactly the keys of the setters called |
| Users.BuildFromRequest | crates/mtjp9-rs-auth0-client/src/users/create_user.rs:202-234 | every request whose email has `@` is what building its own builder gives |
| Users.BuildLosesNothing | crates/mtjp9-rs-auth0-client/src/users/create_user.rs:217-233 | the builder can be recovered from the request it built |
| Users.MinimalBuild | crates/mtjp9-rs-auth0-client/src/users/create_user.rs:395-408 | building with only email and connection leaves every optional absent |
| Users.BuildErrorExamples | crates/mtjp9-rs-auth0-client/src/users/create_user.rs:411-454 | the missing-email, missing-connection and bad-format tests with their messages |
| Users.CreateUser | crates/mtjp9-rs-auth0-client/src/users/create_user.rs:308-329 | a transport failure is `Transport`; a received response gives exactly `DecodeOnSuccess` of it |
| Users.CreateUserRequestShape | crates/mtjp9-rs-auth0-client/src/users/create_user.rs:313-319 | the create-user request is a POST to `/api/v2/users` on the domain, authenticated with the token's secret, its body the request's keys |
| Tickets.TicketRequestBuilder.Build | crates/mtjp9-rs-auth0-client/src/tickets/post_password_change.rs:144-176 | missing user id first, then a new email without `@`, then a TTL of 0 or less; Ok exactly when the user id is set and both checks pass; a success is valid and carries every field |
| Tickets.BuildAcceptsExactlyValid | crates/mtjp9-rs-auth0-client/src/tickets/post_password_change.rs:144-176 | a request can be built iff it is valid (new email has `@`, TTL positive, each when present), and then the build gives it back |
| Tickets.TtlBoundary | crates/mtjp9-rs-auth0-client/src/tickets/post_password_change.rs:157-163 | a TTL of 1 is accepted; 0 and the least i32 are refused |
| Tickets.EmailCheckedBeforeTtl | crates/mtjp9-rs-auth0-client/src/tickets/post_password_change.rs:149-163 | with both a bad email and a bad TTL the email is reported |
| Tickets.KeysExact | crates/mtjp9-rs-auth0-client/src/tickets/post_password_change.rs:38-77 | `user_id` always emitted, each optional exactly when Some, `include_email_in_redirect` under `includeEmailInRedirect` only |
| Tickets.MinimalBuild | crates/mtjp9-rs-auth0-client/src/tickets/post_password_change.rs:247-259 | a user-id-only build leaves every optional absent and emits only `user_id` |
| Tickets.BuildErrorExamples | crates/mtjp9-rs-auth0-client/src/tickets/post_password_change.rs:261-306 | the missing-user-id, bad-email and negative-TTL tests with their messages |
| Tickets.CreatePasswordChangeTicket | crates/mtjp9-rs-auth0-client/src/tickets/post_password_change.rs:190-211 | a transport failure is `Transport`, otherwise the dispatch |
| DbConnections.ChangePasswordRequestBuilder.Build | crates/mtjp9-rs-auth0-client/src/dbconnections/change_password.rs:85-110 | client id, email, email `@`, connection, first failure wins; Ok iff all pass; the builder can be recovered from the request |
| DbConnections.BuildFromRequest | crates/mtjp9-rs-auth0-client/src/dbconnections/change_password.rs:85-110 | every request whose email has `@` is rebuilt from its own builder |
| DbConnections.KeysExact | crates/mtjp9-rs-auth0-client/src/dbconnections/change_password.rs:34-48 | the three required keys are always emitted, `organization` exactly when set |
| DbConnections.FormatBeforeConnection | crates/mtjp9-rs-auth0-client/src/dbconnections/change_password.rs:94-102 | a bad email with a missing connection reports the email format |
| DbConnections.BuildExamples | crates/mtjp9-rs-auth0-client/src/dbconnections/change_password.rs:148-244 | the valid, missing-client-id, missing-email, missing-connection and bad-format tests |
| DbConnections.ChangePasswordRequestFor | crates/mtjp9-rs-auth0-client/src/dbconnections/change_password.rs:127-134 | an unauthenticated POST to `/dbconnections/change_password` on the domain, the path readable back from the URL, carrying the request's keys |
| DbConnections.ChangePasswordDispatch | crates/mtjp9-rs-auth0-client/src/dbconnections/change_password.rs:136-141 | on a 2xx the result is the body text verbatim (unreadable gives `Transport`); otherwise `from_response` |
| DbConnections.ChangePassword | crates/mtjp9-rs-auth0-client/src/dbconnections/change_password.rs:123-142 | a transport failure is `Transport`, otherwise the dispatch |
| DbConnections.SuccessTextPassedThrough | crates/mtjp9-rs-auth0-client/src/dbconnections/change_password.rs:136-138 | any 2xx text, even empty, is returned unchanged |
| OrganizationMembers.Serialize | crates/mtjp9-rs-auth0-client/src/organizations/post_members.rs:57-61 | the body has the single key `members`, an array of the ids as strings, in order |
| OrganizationMembers.SerializeRoundTrip | crates/mtjp9-rs-auth0-client/src/organizations/post_members.rs:57-61 | reading the array back gives the ids unchanged |
| OrganizationMembers.SerializeExample | crates/mtjp9-rs-auth0-client/src/organizations/post_members.rs:322-334 | the two test ids serialize in order under `members` |
| OrganizationMembers.Validate | crates/mtjp9-rs-auth0-client/src/organizations/post_members.rs:93-105 | an empty organization id is reported first, then an empty members list; no error iff both are non-empty |
| OrganizationMembers.MembersPathRecoversId | crates/mtjp9-rs-auth0-client/src/organizations/post_members.rs:108 | the organization id can be read back from `/api/v2/organizations/{id}/members` |
| OrganizationMembers.MembersUrlInjective | crates/mtjp9-rs-auth0-client/src/organizations/post_members.rs:108 | distinct organization ids give distinct URLs |
| OrganizationMembers.MembersDispatch | crates/mtjp9-rs-auth0-client/src/organizations/post_members.rs:122-135 | `Ok(())` iff the status is 200, 201 or 204, without reading the body; otherwise `from_response` |
| OrganizationMembers.PostMembers | crates/mtjp9-rs-auth0-client/src/organizations/post_members.rs:87-136 | a failed check is returned as is; otherwise a transport failure is `Transport` and a response is dispatched |
| OrganizationMembers.ValidationPrecedesSend | crates/mtjp9-rs-auth0-client/src/organizations/post_members.rs:93-120 | with an empty id or empty members the result is an error and does not depend on the transport at all |
| OrganizationMembers.EmptyIdReportedFirst | crates/mtjp9-rs-auth0-client/src/organizations/post_members.rs:94-105 | an empty id is reported even when the members list is empty too |
| OrganizationMembers.AcceptedIsUnexpected | crates/mtjp9-rs-auth0-client/src/organizations/post_members.rs:126-134 | 202, a 2xx outside the set, is an unexpected response |
| OrganizationMembers.DispatchExamples | crates/mtjp9-rs-auth0-client/src/organizations/post_members.rs:145-320 | 204 succeeds; 404 is `UnexpectedResponse`, 401 `Unauthorized`, 400 `InvalidRequest`, each carrying the body |
| OrganizationMembers.TestDomainAsWritten | crates/mtjp9-rs-auth0-client/src/organizations/post_members.rs:175-192 | the tests' domain `https://test.auth0.com` is refused in test mode |
| OrganizationMembers.TestDomainCorrected | crates/mtjp9-rs-auth0-client/src/organizations/post_members.rs:175-210 | without the scheme the domain is accepted, and both argument checks report as the tests expect |
| OrganizationPatch.KeysExact | crates/mtjp9-rs-auth0-client/src/organizations/patch_organization.rs:63-85 | each key exactly when its field is Some, nothing else |
| OrganizationPatch.EmptyBodyOnlyForDefault | crates/mtjp9-rs-auth0-client/src/organizations/patch_organization.rs:63-85 | the body is `{}` iff the request is the default one |
| OrganizationPatch.KeysExample | crates/mtjp9-rs-auth0-client/src/organizations/patch_organization.rs:455-476 | display name and branding set emit exactly those two keys |
| OrganizationPatch.OrganizationPathRecoversId | crates/mtjp9-rs-auth0-client/src/organizations/patch_organization.rs:118 | the organization id can be read back from `/api/v2/organizations/{id}` |
| OrganizationPatch.OrganizationUrlInjective | crates/mtjp9-rs-auth0-client/src/organizations/patch_organization.rs:118 | distinct organization ids give distinct URLs |
| OrganizationPatch.PatchDispatch | crates/mtjp9-rs-auth0-client/src/organizations/patch_organization.rs:132-148 | a 200 whose body decodes yields `Ok` of the decoded value; only 200 can succeed, and a 200 that fails to decode is `Transport`; every other status, other 2xx included, is `from_response` |
| OrganizationPatch.PatchOrganization | crates/mtjp9-rs-auth0-client/src/organizations/patch_organization.rs:111-149 | a transport failure is `Transport`, otherwise the dispatch |
| OrganizationPatch.OtherSuccessCodesRejected | crates/mtjp9-rs-auth0-client/src/organizations/patch_organization.rs:136-148 | 201 and 204 are 2xx and succeed for `post_members`, but are `UnexpectedResponse` here |
| OrganizationPatch.SuccessExamples | crates/mtjp9-rs-auth0-client/src/organizations/patch_organization.rs:137-143 | a 200 whose body decodes yields the decoded value; an undecodable or unreadable 200 is `Transport` |
| OrganizationPatch.SuccessSetsNest | crates/mtjp9-rs-auth0-client/src/organizations/patch_organization.rs:136-148 | the success sets nest: {200} within {200, 201, 204} within every 2xx |
| OrganizationPatch.DispatchExamples | crates/mtjp9-rs-auth0-client/src/organizations/patch_organization.rs:272-420 | 404 `UnexpectedResponse`, 401 `Unauthorized`, 429 `TooManyRequests`, 400 `InvalidRequest`, each carrying the body |

## Left out

- HTTP transport: reqwest's client, TLS, headers and the 30-second `REQUEST_TIMEOUT` are foreign I/O. Sending is the parameter `send`. A failure of `Client::builder().build()` is folded into `send` returning None, because it gives the same `Transport` error.
- The `reqwest::Error` payload of `Transport` is a foreign type and is dropped. Only the variant is modelled.
- JSON text parsing and the typed success decoders (`CreateUserResponse`, `OrganizationResponse`, the ticket response) are serde's, and they are parameters. serde's reading of structs from JSON arrays, duplicate keys and fractional numbers are not modelled.
- `OrganizationBranding` and `EnabledConnection` are defined in a module that is not part of this model. They are opaque types, so the patch body is modelled by its key set only.
- The `Display` texts of `Auth0Error` (thiserror attributes) are not modelled, because nothing in the crate branches on them.
- `create_organization` is not part of this model. It reads an environment variable and depends on types from a module that is not part of this model.
- `random_password` in lib.rs depends on a random number generator and is left out.
- The re-export modules (organizations.rs, tickets.rs, lib.rs) contain no logic and are left out.
- The alternate `{:#?}` Debug layout of `BearerToken` is not modelled. Only `{:?}` is.
- Tokens.DebugHidesValue: "the Debug text never contains the secret" holds only for secrets with a character outside the fixed Debug text. For example, the token `Bearer` is a substring of that text, so the stronger claim would be false.
- OrganizationMembers.MembersPath and OrganizationPatch.OrganizationPath insert the organization id without percent-encoding, exactly as the source does. The model does not say what the server makes of ids that contain `/` or `?`.

## Findings

| source | as written | input that shows it | evidently intended | confidence | as-written member | corrected member |
|---|---|---|---|---|---|---|
| crates/mtjp9-rs-auth0-client/src/organizations/post_members.rs:175-210 | the tests for the two argument checks build their domain with `Domain::new("https://test.auth0.com").expect(..)` under `cfg(test)`, where `https://` is refused | `"https://test.auth0.com"` in test mode gives `InvalidRequest("Domain should not include protocol (https://)")`, so the tests stop at `expect` before `post_members` runs | a domain without the scheme, such as `test.auth0.com`, with which both checks report their messages | high; not executed | OrganizationMembers.TestDomainAsWritten | OrganizationMembers.TestDomainCorrected |
