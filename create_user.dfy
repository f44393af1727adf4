/**
 * Create User (`POST /api/v2/users`): the request value, its builder, the
 * builder's ordered validation, the serialized body, and the endpoint's
 * response dispatch.
 */
module Users {
  import opened Wrappers
  import opened Http
  import opened Json
  import opened Errors
  import opened Domains
  import opened Tokens

  const UsersPath: string := "/api/v2/users"

  const EmailRequired: string := "Email is required"
  const ConnectionRequired: string := "Connection is required"
  const InvalidEmail: string := "Invalid email format"

  /** `CreateUserRequest`: email and connection are required, the rest optional. */
  datatype CreateUserRequest = CreateUserRequest(
    email: string,
    connection: string,
    password: Option<string>,
    givenName: Option<string>,
    familyName: Option<string>,
    name: Option<string>,
    nickname: Option<string>,
    picture: Option<string>,
    userId: Option<string>,
    emailVerified: Option<bool>,
    phoneNumber: Option<string>,
    phoneVerified: Option<bool>,
    userMetadata: Option<Json>,
    appMetadata: Option<Json>,
    blocked: Option<bool>)

  /** The keys a create-user request can emit. */
  const FieldNames: set<string> := {
    "email", "connection", "password", "given_name", "family_name", "name", "nickname", "picture",
    "user_id", "email_verified", "phone_number", "phone_verified", "user_metadata", "app_metadata", "blocked"}

  /** The JSON value serde emits under `key`; None for a skipped (absent) optional. */
  function Field(r: CreateUserRequest, key: string): Option<Json> {
    if key == "email" then Some(JString(r.email))
    else if key == "connection" then Some(JString(r.connection))
    else if key == "password" then StringValue(r.password)
    else if key == "given_name" then StringValue(r.givenName)
    else if key == "family_name" then StringValue(r.familyName)
    else if key == "name" then StringValue(r.name)
    else if key == "nickname" then StringValue(r.nickname)
    else if key == "picture" then StringValue(r.picture)
    else if key == "user_id" then StringValue(r.userId)
    else if key == "email_verified" then BoolValue(r.emailVerified)
    else if key == "phone_number" then StringValue(r.phoneNumber)
    else if key == "phone_verified" then BoolValue(r.phoneVerified)
    else if key == "user_metadata" then r.userMetadata
    else if key == "app_metadata" then r.appMetadata
    else if key == "blocked" then BoolValue(r.blocked)
    else None
  }

  /** The JSON object serde emits for the request. */
  function Serialize(r: CreateUserRequest): map<string, Json> {
    map k | k in FieldNames && Field(r, k).Some? :: Field(r, k).value
  }

  /** The key names of the serialized request. */
  function Keys(r: CreateUserRequest): set<string> {
    Serialize(r).Keys
  }

  /** A recorded setter call on the builder, for reasoning about a whole chain of them. */
  datatype UserSetting =
    | SetEmail(email: string)
    | SetConnection(connection: string)
    | SetPassword(password: string)
    | SetGivenName(givenName: string)
    | SetFamilyName(familyName: string)
    | SetName(name: string)
    | SetNickname(nickname: string)
    | SetPicture(picture: string)
    | SetUserId(userId: string)
    | SetEmailVerified(verified: bool)
    | SetPhoneNumber(phoneNumber: string)
    | SetPhoneVerified(verified: bool)
    | SetUserMetadata(metadata: Json)
    | SetAppMetadata(metadata: Json)
    | SetBlocked(blocked: bool)

  /** `CreateUserRequestBuilder`: every field optional until `build`. */
  datatype CreateUserRequestBuilder = CreateUserRequestBuilder(
    email: Option<string>,
    connection: Option<string>,
    password: Option<string>,
    givenName: Option<string>,
    familyName: Option<string>,
    name: Option<string>,
    nickname: Option<string>,
    picture: Option<string>,
    userId: Option<string>,
    emailVerified: Option<bool>,
    phoneNumber: Option<string>,
    phoneVerified: Option<bool>,
    userMetadata: Option<Json>,
    appMetadata: Option<Json>,
    blocked: Option<bool>)
  {
    function Email(email: string): CreateUserRequestBuilder { this.(email := Some(email)) }
    function Connection(connection: string): CreateUserRequestBuilder { this.(connection := Some(connection)) }
    function Password(password: string): CreateUserRequestBuilder { this.(password := Some(password)) }
    function GivenName(givenName: string): CreateUserRequestBuilder { this.(givenName := Some(givenName)) }
    function FamilyName(familyName: string): CreateUserRequestBuilder { this.(familyName := Some(familyName)) }
    function Name(name: string): CreateUserRequestBuilder { this.(name := Some(name)) }
    function Nickname(nickname: string): CreateUserRequestBuilder { this.(nickname := Some(nickname)) }
    function Picture(picture: string): CreateUserRequestBuilder { this.(picture := Some(picture)) }
    function UserId(userId: string): CreateUserRequestBuilder { this.(userId := Some(userId)) }
    function EmailVerified(verified: bool): CreateUserRequestBuilder { this.(emailVerified := Some(verified)) }
    function PhoneNumber(phoneNumber: string): CreateUserRequestBuilder { this.(phoneNumber := Some(phoneNumber)) }
    function PhoneVerified(verified: bool): CreateUserRequestBuilder { this.(phoneVerified := Some(verified)) }
    function UserMetadata(metadata: Json): CreateUserRequestBuilder { this.(userMetadata := Some(metadata)) }
    function AppMetadata(metadata: Json): CreateUserRequestBuilder { this.(appMetadata := Some(metadata)) }
    function Blocked(blocked: bool): CreateUserRequestBuilder { this.(blocked := Some(blocked)) }

    /** The JSON value the builder holds for `key`, in the form the request would emit it. */
    function Staged(key: string): Option<Json> {
      if key == "email" then StringValue(email)
      else if key == "connection" then StringValue(connection)
      else if key == "password" then StringValue(password)
      else if key == "given_name" then StringValue(givenName)
      else if key == "family_name" then StringValue(familyName)
      else if key == "name" then StringValue(name)
      else if key == "nickname" then StringValue(nickname)
      else if key == "picture" then StringValue(picture)
      else if key == "user_id" then StringValue(userId)
      else if key == "email_verified" then BoolValue(emailVerified)
      else if key == "phone_number" then StringValue(phoneNumber)
      else if key == "phone_verified" then BoolValue(phoneVerified)
      else if key == "user_metadata" then userMetadata
      else if key == "app_metadata" then appMetadata
      else if key == "blocked" then BoolValue(blocked)
      else None
    }

    /**
     * `build`: email first, then connection, then the `@` in the email; the
     * first failure is returned. On success every field is carried over
     * unchanged, so the request emits exactly what the builder holds.
     */
    function Build(): (r: Result<CreateUserRequest, Auth0Error>)
      ensures email.None? ==> r == Err(InvalidRequest(EmailRequired))
      ensures email.Some? && connection.None? ==> r == Err(InvalidRequest(ConnectionRequired))
      ensures email.Some? && connection.Some? && '@' !in email.value ==> r == Err(InvalidRequest(InvalidEmail))
      ensures r.Ok? <==> email.Some? && connection.Some? && '@' in email.value
      ensures r.Ok? ==> forall key :: Field(r.value, key) == Staged(key)
    {
      match email
      case None => Err(InvalidRequest(EmailRequired))
      case Some(email) =>
        match connection
        case None => Err(InvalidRequest(ConnectionRequired))
        case Some(connection) =>
          if '@' !in email then
            Err(InvalidRequest(InvalidEmail))
          else
            Ok(CreateUserRequest(email, connection, password, givenName, familyName, name, nickname, picture,
                                 userId, emailVerified, phoneNumber, phoneVerified, userMetadata, appMetadata,
                                 blocked))
    }
  }

  /** `CreateUserRequest::builder()`: nothing set. */
  function Builder(): CreateUserRequestBuilder {
    CreateUserRequestBuilder(None, None, None, None, None, None, None, None, None, None, None, None, None, None, None)
  }

  /** The builder call a recorded setting stands for. */
  function Apply(b: CreateUserRequestBuilder, s: UserSetting): CreateUserRequestBuilder {
    match s
    case SetEmail(v) => b.Email(v)
    case SetConnection(v) => b.Connection(v)
    case SetPassword(v) => b.Password(v)
    case SetGivenName(v) => b.GivenName(v)
    case SetFamilyName(v) => b.FamilyName(v)
    case SetName(v) => b.Name(v)
    case SetNickname(v) => b.Nickname(v)
    case SetPicture(v) => b.Picture(v)
    case SetUserId(v) => b.UserId(v)
    case SetEmailVerified(v) => b.EmailVerified(v)
    case SetPhoneNumber(v) => b.PhoneNumber(v)
    case SetPhoneVerified(v) => b.PhoneVerified(v)
    case SetUserMetadata(v) => b.UserMetadata(v)
    case SetAppMetadata(v) => b.AppMetadata(v)
    case SetBlocked(v) => b.Blocked(v)
  }

  /** A chain of setter calls, first call first. */
  function ApplyAll(b: CreateUserRequestBuilder, calls: seq<UserSetting>): CreateUserRequestBuilder
    decreases |calls|
  {
    if calls == [] then b else ApplyAll(Apply(b, calls[0]), calls[1..])
  }

  /** The key a setter fills. */
  function KeyOf(s: UserSetting): string {
    match s
    case SetEmail(_) => "email"
    case SetConnection(_) => "connection"
    case SetPassword(_) => "password"
    case SetGivenName(_) => "given_name"
    case SetFamilyName(_) => "family_name"
    case SetName(_) => "name"
    case SetNickname(_) => "nickname"
    case SetPicture(_) => "picture"
    case SetUserId(_) => "user_id"
    case SetEmailVerified(_) => "email_verified"
    case SetPhoneNumber(_) => "phone_number"
    case SetPhoneVerified(_) => "phone_verified"
    case SetUserMetadata(_) => "user_metadata"
    case SetAppMetadata(_) => "app_metadata"
    case SetBlocked(_) => "blocked"
  }

  /** The JSON a setter's argument is emitted as. */
  function ValueOf(s: UserSetting): Json {
    match s
    case SetEmail(v) => JString(v)
    case SetConnection(v) => JString(v)
    case SetPassword(v) => JString(v)
    case SetGivenName(v) => JString(v)
    case SetFamilyName(v) => JString(v)
    case SetName(v) => JString(v)
    case SetNickname(v) => JString(v)
    case SetPicture(v) => JString(v)
    case SetUserId(v) => JString(v)
    case SetEmailVerified(v) => JBool(v)
    case SetPhoneNumber(v) => JString(v)
    case SetPhoneVerified(v) => JBool(v)
    case SetUserMetadata(v) => v
    case SetAppMetadata(v) => v
    case SetBlocked(v) => JBool(v)
  }

  /** The keys a builder has values for. */
  function StagedKeys(b: CreateUserRequestBuilder): set<string> {
    set k | k in FieldNames && b.Staged(k).Some?
  }

  /** The keys a chain of setter calls fills. */
  function KeysOf(calls: seq<UserSetting>): set<string> {
    set i | 0 <= i < |calls| :: KeyOf(calls[i])
  }

  /** The request a value came from, as a builder with every one of its fields set. */
  function ToBuilder(r: CreateUserRequest): CreateUserRequestBuilder {
    CreateUserRequestBuilder(Some(r.email), Some(r.connection), r.password, r.givenName, r.familyName, r.name,
                             r.nickname, r.picture, r.userId, r.emailVerified, r.phoneNumber, r.phoneVerified,
                             r.userMetadata, r.appMetadata, r.blocked)
  }

  /** The two required keys are always emitted; a profile key exactly when its field is Some. */
  lemma ProfileKeysExact(r: CreateUserRequest)
    ensures Keys(r) <= FieldNames
    ensures "email" in Keys(r) && "connection" in Keys(r)
    ensures "password" in Keys(r) <==> r.password.Some?
    ensures "given_name" in Keys(r) <==> r.givenName.Some?
    ensures "family_name" in Keys(r) <==> r.familyName.Some?
    ensures "name" in Keys(r) <==> r.name.Some?
    ensures "nickname" in Keys(r) <==> r.nickname.Some?
    ensures "picture" in Keys(r) <==> r.picture.Some?
    ensures "user_id" in Keys(r) <==> r.userId.Some?
  {
  }

  /** The remaining optional keys, each emitted exactly when its field is Some. */
  lemma StatusKeysExact(r: CreateUserRequest)
    ensures "email_verified" in Keys(r) <==> r.emailVerified.Some?
    ensures "phone_number" in Keys(r) <==> r.phoneNumber.Some?
    ensures "phone_verified" in Keys(r) <==> r.phoneVerified.Some?
    ensures "user_metadata" in Keys(r) <==> r.userMetadata.Some?
    ensures "app_metadata" in Keys(r) <==> r.appMetadata.Some?
    ensures "blocked" in Keys(r) <==> r.blocked.Some?
  {
  }

  /** serde's reading of a `CreateUserRequest` back from a JSON object. */
  function FromObject(obj: map<string, Json>): Option<CreateUserRequest> {
    var email := RequiredString(obj, "email");
    var connection := RequiredString(obj, "connection");
    var password := OptionalString(obj, "password");
    var givenName := OptionalString(obj, "given_name");
    var familyName := OptionalString(obj, "family_name");
    var name := OptionalString(obj, "name");
    var nickname := OptionalString(obj, "nickname");
    var picture := OptionalString(obj, "picture");
    var userId := OptionalString(obj, "user_id");
    var emailVerified := OptionalBool(obj, "email_verified");
    var phoneNumber := OptionalString(obj, "phone_number");
    var phoneVerified := OptionalBool(obj, "phone_verified");
    var blocked := OptionalBool(obj, "blocked");
    if && email.Some? && connection.Some? && password.Some? && givenName.Some? && familyName.Some? && name.Some?
       && nickname.Some? && picture.Some? && userId.Some? && emailVerified.Some? && phoneNumber.Some?
       && phoneVerified.Some? && blocked.Some?
    then
      Some(CreateUserRequest(email.value, connection.value, password.value, givenName.value, familyName.value,
                             name.value, nickname.value, picture.value, userId.value, emailVerified.value,
                             phoneNumber.value, phoneVerified.value, OptionalValue(obj, "user_metadata"),
                             OptionalValue(obj, "app_metadata"), blocked.value))
    else
      None
  }

  /**
   * Serializing loses nothing, provided neither metadata field holds a JSON
   * `null`: serde reads a present `null` back as an absent `Option<Value>`.
   */
  lemma SerializeRoundTrip(r: CreateUserRequest)
    requires r.userMetadata != Some(JNull) && r.appMetadata != Some(JNull)
    ensures FromObject(Serialize(r)) == Some(r)
  {
    var obj := Serialize(r);
    assert RequiredString(obj, "email") == Some(r.email) by { assert obj["email"] == JString(r.email); }
    assert RequiredString(obj, "connection") == Some(r.connection) by {
      assert obj["connection"] == JString(r.connection);
    }
    StringRecovered(r, "password", r.password);
    StringRecovered(r, "given_name", r.givenName);
    StringRecovered(r, "family_name", r.familyName);
    StringRecovered(r, "name", r.name);
    StringRecovered(r, "nickname", r.nickname);
    StringRecovered(r, "picture", r.picture);
    StringRecovered(r, "user_id", r.userId);
    StringRecovered(r, "phone_number", r.phoneNumber);
    BoolRecovered(r, "email_verified", r.emailVerified);
    BoolRecovered(r, "phone_verified", r.phoneVerified);
    BoolRecovered(r, "blocked", r.blocked);
    ValueRecovered(r, "user_metadata", r.userMetadata);
    ValueRecovered(r, "app_metadata", r.appMetadata);
  }

  /** A metadata field holding `null` does not survive the round trip: it comes back absent. */
  lemma NullMetadataLost(r: CreateUserRequest)
    requires r.userMetadata == Some(JNull)
    ensures "user_metadata" in Keys(r)
    ensures FromObject(Serialize(r)) != Some(r)
  {
    assert Serialize(r)["user_metadata"] == JNull;
  }

  /** One optional string field of the round trip. */
  lemma StringRecovered(r: CreateUserRequest, key: string, v: Option<string>)
    requires key in FieldNames && Field(r, key) == StringValue(v)
    ensures OptionalString(Serialize(r), key) == Some(v)
  {
    if v.Some? {
      assert Serialize(r)[key] == JString(v.value);
    } else {
      assert key !in Serialize(r);
    }
  }

  /** One optional boolean field of the round trip. */
  lemma BoolRecovered(r: CreateUserRequest, key: string, v: Option<bool>)
    requires key in FieldNames && Field(r, key) == BoolValue(v)
    ensures OptionalBool(Serialize(r), key) == Some(v)
  {
    if v.Some? {
      assert Serialize(r)[key] == JBool(v.value);
    } else {
      assert key !in Serialize(r);
    }
  }

  /** One metadata field of the round trip. */
  lemma ValueRecovered(r: CreateUserRequest, key: string, v: Option<Json>)
    requires key in FieldNames && Field(r, key) == v && v != Some(JNull)
    ensures OptionalValue(Serialize(r), key) == v
  {
    if v.Some? {
      assert Serialize(r)[key] == v.value;
    } else {
      assert key !in Serialize(r);
    }
  }

  /** The setters for the required fields and the profile strings. */
  predicate IsProfileSetting(s: UserSetting) {
    s.SetEmail? || s.SetConnection? || s.SetPassword? || s.SetGivenName? || s.SetFamilyName? || s.SetName? || s.SetNickname?
  }

  /** A setter fills its own key with its argument. */
  lemma SetterFillsKey(b: CreateUserRequestBuilder, s: UserSetting)
    ensures Apply(b, s).Staged(KeyOf(s)) == Some(ValueOf(s))
  {
  }

  /** Framing for the profile setters: every other key keeps its value. */
  lemma ProfileSetterFraming(b: CreateUserRequestBuilder, s: UserSetting, key: string)
    requires IsProfileSetting(s) && key != KeyOf(s)
    ensures Apply(b, s).Staged(key) == b.Staged(key)
  {
  }

  /** Framing for the remaining setters: every other key keeps its value. */
  lemma OtherSetterFraming(b: CreateUserRequestBuilder, s: UserSetting, key: string)
    requires !IsProfileSetting(s) && key != KeyOf(s)
    ensures Apply(b, s).Staged(key) == b.Staged(key)
  {
  }

  /** A setter fills its own key with its argument and leaves every other key as it was. */
  lemma SetterFraming(b: CreateUserRequestBuilder, s: UserSetting)
    ensures Apply(b, s).Staged(KeyOf(s)) == Some(ValueOf(s))
    ensures forall key :: key != KeyOf(s) ==> Apply(b, s).Staged(key) == b.Staged(key)
  {
    SetterFillsKey(b, s);
    forall key | key != KeyOf(s) ensures Apply(b, s).Staged(key) == b.Staged(key) {
      if IsProfileSetting(s) {
        ProfileSetterFraming(b, s, key);
      } else {
        OtherSetterFraming(b, s, key);
      }
    }
  }

  /** After a chain of setter calls the builder holds values for its old keys plus the keys of the calls. */
  lemma {:induction false} ApplyAllStagedKeys(b: CreateUserRequestBuilder, calls: seq<UserSetting>)
    ensures StagedKeys(ApplyAll(b, calls)) == StagedKeys(b) + KeysOf(calls)
    decreases |calls|
  {
    if calls != [] {
      var b' := Apply(b, calls[0]);
      SetterFraming(b, calls[0]);
      assert StagedKeys(b') == StagedKeys(b) + {KeyOf(calls[0])} by {
        assert KeyOf(calls[0]) in FieldNames;
      }
      ApplyAllStagedKeys(b', calls[1..]);
      assert KeysOf(calls) == {KeyOf(calls[0])} + KeysOf(calls[1..]) by {
        forall k | k in KeysOf(calls) ensures k in {KeyOf(calls[0])} + KeysOf(calls[1..]) {
          var i :| 0 <= i < |calls| && k == KeyOf(calls[i]);
          if i > 0 {
            assert calls[1..][i - 1] == calls[i];
          }
        }
        forall k | k in KeysOf(calls[1..]) ensures k in KeysOf(calls) {
          var i :| 0 <= i < |calls[1..]| && k == KeyOf(calls[1..][i]);
          assert calls[1..][i] == calls[i + 1];
        }
      }
    }
  }

  /**
   * Starting from `builder()`, a successful build emits exactly the keys of
   * the setters that were called: no absent optional ever reaches the wire.
   */
  lemma BuiltKeysAreSetterKeys(calls: seq<UserSetting>)
    requires ApplyAll(Builder(), calls).Build().Ok?
    ensures Keys(ApplyAll(Builder(), calls).Build().value) == KeysOf(calls)
  {
    var b := ApplyAll(Builder(), calls);
    ApplyAllStagedKeys(Builder(), calls);
    assert StagedKeys(Builder()) == {};
    var r := b.Build().value;
    assert Keys(r) == StagedKeys(b) by {
      forall k ensures k in Keys(r) <==> k in StagedKeys(b) {
        assert Field(r, k) == b.Staged(k);
      }
    }
  }

  /** Every request with an `@` in its email is what building its own builder gives. */
  lemma BuildFromRequest(r: CreateUserRequest)
    requires '@' in r.email
    ensures ToBuilder(r).Build() == Ok(r)
  {
  }

  /** `build` forgets nothing: the builder can be recovered from the request it built. */
  lemma BuildLosesNothing(b: CreateUserRequestBuilder)
    requires b.Build().Ok?
    ensures ToBuilder(b.Build().value) == b
  {
  }

  /** The minimal build leaves every optional field absent. */
  lemma MinimalBuild(email: string, connection: string)
    requires '@' in email
    ensures Builder().Email(email).Connection(connection).Build()
            == Ok(CreateUserRequest(email, connection, None, None, None, None, None, None, None, None, None, None,
                                    None, None, None))
  {
  }

  /** The crate's tests: the missing-field and bad-format cases, with their messages. */
  lemma BuildErrorExamples()
    ensures Builder().Connection("Username-Password-Authentication").Build() == Err(InvalidRequest(EmailRequired))
    ensures Builder().Email("test@example.com").Build() == Err(InvalidRequest(ConnectionRequired))
    ensures Builder().Email("invalid_email").Connection("Username-Password-Authentication").Build()
            == Err(InvalidRequest(InvalidEmail))
    ensures Builder().Build() == Err(InvalidRequest(EmailRequired))
  {
  }

  /** The request `create_user` sends: a POST with the bearer token and the serialized body. */
  function CreateUserRequestFor(domain: Domain, token: BearerToken, request: CreateUserRequest): Request {
    Request(Post, ToUrl(domain, UsersPath), Some(Tokens.AsStr(token)), Keys(request))
  }

  /** The create-user request is a POST to `/api/v2/users` carrying the token's secret and exactly the request's keys. */
  lemma CreateUserRequestShape(domain: Domain, token: BearerToken, request: CreateUserRequest)
    ensures CreateUserRequestFor(domain, token, request).verb == Post
    ensures CreateUserRequestFor(domain, token, request).bearer == Some(token.inner)
    ensures ToUrl(domain, "") <= CreateUserRequestFor(domain, token, request).url
    ensures CreateUserRequestFor(domain, token, request).url[|ToUrl(domain, "")|..] == UsersPath
    ensures CreateUserRequestFor(domain, token, request).bodyKeys == Keys(request)
  {
    ToUrlPathRecovered(domain, UsersPath);
  }

  /** `create_user`: one authenticated exchange, then any 2xx decodes and anything else is `from_response`. */
  function CreateUser<T>(domain: Domain, token: BearerToken, request: CreateUserRequest,
                         send: Request -> Option<Response>, decode: string -> Option<T>): (r: Result<T, Auth0Error>)
    ensures send(CreateUserRequestFor(domain, token, request)).None? ==> r == Err(Transport)
    ensures send(CreateUserRequestFor(domain, token, request)).Some? ==>
              r == DecodeOnSuccess(send(CreateUserRequestFor(domain, token, request)).value, decode)
  {
    match send(CreateUserRequestFor(domain, token, request))
    case None => Err(Transport)
    case Some(resp) => DecodeOnSuccess(resp, decode)
  }
}
