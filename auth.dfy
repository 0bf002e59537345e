/**
 * The server's bearer-token authentication: the service is built from the
 * Supabase JWT secret, decodes a token into its claims, projects the claims
 * onto the user record, and turns every failure into an HTTP 401.
 *
 * PyJWT is not modelled: its two decodes (without and with verification) are
 * a Decoder of the token, whose answers are the claims or the exception
 * raised. The environment variable is an input.
 */
module Auth {
  import opened Wrappers
  import opened Text
  import opened PyValue

  const Unauthorized := 401

  /** An HTTPException: its status code and its detail. */
  datatype HttpError = HttpError(status: nat, detail: string)

  const SecretMissing := "SUPABASE_JWT_SECRET environment variable is not set"
  const IssuedAtDetail := "Token validation failed: " + "Server time is behind token issuance time"
  const InvalidCredentials := "Invalid authentication credentials"
  const NoCredentials := "No credentials provided"
  const RefreshFailed := "Could not refresh token"

  /** The service, once built: it keeps the secret it verifies tokens with. */
  datatype AuthService = AuthService(jwtSecret: string)

  /** AuthService(): the secret must be set and not empty, else ValueError. */
  function NewAuthService(env: Option<string>): (r: Result<AuthService, string>)
    ensures r.Success? <==> env.Some? && env.value != ""
    ensures r.Success? ==> r.value.jwtSecret == env.value
    ensures r.Failure? ==> r.error == SecretMissing
  {
    if env.None? || env.value == "" then Failure(SecretMissing) else Success(AuthService(env.value))
  }

  /** The exceptions PyJWT's verifying decode can raise, as the handlers tell them apart. */
  datatype JwtFailure =
    /** InvalidIssuedAtError */
    | IssuedAt(message: string)
    /** any other PyJWTError, ExpiredSignatureError among them */
    | Jwt(message: string)
    /** any other exception */
    | Unexpected(message: string)

  /**
   * jwt.decode twice: first without checking the signature (a malformed
   * token raises a PyJWTError there), then with the secret, HS256, audience
   * "authenticated", exp/iat/aud checks and a leeway of 300 seconds.
   */
  datatype Decoder = Decoder(
    unverified: string -> Result<Entries, string>,
    verified: (string, string) -> Result<Entries, JwtFailure>)

  /** `current_time - iat` works for a number (JSON booleans are Python ints too). */
  predicate Subtractable(v: Value) {
    v.Num? || v == Other(true, "True") || v == Other(false, "False")
  }

  /** The Python type name a JSON claim that cannot be subtracted shows in the TypeError. */
  function JsonTypeName(v: Value): string {
    match v
    case Str(_) => "str"
    case Dict(_) => "dict"
    case List(_, tuple) => if tuple then "tuple" else "list"
    case Num(_, _) => "float"
    case Other(_, t) => if t == "None" then "NoneType" else t
  }

  /** The TypeError raised by `current_time - iat_time` for a claim that is not a number. */
  function SubtractionError(v: Value): string {
    "unsupported operand type(s) for -: 'float' and '" + JsonTypeName(v) + "'"
  }

  /** The detail each exception of decode_token is raised with. */
  function FailureDetail(f: JwtFailure): (detail: string)
    ensures f.IssuedAt? <==> detail == IssuedAtDetail
  {
    assert IssuedAtDetail[0] == 'T';
    match f
    case IssuedAt(_) => IssuedAtDetail
    case Jwt(m) => assert ("Invalid token: " + m)[0] == 'I'; "Invalid token: " + m
    case Unexpected(m) => assert ("Authentication error: " + m)[0] == 'A'; "Authentication error: " + m
  }

  /** The three shapes a decode_token detail takes. */
  predicate DecodeDetail(detail: string) {
    detail == IssuedAtDetail || IsPrefix("Invalid token: ", detail) || IsPrefix("Authentication error: ", detail)
  }

  /** decode_token: the verified claims, or the 401 its handlers raise. */
  function Decode(service: AuthService, d: Decoder, token: string): (r: Result<Entries, HttpError>)
    ensures r.Failure? ==> r.error.status == Unauthorized && DecodeDetail(r.error.detail)
    ensures r.Success? <==>
      && d.unverified(token).Success?
      && (HasKey(d.unverified(token).value, "iat") ==> Subtractable(Get(d.unverified(token).value, "iat").value))
      && d.verified(token, service.jwtSecret).Success?
    ensures r.Success? ==> r.value == d.verified(token, service.jwtSecret).value
  {
    match d.unverified(token)
    case Failure(m) => Failure(HttpError(Unauthorized, "Invalid token: " + m))
    case Success(claims) =>
      var iat := Get(claims, "iat");
      if iat.Some? && !Subtractable(iat.value) then
        Failure(HttpError(Unauthorized, "Authentication error: " + SubtractionError(iat.value)))
      else
        match d.verified(token, service.jwtSecret)
        case Failure(f) => Failure(HttpError(Unauthorized, FailureDetail(f)))
        case Success(payload) => Success(payload)
  }

  method DecodeToken(service: AuthService, d: Decoder, token: string) returns (r: Result<Entries, HttpError>)
    ensures r == Decode(service, d, token)
  {
    var unverifiedPayload := d.unverified(token);
    if unverifiedPayload.Failure? {
      return Failure(HttpError(Unauthorized, "Invalid token: " + unverifiedPayload.error));
    }
    var claims := unverifiedPayload.value;
    var iat := Get(claims, "iat");
    if iat.Some? && !Subtractable(iat.value) {
      return Failure(HttpError(Unauthorized, "Authentication error: " + SubtractionError(iat.value)));
    }
    var payload := d.verified(token, service.jwtSecret);
    if payload.Failure? {
      match payload.error
      case IssuedAt(_) =>
        return Failure(HttpError(Unauthorized, IssuedAtDetail));
      case Jwt(m) =>
        return Failure(HttpError(Unauthorized, "Invalid token: " + m));
      case Unexpected(m) =>
        return Failure(HttpError(Unauthorized, "Authentication error: " + m));
    }
    return Success(payload.value);
  }

  // ------------------------------------------------------------------
  // extract_user_data

  /** UserData; the optional fields default to None. */
  datatype UserData = UserData(id: string, email: string, fullName: Option<string>, avatarUrl: Option<string>,
                               provider: Option<string>)

  /** Why building the user record raised. */
  datatype ExtractError =
    /** `.get` on a metadata claim that is not a dict (AttributeError) */
    | NotADict(claim: string)
    /** a field pydantic refuses: a missing or non-string id or email, a non-string optional field */
    | InvalidField(field: string)

  /** Python's None, as a claim value. */
  predicate IsNone(v: Value) {
    v == Other(false, "None")
  }

  /** d.get(key, {}) used as a dict: the entries, or the error `.get` on a non-dict raises. */
  function MetadataOf(claims: Entries, key: string): (r: Result<Entries, ExtractError>)
    ensures r.Success? <==> !HasKey(claims, key) || Get(claims, key).value.Dict?
    ensures !HasKey(claims, key) ==> r == Success([])
    ensures r.Success? && HasKey(claims, key) ==> Get(claims, key) == Some(Dict(r.value))
  {
    match Get(claims, key)
    case None => Success([])
    case Some(v) => if v.Dict? then Success(v.entries) else Failure(NotADict(key))
  }

  /** A required str field: present and a string. */
  function Required(claims: Entries, key: string, field: string): (r: Result<string, ExtractError>)
    ensures r.Success? <==> HasKey(claims, key) && Get(claims, key).value.Str?
    ensures r.Success? ==> Get(claims, key) == Some(Str(r.value))
  {
    match Get(claims, key)
    case Some(Str(s)) => Success(s)
    case _ => Failure(InvalidField(field))
  }

  /** An Optional[str] field: absent or None gives None, a string is kept. */
  function Optional(entries: Entries, key: string, field: string): (r: Result<Option<string>, ExtractError>)
    ensures r == Success(None) <==> !HasKey(entries, key) || IsNone(Get(entries, key).value)
    ensures r.Success? && r.value.Some? ==> Get(entries, key) == Some(Str(r.value.value))
    ensures r.Failure? <==> HasKey(entries, key) && !IsNone(Get(entries, key).value) && !Get(entries, key).value.Str?
  {
    match Get(entries, key)
    case None => Success(None)
    case Some(v) =>
      if IsNone(v) then Success(None) else if v.Str? then Success(Some(v.s)) else Failure(InvalidField(field))
  }

  /**
   * extract_user_data: id from `sub`, email from `email`, full_name and
   * avatar_url from `user_metadata`, provider from `app_metadata`; a missing
   * metadata claim counts as {}.
   */
  function ExtractUserData(claims: Entries): Result<UserData, ExtractError> {
    match MetadataOf(claims, "user_metadata")
    case Failure(e) => Failure(e)
    case Success(userMetadata) =>
      match Required(claims, "sub", "id")
      case Failure(e) => Failure(e)
      case Success(id) =>
        match Required(claims, "email", "email")
        case Failure(e) => Failure(e)
        case Success(email) =>
          match Optional(userMetadata, "full_name", "full_name")
          case Failure(e) => Failure(e)
          case Success(fullName) =>
            match Optional(userMetadata, "avatar_url", "avatar_url")
            case Failure(e) => Failure(e)
            case Success(avatarUrl) =>
              match MetadataOf(claims, "app_metadata")
              case Failure(e) => Failure(e)
              case Success(appMetadata) =>
                match Optional(appMetadata, "provider", "provider")
                case Failure(e) => Failure(e)
                case Success(provider) => Success(UserData(id, email, fullName, avatarUrl, provider))
  }

  /** The bearer credentials; None when the request had none. */
  datatype Credentials = Credentials(scheme: string, credentials: string)

  /**
   * get_current_user: the raised "No credentials provided" and every
   * failure of decoding or extracting are caught and raised again as
   * "Invalid authentication credentials".
   */
  function CurrentUser(service: AuthService, d: Decoder, credentials: Option<Credentials>): (r: Result<UserData, HttpError>)
    ensures r.Failure? ==> r.error == HttpError(Unauthorized, InvalidCredentials)
  {
    if credentials.None? then Failure(HttpError(Unauthorized, InvalidCredentials))
    else
      match Decode(service, d, credentials.value.credentials)
      case Failure(_) => Failure(HttpError(Unauthorized, InvalidCredentials))
      case Success(payload) =>
        match ExtractUserData(payload)
        case Failure(_) => Failure(HttpError(Unauthorized, InvalidCredentials))
        case Success(user) => Success(user)
  }

  method GetCurrentUser(service: AuthService, d: Decoder, credentials: Option<Credentials>)
    returns (r: Result<UserData, HttpError>)
    ensures r == CurrentUser(service, d, credentials)
  {
    var raised: Option<HttpError> := None;
    if credentials.None? {
      raised := Some(HttpError(Unauthorized, NoCredentials));
    } else {
      var payload := DecodeToken(service, d, credentials.value.credentials);
      if payload.Failure? {
        raised := Some(payload.error);
      } else {
        var user := ExtractUserData(payload.value);
        if user.Success? {
          return Success(user.value);
        }
      }
    }
    // except Exception: whatever was raised becomes the same 401.
    return Failure(HttpError(Unauthorized, InvalidCredentials));
  }

  /** refresh_access_token: the placeholder raises NotImplementedError, caught as a 401. */
  function RefreshAccessToken(refreshToken: string): (r: Result<Entries, HttpError>)
    ensures r == Failure(HttpError(Unauthorized, RefreshFailed))
  {
    Failure(HttpError(Unauthorized, RefreshFailed))
  }

  // ------------------------------------------------------------------
  // Properties

  /** The user record carries `sub` and `email` unchanged and the metadata fields when they are strings. */
  lemma ExtractedFields(claims: Entries)
    requires ExtractUserData(claims).Success?
    ensures var u := ExtractUserData(claims).value;
      && Get(claims, "sub") == Some(Str(u.id))
      && Get(claims, "email") == Some(Str(u.email))
      && (u.fullName.Some? ==> Get(MetadataOf(claims, "user_metadata").value, "full_name") == Some(Str(u.fullName.value)))
      && (u.avatarUrl.Some? ==> Get(MetadataOf(claims, "user_metadata").value, "avatar_url") == Some(Str(u.avatarUrl.value)))
      && (u.provider.Some? ==> Get(MetadataOf(claims, "app_metadata").value, "provider") == Some(Str(u.provider.value)))
  {
  }

  /** Without user_metadata, full_name and avatar_url are None; without app_metadata, so is provider. */
  lemma MissingMetadata(claims: Entries)
    requires ExtractUserData(claims).Success?
    ensures !HasKey(claims, "user_metadata") ==>
      ExtractUserData(claims).value.fullName == None && ExtractUserData(claims).value.avatarUrl == None
    ensures !HasKey(claims, "app_metadata") ==> ExtractUserData(claims).value.provider == None
  {
  }

  /** A token without a string `sub` or `email` never yields a user. */
  lemma RequiredClaims(claims: Entries)
    requires !(HasKey(claims, "sub") && Get(claims, "sub").value.Str?)
             || !(HasKey(claims, "email") && Get(claims, "email").value.Str?)
    ensures ExtractUserData(claims).Failure?
  {
  }

  /** The dedicated detail is given exactly for the issued-at failure of the verifying decode. */
  lemma IssuedAtFailure(service: AuthService, d: Decoder, token: string)
    requires d.unverified(token).Success?
    requires HasKey(d.unverified(token).value, "iat") ==> Subtractable(Get(d.unverified(token).value, "iat").value)
    ensures Decode(service, d, token).Failure? && Decode(service, d, token).error.detail == IssuedAtDetail
            <==> d.verified(token, service.jwtSecret).Failure? && d.verified(token, service.jwtSecret).error.IssuedAt?
  {
  }

  /** A non-numeric `iat` claim fails before the signature is checked, whatever the verifier says. */
  lemma StringIssuedAt(service: AuthService, d: Decoder, token: string, s: string)
    requires d.unverified(token).Success? && Get(d.unverified(token).value, "iat") == Some(Str(s))
    ensures Decode(service, d, token) == Failure(HttpError(Unauthorized, "Authentication error: " + SubtractionError(Str(s))))
  {
  }

  /** Missing credentials are not reported as such: the caller sees the generic 401. */
  lemma MissingCredentials(service: AuthService, d: Decoder)
    ensures CurrentUser(service, d, None) == Failure(HttpError(Unauthorized, InvalidCredentials))
  {
  }

  /** get_current_user succeeds exactly when the token decodes and the claims make a user, and returns that user. */
  lemma CurrentUserIff(service: AuthService, d: Decoder, c: Credentials)
    ensures var r := CurrentUser(service, d, Some(c));
      var p := Decode(service, d, c.credentials);
      && (r.Success? <==> p.Success? && ExtractUserData(p.value).Success?)
      && (r.Success? ==> r.value == ExtractUserData(p.value).value)
  {
  }
}
