/**
 * Reading and checking the access and refresh JWTs of a request
 * (internal/id/tkn/tokenreader.go, internal/id/tkn/verifiers.go, internal/id/tkn/errors.go).
 * Signature checking (`parseIfValid`) is a parameter.
 */
module TokenReader {
  import opened Wrappers
  import opened Errors
  import opened Text
  import opened GenUuid

  const AuthorizationCookie: string := "access-jwt"
  const RefreshCookie: string := "refresh-jwt"
  const Bearer: string := "Bearer "

  const ErrUnauthorized: Error := E(TknUnauthorized)
  const ErrForbidden: Error := E(TknForbidden)
  const ErrNoCookie: Error := E(NoCookie)
  const ErrEmptyAuthorizationHeader: Error := E(Message("header \"Authorization\" does not contain value"))

  /** What of a request is read here: its Authorization header ("" when absent) and its cookies. */
  datatype Request = Request(authorization: string, cookies: map<string, string>)

  /** What `parseIfValid` gives for a signed token: the user id of its claims and whether it was refused. */
  datatype Parsed = Parsed(userId: Uuid, err: Option<Error>)

  /** cookieValue: a missing cookie is reported with its name, joined with `http.ErrNoCookie`. */
  function CookieValue(name: string, r: Request): (v: Result<string>)
    ensures name in r.cookies <==> v.Ok?
    ensures v.Ok? ==> v.value == r.cookies[name]
    ensures v.Fail? ==> v.err == Joined(E(Message("cookies do not contain \"" + name + "\"")), ErrNoCookie)
    ensures v.Fail? ==> Is(v.err, NoCookie)
  {
    if name in r.cookies then Ok(r.cookies[name])
    else Fail(Joined(E(Message("cookies do not contain \"" + name + "\"")), ErrNoCookie))
  }

  /** readAuthorizationHeader: an empty header is an error; otherwise one leading "Bearer " is dropped. */
  function ReadAuthorizationHeader(r: Request): (v: Result<string>)
    ensures r.authorization == "" <==> v == Fail(ErrEmptyAuthorizationHeader)
    ensures v.Ok? && HasPrefix(r.authorization, Bearer) ==> r.authorization == Bearer + v.value
    ensures v.Ok? && !HasPrefix(r.authorization, Bearer) ==> v.value == r.authorization
  {
    if r.authorization == "" then Fail(ErrEmptyAuthorizationHeader)
    else Ok(TrimPrefix(r.authorization, Bearer))
  }

  /** readAccessToken: the header wins over the cookie; with neither, both errors are joined. */
  function ReadAccessToken(r: Request): (v: Result<string>)
    ensures r.authorization != "" ==> v == ReadAuthorizationHeader(r)
    ensures r.authorization == "" && AuthorizationCookie in r.cookies ==> v == Ok(r.cookies[AuthorizationCookie])
    ensures r.authorization == "" && AuthorizationCookie !in r.cookies ==>
      v == Fail(Joined(ErrEmptyAuthorizationHeader, CookieValue(AuthorizationCookie, r).err))
    ensures v.Fail? ==> Is(v.err, NoCookie)
  {
    match ReadAuthorizationHeader(r)
    case Ok(token) => Ok(token)
    case Fail(headerErr) =>
      match CookieValue(AuthorizationCookie, r)
      case Ok(token) => Ok(token)
      case Fail(cookieErr) => Fail(Joined(headerErr, cookieErr))
  }

  /** readRefreshToken: a token sent in the body wins over the cookie. */
  function ReadRefreshToken(fromBody: string, r: Request): (v: Result<string>)
    ensures fromBody != "" ==> v == Ok(fromBody)
    ensures fromBody == "" ==> v == CookieValue(RefreshCookie, r)
  {
    if fromBody != "" then Ok(fromBody) else CookieValue(RefreshCookie, r)
  }

  /** VerifyUserJWT: a token that cannot be read is refused as unauthorized; a read one is checked. */
  function VerifyUserJWT(r: Request, parse: string -> Parsed): (p: Parsed)
    ensures ReadAccessToken(r).Fail? ==> p == Parsed(ZeroUuid, Some(JoinWith(TknUnauthorized, ReadAccessToken(r).err)))
    ensures ReadAccessToken(r).Ok? ==> p == parse(ReadAccessToken(r).value)
  {
    match ReadAccessToken(r)
    case Fail(err) => Parsed(ZeroUuid, Some(JoinWith(TknUnauthorized, err)))
    case Ok(token) => parse(token)
  }

  /** containsInvalidJWT: an error other than a missing cookie. */
  predicate ContainsInvalidJWT(err: Option<Error>) {
    err.Some? && !IsOpt(err, NoCookie)
  }

  /** belongToDifferentUsers: the ids differ and the second one did not come from a missing cookie. */
  predicate BelongToDifferentUsers(first: Uuid, second: Uuid, err: Option<Error>) {
    first != second && !IsOpt(err, NoCookie)
  }

  lemma VerifierCases(err: Option<Error>, first: Uuid, second: Uuid)
    ensures err.None? ==> !ContainsInvalidJWT(err)
    ensures IsOpt(err, NoCookie) ==> !ContainsInvalidJWT(err) && !BelongToDifferentUsers(first, second, err)
    ensures err.Some? && !IsOpt(err, NoCookie) ==> ContainsInvalidJWT(err)
    ensures first == second ==> !BelongToDifferentUsers(first, second, err)
    ensures first != second && err.None? ==> BelongToDifferentUsers(first, second, err)
  {
  }

  datatype Verified = Verified(token: string, userId: Uuid, err: Option<Error>)

  /**
   * VerifyRefreshJWT: the refresh token must be readable and valid; an access token that
   * is present must be valid and belong to the same user. A missing access token is not
   * an obstacle.
   */
  function VerifyRefreshJWT(fromBody: string, r: Request, parse: string -> Parsed): (v: Verified)
    ensures ReadRefreshToken(fromBody, r).Fail? ==>
      v == Verified("", ZeroUuid, Some(JoinWith(TknUnauthorized, ReadRefreshToken(fromBody, r).err)))
    ensures ReadRefreshToken(fromBody, r).Ok? && parse(ReadRefreshToken(fromBody, r).value).err.Some? ==>
      v == Verified("", ZeroUuid, parse(ReadRefreshToken(fromBody, r).value).err)
    ensures (ReadRefreshToken(fromBody, r).Ok? && parse(ReadRefreshToken(fromBody, r).value).err.None?
             && ContainsInvalidJWT(VerifyUserJWT(r, parse).err)) ==>
      v == Verified("", ZeroUuid, Some(ErrUnauthorized))
    ensures (ReadRefreshToken(fromBody, r).Ok? && parse(ReadRefreshToken(fromBody, r).value).err.None?
             && !ContainsInvalidJWT(VerifyUserJWT(r, parse).err)) ==>
      var token := ReadRefreshToken(fromBody, r).value;
      var auth := VerifyUserJWT(r, parse);
      (BelongToDifferentUsers(parse(token).userId, auth.userId, auth.err) ==> v == Verified("", ZeroUuid, Some(ErrForbidden)))
      && (!BelongToDifferentUsers(parse(token).userId, auth.userId, auth.err) ==> v == Verified(token, parse(token).userId, None))
  {
    match ReadRefreshToken(fromBody, r)
    case Fail(err) => Verified("", ZeroUuid, Some(JoinWith(TknUnauthorized, err)))
    case Ok(token) =>
      var fromRefresh := parse(token);
      if fromRefresh.err.Some? then Verified("", ZeroUuid, fromRefresh.err)
      else
        var fromAuth := VerifyUserJWT(r, parse);
        if ContainsInvalidJWT(fromAuth.err) then Verified("", ZeroUuid, Some(ErrUnauthorized))
        else if BelongToDifferentUsers(fromRefresh.userId, fromAuth.userId, fromAuth.err) then
          Verified("", ZeroUuid, Some(ErrForbidden))
        else Verified(token, fromRefresh.userId, None)
  }

  /** A valid refresh token is accepted on its own, when the request carries no access token. */
  lemma RefreshWithoutAccessToken(fromBody: string, r: Request, parse: string -> Parsed)
    requires r.authorization == "" && AuthorizationCookie !in r.cookies
    requires ReadRefreshToken(fromBody, r).Ok? && parse(ReadRefreshToken(fromBody, r).value).err.None?
    ensures VerifyRefreshJWT(fromBody, r, parse) ==
      Verified(ReadRefreshToken(fromBody, r).value, parse(ReadRefreshToken(fromBody, r).value).userId, None)
  {
    var auth := VerifyUserJWT(r, parse);
    assert IsOpt(auth.err, NoCookie);
  }

  /** Valid access and refresh tokens of two different users are refused as forbidden. */
  lemma DifferentUsersForbidden(fromBody: string, r: Request, parse: string -> Parsed)
    requires ReadRefreshToken(fromBody, r).Ok? && parse(ReadRefreshToken(fromBody, r).value).err.None?
    requires ReadAccessToken(r).Ok? && parse(ReadAccessToken(r).value).err.None?
    requires parse(ReadAccessToken(r).value).userId != parse(ReadRefreshToken(fromBody, r).value).userId
    ensures VerifyRefreshJWT(fromBody, r, parse).err == Some(ErrForbidden)
  {
  }

  /** A bearer header carries exactly the token written after "Bearer ". */
  lemma BearerStripped(token: string, cookies: map<string, string>)
    ensures ReadAccessToken(Request(Bearer + token, cookies)) == Ok(token)
  {
    var h := Bearer + token;
    assert h[..|Bearer|] == Bearer;
    assert h[|Bearer|..] == token;
  }
}
