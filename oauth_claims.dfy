/** Reading an OAuth identity token's claims (internal/id/usr/oauth/claims.go, internal/id/usr/oauth/model.go). */
module OAuthClaims {
  import opened Errors
  import opened Text

  /** A decoded JSON claim value, as far as the casts here distinguish it. */
  datatype Value = Str(s: string) | Bool(b: bool) | Other

  type Claims = map<string, Value>

  datatype ClaimsData = ClaimsData(id: Value, email: Value, emailVerified: Value, name: Value)

  /** oauth.User as NewUser builds it: no refresh token yet. */
  datatype User = User(id: string, email: string, isEmailVerified: bool, name: string, refreshToken: string)

  const ErrWrongTypeCasting: Error := E(WrongTypeCasting)
  const ErrNoUserProfileData: Error := E(NoUserProfileData)
  /**
   * Stands in for the error strconv.ParseBool returns on a string that is not a boolean; Go's
   * text also quotes the string (`strconv.ParseBool: parsing "x": invalid syntax`).
   */
  const ErrParseBoolSyntax: Error := E(Message("strconv.ParseBool: invalid syntax"))

  /**
   * NewClaimsData: "sub" and "email" are required; a missing "email_verified" reads as
   * false and a missing "name" as the empty string. Other keys are ignored.
   */
  function NewClaimsData(claims: Claims): (r: Result<ClaimsData>)
    ensures r.Fail? <==> "sub" !in claims || "email" !in claims
    ensures r.Fail? ==> r.err == ErrNoUserProfileData
    ensures r.Ok? ==> r.value.id == claims["sub"] && r.value.email == claims["email"]
    ensures r.Ok? ==> r.value.emailVerified == (if "email_verified" in claims then claims["email_verified"] else Bool(false))
    ensures r.Ok? ==> r.value.name == (if "name" in claims then claims["name"] else Str(""))
  {
    if "sub" !in claims then Fail(ErrNoUserProfileData)
    else if "email" !in claims then Fail(ErrNoUserProfileData)
    else
      var verified := if "email_verified" in claims then claims["email_verified"] else Bool(false);
      var name := if "name" in claims then claims["name"] else Str("");
      Ok(ClaimsData(claims["sub"], claims["email"], verified, name))
  }

  /** strconv.ParseBool: the spellings Go accepts for true and for false. */
  function ParseBool(s: string): (r: Result<bool>)
    ensures r == Ok(true) <==> s in {"1", "t", "T", "TRUE", "true", "True"}
    ensures r == Ok(false) <==> s in {"0", "f", "F", "FALSE", "false", "False"}
    ensures r.Fail? ==> r.err == ErrParseBoolSyntax
  {
    if s in {"1", "t", "T", "TRUE", "true", "True"} then Ok(true)
    else if s in {"0", "f", "F", "FALSE", "false", "False"} then Ok(false)
    else Fail(ErrParseBoolSyntax)
  }

  /** isEmailVerified: a boolean claim as is, a string claim parsed, anything else refused. */
  function IsEmailVerified(c: ClaimsData): (r: Result<bool>)
    ensures c.emailVerified.Bool? ==> r == Ok(c.emailVerified.b)
    ensures c.emailVerified.Str? && ParseBool(c.emailVerified.s).Ok? ==> r == ParseBool(c.emailVerified.s)
    ensures c.emailVerified.Str? && ParseBool(c.emailVerified.s).Fail? ==>
      r == Fail(JoinWith(WrongTypeCasting, ParseBool(c.emailVerified.s).err))
    ensures c.emailVerified.Other? ==> r == Fail(ErrWrongTypeCasting)
    ensures r.Fail? ==> Is(r.err, WrongTypeCasting)
  {
    match c.emailVerified
    case Bool(b) => Ok(b)
    case Str(s) =>
      (match ParseBool(s)
       case Ok(b) => Ok(b)
       case Fail(err) => Fail(JoinWith(WrongTypeCasting, err)))
    case Other => Fail(ErrWrongTypeCasting)
  }

  /**
   * CastToUser: id, email and name must be strings, and the verification flag must read
   * as a boolean; checked in the order id, email, flag, name.
   */
  function CastToUser(c: ClaimsData): (r: Result<User>)
    ensures !c.id.Str? ==> r == Fail(ErrWrongTypeCasting)
    ensures c.id.Str? && !c.email.Str? ==> r == Fail(ErrWrongTypeCasting)
    ensures c.id.Str? && c.email.Str? && IsEmailVerified(c).Fail? ==> r == Fail(IsEmailVerified(c).err)
    ensures c.id.Str? && c.email.Str? && IsEmailVerified(c).Ok? && !c.name.Str? ==> r == Fail(ErrWrongTypeCasting)
    ensures r.Ok? <==> c.id.Str? && c.email.Str? && c.name.Str? && IsEmailVerified(c).Ok?
    ensures r.Ok? ==> r.value == User(c.id.s, c.email.s, IsEmailVerified(c).value, c.name.s, "")
    ensures r.Fail? ==> Is(r.err, WrongTypeCasting)
  {
    if !c.id.Str? then Fail(ErrWrongTypeCasting)
    else if !c.email.Str? then Fail(ErrWrongTypeCasting)
    else
      match IsEmailVerified(c)
      case Fail(err) => Fail(err)
      case Ok(verified) =>
        if !c.name.Str? then Fail(ErrWrongTypeCasting)
        else Ok(User(c.id.s, c.email.s, verified, c.name.s, ""))
  }

  /** UpdateEmailToLower: only the email changes. */
  function UpdateEmailToLower(u: User): (r: User)
    ensures r == u.(email := ToLower(u.email))
    ensures forall i :: 0 <= i < |r.email| ==> !('A' <= r.email[i] <= 'Z')
  {
    u.(email := ToLower(u.email))
  }

  /** Claims holding exactly string "sub", "email" and "name" and a boolean flag become that user. */
  lemma ClaimsRoundTrip(id: string, email: string, name: string, verified: bool, extra: Claims)
    ensures var claims := extra["sub" := Str(id)]["email" := Str(email)]["email_verified" := Bool(verified)]["name" := Str(name)];
      NewClaimsData(claims).Ok? && CastToUser(NewClaimsData(claims).value) == Ok(User(id, email, verified, name, ""))
  {
  }

  /** Without "email_verified" and "name" a user is unverified and unnamed. */
  lemma MinimalClaims(id: string, email: string)
    ensures var claims := map["sub" := Str(id), "email" := Str(email)];
      CastToUser(NewClaimsData(claims).value) == Ok(User(id, email, false, "", ""))
  {
  }
}
