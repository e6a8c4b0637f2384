/**
 * The authentication service of the identity server (internal/id/authservice/service.go,
 * internal/id/authservice/errors.go). The user and session services it delegates to are
 * given as their results; every delegated call is recorded, in order, in `calls`.
 */
module AuthService {
  import opened Wrappers
  import opened Errors
  import opened GenUuid
  import UserService

  type User = UserService.User

  const ErrWrongLoginData: Error := E(WrongLoginData)
  const ErrAlreadyRegistered: Error := E(AlreadyRegistered)
  const ErrMissingUserDevice: Error := E(MissingUserDevice)
  const ErrMissingEmailAddress: Error := E(MissingEmailAddress)

  /** The two token lifetimes `tkn.CreateJWT` is asked for. */
  datatype Lifetime = AuthLifetime | RefreshLifetime

  /**
   * The outcome kind an OAuth login reports (`oauth.LoginResultType`); its values are not
   * part of this model.
   */
  type LoginResultType = nat

  datatype Session = Session(id: Uuid, userId: Uuid, device: string, refreshJwt: string)

  datatype AuthData = AuthData(accessJwt: string, refreshJwt: string, newSession: Session)

  const NoAuthData: AuthData := AuthData("", "", Session(ZeroUuid, ZeroUuid, "", ""))

  datatype Call =
    | ContainsEmail(email: string)
    | RegisterUser(user: User)
    | CheckPassword(password: string)
    | DeactivateAll
    | UpdateEmail(newEmail: string)
    | UpdatePassword(newPassword: string)
    | UserByEmail(email: string)
    | CompareHash(plain: string, encrypted: string)
    | OAuthLogin
    | CreateJwt(userId: Uuid, lifetime: Lifetime)
    | AddSession(session: Session)
    | TryRevokeAppleAccount
    | DeleteAccount
    | ContainsSession(session: Session)
    | ResetUserPassword(token: string)
    | DeactivateAllOf(userId: Uuid)

  datatype Done = Done(err: Option<Error>, calls: seq<Call>)

  datatype SessionOutcome = SessionOutcome(data: AuthData, err: Option<Error>, calls: seq<Call>)

  datatype LoginResult = LoginResult(user: Option<User>, data: AuthData, resultType: LoginResultType,
                                     err: Option<Error>, calls: seq<Call>)

  /**
   * checkIfEmailAlreadyRegistered, given what `Contains` returned: an address that matches
   * no user is free; a lookup that found one is refused; any other failure is passed on.
   */
  function CheckIfEmailAlreadyRegistered(contains: Option<Error>): (r: Option<Error>)
    ensures IsOpt(contains, NoMatches) ==> r.None?
    ensures contains.Some? && !IsOpt(contains, NoMatches) ==> r == contains
    ensures contains.None? ==> r == Some(ErrAlreadyRegistered)
    ensures r.None? <==> IsOpt(contains, NoMatches)
  {
    if IsOpt(contains, NoMatches) then None
    else if contains.Some? then contains
    else Some(ErrAlreadyRegistered)
  }

  /** Register: a taken address stops registration before the user service is asked to register. */
  function Register(email: string, password: string, username: string, contains: Option<Error>,
                    register: User -> Result<User>): (r: (Option<User>, Done))
    ensures CheckIfEmailAlreadyRegistered(contains).Some? ==>
      r == (None, Done(CheckIfEmailAlreadyRegistered(contains), [ContainsEmail(email)]))
    ensures CheckIfEmailAlreadyRegistered(contains).None? ==>
      var u := UserService.User(ZeroUuid, username, email, password, false);
      r.1.calls == [ContainsEmail(email), RegisterUser(u)]
      && (register(u).Ok? ==> r.0 == Some(register(u).value) && r.1.err.None?)
      && (register(u).Fail? ==> r.0.None? && r.1.err == Some(register(u).err))
  {
    match CheckIfEmailAlreadyRegistered(contains)
    case Some(err) => (None, Done(Some(err), [ContainsEmail(email)]))
    case None =>
      var u := UserService.User(ZeroUuid, username, email, password, false);
      match register(u)
      case Ok(created) => (Some(created), Done(None, [ContainsEmail(email), RegisterUser(u)]))
      case Fail(err) => (None, Done(Some(err), [ContainsEmail(email), RegisterUser(u)]))
  }

  /**
   * CreateSession: an access and a refresh token are signed for the user and a session
   * holding the refresh token is stored. An invalid user id or an empty device is refused
   * before anything is signed.
   */
  function CreateSession(userId: Uuid, device: string, jwt: (Uuid, Lifetime) -> Result<string>,
                         addSession: Session -> Result<Uuid>): (r: SessionOutcome)
    ensures !userId.valid ==> r == SessionOutcome(NoAuthData, Some(ErrWrongLoginData), [])
    ensures userId.valid && device == "" ==> r == SessionOutcome(NoAuthData, Some(ErrMissingUserDevice), [])
    ensures userId.valid && device != "" ==> |r.calls| >= 1 && r.calls[0] == CreateJwt(userId, AuthLifetime)
    ensures userId.valid && device != "" && jwt(userId, AuthLifetime).Fail? ==>
      r == SessionOutcome(NoAuthData, Some(jwt(userId, AuthLifetime).err), [CreateJwt(userId, AuthLifetime)])
    ensures (userId.valid && device != "" && jwt(userId, AuthLifetime).Ok? && jwt(userId, RefreshLifetime).Fail?) ==>
      r == SessionOutcome(NoAuthData, Some(jwt(userId, RefreshLifetime).err),
                          [CreateJwt(userId, AuthLifetime), CreateJwt(userId, RefreshLifetime)])
    ensures (userId.valid && device != "" && jwt(userId, AuthLifetime).Ok? && jwt(userId, RefreshLifetime).Ok?) ==>
      var s := Session(ZeroUuid, userId, device, jwt(userId, RefreshLifetime).value);
      r.calls == [CreateJwt(userId, AuthLifetime), CreateJwt(userId, RefreshLifetime), AddSession(s)]
      && (addSession(s).Fail? ==> r.data == NoAuthData && r.err == Some(addSession(s).err))
      && (addSession(s).Ok? ==>
            r.err.None? && r.data == AuthData(jwt(userId, AuthLifetime).value, s.refreshJwt, s.(id := addSession(s).value)))
    ensures r.err.None? ==>
      r.data.newSession.userId == userId && r.data.newSession.device == device
      && r.data.refreshJwt == r.data.newSession.refreshJwt
  {
    if !userId.valid then SessionOutcome(NoAuthData, Some(ErrWrongLoginData), [])
    else if device == "" then SessionOutcome(NoAuthData, Some(ErrMissingUserDevice), [])
    else
      match jwt(userId, AuthLifetime)
      case Fail(err) => SessionOutcome(NoAuthData, Some(err), [CreateJwt(userId, AuthLifetime)])
      case Ok(access) =>
        match jwt(userId, RefreshLifetime)
        case Fail(err) =>
          SessionOutcome(NoAuthData, Some(err), [CreateJwt(userId, AuthLifetime), CreateJwt(userId, RefreshLifetime)])
        case Ok(refresh) =>
          var s := Session(ZeroUuid, userId, device, refresh);
          var calls := [CreateJwt(userId, AuthLifetime), CreateJwt(userId, RefreshLifetime), AddSession(s)];
          match addSession(s)
          case Fail(err) => SessionOutcome(NoAuthData, Some(err), calls)
          case Ok(id) => SessionOutcome(AuthData(access, refresh, s.(id := id)), None, calls)
  }

  /**
   * Login: an empty device is refused before any lookup; an unknown address and a wrong
   * password are both reported as ErrWrongLoginData (joined with the cause); otherwise a
   * session is created for the user found.
   */
  function Login(email: string, password: string, device: string, byEmail: string -> Result<User>,
                 check: (string, string) -> Option<Error>, jwt: (Uuid, Lifetime) -> Result<string>,
                 addSession: Session -> Result<Uuid>): (r: LoginResult)
    ensures device == "" ==> r == LoginResult(None, NoAuthData, 0, Some(ErrMissingUserDevice), [])
    ensures device != "" && byEmail(email).Fail? ==>
      r == LoginResult(None, NoAuthData, 0, Some(JoinWith(WrongLoginData, byEmail(email).err)), [UserByEmail(email)])
    ensures (device != "" && byEmail(email).Ok? && check(password, byEmail(email).value.password).Some?) ==>
      var u := byEmail(email).value;
      r == LoginResult(None, NoAuthData, 0, Some(JoinWith(WrongLoginData, check(password, u.password).value)),
                       [UserByEmail(email), CompareHash(password, u.password)])
    ensures (device != "" && byEmail(email).Ok? && check(password, byEmail(email).value.password).None?) ==>
      var u := byEmail(email).value;
      var s := CreateSession(u.id, device, jwt, addSession);
      r == LoginResult(Some(u), s.data, 0, s.err, [UserByEmail(email), CompareHash(password, u.password)] + s.calls)
  {
    if device == "" then LoginResult(None, NoAuthData, 0, Some(ErrMissingUserDevice), [])
    else
      match byEmail(email)
      case Fail(err) => LoginResult(None, NoAuthData, 0, Some(JoinWith(WrongLoginData, err)), [UserByEmail(email)])
      case Ok(u) =>
        match check(password, u.password)
        case Some(err) =>
          LoginResult(None, NoAuthData, 0, Some(JoinWith(WrongLoginData, err)), [UserByEmail(email), CompareHash(password, u.password)])
        case None =>
          var s := CreateSession(u.id, device, jwt, addSession);
          LoginResult(Some(u), s.data, 0, s.err, [UserByEmail(email), CompareHash(password, u.password)] + s.calls)
  }

  /** A login that succeeds was for a device, with the password the stored hash accepts, and opened a session. */
  lemma LoginSuccessNeedsPassword(email: string, password: string, device: string, byEmail: string -> Result<User>,
                                  check: (string, string) -> Option<Error>, jwt: (Uuid, Lifetime) -> Result<string>,
                                  addSession: Session -> Result<Uuid>)
    requires Login(email, password, device, byEmail, check, jwt, addSession).err.None?
    ensures device != "" && byEmail(email).Ok? && check(password, byEmail(email).value.password).None?
    ensures var r := Login(email, password, device, byEmail, check, jwt, addSession);
      r.user == Some(byEmail(email).value) && AddSession(r.data.newSession.(id := ZeroUuid)) in r.calls
  {
    var r := Login(email, password, device, byEmail, check, jwt, addSession);
    var u := byEmail(email).value;
    var s := CreateSession(u.id, device, jwt, addSession);
    assert r.calls[|r.calls| - 1] == s.calls[2];
  }

  /**
   * LoginWithOAuth: `login` is the provider-specific login option's result. An empty
   * device is refused before it runs.
   */
  function LoginWithOAuth(device: string, login: Result<(User, LoginResultType)>, jwt: (Uuid, Lifetime) -> Result<string>,
                          addSession: Session -> Result<Uuid>): (r: LoginResult)
    ensures device == "" ==> r == LoginResult(None, NoAuthData, 0, Some(ErrMissingUserDevice), [])
    ensures device != "" && login.Fail? ==> r == LoginResult(None, NoAuthData, 0, Some(login.err), [OAuthLogin])
    ensures device != "" && login.Ok? ==>
      var s := CreateSession(login.value.0.id, device, jwt, addSession);
      r == LoginResult(Some(login.value.0), s.data, login.value.1, s.err, [OAuthLogin] + s.calls)
  {
    if device == "" then LoginResult(None, NoAuthData, 0, Some(ErrMissingUserDevice), [])
    else
      match login
      case Fail(err) => LoginResult(None, NoAuthData, 0, Some(err), [OAuthLogin])
      case Ok((u, kind)) =>
        var s := CreateSession(u.id, device, jwt, addSession);
        LoginResult(Some(u), s.data, kind, s.err, [OAuthLogin] + s.calls)
  }

  /**
   * UpdateMail: the current password is checked, then every session is ended, then the
   * address changes; an address already in use is reported as ErrAlreadyRegistered.
   */
  function UpdateMail(password: string, newEmail: string, check: Option<Error>, deactivate: Option<Error>,
                      update: Option<Error>): (d: Done)
    ensures check.Some? ==> d == Done(check, [CheckPassword(password)])
    ensures check.None? && deactivate.Some? ==> d == Done(deactivate, [CheckPassword(password), DeactivateAll])
    ensures check.None? && deactivate.None? ==>
      d.calls == [CheckPassword(password), DeactivateAll, UpdateEmail(newEmail)]
      && (IsOpt(update, AddedDuplicateOfUnique) ==> d.err == Some(JoinWith(AlreadyRegistered, update.value)))
      && (!IsOpt(update, AddedDuplicateOfUnique) ==> d.err == update)
  {
    if check.Some? then Done(check, [CheckPassword(password)])
    else if deactivate.Some? then Done(deactivate, [CheckPassword(password), DeactivateAll])
    else
      var err := if IsOpt(update, AddedDuplicateOfUnique) then Some(JoinWith(AlreadyRegistered, update.value)) else update;
      Done(err, [CheckPassword(password), DeactivateAll, UpdateEmail(newEmail)])
  }

  /** ChangePassword: the current password is checked, then every session is ended, then the password changes. */
  function ChangePassword(current: string, newPassword: string, check: Option<Error>, deactivate: Option<Error>,
                          update: Option<Error>): (d: Done)
    ensures check.Some? ==> d == Done(check, [CheckPassword(current)])
    ensures check.None? && deactivate.Some? ==> d == Done(deactivate, [CheckPassword(current), DeactivateAll])
    ensures check.None? && deactivate.None? ==>
      d == Done(update, [CheckPassword(current), DeactivateAll, UpdatePassword(newPassword)])
  {
    if check.Some? then Done(check, [CheckPassword(current)])
    else if deactivate.Some? then Done(deactivate, [CheckPassword(current), DeactivateAll])
    else Done(update, [CheckPassword(current), DeactivateAll, UpdatePassword(newPassword)])
  }

  /** Sessions are only ended, and the account only changed, after the password was accepted. */
  lemma ChangesFollowPasswordCheck(password: string, newValue: string, check: Option<Error>,
                                   deactivate: Option<Error>, update: Option<Error>)
    ensures var m := UpdateMail(password, newValue, check, deactivate, update);
      var c := ChangePassword(password, newValue, check, deactivate, update);
      (DeactivateAll in m.calls || DeactivateAll in c.calls ==> check.None?)
      && (UpdateEmail(newValue) in m.calls ==> check.None? && deactivate.None?)
      && (UpdatePassword(newValue) in c.calls ==> check.None? && deactivate.None?)
      && m.calls[0] == CheckPassword(password) && c.calls[0] == CheckPassword(password)
  {
  }

  /** DeleteUser: a failed Apple revocation stops the deletion. */
  function DeleteUser(revoke: Option<Error>, delete: Option<Error>): (d: Done)
    ensures revoke.Some? ==> d == Done(revoke, [TryRevokeAppleAccount])
    ensures revoke.None? ==> d == Done(delete, [TryRevokeAppleAccount, DeleteAccount])
    ensures DeleteAccount in d.calls <==> revoke.None?
  {
    if revoke.Some? then Done(revoke, [TryRevokeAppleAccount])
    else Done(delete, [TryRevokeAppleAccount, DeleteAccount])
  }

  /**
   * AllowRefreshingJWT: refreshing is allowed exactly when the session is stored; a failed
   * check is unauthorized and keeps the session service's error.
   */
  function AllowRefreshingJWT(current: Session, contains: Option<Error>): (d: Done)
    ensures d.calls == [ContainsSession(current)]
    ensures d.err.None? <==> contains.None?
    ensures d.err.Some? ==> Is(d.err.value, TknUnauthorized) && forall k :: Is(contains.value, k) ==> Is(d.err.value, k)
  {
    match contains
    case None => Done(None, [ContainsSession(current)])
    case Some(err) => Done(Some(JoinWith(TknUnauthorized, err)), [ContainsSession(current)])
  }

  /**
   * CheckIfUserExists: any failure of the lookup, a database error included, reads as an
   * address that belongs to no user; the lookup's own error is dropped.
   */
  function CheckIfUserExists(email: string, contains: Option<Error>): (d: Done)
    ensures d.calls == [ContainsEmail(email)]
    ensures d.err.None? <==> contains.None?
    ensures d.err.Some? ==> d.err.value == ErrMissingEmailAddress
  {
    if contains.Some? then Done(Some(ErrMissingEmailAddress), [ContainsEmail(email)])
    else Done(None, [ContainsEmail(email)])
  }

  /** The address and new password ResetPassword hands back, or empty ones with the error. */
  datatype ResetPasswordResult = ResetPasswordResult(email: string, newPassword: string, err: Option<Error>, calls: seq<Call>)

  /**
   * ResetPassword: the user service resets the password through the token and returns the
   * user with the new password (`reset`); then every session of that user is ended
   * (`deactivate`), and only then are the address and the password handed back.
   */
  function ResetPassword(token: string, reset: Result<(User, string)>, deactivate: Option<Error>)
    : (r: ResetPasswordResult)
    ensures reset.Fail? ==> r == ResetPasswordResult("", "", Some(reset.err), [ResetUserPassword(token)])
    ensures reset.Ok? ==> r.calls == [ResetUserPassword(token), DeactivateAllOf(reset.value.0.id)]
    ensures reset.Ok? && deactivate.Some? ==> r.email == "" && r.newPassword == "" && r.err == deactivate
    ensures reset.Ok? && deactivate.None? ==>
      r.email == reset.value.0.email && r.newPassword == reset.value.1 && r.err.None?
  {
    match reset
    case Fail(err) => ResetPasswordResult("", "", Some(err), [ResetUserPassword(token)])
    case Ok((user, newPassword)) =>
      var calls := [ResetUserPassword(token), DeactivateAllOf(user.id)];
      if deactivate.Some? then ResetPasswordResult("", "", deactivate, calls)
      else ResetPasswordResult(user.email, newPassword, None, calls)
  }

  /**
   * A new password is handed out only without error, and then every session of the user it
   * belongs to was ended last; a failed reset or deactivation hands out nothing.
   */
  lemma ResetEndsSessionsFirst(token: string, reset: Result<(User, string)>, deactivate: Option<Error>)
    ensures var r := ResetPassword(token, reset, deactivate);
      (r.err.None? <==> reset.Ok? && deactivate.None?)
      && (r.err.None? ==> r.calls[|r.calls| - 1] == DeactivateAllOf(reset.value.0.id) && r.newPassword == reset.value.1)
      && (r.err.Some? ==> r.email == "" && r.newPassword == "")
      && (forall u :: DeactivateAllOf(u) in r.calls ==> reset.Ok? && u == reset.value.0.id)
  {
  }
}
