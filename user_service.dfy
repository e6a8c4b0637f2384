/**
 * The user account service of the identity server (internal/id/usr/service.go,
 * internal/id/usr/context.go). Repository and hashing results are parameters; every
 * call the service makes is recorded, in order, in `calls`.
 */
module UserService {
  import opened Wrappers
  import opened Errors
  import opened Text
  import opened GenUuid
  import opened EmailParser
  import PasswordValidation
  import PasswordGenerator

  datatype User = User(id: Uuid, username: string, email: string, password: string, isEmailConfirmed: bool)

  /** The columns `updateColumn` can change. */
  datatype Column = UsernameColumn | EmailColumn | PasswordColumn

  datatype Call =
    | HashPassword(plain: string)
    | AddByPassword(user: User)
    | EncryptedPassword(id: Uuid)
    | CheckHash(plain: string, encrypted: string)
    | UpdateColumn(id: Uuid, column: Column, value: string)
    | ValidateEmail(token: string)
    | RestorePassword(token: string, encrypted: string)
    | ByEmail(email: string)
    | AllAppleRefreshTokens(id: Uuid)
    | RevokeRefreshToken(token: string)

  /** An error (or nil) and the calls made on the way to it. */
  datatype Done = Done(err: Option<Error>, calls: seq<Call>)

  const ErrUnauthorized: Error := E(TknUnauthorized)
  const ErrNotFound: Error := E(UserNotFound)
  const ErrInvalidEmail: Error := E(InvalidEmail)
  const ErrMissingConfirmToken: Error := E(MissingConfirmToken)
  const ErrValidationRefused: Error := E(ValidationRefused)
  const ErrPasswordResetRefused: Error := E(PasswordResetRefused)

  /** Length of the password ResetPassword generates. */
  const NewPasswordLength: int := 12

  /** ID: the user id stored in the request context, when there is a valid one. */
  function ID(stored: Option<Uuid>): (r: Result<Uuid>)
    ensures r.Ok? <==> stored.Some? && stored.value.valid
    ensures r.Ok? ==> r.value == stored.value
    ensures r.Fail? ==> r.err == ErrUnauthorized
  {
    if stored.Some? && stored.value.valid then Ok(stored.value) else Fail(ErrUnauthorized)
  }

  /** checkIfTokenNotEmpty */
  function CheckIfTokenNotEmpty(token: string): (r: Option<Error>)
    ensures r.None? <==> token != ""
    ensures r.Some? ==> r.value == ErrMissingConfirmToken
  {
    if token == "" then Some(ErrMissingConfirmToken) else None
  }

  /** The mapping the Update* methods apply to `updateColumn`'s error. */
  function NotFoundIfNoMatches(err: Option<Error>): (r: Option<Error>)
    ensures IsOpt(err, NoMatches) ==> r == Some(JoinWith(UserNotFound, err.value))
    ensures !IsOpt(err, NoMatches) ==> r == err
    ensures r.None? <==> err.None?
  {
    if IsOpt(err, NoMatches) then Some(JoinWith(UserNotFound, err.value)) else err
  }

  /**
   * Register. `parsed` is what `mail.ParseAddress` made of the email, `hash` is bcrypt and
   * `add` is the repository insert. A bad address is refused before the password is looked
   * at, and a password is validated before it is hashed. The stored user has the
   * lowercased address, the hash in place of the password, and the address's name when no
   * username was given.
   */
  method Register(user: User, parsed: Result<Address>, hash: string -> Result<string>, add: User -> Result<User>)
    returns (r: Result<User>, calls: seq<Call>)
    ensures ParseAddress(parsed).Fail? ==>
      r == Fail(JoinWith(InvalidEmail, ParseAddress(parsed).err)) && calls == []
    ensures (ParseAddress(parsed).Ok? && !PasswordValidation.Secure(user.password)) ==>
      calls == [] && r.Fail? && r.err.Wrapped? && r.err.context == "invalid password"
      && AsInsecurePassword(r.err.inner)
    ensures (ParseAddress(parsed).Ok? && PasswordValidation.Secure(user.password)
             && hash(user.password).Fail?) ==>
      r == Fail(hash(user.password).err) && calls == [HashPassword(user.password)]
    ensures (ParseAddress(parsed).Ok? && PasswordValidation.Secure(user.password)
             && hash(user.password).Ok?) ==>
      var a := ParseAddress(parsed).value;
      var stored := user.(email := ToLower(a.address), password := hash(user.password).value,
                          username := if user.username == "" then a.name else user.username);
      calls == [HashPassword(user.password), AddByPassword(stored)] && r == add(stored)
  {
    calls := [];
    var address := ParseAddress(parsed);
    if address.Fail? {
      return Fail(JoinWith(InvalidEmail, address.err)), calls;
    }
    var u := user;
    u := u.(email := ToLower(address.value.address));
    var invalid := PasswordValidation.Validate(u.password);
    if invalid.Some? {
      return Fail(Wrapped("invalid password", invalid.value)), calls;
    }
    calls := calls + [HashPassword(u.password)];
    var encrypted := hash(u.password);
    if encrypted.Fail? {
      return Fail(encrypted.err), calls;
    }
    u := u.(password := encrypted.value);
    if u.username == "" {
      u := u.(username := address.value.name);
    }
    calls := calls + [AddByPassword(u)];
    r := add(u);
  }

  /**
   * CheckPassword. `stored` is the stored hash (or the lookup error) and `check` is the
   * bcrypt comparison. An empty password matches an account that has none (one made by
   * OAuth sign-in).
   */
  function CheckPassword(ctxId: Option<Uuid>, toCheck: string, stored: Result<string>,
                         check: (string, string) -> Option<Error>): (d: Done)
    ensures ID(ctxId).Fail? ==> d == Done(Some(ErrUnauthorized), [])
    ensures ID(ctxId).Ok? && toCheck == "" && stored.Fail? && Is(stored.err, NoRows) ==>
      d == Done(None, [EncryptedPassword(ctxId.value)])
    ensures (ID(ctxId).Ok? && stored.Fail? && !(toCheck == "" && Is(stored.err, NoRows))) ==>
      d == Done(Some(stored.err), [EncryptedPassword(ctxId.value)])
    ensures ID(ctxId).Ok? && stored.Ok? ==>
      d == Done(check(toCheck, stored.value), [EncryptedPassword(ctxId.value), CheckHash(toCheck, stored.value)])
  {
    match ID(ctxId)
    case Fail(err) => Done(Some(err), [])
    case Ok(id) =>
      if toCheck == "" && stored.Fail? && Is(stored.err, NoRows) then Done(None, [EncryptedPassword(id)])
      else if stored.Fail? then Done(Some(stored.err), [EncryptedPassword(id)])
      else Done(check(toCheck, stored.value), [EncryptedPassword(id), CheckHash(toCheck, stored.value)])
  }

  /** UpdatePassword: validated, then hashed, then stored; a missing user is reported as not found. */
  method UpdatePassword(ctxId: Option<Uuid>, newPassword: string, hash: string -> Result<string>,
                        update: (Uuid, Column, string) -> Option<Error>)
    returns (d: Done)
    ensures ID(ctxId).Fail? ==> d == Done(Some(ErrUnauthorized), [])
    ensures (ID(ctxId).Ok? && !PasswordValidation.Secure(newPassword)) ==>
      d.calls == [] && d.err.Some? && AsInsecurePassword(d.err.value)
    ensures (ID(ctxId).Ok? && PasswordValidation.Secure(newPassword) && hash(newPassword).Fail?) ==>
      d == Done(Some(hash(newPassword).err), [HashPassword(newPassword)])
    ensures (ID(ctxId).Ok? && PasswordValidation.Secure(newPassword) && hash(newPassword).Ok?) ==>
      var h := hash(newPassword).value;
      d == Done(NotFoundIfNoMatches(update(ctxId.value, PasswordColumn, h)),
                [HashPassword(newPassword), UpdateColumn(ctxId.value, PasswordColumn, h)])
  {
    var id := ID(ctxId);
    if id.Fail? {
      return Done(Some(id.err), []);
    }
    var invalid := PasswordValidation.Validate(newPassword);
    if invalid.Some? {
      return Done(invalid, []);
    }
    var encrypted := hash(newPassword);
    if encrypted.Fail? {
      return Done(Some(encrypted.err), [HashPassword(newPassword)]);
    }
    var err := update(id.value, PasswordColumn, encrypted.value);
    d := Done(NotFoundIfNoMatches(err),
              [HashPassword(newPassword), UpdateColumn(id.value, PasswordColumn, encrypted.value)]);
  }

  /** UpdateEmail: the new address is parsed and stored lowercased. */
  function UpdateEmail(ctxId: Option<Uuid>, parsed: Result<Address>,
                       update: (Uuid, Column, string) -> Option<Error>): (d: Done)
    ensures ID(ctxId).Fail? ==> d == Done(Some(ErrUnauthorized), [])
    ensures ID(ctxId).Ok? && ParseAddress(parsed).Fail? ==>
      d == Done(Some(JoinWith(InvalidEmail, ParseAddress(parsed).err)), [])
    ensures ID(ctxId).Ok? && ParseAddress(parsed).Ok? ==>
      var email := ToLower(ParseAddress(parsed).value.address);
      d == Done(NotFoundIfNoMatches(update(ctxId.value, EmailColumn, email)),
                [UpdateColumn(ctxId.value, EmailColumn, email)])
  {
    match ID(ctxId)
    case Fail(err) => Done(Some(err), [])
    case Ok(id) =>
      match ParseAddress(parsed)
      case Fail(err) => Done(Some(JoinWith(InvalidEmail, err)), [])
      case Ok(a) =>
        var email := ToLower(a.address);
        Done(NotFoundIfNoMatches(update(id, EmailColumn, email)), [UpdateColumn(id, EmailColumn, email)])
  }

  /** UpdateUsername: stored as given. */
  function UpdateUsername(ctxId: Option<Uuid>, newName: string,
                          update: (Uuid, Column, string) -> Option<Error>): (d: Done)
    ensures ID(ctxId).Fail? ==> d == Done(Some(ErrUnauthorized), [])
    ensures ID(ctxId).Ok? ==>
      d == Done(NotFoundIfNoMatches(update(ctxId.value, UsernameColumn, newName)),
                [UpdateColumn(ctxId.value, UsernameColumn, newName)])
  {
    match ID(ctxId)
    case Fail(err) => Done(Some(err), [])
    case Ok(id) => Done(NotFoundIfNoMatches(update(id, UsernameColumn, newName)), [UpdateColumn(id, UsernameColumn, newName)])
  }

  /** ConfirmEmail: every refusal carries ErrValidationRefused; an empty token never reaches the repository. */
  function ConfirmEmail(token: string, validate: string -> Option<Error>): (d: Done)
    ensures token == "" ==> d == Done(Some(JoinWith(ValidationRefused, ErrMissingConfirmToken)), [])
    ensures token != "" ==> d.calls == [ValidateEmail(token)]
    ensures token != "" && validate(token).Some? ==> d.err == Some(JoinWith(ValidationRefused, validate(token).value))
    ensures token != "" && validate(token).None? ==> d.err.None?
    ensures d.err.Some? ==> Is(d.err.value, ValidationRefused)
  {
    match CheckIfTokenNotEmpty(token)
    case Some(err) => Done(Some(JoinWith(ValidationRefused, err)), [])
    case None =>
      match validate(token)
      case Some(err) => Done(Some(JoinWith(ValidationRefused, err)), [ValidateEmail(token)])
      case None => Done(None, [ValidateEmail(token)])
  }

  /** The outcome of ResetPassword: the user, the new plain password and the error. */
  datatype Reset = Reset(user: Option<User>, newPassword: string, err: Option<Error>, calls: seq<Call>)

  /**
   * ResetPassword: a fresh 12-character password is generated, hashed and stored through
   * the reset token; the user is then looked up by the (lowercased) address the token
   * belonged to. `byEmail` is the repository lookup.
   */
  method ResetPassword(token: string, optionDraw: nat -> nat, charDraw: nat -> nat, shuffleDraw: nat -> nat,
                       hash: string -> Result<string>, restore: (string, string) -> Result<string>,
                       byEmail: string -> Result<User>)
    returns (r: Reset)
    ensures token == "" ==> r == Reset(None, "", Some(JoinWith(PasswordResetRefused, ErrMissingConfirmToken)), [])
    ensures token != "" ==> |r.calls| >= 1 && r.calls[0].HashPassword?
    ensures token != "" ==> |r.calls[0].plain| == NewPasswordLength && PasswordValidation.Secure(r.calls[0].plain)
    ensures token != "" && hash(r.calls[0].plain).Fail? ==>
      r == Reset(None, "", Some(hash(r.calls[0].plain).err), r.calls[..1]) && |r.calls| == 1
    ensures (token != "" && hash(r.calls[0].plain).Ok?
             && restore(token, hash(r.calls[0].plain).value).Fail?) ==>
      var h := hash(r.calls[0].plain).value;
      r == Reset(None, "", Some(JoinWith(PasswordResetRefused, restore(token, h).err)),
                 [r.calls[0], RestorePassword(token, h)])
    ensures (token != "" && hash(r.calls[0].plain).Ok?
             && restore(token, hash(r.calls[0].plain).value).Ok?) ==>
      var h := hash(r.calls[0].plain).value;
      var email := ToLower(restore(token, h).value);
      r.newPassword == r.calls[0].plain
      && r.calls == [r.calls[0], RestorePassword(token, h), ByEmail(email)]
      && (byEmail(email).Ok? ==> r.user == Some(byEmail(email).value) && r.err.None?)
      && (byEmail(email).Fail? ==> r.user.None? && r.err == Some(byEmail(email).err))
  {
    var missing := CheckIfTokenNotEmpty(token);
    if missing.Some? {
      return Reset(None, "", Some(JoinWith(PasswordResetRefused, missing.value)), []);
    }
    var newPassword := PasswordGenerator.Generate(NewPasswordLength, optionDraw, charDraw, shuffleDraw);
    GeneratedPasswordIsSecure(newPassword);
    var calls := [HashPassword(newPassword)];
    var encrypted := hash(newPassword);
    if encrypted.Fail? {
      return Reset(None, "", Some(encrypted.err), calls);
    }
    calls := calls + [RestorePassword(token, encrypted.value)];
    var email := restore(token, encrypted.value);
    if email.Fail? {
      return Reset(None, "", Some(JoinWith(PasswordResetRefused, email.err)), calls);
    }
    var lowered := ToLower(email.value);
    calls := calls + [ByEmail(lowered)];
    var found := byEmail(lowered);
    match found
    case Ok(u) => r := Reset(Some(u), newPassword, None, calls);
    case Fail(err) => r := Reset(None, newPassword, Some(err), calls);
  }

  /**
   * A password of at least 8 characters built the way the generator builds them (made of
   * its four classes, one of each present) passes Validate.
   */
  lemma GeneratedPasswordIsSecure(p: string)
    requires |p| >= PasswordValidation.MinValidLength
    requires forall i :: 0 <= i < |p| ==> PasswordGenerator.Allowed(p[i])
    requires exists i :: 0 <= i < |p| && PasswordGenerator.IsDigitChar(p[i])
    requires exists i :: 0 <= i < |p| && PasswordGenerator.IsLowerChar(p[i])
    requires exists i :: 0 <= i < |p| && PasswordGenerator.IsUpperChar(p[i])
    ensures PasswordValidation.Secure(p)
  {
    assert forall i :: 0 <= i < |p| ==> PasswordValidation.Allowed(p[i]) && (p[i] as int) < 0x80;
    ByteLenBounds(p);
  }

  /**
   * The specification of TryRevokeAppleAccount's loop: each failed revocation is joined in
   * front of what was collected before it.
   */
  function RevokeAll(tokens: seq<string>, revoke: string -> Option<Error>, acc: Option<Error>): Option<Error>
    decreases |tokens|
  {
    if tokens == [] then acc
    else
      var e := revoke(tokens[0]);
      RevokeAll(tokens[1..], revoke, if e.Some? then Errors.Join(e, acc) else acc)
  }

  /** A kind is in the collected error exactly when the listing or some revocation produced it. */
  lemma {:induction false} RevokeAllKinds(tokens: seq<string>, revoke: string -> Option<Error>, acc: Option<Error>, k: Kind)
    ensures IsOpt(RevokeAll(tokens, revoke, acc), k) <==>
      IsOpt(acc, k) || exists i :: 0 <= i < |tokens| && IsOpt(revoke(tokens[i]), k)
    decreases |tokens|
  {
    if tokens != [] {
      var e := revoke(tokens[0]);
      var acc' := if e.Some? then Errors.Join(e, acc) else acc;
      RevokeAllKinds(tokens[1..], revoke, acc', k);
      if exists i :: 1 <= i < |tokens| && IsOpt(revoke(tokens[i]), k) {
        var i :| 1 <= i < |tokens| && IsOpt(revoke(tokens[i]), k);
        assert tokens[i] == tokens[1..][i - 1];
      }
      if exists i :: 0 <= i < |tokens| - 1 && IsOpt(revoke(tokens[1..][i]), k) {
        var i :| 0 <= i < |tokens| - 1 && IsOpt(revoke(tokens[1..][i]), k);
        assert tokens[1..][i] == tokens[i + 1];
      }
    }
  }

  /** The collected error is nil exactly when the listing and every revocation succeeded. */
  lemma {:induction false} RevokeAllNone(tokens: seq<string>, revoke: string -> Option<Error>, acc: Option<Error>)
    ensures RevokeAll(tokens, revoke, acc).None? <==>
      acc.None? && forall i :: 0 <= i < |tokens| ==> revoke(tokens[i]).None?
    decreases |tokens|
  {
    if tokens != [] {
      var e := revoke(tokens[0]);
      var acc' := if e.Some? then Errors.Join(e, acc) else acc;
      RevokeAllNone(tokens[1..], revoke, acc');
      assert forall i :: 1 <= i < |tokens| ==> tokens[i] == tokens[1..][i - 1];
    }
  }

  /**
   * TryRevokeAppleAccount: every stored Apple refresh token is revoked, even after a
   * failure, and the failures are joined with the listing error. With no tokens, the
   * listing error alone is returned.
   */
  method TryRevokeAppleAccount(ctxId: Option<Uuid>, tokens: seq<string>, listErr: Option<Error>,
                               revoke: string -> Option<Error>)
    returns (d: Done)
    ensures ID(ctxId).Fail? ==> d == Done(Some(ErrUnauthorized), [])
    ensures ID(ctxId).Ok? ==> d.err == RevokeAll(tokens, revoke, listErr)
    ensures ID(ctxId).Ok? ==>
      |d.calls| == |tokens| + 1 && d.calls[0] == AllAppleRefreshTokens(ctxId.value)
      && forall i :: 0 <= i < |tokens| ==> d.calls[i + 1] == RevokeRefreshToken(tokens[i])
  {
    var id := ID(ctxId);
    if id.Fail? {
      return Done(Some(id.err), []);
    }
    var calls := [AllAppleRefreshTokens(id.value)];
    var err := listErr;
    if |tokens| == 0 {
      return Done(err, calls);
    }
    var n := 0;
    while n < |tokens|
      invariant n <= |tokens|
      invariant RevokeAll(tokens[n..], revoke, err) == RevokeAll(tokens, revoke, listErr)
      invariant |calls| == n + 1 && calls[0] == AllAppleRefreshTokens(id.value)
      invariant forall i :: 0 <= i < n ==> calls[i + 1] == RevokeRefreshToken(tokens[i])
    {
      assert tokens[n..][1..] == tokens[n + 1..];
      var revokeErr := revoke(tokens[n]);
      calls := calls + [RevokeRefreshToken(tokens[n])];
      if revokeErr.Some? {
        err := Errors.Join(revokeErr, err);
      }
      n := n + 1;
    }
    assert tokens[n..] == [];
    d := Done(err, calls);
  }
}
