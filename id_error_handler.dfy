/**
 * handleResponseErrors of the identity server (internal/id/api/errorhandler.go): the
 * ordered checks that turn a handler's error into a status, an internal code and a body.
 */
module IdErrorHandler {
  import opened Wrappers
  import opened Errors
  import opened HttpResults

  const StatusEmailAlreadyRegistered: int := 2001
  const StatusWrongLoginData: int := 2002
  const StatusWrongPassword: int := 2003
  const StatusEmailAlreadyConfirmed: int := 2004
  const StatusEmailIsNotConfirmed: int := 2005
  const StatusEmailIsChangedOrNotConfirmed: int := 2006
  const StatusEmailIsNotBelongToAnyUser: int := 2007
  const StatusUserNotFound: int := 2008
  const StatusInvalidEmail: int := 3001
  const StatusInsecurePassword: int := 3002

  /** 422 with the same code as internal code and in the body, and the sentinel's text. */
  function Coded(code: int, k: Kind): Outcome {
    Outcome(ErrorType, StatusUnprocessableEntity, code, SentinelMessage(code, k), true)
  }

  /**
   * The checks in the order handleResponseErrors in errorhandler.go makes them: the position
   * of the first one that holds, or 24 when none does. Each `errors.Is` and `errors.As` asks
   * about `ks`, the values in the error's tree.
   */
  function FirstCheck(ks: set<Kind>): (i: nat)
    ensures i <= 24
  {
    if HttpTimeout in ks then 0
    else if HttpCanceled in ks then 1
    else if TknForbidden in ks then 2
    else if TknUnauthorized in ks || HttpUnauthorized in ks then 3
    else if InvalidMethod in ks then 4
    else if MethodNotAllowed in ks then 5
    else if AlreadyRegistered in ks then 6
    else if WrongLoginData in ks then 7
    else if WrongPassword in ks then 8
    else if IdInvalidBody in ks then 9
    else if IdMissingRequiredField in ks then 10
    else if MissingEmailAddress in ks then 11
    else if UserNotFound in ks then 12
    else if NotConfirmedOrChangedEmail in ks then 13
    else if InvalidEmail in ks then 14
    else if MustConfirmEmail in ks then 15
    else if AnyInsecurePassword(ks) then 16
    else if MissingConfirmToken in ks then 17
    else if EmailAlreadyConfirmed in ks then 18
    else if AnyInvalidToken(ks) then 19
    else if MissingSessionOnLogout in ks then 20
    else if SendingError in ks then 21
    else if AnyUrlMaking(ks) then 22
    else if AnyUnavailable(ks) then 23
    else 24
  }

  /** What the check at position `i` writes; past the last check, a plain 500. */
  function CheckOutcome(i: nat): Outcome {
    match i
    case 0 => Plain(StatusRequestTimeout)
    case 1 => Silent(ErrorType, StatusClientClosedRequest)
    case 2 => Plain(StatusUnauthorized)
    case 3 => Plain(StatusUnauthorized)
    case 4 => Coded(StatusUnexistingHTTPMethod, InvalidMethod)
    case 5 => Plain(StatusMethodNotAllowed)
    case 6 => Coded(StatusEmailAlreadyRegistered, AlreadyRegistered)
    case 7 => Coded(StatusWrongLoginData, WrongLoginData)
    case 8 => Coded(StatusWrongPassword, WrongPassword)
    case 9 => Coded(StatusInvalidJSONBody, IdInvalidBody)
    case 10 => Coded(StatusMissingParameter, IdMissingRequiredField)
    case 11 => Coded(StatusEmailIsNotBelongToAnyUser, MissingEmailAddress)
    case 12 => Coded(StatusUserNotFound, UserNotFound)
    case 13 => Coded(StatusEmailIsChangedOrNotConfirmed, NotConfirmedOrChangedEmail)
    case 14 => Coded(StatusInvalidEmail, InvalidEmail)
    case 15 => Coded(StatusEmailIsNotConfirmed, MustConfirmEmail)
    case 16 =>
      Outcome(ErrorType, StatusUnprocessableEntity, StatusInsecurePassword, ReasonMessage(StatusInsecurePassword), true)
    case 17 => Coded(StatusMissingParameter, MissingConfirmToken)
    case 18 => Coded(StatusEmailAlreadyConfirmed, EmailAlreadyConfirmed)
    case 19 => Plain(StatusUnauthorized)
    case 20 => Silent(Info, StatusUnauthorized)
    case 21 => Silent(ErrorType, StatusInternalServerError)
    case 22 => Silent(ErrorType, StatusInternalServerError)
    case 23 => Silent(ErrorType, StatusServiceUnavailable)
    case _ => Plain(StatusInternalServerError)
  }

  /** The outcome of the first check that holds. */
  function Decide(ks: set<Kind>): Outcome {
    CheckOutcome(FirstCheck(ks))
  }

  /** The result builder chain for an error; nil has its own result with nothing written. */
  function HandleResponseErrors(err: Option<Error>): (r: RequestingResult)
    ensures err.None? ==> r == NilResult && ResponseCodes(r) == (StatusOK, 0)
    ensures err.Some? ==> r.err == err
  {
    match err
    case None => NilResult
    case Some(e) => Apply(Decide(Kinds(e)), e)
  }

  /** Each domain sentinel and the code errorhandler.go gives it. */
  const DomainSentinels: map<Kind, int> := map[
    InvalidMethod := StatusUnexistingHTTPMethod,
    AlreadyRegistered := StatusEmailAlreadyRegistered,
    WrongLoginData := StatusWrongLoginData,
    WrongPassword := StatusWrongPassword,
    IdInvalidBody := StatusInvalidJSONBody,
    IdMissingRequiredField := StatusMissingParameter,
    MissingEmailAddress := StatusEmailIsNotBelongToAnyUser,
    UserNotFound := StatusUserNotFound,
    NotConfirmedOrChangedEmail := StatusEmailIsChangedOrNotConfirmed,
    InvalidEmail := StatusInvalidEmail,
    MustConfirmEmail := StatusEmailIsNotConfirmed,
    MissingConfirmToken := StatusMissingParameter,
    EmailAlreadyConfirmed := StatusEmailAlreadyConfirmed
  ]

  /** The codes the identity server's body and metrics may carry. */
  predicate DomainCode(c: int) {
    c == StatusInvalidJSONBody || c == StatusUnexistingHTTPMethod || c == StatusMissingParameter
    || (StatusEmailAlreadyRegistered <= c <= StatusUserNotFound)
    || c == StatusInvalidEmail || c == StatusInsecurePassword
  }

  /**
   * Any error gets one of seven statuses, and a 422, and only a 422, carries a domain
   * code, both as internal code and in its body; only a 401 on logout is of type Info.
   */
  lemma ErrorResultShape(e: Error)
    ensures var r := HandleResponseErrors(Some(e));
      r.statusCode in {StatusUnauthorized, StatusMethodNotAllowed, StatusRequestTimeout, StatusUnprocessableEntity,
                       StatusClientClosedRequest, StatusInternalServerError, StatusServiceUnavailable}
      && (r.statusCode == StatusUnprocessableEntity <==> r.internalErrorCode != 0)
      && (r.statusCode == StatusUnprocessableEntity ==>
            DomainCode(r.internalErrorCode) && r.shouldResponse && r.resultType == ErrorType
            && r.responseMsg.Some? && r.responseMsg.value.ErrorMessage?
            && r.responseMsg.value.statusCode == r.internalErrorCode)
      && (r.statusCode != StatusUnprocessableEntity ==> r.responseMsg.None?)
      && (r.resultType == Info ==> r.statusCode == StatusUnauthorized && !r.shouldResponse)
  {
  }

  /** A timeout is 408 whatever else the error holds: it is checked first. */
  lemma TimeoutIs408(e: Error)
    requires Is(e, HttpTimeout)
    ensures var r := HandleResponseErrors(Some(e));
      r.statusCode == StatusRequestTimeout && r.shouldResponse && r.responseMsg.None? && r.resultType == ErrorType
  {
    KindsOfTree(e);
  }

  /** A cancellation that is not a timeout is 499 with nothing written. */
  lemma CanceledIs499(e: Error)
    requires !Is(e, HttpTimeout) && Is(e, HttpCanceled)
    ensures var r := HandleResponseErrors(Some(e));
      r.statusCode == StatusClientClosedRequest && !r.shouldResponse && ResponseCodes(r) == (StatusOK, 0)
  {
    KindsOfTree(e);
  }

  /** Forbidden and unauthorized tokens and requests all give 401 with a response. */
  lemma TokenErrorsAre401(e: Error)
    requires !Is(e, HttpTimeout) && !Is(e, HttpCanceled)
    requires Is(e, TknForbidden) || Is(e, TknUnauthorized) || Is(e, HttpUnauthorized)
    ensures var r := HandleResponseErrors(Some(e));
      r.statusCode == StatusUnauthorized && r.shouldResponse && r.resultType == ErrorType
  {
    KindsOfTree(e);
    var ks := Kinds(e);
    assert HttpTimeout !in ks && HttpCanceled !in ks;
    assert TknForbidden in ks || TknUnauthorized in ks || HttpUnauthorized in ks;
    assert FirstCheck(ks) == 2 || FirstCheck(ks) == 3;
    assert Decide(ks) == Plain(StatusUnauthorized);
  }

  /**
   * A bare domain sentinel gets status 422 and its own code, both as internal code and
   * in the body, with the sentinel's text.
   */
  lemma DomainSentinelCode(k: Kind)
    requires k in DomainSentinels
    ensures Decide({k}) == Coded(DomainSentinels[k], k)
  {
  }

  /** An insecure password is 422 with code 3002 and the rule it broke as the body's text. */
  lemma InsecurePasswordReason(reason: string)
    ensures var r := HandleResponseErrors(Some(E(InsecurePassword(reason))));
      r.statusCode == StatusUnprocessableEntity && r.internalErrorCode == StatusInsecurePassword
      && r.responseMsg == Some(ErrorMessage(StatusInsecurePassword, ReasonText(reason)))
  {
    assert InsecurePassword(reason) in Kinds(E(InsecurePassword(reason)));
  }

  /**
   * The first-match rule for an error joining two others: the first check that holds for
   * the join is the earlier of the two parts' first checks, and that part decides.
   */
  lemma FirstMatchDecides(a: Error, b: Error)
    ensures var i, j := FirstCheck(Kinds(a)), FirstCheck(Kinds(b));
      FirstCheck(Kinds(Joined(a, b))) == (if i <= j then i else j)
      && Decide(Kinds(Joined(a, b))) == (if i <= j then Decide(Kinds(a)) else Decide(Kinds(b)))
  {
    var ka, kb := Kinds(a), Kinds(b);
    if FirstCheck(ka) <= FirstCheck(kb) {
      EarlierPartDecides(ka, kb);
    } else {
      EarlierPartDecides(kb, ka);
      assert kb + ka == ka + kb;
    }
  }

  /** Adding values whose first check comes no earlier leaves the first check as it was. */
  lemma EarlierPartDecides(s: set<Kind>, t: set<Kind>)
    requires FirstCheck(s) <= FirstCheck(t)
    ensures FirstCheck(s + t) == FirstCheck(s)
  {
    AnyOfUnion(s, t);
  }

  /** Each `errors.As` check holds for a join exactly when it holds for one of its parts. */
  lemma AnyOfUnion(a: set<Kind>, b: set<Kind>)
    ensures AnyInsecurePassword(a + b) <==> AnyInsecurePassword(a) || AnyInsecurePassword(b)
    ensures AnyInvalidToken(a + b) <==> AnyInvalidToken(a) || AnyInvalidToken(b)
    ensures AnyUrlMaking(a + b) <==> AnyUrlMaking(a) || AnyUrlMaking(b)
    ensures AnyUnavailable(a + b) <==> AnyUnavailable(a) || AnyUnavailable(b)
  {
  }

  /** When an error holds two sentinels, the one checked earlier decides. */
  lemma EarlierCheckDecides(reason: string)
    ensures Decide({MustConfirmEmail, AlreadyRegistered}).internalCode == StatusEmailAlreadyRegistered
    ensures Decide({MissingConfirmToken, InsecurePassword(reason)}).internalCode == StatusInsecurePassword
    ensures Decide({WrongPassword, HttpCanceled}).status == StatusClientClosedRequest
  {
    assert AnyInsecurePassword({MissingConfirmToken, InsecurePassword(reason)}) by {
      assert InsecurePassword(reason) in {MissingConfirmToken, InsecurePassword(reason)};
    }
  }

  /** None of the checks before the server-side failures holds. */
  predicate NoClientError(ks: set<Kind>) {
    var o := Decide(ks);
    o.status != StatusRequestTimeout && o.status != StatusClientClosedRequest && o.status != StatusUnauthorized
    && o.status != StatusUnprocessableEntity && o.status != StatusMethodNotAllowed
  }

  /** Past the client errors, a failed send or URL is 500, an unavailable service 503, neither written. */
  lemma ServerSideFailures(ks: set<Kind>)
    requires NoClientError(ks)
    requires SendingError in ks || AnyUrlMaking(ks) || AnyUnavailable(ks)
    ensures var o := Decide(ks);
      !o.respond && o.resultType == ErrorType
      && o.status == (if SendingError in ks || AnyUrlMaking(ks) then StatusInternalServerError else StatusServiceUnavailable)
  {
  }

  /** An error no check recognises is 500 with a response and no body of its own. */
  lemma UnrecognisedIs500(ks: set<Kind>)
    requires NoClientError(ks) && SendingError !in ks && !AnyUrlMaking(ks) && !AnyUnavailable(ks)
    ensures Decide(ks) == Plain(StatusInternalServerError)
  {
  }
}
