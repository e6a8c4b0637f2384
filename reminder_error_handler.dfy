/**
 * handleResponseErrors of the reminder server (internal/reminder/api/errorhandling.go).
 * Unlike the identity server it never sets an internal code: a 422 carries its code only
 * in the body.
 */
module ReminderErrorHandler {
  import opened Wrappers
  import opened Errors
  import opened HttpResults

  const StatusInvalidUUID: int := 1004
  const StatusInvalidOption: int := 1005
  const StatusInvalidQueryData: int := 1006
  const StatusUUIDIsReserved: int := 3003
  const StatusItemNotFound: int := 4001
  const StatusStorageNotFound: int := 4002
  const StatusStorageNameAlreadyExists: int := 4003
  const StatusDeletingNotAllowed: int := 4004

  /** 422 with a code in the body only, and the sentinel's text. */
  function Unprocessable(code: int, k: Kind): Outcome {
    Outcome(ErrorType, StatusUnprocessableEntity, 0, SentinelMessage(code, k), true)
  }

  /**
   * The checks in the order handleResponseErrors in errorhandling.go makes them, the first
   * that holds deciding; each `errors.Is` asks about `ks`, the values in the error's tree.
   */
  function Decide(ks: set<Kind>): Outcome {
    if HttpTimeout in ks || DeadlineExceeded in ks then Plain(StatusRequestTimeout)
    else if HttpCanceled in ks || ContextCanceled in ks then Silent(ErrorType, StatusClientClosedRequest)
    else if HttpUnauthorized in ks || TknUnauthorized in ks then Plain(StatusUnauthorized)
    else if InvalidMethod in ks then Unprocessable(StatusUnexistingHTTPMethod, InvalidMethod)
    else if MethodNotAllowed in ks then Plain(StatusMethodNotAllowed)
    else if InvalidBody in ks then Unprocessable(StatusInvalidJSONBody, InvalidBody)
    else if MissingParam in ks then Unprocessable(StatusMissingParameter, MissingParam)
    else if MissingRequiredField in ks then Unprocessable(StatusMissingParameter, MissingRequiredField)
    else if OptionNotExists in ks then Unprocessable(StatusInvalidOption, OptionNotExists)
    else if InvalidQuery in ks then Unprocessable(StatusInvalidQueryData, InvalidQuery)
    else if InvalidTimeFormat in ks then
      Outcome(ErrorType, StatusUnprocessableEntity, 0, WholeErrorMessage(StatusInvalidJSONBody), true)
    else if InvalidUuid in ks then Unprocessable(StatusInvalidUUID, InvalidUuid)
    else if InvalidUuidInBody in ks then Unprocessable(StatusInvalidUUID, InvalidUuidInBody)
    else if NewUuidNotUnique in ks then Unprocessable(StatusUUIDIsReserved, NewUuidNotUnique)
    else if StorageNotExists in ks then Unprocessable(StatusStorageNotFound, StorageNotExists)
    else if ItemNotExists in ks then Unprocessable(StatusItemNotFound, ItemNotExists)
    else if StorageNameNotUnique in ks then Unprocessable(StatusStorageNameAlreadyExists, StorageNameNotUnique)
    else if DeletingNotAllowed in ks then Unprocessable(StatusDeletingNotAllowed, DeletingNotAllowed)
    else Plain(StatusInternalServerError)
  }

  /** The result builder chain for an error; nil has its own result with nothing written. */
  function HandleResponseErrors(err: Option<Error>): (r: RequestingResult)
    ensures err.None? ==> r == NilResult && ResponseCodes(r) == (StatusOK, 0)
    ensures err.Some? ==> r.err == err
  {
    match err
    case None => NilResult
    case Some(e) => Apply(Decide(Kinds(e)), e)
  }

  /** The codes a 422 body of the reminder server may carry. */
  predicate BodyCode(c: int) {
    (StatusInvalidJSONBody <= c <= StatusInvalidQueryData) || c == StatusUUIDIsReserved
    || (StatusItemNotFound <= c <= StatusDeletingNotAllowed)
  }

  /**
   * Any error gets one of six statuses; the internal code is always 0, so the metrics
   * see 0; a 422, and only a 422, has a body, whose code is one of the server's own.
   */
  lemma ErrorResultShape(e: Error)
    ensures var r := HandleResponseErrors(Some(e));
      r.statusCode in {StatusUnauthorized, StatusMethodNotAllowed, StatusRequestTimeout, StatusUnprocessableEntity,
                       StatusClientClosedRequest, StatusInternalServerError}
      && r.internalErrorCode == 0 && r.resultType == ErrorType
      && ResponseCodes(r).1 == 0
      && (r.statusCode == StatusUnprocessableEntity <==> r.responseMsg.Some?)
      && (r.statusCode == StatusUnprocessableEntity ==>
            r.shouldResponse && r.responseMsg.value.ErrorMessage? && BodyCode(r.responseMsg.value.statusCode))
      && (!r.shouldResponse <==> r.statusCode == StatusClientClosedRequest)
  {
  }

  /** An httpmux timeout or a passed context deadline is 408, whatever else the error holds. */
  lemma TimeoutIs408(e: Error)
    requires Is(e, HttpTimeout) || Is(e, DeadlineExceeded)
    ensures var r := HandleResponseErrors(Some(e));
      r.statusCode == StatusRequestTimeout && r.shouldResponse && r.responseMsg.None?
  {
    KindsOfTree(e);
  }

  /** A cancellation, of the request or of the context, that is not a timeout is 499 with nothing written. */
  lemma CanceledIs499(e: Error)
    requires !Is(e, HttpTimeout) && !Is(e, DeadlineExceeded)
    requires Is(e, HttpCanceled) || Is(e, ContextCanceled)
    ensures var r := HandleResponseErrors(Some(e));
      r.statusCode == StatusClientClosedRequest && !r.shouldResponse && ResponseCodes(r) == (StatusOK, 0)
  {
    KindsOfTree(e);
  }

  /** Each input or domain sentinel and the code its body carries. */
  const BodySentinels: map<Kind, int> := map[
    InvalidMethod := StatusUnexistingHTTPMethod,
    InvalidBody := StatusInvalidJSONBody,
    MissingParam := StatusMissingParameter,
    MissingRequiredField := StatusMissingParameter,
    OptionNotExists := StatusInvalidOption,
    InvalidQuery := StatusInvalidQueryData,
    InvalidUuid := StatusInvalidUUID,
    InvalidUuidInBody := StatusInvalidUUID,
    NewUuidNotUnique := StatusUUIDIsReserved,
    StorageNotExists := StatusStorageNotFound,
    ItemNotExists := StatusItemNotFound,
    StorageNameNotUnique := StatusStorageNameAlreadyExists,
    DeletingNotAllowed := StatusDeletingNotAllowed
  ]

  /** A bare input or domain sentinel is 422 with its own code and text in the body. */
  lemma BodySentinelCode(k: Kind)
    requires k in BodySentinels
    ensures Decide({k}) == Unprocessable(BodySentinels[k], k)
  {
  }

  /** An unparseable time is 422 with code 1001 and the whole error's text, context included. */
  lemma InvalidTimeFormatText(context: string)
    ensures var e := Wrapped(context, Leaf(InvalidTimeFormat));
      HandleResponseErrors(Some(e)).responseMsg == Some(ErrorMessage(StatusInvalidJSONBody, WholeErrorText(e)))
  {
    var e := Wrapped(context, Leaf(InvalidTimeFormat));
    assert Kinds(e) == {InvalidTimeFormat};
  }

  /** A storage that does not exist is reported before an item that does not exist. */
  lemma EarlierCheckDecides()
    ensures Decide({ItemNotExists, StorageNotExists}) == Unprocessable(StatusStorageNotFound, StorageNotExists)
  {
  }

  /** An error no check recognises is 500 with a response and no body. */
  lemma UnrecognisedIs500(ks: set<Kind>)
    requires forall k :: k in ks ==> k !in BodySentinels && k != InvalidTimeFormat
    requires forall k :: k in ks ==> k !in {HttpTimeout, DeadlineExceeded, HttpCanceled, ContextCanceled}
    requires forall k :: k in ks ==> k !in {HttpUnauthorized, TknUnauthorized, MethodNotAllowed}
    ensures Decide(ks) == Plain(StatusInternalServerError)
  {
  }
}
