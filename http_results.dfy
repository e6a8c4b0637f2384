/**
 * The outcome of handling a request and how it is written back
 * (internal/shared/httpmux/errorhandling.go, internal/shared/httpmux/statuscodes.go).
 * Both servers classify a handler's error by an ordered chain of checks, each of which
 * builds a result with the builder; the shape of such a result is defined here.
 */
module HttpResults {
  import opened Wrappers
  import opened Errors
  import opened Text

  const StatusOK: int := 200
  const StatusUnauthorized: int := 401
  const StatusMethodNotAllowed: int := 405
  const StatusRequestTimeout: int := 408
  const StatusUnprocessableEntity: int := 422
  const StatusClientClosedRequest: int := 499
  const StatusInternalServerError: int := 500
  const StatusServiceUnavailable: int := 503

  /** The internal codes httpmux itself defines. */
  const StatusInvalidJSONBody: int := 1001
  const StatusUnexistingHTTPMethod: int := 1002
  const StatusMissingParameter: int := 1003

  datatype ResultType = Info | ErrorType

  /** The text of an error message: a sentinel's own text, a password-rule reason, or the whole error's text. */
  datatype MessageText = SentinelText(kind: Kind) | ReasonText(reason: string) | WholeErrorText(err: Error)

  /** The JSON bodies: `{"status_code", "error"}` and `{"status_code", "success_message"}`. */
  datatype ResponseMessage =
    | ErrorMessage(statusCode: int, text: MessageText)
    | SuccessMessage(statusCode: int, success: string)

  datatype RequestingResult = RequestingResult(
    err: Option<Error>,
    statusCode: int,
    internalErrorCode: int,
    responseMsg: Option<ResponseMessage>,
    shouldResponse: bool,
    resultType: ResultType)

  /** What NewRequestingResultBuilder starts from: 200, a response to write, of type Info. */
  const InitialResult: RequestingResult := RequestingResult(None, StatusOK, 0, None, true, Info)

  /** RequestingResultBuilder: each setter changes its own field of the result and nothing else. */
  class RequestingResultBuilder {
    var result: RequestingResult

    constructor()
      ensures result == InitialResult
    {
      result := InitialResult;
    }

    method AddResponseMessage(msg: ResponseMessage)
      modifies this
      ensures result == old(result).(responseMsg := Some(msg))
    {
      result := result.(responseMsg := Some(msg));
    }

    method SetType(t: ResultType)
      modifies this
      ensures result == old(result).(resultType := t)
    {
      result := result.(resultType := t);
    }

    method AddStatusCode(code: int)
      modifies this
      ensures result == old(result).(statusCode := code)
    {
      result := result.(statusCode := code);
    }

    method AddInternalErrorCode(code: int)
      modifies this
      ensures result == old(result).(internalErrorCode := code)
    {
      result := result.(internalErrorCode := code);
    }

    method AddError(err: Error)
      modifies this
      ensures result == old(result).(err := Some(err))
    {
      result := result.(err := Some(err));
    }

    method WithoutResponse()
      modifies this
      ensures result == old(result).(shouldResponse := false)
    {
      result := result.(shouldResponse := false);
    }

    function Build(): RequestingResult
      reads this
    {
      result
    }
  }

  /**
   * responseCodes, the status and internal code the metrics record: a result that writes
   * no response counts as 200 with no internal code.
   */
  function ResponseCodes(r: RequestingResult): (codes: (int, int))
    ensures !r.shouldResponse ==> codes == (StatusOK, 0)
    ensures r.shouldResponse ==> codes == (r.statusCode, r.internalErrorCode)
  {
    if !r.shouldResponse then (StatusOK, 0) else (r.statusCode, r.internalErrorCode)
  }

  /** What AddToRespond puts on the wire. */
  datatype Written =
    | NothingWritten
    | StatusOnly(status: int)
    | Json(status: int, msg: ResponseMessage, fallback: Option<string>)

  const FallbackPrefix: string := "Error writing response. Status code was "

  /**
   * The text writeResponse sends after a failed JSON encoding, as intended: the status
   * code in decimal (a 200 is reported as 500).
   */
  function FallbackText(code: int): (text: string)
    ensures |text| > |FallbackPrefix| && text[..|FallbackPrefix|] == FallbackPrefix
    ensures code >= 0 ==> forall i :: |FallbackPrefix| <= i < |text| ==> IsDigit(text[i])
    ensures var tail := text[|FallbackPrefix|..];
      (tail[0] == '-' || IsDigit(tail[0])) && (forall i :: 1 <= i < |tail| ==> IsDigit(tail[i])) && ParseInt(tail) == code
  {
    ItoaRoundTrip(code);
    var text := FallbackPrefix + Itoa(code);
    assert text[..|FallbackPrefix|] == FallbackPrefix;
    assert text[|FallbackPrefix|..] == Itoa(code);
    text
  }

  /**
   * The same text as written, with `%q` applied to the int code: Go prints a quoted
   * character literal, the character whose code point is the status. Stated for the codes
   * from 174 to 767, all printable letters or symbols, which hold every status this program writes.
   */
  function FallbackTextAsWritten(code: int): (text: string)
    requires 174 <= code <= 767
    ensures |text| == |FallbackPrefix| + 3 && text[..|FallbackPrefix|] == FallbackPrefix
  {
    FallbackPrefix + "'" + [code as char] + "'"
  }

  /** As written, no digit of the status appears, so the text differs from the intended one for every status. */
  lemma FallbackAsWrittenHidesCode(code: int)
    requires 174 <= code <= 767
    ensures forall i :: |FallbackPrefix| <= i < |FallbackTextAsWritten(code)| ==> !IsDigit(FallbackTextAsWritten(code)[i])
    ensures FallbackTextAsWritten(code) != FallbackText(code)
  {
    var t := FallbackTextAsWritten(code);
    assert t[|FallbackPrefix|..] == "'" + [code as char] + "'";
    assert !IsDigit(t[|FallbackPrefix|]);
    assert IsDigit(FallbackText(code)[|FallbackPrefix|]);
  }

  /**
   * AddToRespond, given the JSON encoder's result: nothing when no response is wanted, a
   * bare status when there is no message, else the message, followed by the fallback
   * text when encoding failed.
   */
  function AddToRespond(r: RequestingResult, encodeErr: Option<Error>): (w: Written)
    ensures !r.shouldResponse ==> w == NothingWritten
    ensures r.shouldResponse && r.responseMsg.None? ==> w == StatusOnly(r.statusCode)
    ensures r.shouldResponse && r.responseMsg.Some? ==>
      w.Json? && w.status == r.statusCode && w.msg == r.responseMsg.value && (w.fallback.Some? <==> encodeErr.Some?)
    ensures w.Json? && w.fallback.Some? ==>
      w.fallback.value == FallbackText(if r.statusCode == StatusOK then StatusInternalServerError else r.statusCode)
  {
    if !r.shouldResponse then NothingWritten
    else if r.responseMsg.None? then StatusOnly(r.statusCode)
    else
      var code := if r.statusCode == StatusOK then StatusInternalServerError else r.statusCode;
      Json(r.statusCode, r.responseMsg.value, if encodeErr.Some? then Some(FallbackText(code)) else None)
  }

  /** The message an outcome writes, if any. */
  datatype MessageSpec = NoMessage | SentinelMessage(code: int, kind: Kind) | ReasonMessage(code: int) | WholeErrorMessage(code: int)

  /** What a branch of a classifier builds: type, status, internal code (0 for none), message, and whether to respond. */
  datatype Outcome = Outcome(resultType: ResultType, status: int, internalCode: int, message: MessageSpec, respond: bool)

  /** A status with a response and no body of the handler's own. */
  function Plain(status: int): Outcome { Outcome(ErrorType, status, 0, NoMessage, true) }

  /** A status with nothing written. */
  function Silent(t: ResultType, status: int): Outcome { Outcome(t, status, 0, NoMessage, false) }

  /** errors.As for an InsecurePasswordError: the reason of the first one found, depth first. */
  function FirstInsecureReason(e: Error): (r: Option<string>)
    ensures r.Some? <==> AsInsecurePassword(e)
  {
    match e
    case Leaf(k) => if k.InsecurePassword? then Some(k.reason) else None
    case Wrapped(_, inner) => FirstInsecureReason(inner)
    case Joined(a, b) => if FirstInsecureReason(a).Some? then FirstInsecureReason(a) else FirstInsecureReason(b)
  }

  function Message(m: MessageSpec, e: Error): Option<ResponseMessage> {
    match m
    case NoMessage => None
    case SentinelMessage(code, k) => Some(ErrorMessage(code, SentinelText(k)))
    case ReasonMessage(code) => Some(ErrorMessage(code, ReasonText(FirstInsecureReason(e).GetOr(""))))
    case WholeErrorMessage(code) => Some(ErrorMessage(code, WholeErrorText(e)))
  }

  /** The result an outcome builds for an error: the builder's start with the outcome's fields and the error set. */
  function Apply(o: Outcome, e: Error): (r: RequestingResult)
    ensures r.err == Some(e) && r.statusCode == o.status && r.internalErrorCode == o.internalCode
    ensures r.shouldResponse == o.respond && r.resultType == o.resultType
    ensures r.responseMsg == Message(o.message, e)
  {
    RequestingResult(Some(e), o.status, o.internalCode, Message(o.message, e), o.respond, o.resultType)
  }

  /**
   * How the handlers drive the builder for one rule: type, status, then the internal code
   * and message when there are any, then no response when none is wanted, then the error.
   */
  method BuildOutcome(o: Outcome, e: Error) returns (r: RequestingResult)
    ensures r == Apply(o, e)
  {
    var b := new RequestingResultBuilder();
    b.SetType(o.resultType);
    b.AddStatusCode(o.status);
    if o.internalCode != 0 {
      b.AddInternalErrorCode(o.internalCode);
    }
    var msg := Message(o.message, e);
    if msg.Some? {
      b.AddResponseMessage(msg.value);
    }
    if !o.respond {
      b.WithoutResponse();
    }
    b.AddError(e);
    r := b.Build();
  }

  /** The result for a nil error in both servers: 200, type Info, a success message, but nothing written. */
  const NilResult: RequestingResult :=
    RequestingResult(None, StatusOK, 0, Some(SuccessMessage(StatusOK, "successfully completed request")), false, Info)
}
