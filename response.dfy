/**
 * Writing a plain message as the identity server's JSON response
 * (internal/id/api/response/response.go, internal/shared/rwjson/rwjson.go).
 */
module Response {
  import opened Wrappers
  import opened Errors
  import opened Text

  /** The two body shapes: `{"error": …}` and `{"success": …}`. */
  datatype Body = ErrorBody(error: string) | SuccessBody(success: string)

  /** What the message's text is, whichever shape carries it. */
  function BodyText(b: Body): string {
    match b
    case ErrorBody(t) => t
    case SuccessBody(t) => t
  }

  /** makeMessage as written: its error condition asks for a status both below 200 and from 300 up. */
  function MakeMessageAsWritten(statusCode: int, rawMessage: string): Body {
    if statusCode < 200 && statusCode >= 300 then ErrorBody(rawMessage) else SuccessBody(rawMessage)
  }

  /** As written, every status gets the success shape, a 404 as much as a 200. */
  lemma MakeMessageAsWrittenAlwaysSucceeds(statusCode: int, rawMessage: string)
    ensures MakeMessageAsWritten(statusCode, rawMessage) == SuccessBody(rawMessage)
    ensures MakeMessageAsWritten(404, rawMessage).SuccessBody?
  {
  }

  /** makeMessage as intended: the error shape exactly for statuses outside 2xx; the text is copied verbatim. */
  function MakeMessage(statusCode: int, rawMessage: string): (b: Body)
    ensures b.ErrorBody? <==> !(200 <= statusCode < 300)
    ensures BodyText(b) == rawMessage
  {
    if statusCode < 200 || statusCode >= 300 then ErrorBody(rawMessage) else SuccessBody(rawMessage)
  }

  /** rwjson.ErrWriting's text. */
  const ErrWritingText: string := "error forming response"
  const InitialMessageText: string := ", initial message was: "

  /**
   * rwjson.WriteJSON's error: nil when encoding succeeded, otherwise the encoder's error
   * joined after ErrWriting.
   */
  function WriteJson(encodeErr: Option<Error>): (err: Option<Error>)
    ensures err.None? <==> encodeErr.None?
    ensures err.Some? ==> Is(err.value, WritingFailed) && forall k :: Is(encodeErr.value, k) ==> Is(err.value, k)
  {
    match encodeErr
    case None => None
    case Some(e) => Some(JoinWith(WritingFailed, e))
  }

  /** What the client receives: the header status and body, then the plain-text fallback if encoding failed. */
  datatype Reply = Reply(status: int, body: Body, fallback: Option<string>)

  /** handleWritingError's text: ErrWriting's text, the raw message after it, first letter capitalized. */
  function WritingErrorText(rawMessage: string): (text: string)
    ensures |text| == |ErrWritingText| + |InitialMessageText| + |rawMessage|
    ensures text[0] == 'E' && text[1..|ErrWritingText|] == ErrWritingText[1..]
    ensures text[|ErrWritingText|..] == InitialMessageText + rawMessage
  {
    var t := ErrWritingText + InitialMessageText + rawMessage;
    assert t[0] == 'e';
    assert t[1..] == ErrWritingText[1..] + InitialMessageText + rawMessage;
    var r := Capitalized(t);
    assert r[1..|ErrWritingText|] == t[1..|ErrWritingText|];
    assert r[|ErrWritingText|..] == t[|ErrWritingText|..];
    r
  }

  /**
   * WriteMessage: the body in the shape the status calls for, and only if encoding failed,
   * the fallback text, sent with the same status.
   */
  function WriteMessage(statusCode: int, rawMessage: string, encodeErr: Option<Error>): (reply: Reply)
    ensures reply.status == statusCode && reply.body == MakeMessage(statusCode, rawMessage)
    ensures reply.fallback.None? <==> encodeErr.None?
    ensures reply.fallback.Some? ==> reply.fallback.value == WritingErrorText(rawMessage)
  {
    var err := WriteJson(encodeErr);
    Reply(statusCode, MakeMessage(statusCode, rawMessage), if err.Some? then Some(WritingErrorText(rawMessage)) else None)
  }
}
