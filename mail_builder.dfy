/**
 * Assembling an email message (internal/id/mailing/mailbuilder/emailbuilder.go) and
 * picking a translation (internal/id/mailing/mailbuilder/languages.go). HTML template
 * execution is a parameter: its rendered bytes or its error.
 */
module MailBuilder {
  import opened Wrappers
  import opened Errors
  import opened Text

  const ErrFailedExecuteTemplate: Error := E(FailedExecuteTemplate)
  const ErrMissingDefaultLocale: Error := E(MissingDefaultLocale)

  /** The locale used when the requested one has no entry. */
  const DefaultLocale: string := "en"

  const ContentTypeLine: string := "\r\nContent-Type: text/html; charset=\"UTF-8\""
  const BlankLine: string := "\r\n\r\n"
  const ContentTypeHeader: string := ContentTypeLine + BlankLine

  /** A growing byte buffer, as `bytes.Buffer` is used here: only ever appended to. */
  class Buffer {
    var data: seq<Byte>

    constructor()
      ensures data == []
    {
      data := [];
    }

    /** WriteString: the string's UTF-8 bytes go at the end. */
    method WriteString(s: string)
      modifies this
      ensures data == old(data) + Utf8(s)
    {
      data := data + Utf8(s);
    }

    /** ReadFrom another buffer: its bytes go at the end, unchanged. */
    method ReadFrom(body: seq<Byte>)
      modifies this
      ensures data == old(data) + body
    {
      data := data + body;
    }
  }

  const ToPrefix: string := "To: "
  const SubjectPrefix: string := "\r\nSubject: "

  /** The bytes buildEmailMessage writes before the body, piece by piece. */
  function HeaderBytes(recipient: string, subject: string): seq<Byte> {
    Utf8(ToPrefix) + Utf8(recipient) + Utf8(SubjectPrefix) + Utf8(subject) + Utf8(ContentTypeHeader)
  }

  /**
   * buildEmailMessage: the header, then the body bytes verbatim. Reading from an in-memory
   * buffer cannot fail, so the error is always nil.
   */
  method BuildEmailMessage(recipient: string, subject: string, body: seq<Byte>) returns (msg: seq<Byte>, err: Option<Error>)
    ensures msg == HeaderBytes(recipient, subject) + body
    ensures msg[..|Utf8(ToPrefix) + Utf8(recipient)|] == Utf8(ToPrefix) + Utf8(recipient)
    ensures msg[|msg| - |body|..] == body
    ensures err.None?
  {
    msg := Assemble(ToPrefix, recipient, SubjectPrefix, subject, ContentTypeHeader, body);
    err := None;
    PiecesLayout(Utf8(ToPrefix), Utf8(recipient), Utf8(SubjectPrefix), Utf8(subject), Utf8(ContentTypeHeader), body);
  }

  /** The writes of buildEmailMessage, in order, into a new buffer. */
  method Assemble(to: string, recipient: string, subjectLine: string, subject: string, contentType: string, body: seq<Byte>)
    returns (msg: seq<Byte>)
    ensures msg == Utf8(to) + Utf8(recipient) + Utf8(subjectLine) + Utf8(subject) + Utf8(contentType) + body
  {
    var buffer := new Buffer();
    buffer.WriteString(to);
    assert buffer.data == Utf8(to);
    buffer.WriteString(recipient);
    buffer.WriteString(subjectLine);
    buffer.WriteString(subject);
    buffer.WriteString(contentType);
    buffer.ReadFrom(body);
    msg := buffer.data;
  }

  lemma PiecesLayout<T>(a: seq<T>, b: seq<T>, c: seq<T>, d: seq<T>, e: seq<T>, body: seq<T>)
    ensures var m := a + b + c + d + e + body;
      m[..|a + b|] == a + b && m[|m| - |body|..] == body
  {
    var m := a + b + c + d + e + body;
    assert m == (a + b) + (c + d + e + body);
    assert m == (a + b + c + d + e) + body;
  }

  /** The header block is the whole header text, encoded. */
  lemma {:induction false} HeaderIsText(recipient: string, subject: string)
    ensures HeaderBytes(recipient, subject) == Utf8(ToPrefix + recipient + SubjectPrefix + subject + ContentTypeHeader)
  {
    Utf8Append(ToPrefix, recipient);
    Utf8Append(ToPrefix + recipient, SubjectPrefix);
    Utf8Append(ToPrefix + recipient + SubjectPrefix, subject);
    Utf8Append(ToPrefix + recipient + SubjectPrefix + subject, ContentTypeHeader);
  }

  /** The content-type line closes the header with an empty line: its last four bytes are CR LF CR LF. */
  lemma HeaderEndsWithBlankLine(recipient: string, subject: string)
    ensures var h := HeaderBytes(recipient, subject);
      |h| >= 4 && h[|h| - 4..] == [13, 10, 13, 10]
  {
    EndsWithBlankLine(Utf8(ToPrefix) + Utf8(recipient) + Utf8(SubjectPrefix) + Utf8(subject), ContentTypeLine);
  }

  lemma EndsWithBlankLine(front: seq<Byte>, line: string)
    ensures var h := front + Utf8(line + BlankLine);
      |h| >= 4 && h[|h| - 4..] == [13, 10, 13, 10]
  {
    Utf8Append(line, BlankLine);
    assert Utf8(BlankLine) == [13, 10, 13, 10];
    assert front + Utf8(line + BlankLine) == (front + Utf8(line)) + [13, 10, 13, 10];
  }

  /** The message length is the header length plus the body length, in bytes. */
  lemma MessageLength(recipient: string, subject: string, body: seq<Byte>)
    ensures |HeaderBytes(recipient, subject) + body|
      == ByteLen(ToPrefix + recipient + SubjectPrefix + subject + ContentTypeHeader) + |body|
  {
    HeaderIsText(recipient, subject);
  }

  /** messageBody: a failed template execution is reported as ErrFailedExecuteTemplate, joined with the cause. */
  function MessageBody(executed: Result<seq<Byte>>): (r: Result<seq<Byte>>)
    ensures executed.Ok? ==> r == executed
    ensures executed.Fail? ==> r == Fail(JoinWith(FailedExecuteTemplate, executed.err))
  {
    match executed
    case Ok(bytes) => Ok(bytes)
    case Fail(err) => Fail(JoinWith(FailedExecuteTemplate, err))
  }

  /** makeEmailFromTemplate: a template error aborts and no message is built. */
  method MakeEmailFromTemplate(recipient: string, subject: string, executed: Result<seq<Byte>>) returns (r: Result<seq<Byte>>)
    ensures executed.Fail? ==> r == Fail(JoinWith(FailedExecuteTemplate, executed.err))
    ensures executed.Ok? ==> r == Ok(HeaderBytes(recipient, subject) + executed.value)
  {
    var body := MessageBody(executed);
    if body.Fail? {
      return Fail(body.err);
    }
    var msg, err := BuildEmailMessage(recipient, subject, body.value);
    return Ok(msg);
  }

  /** requestedOrDefaultValue: the requested locale's entry, else the English one, else an error. */
  function RequestedOrDefaultValue(translations: map<string, string>, language: string): (r: Result<string>)
    ensures language in translations ==> r == Ok(translations[language])
    ensures language !in translations && DefaultLocale in translations ==> r == Ok(translations[DefaultLocale])
    ensures r.Fail? <==> language !in translations && DefaultLocale !in translations
    ensures r.Fail? ==> r.err == ErrMissingDefaultLocale
  {
    if language in translations then Ok(translations[language])
    else if DefaultLocale in translations then Ok(translations[DefaultLocale])
    else Fail(ErrMissingDefaultLocale)
  }
}
