/**
 * The email queue (internal/id/mailing/mailqueue/queue.go): an email and its recipient are
 * wrapped in an envelope, encoded, and published on the "emails" queue.
 */
module MailQueue {
  import opened Wrappers
  import opened Errors
  import opened Text

  const QueueName: string := "emails"

  /** The envelope carried by the queue (mailmsg.Message): the recipient address and the raw email. */
  datatype Envelope = Envelope(recipient: string, email: seq<Byte>)

  /** The three bytes of one character code (every code point is below 2^24, so the first byte is at most 0x10). */
  function CharBytes(c: char): (b: seq<Byte>)
    ensures |b| == 3 && b[0] <= 0x10
  {
    var v := c as int;
    [v / 65536, v / 256 % 256, v % 256]
  }

  function Recipient(s: string): (b: seq<Byte>)
    ensures |b| == 3 * |s|
  {
    if s == [] then [] else CharBytes(s[0]) + Recipient(s[1..])
  }

  /** The byte that ends the recipient: never the first byte of a character. */
  const EndOfRecipient: Byte := 0xFF

  /** The envelope's wire form (standing in for its JSON text): the recipient, an end marker, the email. */
  function Encode(m: Envelope): seq<Byte> {
    Recipient(m.recipient) + [EndOfRecipient] + m.email
  }

  datatype Decoded = Decoded(message: Envelope) | Malformed(err: Error)

  const ErrMalformedEnvelope: Error := E(Kind.Message("malformed email envelope"))

  /** The character of three bytes, if they stand for a Unicode scalar value. */
  function CharOf(b0: Byte, b1: Byte, b2: Byte): Option<char> {
    var v := b0 * 65536 + b1 * 256 + b2;
    if v < 0xD800 || (0xE000 <= v < 0x11_0000) then Some(v as char) else None
  }

  /** Reads the recipient and the email that follows the end marker. */
  function Decode(b: seq<Byte>): (r: Decoded)
    decreases |b|
  {
    if b == [] then Malformed(ErrMalformedEnvelope)
    else if b[0] == EndOfRecipient then Decoded(Envelope("", b[1..]))
    else if |b| < 3 then Malformed(ErrMalformedEnvelope)
    else match CharOf(b[0], b[1], b[2])
      case None => Malformed(ErrMalformedEnvelope)
      case Some(c) =>
        match Decode(b[3..])
        case Malformed(e) => Malformed(e)
        case Decoded(m) => Decoded(Envelope([c] + m.recipient, m.email))
  }

  lemma CharRoundTrip(c: char)
    ensures CharBytes(c)[0] != EndOfRecipient
    ensures CharOf(CharBytes(c)[0], CharBytes(c)[1], CharBytes(c)[2]) == Some(c)
  {
    var v := c as int;
    assert v / 65536 * 65536 + v / 256 % 256 * 256 + v % 256 == v;
  }

  /** Decoding an encoded envelope gives the envelope back: the recipient and email unchanged. */
  lemma {:induction false} DecodeEncode(m: Envelope)
    ensures Decode(Encode(m)) == Decoded(m)
    decreases |m.recipient|
  {
    if m.recipient == [] {
      assert Encode(m) == [EndOfRecipient] + m.email;
    } else {
      var c := m.recipient[0];
      var rest := Envelope(m.recipient[1..], m.email);
      CharRoundTrip(c);
      assert Encode(m) == CharBytes(c) + Encode(rest);
      assert Encode(m)[3..] == Encode(rest);
      DecodeEncode(rest);
      assert [c] + rest.recipient == m.recipient;
    }
  }

  /** What Add did: the error it returned and the payloads it published, in order. */
  datatype AddOutcome = AddOutcome(err: Option<Error>, published: seq<seq<Byte>>)

  /**
   * EmailQueue.Add. `marshalError` is the encoder's failure, if any; `publish` is the
   * publisher's answer for a payload.
   */
  function Add(recipient: string, msg: seq<Byte>, marshalError: Option<Error>,
               publish: seq<Byte> -> Option<Error>): (r: AddOutcome)
    ensures marshalError.Some? ==> r.err == marshalError && r.published == []
    ensures marshalError.None? ==> |r.published| == 1 && r.err == publish(r.published[0])
    ensures marshalError.None? ==> Decode(r.published[0]) == Decoded(Envelope(recipient, msg))
  {
    var emailMessage := Envelope(recipient, msg);
    if marshalError.Some? then AddOutcome(marshalError, [])
    else
      var messageJson := Encode(emailMessage);
      DecodeEncode(emailMessage);
      AddOutcome(publish(messageJson), [messageJson])
  }
}
