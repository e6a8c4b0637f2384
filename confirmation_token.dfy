/** One-time confirmation tokens (internal/id/usr/confirmationtoken.go, internal/id/usr/tokenerrors.go). */
module ConfirmationTokens {
  import opened Errors
  import opened Text
  import opened Rfc3339

  datatype ConfirmationToken = ConfirmationToken(value: string, expirationTime: Instant, isUsed: bool)

  /** Random bytes drawn for a token. */
  const TokenLength: nat := 128

  const ErrTokenAlreadyUsed: Error := E(InvalidToken("it has already been used"))
  const ErrTokenExpired: Error := E(InvalidToken("expired"))
  /** The zero `InvalidTokenError{}`. */
  const ErrInvalidToken: Error := E(InvalidToken(""))

  /**
   * InvalidityReason: why a token was refused. A used token is reported as used even when
   * it has also expired; an unused token past its expiration as expired; anything else
   * as a plain invalid token. The result is never nil.
   */
  function InvalidityReason(t: ConfirmationToken, now: Instant): (e: Error)
    ensures t.isUsed ==> e == ErrTokenAlreadyUsed
    ensures !t.isUsed && now > t.expirationTime ==> e == ErrTokenExpired
    ensures !t.isUsed && now <= t.expirationTime ==> e == ErrInvalidToken
    ensures AsInvalidToken(e)
  {
    if t.isUsed then ErrTokenAlreadyUsed
    else if now > t.expirationTime then ErrTokenExpired
    else ErrInvalidToken
  }

  /**
   * newConfirmationToken: `drawn` is what `crypto/rand.Read` returned and `encode` is base64
   * URL encoding. A failed read is wrapped; otherwise the token is unused and expires
   * `lifetime` after `now`.
   */
  function NewConfirmationToken(now: Instant, lifetime: int, drawn: Result<seq<Byte>>, encode: seq<Byte> -> string)
    : (r: Result<ConfirmationToken>)
    ensures drawn.Fail? ==> r == Fail(Wrapped("unexpected error occurred while making random token", drawn.err))
    ensures drawn.Ok? ==> r == Ok(ConfirmationToken(encode(drawn.value), now + lifetime, false))
  {
    match drawn
    case Fail(err) => Fail(Wrapped("unexpected error occurred while making random token", err))
    case Ok(bytes) => Ok(ConfirmationToken(encode(bytes), now + lifetime, false))
  }

  /** A fresh token is refused only as a plain invalid token until its lifetime has passed. */
  lemma FreshTokenReason(now: Instant, lifetime: int, bytes: seq<Byte>, encode: seq<Byte> -> string, later: Instant)
    requires lifetime >= 0 && now <= later <= now + lifetime
    ensures var t := NewConfirmationToken(now, lifetime, Ok(bytes), encode).value;
      InvalidityReason(t, later) == ErrInvalidToken && InvalidityReason(t, now + lifetime + 1) == ErrTokenExpired
  {
  }
}
