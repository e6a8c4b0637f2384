/** Classification of push responses (internal/reminder/apn/checktoken.go). */
module ApnToken {
  import opened Wrappers

  const StatusOk: int := 200
  const StatusBadRequest: int := 400
  const StatusGone: int := 410
  const BadDeviceTokenReason: string := "BadDeviceToken"

  /** An APNs response: its HTTP status and the reason Apple gives. */
  datatype Response = Response(statusCode: int, reason: string)

  /** `Response.Sent()`: the push was accepted. */
  predicate Sent(r: Response) {
    r.statusCode == StatusOk
  }

  /** isTokenInactive: the device token will never work again. */
  predicate IsTokenInactive(resp: Option<Response>) {
    resp.Some? &&
      (resp.value.statusCode == StatusGone ||
        (resp.value.statusCode == StatusBadRequest && resp.value.reason == BadDeviceTokenReason))
  }

  /**
   * A missing response is active; 410 is inactive whatever the reason; 400 is inactive only
   * with the reason "BadDeviceToken"; every other status is active.
   */
  lemma IsTokenInactiveCases(resp: Option<Response>)
    ensures resp.None? ==> !IsTokenInactive(resp)
    ensures resp.Some? && resp.value.statusCode == 410 ==> IsTokenInactive(resp)
    ensures resp.Some? && resp.value.statusCode == 400 ==>
      (IsTokenInactive(resp) <==> resp.value.reason == "BadDeviceToken")
    ensures resp.Some? && resp.value.statusCode != 400 && resp.value.statusCode != 410 ==> !IsTokenInactive(resp)
    ensures IsTokenInactive(resp) ==> !Sent(resp.value)
  {
  }
}
