/**
 * Sending "items are expiring" pushes (internal/reminder/apn/sendingservice.go): one
 * notification per device, an attempt counter per outcome, and inactive tokens kept for
 * later deletion.
 */
module ApnSender {
  import opened Wrappers
  import opened Errors
  import opened Text
  import opened Rfc3339
  import opened ApnToken

  const HoursToExpire: int := 25
  const TitleKey: string := "PUSH_EXPIRING_APN_TITLE"
  const BodyKey: string := "PUSH_EXPIRING_APN_BODY"
  const CollapseId: string := "items_expiring"
  const Priority: int := 10
  const WorkersCount: int := 20
  const PushTimeout: int := 10 * 1_000_000_000

  /** One row of the notifications query: a device, how many items expire soon, and the first to expire. */
  datatype NotificationData = NotificationData(deviceToken: string, expiringSoonItemsCount: int, closestExpiringItemName: string)

  datatype PushType = Alert | Background

  datatype Notification = Notification(
    collapseId: string, deviceToken: string, topic: string, expiration: Instant,
    priority: int, payload: string, pushType: PushType)

  /** What `PushWithContext` gave: a response without a transport error, or an error (maybe with a response). */
  datatype PushResult = Answered(resp: Response) | Failed(err: Error, partial: Option<Response>)

  /** One push: the notification and the deadline of its context. */
  datatype PushCall = PushCall(notification: Notification, deadline: Instant)

  /** The text of the payload before the item name, between the name and the count, and after the count. */
  const PayloadHead: string := "{\"aps\":{\"alert\":{\"title-loc-key\":\"" + TitleKey + "\",\"title-loc-args\":[\""
  const PayloadMiddle: string := "\"],\"loc-key\":\"" + BodyKey + "\",\"loc-args\":[\""
  const PayloadTail: string := "\"]}},\"sound\": \"default\"}"

  /** The payload format filled in with the title key, the item name, the body key and the count. */
  function Payload(itemName: string, count: int): string {
    PayloadHead + itemName + PayloadMiddle + Itoa(count) + PayloadTail
  }

  /**
   * The payload's title argument is the item name and its body argument reads back as the
   * count, in decimal.
   */
  lemma PayloadArguments(itemName: string, count: int)
    ensures var p := Payload(itemName, count);
      var nameEnd := |PayloadHead| + |itemName|;
      var countStart := nameEnd + |PayloadMiddle|;
      |p| == countStart + |Itoa(count)| + |PayloadTail|
      && p[|PayloadHead|..nameEnd] == itemName
      && p[..|PayloadHead|] == PayloadHead
      && p[nameEnd..countStart] == PayloadMiddle
      && ItoaText(p[countStart..|p| - |PayloadTail|]) && ParseInt(p[countStart..|p| - |PayloadTail|]) == count
      && p[|p| - |PayloadTail|..] == PayloadTail
  {
    ConcatSlices(PayloadHead, itemName, PayloadMiddle, Itoa(count), PayloadTail);
    ItoaRoundTrip(count);
  }

  lemma ConcatSlices(a: string, b: string, c: string, d: string, e: string)
    ensures var p := a + b + c + d + e;
      |p| == |a| + |b| + |c| + |d| + |e|
      && p[..|a|] == a && p[|a|..|a| + |b|] == b && p[|a| + |b|..|a| + |b| + |c|] == c
      && p[|a| + |b| + |c|..|p| - |e|] == d && p[|p| - |e|..] == e
  {
  }

  predicate ItoaText(s: string) {
    |s| >= 1 && (s[0] == '-' || IsDigit(s[0])) && forall i :: 1 <= i < |s| ==> IsDigit(s[i])
  }

  /** The notification for one row, sent at `now`. */
  function MakeNotification(bundleId: string, now: Instant, data: NotificationData): (n: Notification)
    ensures n.collapseId == "items_expiring" && n.priority == 10 && n.pushType == Alert
    ensures n.expiration == now + 25 * NanosPerHour
    ensures n.deviceToken == data.deviceToken && n.topic == bundleId
    ensures n.payload == Payload(data.closestExpiringItemName, data.expiringSoonItemsCount)
  {
    Notification(CollapseId, data.deviceToken, bundleId, now + HoursToExpire * NanosPerHour, Priority,
                 Payload(data.closestExpiringItemName, data.expiringSoonItemsCount), Alert)
  }

  /** isSendWithSuccess: no error, and the response says the push was sent. */
  predicate IsSendWithSuccess(result: PushResult) {
    result.Answered? && Sent(result.resp)
  }

  /** The response the push left, if any. */
  function ResponseOf(result: PushResult): Option<Response> {
    match result
    case Answered(resp) => Some(resp)
    case Failed(_, partial) => partial
  }

  /** Whether notify stores the device token as inactive. */
  predicate StoresInactiveToken(result: PushResult) {
    !IsSendWithSuccess(result) && IsTokenInactive(ResponseOf(result))
  }

  /** A stored token always comes from a failed push; a sent push never stores one. */
  lemma StoredTokensCameFromFailures(result: PushResult)
    ensures StoresInactiveToken(result) ==> !IsSendWithSuccess(result)
    ensures IsSendWithSuccess(result) ==> !StoresInactiveToken(result)
    ensures result.Answered? && result.resp.statusCode == 410 ==> StoresInactiveToken(result)
    ensures result.Failed? && result.partial.None? ==> !StoresInactiveToken(result)
  {
  }

  /** The service's observable state: the pushes made, the counters, and the tokens stored as inactive. */
  class SenderService {
    const bundleId: string
    var pushes: seq<PushCall>
    var successCount: nat
    var failCount: nat
    var inactiveTokens: seq<string>

    constructor (bundleId: string)
      ensures this.bundleId == bundleId
      ensures pushes == [] && successCount == 0 && failCount == 0 && inactiveTokens == []
    {
      this.bundleId := bundleId;
      pushes := [];
      successCount := 0;
      failCount := 0;
      inactiveTokens := [];
    }

    /** An attempt counter changes by exactly one per notify. */
    function Attempts(): nat
      reads this
    {
      successCount + failCount
    }

    /** notify: one push, one counter increment, and the token stored when it is known to be dead. */
    method Notify(now: Instant, deadline: Instant, data: NotificationData, push: PushCall -> PushResult)
      modifies this
      ensures var call := PushCall(MakeNotification(bundleId, now, data), deadline);
        pushes == old(pushes) + [call]
        && (IsSendWithSuccess(push(call)) ==> successCount == old(successCount) + 1 && failCount == old(failCount))
        && (!IsSendWithSuccess(push(call)) ==> failCount == old(failCount) + 1 && successCount == old(successCount))
        && inactiveTokens == old(inactiveTokens) + (if StoresInactiveToken(push(call)) then [data.deviceToken] else [])
      ensures Attempts() == old(Attempts()) + 1
    {
      var notification := MakeNotification(bundleId, now, data);
      var call := PushCall(notification, deadline);
      pushes := pushes + [call];
      var result := push(call);
      var isSuccess := IsSendWithSuccess(result);
      if !isSuccess && IsTokenInactive(ResponseOf(result)) {
        inactiveTokens := inactiveTokens + [data.deviceToken];
      }
      if isSuccess {
        successCount := successCount + 1;
      } else {
        failCount := failCount + 1;
      }
    }

    /**
     * notifyAll, with its workers run one after another: every row read before the context
     * ends is notified, and the result is the context's error or the "finished all job" error.
     * `rowsBeforeDone` is how many rows the workers take before the context ends, if it does.
     * `clock(i)` is the time the worker takes row `i`: its push deadline and its expiry are
     * counted from there.
     */
    method NotifyAll(clock: nat -> Instant, parentDeadline: Option<Instant>, rows: seq<NotificationData>,
                     ctxError: Option<Error>, rowsBeforeDone: nat, push: PushCall -> PushResult)
      returns (err: Error)
      modifies this
      ensures var n := NotifiedRows(|rows|, ctxError, rowsBeforeDone);
        var calls := PushCalls(bundleId, clock, parentDeadline, rows[..n]);
        pushes == old(pushes) + calls
        && successCount == old(successCount) + Successes(calls, push)
        && failCount == old(failCount) + (n - Successes(calls, push))
        && inactiveTokens == old(inactiveTokens) + DeadTokens(calls, push)
      ensures Attempts() == old(Attempts()) + NotifiedRows(|rows|, ctxError, rowsBeforeDone)
      ensures err == FinishError(ctxError)
    {
      var n := NotifiedRows(|rows|, ctxError, rowsBeforeDone);
      ghost var calls := PushCalls(bundleId, clock, parentDeadline, rows[..n]);
      ghost var pushes0, successes0, failures0, tokens0 := pushes, successCount, failCount, inactiveTokens;
      var i := 0;
      while i < n
        invariant 0 <= i <= n
        invariant TalliedAfter(calls, i, push, (pushes0, successes0, failures0, tokens0),
                               (pushes, successCount, failCount, inactiveTokens))
      {
        ghost var before := (pushes, successCount, failCount, inactiveTokens);
        Notify(clock(i), PushDeadline(clock(i), parentDeadline), rows[i], push);
        Tally(calls, i, push, (pushes0, successes0, failures0, tokens0), before,
              (pushes, successCount, failCount, inactiveTokens));
        i := i + 1;
      }
      assert calls[..n] == calls;
      err := FinishError(ctxError);
    }
  }

  /**
   * The pushes notify makes for `rows`, in order: row `i` is sent at `clock(i)`, under the
   * deadline runWorker's timeout gives from then.
   */
  function PushCalls(bundleId: string, clock: nat -> Instant, parentDeadline: Option<Instant>,
                     rows: seq<NotificationData>): (calls: seq<PushCall>)
    ensures |calls| == |rows|
    ensures forall i :: 0 <= i < |rows| ==>
      calls[i].notification == MakeNotification(bundleId, clock(i), rows[i])
      && calls[i].deadline == PushDeadline(clock(i), parentDeadline)
  {
    seq(|rows|, i requires 0 <= i < |rows| =>
      PushCall(MakeNotification(bundleId, clock(i), rows[i]), PushDeadline(clock(i), parentDeadline)))
  }

  /** How many of the pushes succeed. */
  function Successes(calls: seq<PushCall>, push: PushCall -> PushResult): (n: nat)
    ensures n <= |calls|
  {
    if calls == [] then 0
    else Successes(calls[..|calls| - 1], push) + (if IsSendWithSuccess(push(calls[|calls| - 1])) then 1 else 0)
  }

  /** The device tokens stored as inactive by the pushes, in push order. */
  function DeadTokens(calls: seq<PushCall>, push: PushCall -> PushResult): seq<string>
  {
    if calls == [] then []
    else
      var last := calls[|calls| - 1];
      DeadTokens(calls[..|calls| - 1], push) + (if StoresInactiveToken(push(last)) then [last.notification.deviceToken] else [])
  }

  /** The service's fields: the pushes made, the two counters and the stored tokens. */
  type Fields = (seq<PushCall>, nat, nat, seq<string>)

  /** `now` is `start` after the first `i` of `calls`. */
  predicate TalliedAfter(calls: seq<PushCall>, i: nat, push: PushCall -> PushResult, start: Fields, now: Fields)
    requires i <= |calls|
  {
    now.0 == start.0 + calls[..i]
    && now.1 == start.1 + Successes(calls[..i], push)
    && now.2 == start.2 + (i - Successes(calls[..i], push))
    && now.3 == start.3 + DeadTokens(calls[..i], push)
  }

  /** The state notify leaves after pushing `call`. */
  predicate NotifiedOnce(call: PushCall, push: PushCall -> PushResult, before: Fields, after: Fields) {
    after.0 == before.0 + [call]
    && (IsSendWithSuccess(push(call)) ==> after.1 == before.1 + 1 && after.2 == before.2)
    && (!IsSendWithSuccess(push(call)) ==> after.2 == before.2 + 1 && after.1 == before.1)
    && after.3 == before.3 + (if StoresInactiveToken(push(call)) then [call.notification.deviceToken] else [])
  }

  /** One more notify, of the next call, extends the tallies by that call. */
  lemma Tally(calls: seq<PushCall>, i: nat, push: PushCall -> PushResult, start: Fields, before: Fields, after: Fields)
    requires i < |calls|
    requires TalliedAfter(calls, i, push, start, before)
    requires NotifiedOnce(calls[i], push, before, after)
    ensures TalliedAfter(calls, i + 1, push, start, after)
  {
    assert calls[..i + 1][..i] == calls[..i];
    assert calls[..i + 1] == calls[..i] + [calls[i]];
  }

  /** Every stored token is the device of a failed push that was answered as inactive. */
  lemma {:induction false} DeadTokensFromFailedPushes(calls: seq<PushCall>, push: PushCall -> PushResult)
    ensures |DeadTokens(calls, push)| <= |calls| - Successes(calls, push)
    ensures forall t :: t in DeadTokens(calls, push) ==>
      exists i :: 0 <= i < |calls| && calls[i].notification.deviceToken == t && StoresInactiveToken(push(calls[i]))
  {
    if calls != [] {
      var prefix := calls[..|calls| - 1];
      DeadTokensFromFailedPushes(prefix, push);
      forall t | t in DeadTokens(calls, push)
        ensures exists i :: 0 <= i < |calls| && calls[i].notification.deviceToken == t && StoresInactiveToken(push(calls[i]))
      {
        if t in DeadTokens(prefix, push) {
          var i :| 0 <= i < |prefix| && prefix[i].notification.deviceToken == t && StoresInactiveToken(push(prefix[i]));
          assert calls[i] == prefix[i];
        } else {
          assert calls[|calls| - 1].notification.deviceToken == t;
        }
      }
    }
  }

  /** runWorker's `context.WithTimeout`: ten seconds, or the parent's deadline if sooner. */
  function PushDeadline(now: Instant, parentDeadline: Option<Instant>): (d: Instant)
    ensures d <= now + PushTimeout && (parentDeadline.Some? ==> d <= parentDeadline.value)
  {
    if parentDeadline.Some? && parentDeadline.value < now + PushTimeout then parentDeadline.value else now + PushTimeout
  }

  /** Rows the workers take: all of them, unless the context ends first. */
  function NotifiedRows(count: nat, ctxError: Option<Error>, rowsBeforeDone: nat): (n: nat)
    ensures n <= count
    ensures ctxError.None? ==> n == count
  {
    if ctxError.Some? && rowsBeforeDone < count then rowsBeforeDone else count
  }

  const ErrFinishedAllJob: Error := E(Message("apns sender is shutdown after it finished all job"))

  /** notifyAll's result: the context error if the context ended, otherwise the shutdown error; never nil. */
  function FinishError(ctxError: Option<Error>): (err: Error)
    ensures ctxError.Some? ==> err == ctxError.value
    ensures ctxError.None? ==> err == ErrFinishedAllJob
  {
    if ctxError.Some? then ctxError.value else ErrFinishedAllJob
  }
}
