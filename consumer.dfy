/**
 * The mail queue consumer (internal/id/mailing/rabbitmq/consumer.go): each delivery is handed
 * to the job; a failed job is rejected, requeued while its "x-retry-count" header is below 3,
 * and every delivery is then acknowledged. Raising the count writes into the delivery's header
 * table, which panics when the table is nil.
 */
module Consumer {
  import opened Wrappers
  import opened Errors
  import opened Text

  const RetryCountHeader: string := "x-retry-count"
  const MaxRetryCount: int := 3
  const PrefetchCount: int := 1

  type Int32 = v: int | -0x8000_0000 <= v < 0x8000_0000

  /** An AMQP header value: an int32, or a value of any other AMQP type. */
  datatype HeaderValue = Int32Value(value: Int32) | OtherValue

  type Headers = map<string, HeaderValue>

  /**
   * A delivery's header table. `None` is the nil table of a message published without
   * headers, as the mail producer publishes every message: it reads as empty, and writing
   * an entry into it panics.
   */
  type Table = Option<Headers>

  /** The entries a table reads as. */
  function Entries(t: Table): Headers {
    t.GetOr(map[])
  }

  /** What the consumer tells the broker about a delivery. */
  datatype BrokerCall = Reject(requeue: bool) | Ack(multiple: bool)

  /** The retry count a delivery carries; a missing or non-int32 header reads as 0. */
  function RetryCount(h: Headers): (c: Int32)
    ensures RetryCountHeader !in h ==> c == 0
    ensures RetryCountHeader in h && h[RetryCountHeader].OtherValue? ==> c == 0
    ensures RetryCountHeader in h && h[RetryCountHeader].Int32Value? ==> c == h[RetryCountHeader].value
  {
    if RetryCountHeader in h then
      match h[RetryCountHeader]
      case Int32Value(v) => v
      case OtherValue => 0
    else 0
  }

  /** A failed job's reject and the table left behind, or the panic of a write into a nil table. */
  datatype RejectOutcome = Rejected(call: BrokerCall, table: Table) | NilTableWrite

  /**
   * handleRejectOnJobError: below the limit the count is raised by one and the delivery
   * requeued; at the limit nothing changes and it is dropped. A nil table reads count 0, so
   * the raise is always attempted on it, and it panics.
   */
  function Rejection(t: Table): (r: RejectOutcome)
    ensures r.NilTableWrite? <==> t.None?
    ensures r.Rejected? ==> r.call.Reject? && r.table.Some?
    ensures r.Rejected? ==> (r.call.requeue <==> RetryCount(t.value) < MaxRetryCount)
    ensures r.Rejected? && r.call.requeue ==>
      RetryCount(r.table.value) == RetryCount(t.value) + 1
      && r.table.value.Keys == t.value.Keys + {RetryCountHeader}
    ensures r.Rejected? ==>
      forall k :: k in t.value && k != RetryCountHeader ==> k in r.table.value && r.table.value[k] == t.value[k]
    ensures r.Rejected? && !r.call.requeue ==> r.table == t
  {
    var count := RetryCount(Entries(t));
    if count >= MaxRetryCount then Rejected(Reject(false), t)
    else match t
      case None => NilTableWrite
      case Some(h) => Rejected(Reject(true), Some(h[RetryCountHeader := Int32Value(count + 1)]))
  }

  /** The broker calls made for one delivery, its table after them, and whether handling panicked. */
  datatype Handling = Handling(calls: seq<BrokerCall>, table: Table, panicked: bool)

  /** handleJobResult on a delivery with table `t` whose job returned `jobError`. */
  function JobResult(t: Table, jobError: Option<Error>): (r: Handling)
    ensures !r.panicked ==> |r.calls| >= 1 && r.calls[|r.calls| - 1] == Ack(false)
    ensures jobError.None? ==> r == Handling([Ack(false)], t, false)
    ensures jobError.Some? && t.None? ==> r == Handling([], t, true)
    ensures jobError.Some? && t.Some? ==>
      !r.panicked && r.calls == [Rejection(t).call, Ack(false)] && r.table == Rejection(t).table
  {
    if jobError.Some? then
      match Rejection(t)
      case NilTableWrite => Handling([], t, true)
      case Rejected(reject, t') => Handling([reject, Ack(false)], t', false)
    else Handling([Ack(false)], t, false)
  }

  /**
   * A delivery: its id and body, its header table, and the broker calls made on it. The
   * table is nil exactly when `nilTable` holds; `headers` are its entries otherwise.
   */
  class Delivery {
    const messageId: string
    const body: seq<Byte>
    const nilTable: bool
    var headers: Headers
    var calls: seq<BrokerCall>

    constructor (messageId: string, body: seq<Byte>, table: Table)
      ensures this.messageId == messageId && this.body == body
      ensures Table() == table && calls == []
    {
      this.messageId := messageId;
      this.body := body;
      nilTable := table.None?;
      headers := Entries(table);
      calls := [];
    }

    function Table(): Table
      reads this
    {
      if nilTable then None else Some(headers)
    }
  }

  /** handleRejectOnJobError; `panicked` reports the write into a nil table, after which nothing is sent. */
  method HandleRejectOnJobError(msg: Delivery) returns (panicked: bool)
    modifies msg
    ensures var r := Rejection(old(msg.Table()));
      if r.NilTableWrite? then panicked && msg.calls == old(msg.calls) && msg.Table() == old(msg.Table())
      else !panicked && msg.calls == old(msg.calls) + [r.call] && msg.Table() == r.table
  {
    var retryCount := RetryCount(Entries(msg.Table()));
    if retryCount >= MaxRetryCount {
      msg.calls := msg.calls + [Reject(false)];
      return false;
    }
    if msg.nilTable {
      return true;
    }
    msg.headers := msg.headers[RetryCountHeader := Int32Value(retryCount + 1)];
    msg.calls := msg.calls + [Reject(true)];
    return false;
  }

  method HandleAcknowledgment(msg: Delivery)
    modifies msg
    ensures msg.calls == old(msg.calls) + [Ack(false)]
    ensures msg.Table() == old(msg.Table())
  {
    msg.calls := msg.calls + [Ack(false)];
  }

  method HandleJobResult(msg: Delivery, jobError: Option<Error>) returns (panicked: bool)
    modifies msg
    ensures msg.calls == old(msg.calls) + JobResult(old(msg.Table()), jobError).calls
    ensures msg.Table() == JobResult(old(msg.Table()), jobError).table
    ensures panicked == JobResult(old(msg.Table()), jobError).panicked
  {
    panicked := false;
    if jobError.Some? {
      panicked := HandleRejectOnJobError(msg);
      if panicked {
        return;
      }
    }
    HandleAcknowledgment(msg);
  }

  /**
   * As written, the first failed job on a message the mail producer published (one without
   * headers) panics before anything is sent to the broker.
   */
  lemma HeaderlessFailurePanics(jobError: Error)
    ensures JobResult(None, Some(jobError)) == Handling([], None, true)
  {
  }

  /**
   * The evidently intended handling of a nil table: it is created before the count is
   * written, so a header-less failed message is requeued carrying count 1.
   */
  function RejectionCreatingTable(t: Table): (r: RejectOutcome)
    ensures r.Rejected?
    ensures t.None? ==> r == Rejected(Reject(true), Some(map[RetryCountHeader := Int32Value(1)]))
    ensures t.Some? ==> r == Rejection(t)
  {
    Rejection(Some(Entries(t)))
  }

  /** What the consumer receives: a delivery, the end of the stream, or the end of its context. */
  datatype Event =
    | Delivered(msg: Delivery)
    | StreamClosed(reconnectError: Option<Error>)   // the error of connecting and consuming again
    | ContextDone(ctxError: Error)

  /** How consume ends: with an error, with a panic that ends the worker, or still waiting when the events run out. */
  datatype ConsumeEnd = Returned(err: Error) | Panicked | Waiting

  function Deliveries(events: seq<Event>): set<Delivery> {
    set i | 0 <= i < |events| && events[i].Delivered? :: events[i].msg
  }

  predicate DistinctDeliveries(events: seq<Event>) {
    forall i, j :: 0 <= i < j < |events| && events[i].Delivered? && events[j].Delivered? ==>
      events[i].msg != events[j].msg
  }

  /**
   * The job's answer for the delivery at position `k` of the events. The position stands for
   * everything outside the message its answer depends on (the clock, the mail server), so a
   * redelivered message can fail once and succeed the next time.
   */
  type Job = (nat, string, seq<Byte>) -> Option<Error>

  /** The delivery at position `k` panics when handled: its job fails and its table is nil. */
  predicate Crashes(m: Delivery, k: nat, job: Job) {
    m.nilTable && job(k, m.messageId, m.body).Some?
  }

  /** The event at position `k` makes consume return or panic. */
  predicate Stops(e: Event, k: nat, job: Job) {
    (e.StreamClosed? && e.reconnectError.Some?) || e.ContextDone? || (e.Delivered? && Crashes(e.msg, k, job))
  }

  /** The position of the first event from `i` on that stops consume, or `|events|`. */
  function StopFrom(events: seq<Event>, job: Job, i: nat): (n: nat)
    requires i <= |events|
    ensures i <= n <= |events|
    ensures forall k :: i <= k < n ==> !Stops(events[k], k, job)
    ensures n < |events| ==> Stops(events[n], n, job)
    decreases |events| - i
  {
    if i == |events| || Stops(events[i], i, job) then i else StopFrom(events, job, i + 1)
  }

  /** Number of events consume takes in: up to and excluding the one that ends it. */
  function Handled(events: seq<Event>, job: Job): (n: nat)
    ensures n <= |events|
    ensures forall i :: 0 <= i < n ==> !Stops(events[i], i, job)
    ensures n < |events| ==> Stops(events[n], n, job)
  {
    StopFrom(events, job, 0)
  }

  /** The result of consume on the initial connection error and the events that follow. */
  function ConsumeOutcome(connectError: Option<Error>, events: seq<Event>, job: Job): (r: ConsumeEnd)
    ensures connectError.Some? ==> r == Returned(connectError.value)
    ensures connectError.None? && Handled(events, job) == |events| ==> r == Waiting
    ensures connectError.None? && Handled(events, job) < |events| ==>
      var e := events[Handled(events, job)];
      (e.ContextDone? ==> r == Returned(e.ctxError))
      && (e.StreamClosed? ==> e.reconnectError.Some? && r == Returned(e.reconnectError.value))
    ensures r == Panicked <==>
      connectError.None? && Handled(events, job) < |events| && events[Handled(events, job)].Delivered?
  {
    if connectError.Some? then Returned(connectError.value)
    else
      var n := Handled(events, job);
      if n == |events| then Waiting
      else match events[n]
        case StreamClosed(e) => Returned(e.value)
        case ContextDone(e) => Returned(e)
        case Delivered(_) => Panicked
  }

  /** consume never ends with a nil error: it returns one, panics, or keeps waiting. */
  lemma ConsumeNeverReturnsNil(connectError: Option<Error>, events: seq<Event>, job: Job)
    ensures ConsumeOutcome(connectError, events, job).Returned? || ConsumeOutcome(connectError, events, job).Panicked? ||
            (connectError.None? && forall i :: 0 <= i < |events| ==> !Stops(events[i], i, job))
  {
  }

  /**
   * The consume loop: deliveries go to the job in order, a closed stream connects again,
   * and a done context returns its error.
   */
  method Consume(connectError: Option<Error>, job: Job, events: seq<Event>)
    returns (end: ConsumeEnd)
    requires DistinctDeliveries(events)
    modifies Deliveries(events)
    ensures end == ConsumeOutcome(connectError, events, job)
    ensures forall i :: 0 <= i < |events| && events[i].Delivered? ==>
      var m := events[i].msg;
      if connectError.None? && i < Handled(events, job) then
        m.calls == old(m.calls) + JobResult(old(m.Table()), job(i, m.messageId, m.body)).calls
        && m.Table() == JobResult(old(m.Table()), job(i, m.messageId, m.body)).table
      else m.calls == old(m.calls) && m.Table() == old(m.Table())
  {
    if connectError.Some? {
      return Returned(connectError.value);
    }
    var i := 0;
    while i < |events|
      invariant 0 <= i <= |events|
      invariant forall k :: 0 <= k < i ==> !Stops(events[k], k, job)
      invariant forall k :: 0 <= k < |events| && events[k].Delivered? ==>
        var m := events[k].msg;
        if k < i then
          m.calls == old(m.calls) + JobResult(old(m.Table()), job(k, m.messageId, m.body)).calls
          && m.Table() == JobResult(old(m.Table()), job(k, m.messageId, m.body)).table
        else m.calls == old(m.calls) && m.Table() == old(m.Table())
    {
      match events[i] {
        case Delivered(msg) =>
          var jobError := job(i, msg.messageId, msg.body);
          var panicked := HandleJobResult(msg, jobError);
          if panicked {
            return Panicked;
          }
        case StreamClosed(reconnectError) =>
          if reconnectError.Some? {
            return Returned(reconnectError.value);
          }
        case ContextDone(ctxError) =>
          return Returned(ctxError);
      }
      i := i + 1;
    }
    end := Waiting;
  }

  /**
   * Consumer.makeChannel: a channel with a prefetch count of one, or the first error met.
   * consume never reaches it: connecting goes through the client's own makeChannel, which
   * sets no prefetch count.
   */
  datatype ChannelResult = Opened(prefetch: int) | Failed(err: Error)

  function MakeChannel(channelError: Option<Error>, qosError: Option<Error>): (r: ChannelResult)
    ensures r.Opened? <==> channelError.None? && qosError.None?
    ensures r.Opened? ==> r.prefetch == 1
    ensures channelError.Some? ==> r == Failed(channelError.value)
    ensures channelError.None? && qosError.Some? ==> r == Failed(qosError.value)
  {
    if channelError.Some? then Failed(channelError.value)
    else if qosError.Some? then Failed(qosError.value)
    else Opened(PrefetchCount)
  }

  /**
   * What the broker hands out again after a requeue. `basic.reject` carries only the
   * delivery tag and the requeue flag, so the broker redelivers the message with the headers
   * it was published with; the consumer raises the count only in its local copy.
   */
  function RedeliveredHeadersAsWritten(published: Headers, local: Headers): Headers {
    published
  }

  /** The header table of the `n`-th delivery of a message whose job always fails, as written. */
  function NthDeliveryHeadersAsWritten(published: Headers, n: nat): Headers {
    if n == 0 then published
    else
      var prev := NthDeliveryHeadersAsWritten(published, n - 1);
      RedeliveredHeadersAsWritten(published, Rejection(Some(prev)).table.value)
  }

  /**
   * As written, a message whose job always fails and whose count starts below 3 is requeued
   * forever. Every redelivery carries the headers as published, which the definition already
   * gives; the induction is for the second clause, the requeue on every delivery.
   */
  lemma {:induction false} RequeuedForeverAsWritten(published: Headers, n: nat)
    requires RetryCount(published) < MaxRetryCount
    ensures NthDeliveryHeadersAsWritten(published, n) == published
    ensures Rejection(Some(NthDeliveryHeadersAsWritten(published, n))).call == Reject(true)
  {
    if n > 0 {
      RequeuedForeverAsWritten(published, n - 1);
    }
  }

  /** The evidently intended behaviour: the redelivered message carries the raised count. */
  function NthDeliveryHeaders(published: Headers, n: nat): Headers {
    if n == 0 then published else Rejection(Some(NthDeliveryHeaders(published, n - 1))).table.value
  }

  lemma {:induction false} NthDeliveryCount(published: Headers, n: nat)
    requires n <= MaxRetryCount - RetryCount(published)
    ensures RetryCount(NthDeliveryHeaders(published, n)) == RetryCount(published) + n
  {
    if n > 0 {
      NthDeliveryCount(published, n - 1);
    }
  }

  /**
   * With the count carried over, a message whose job always fails is dropped on its
   * (4 - count)-th delivery, so one published with a count of at least 0 is handed to the job
   * at most four times; a negative count means more requeues before the drop.
   */
  lemma DroppedAfterRetries(published: Headers)
    ensures var n := if RetryCount(published) >= MaxRetryCount then 0 else MaxRetryCount - RetryCount(published);
      (0 <= RetryCount(published) ==> n <= MaxRetryCount) &&
      Rejection(Some(NthDeliveryHeaders(published, n))).call == Reject(false) &&
      forall k :: 0 <= k < n ==> Rejection(Some(NthDeliveryHeaders(published, k))).call == Reject(true)
  {
    var c := RetryCount(published);
    if c < MaxRetryCount {
      NthDeliveryCount(published, MaxRetryCount - c);
      forall k | 0 <= k < MaxRetryCount - c
        ensures Rejection(Some(NthDeliveryHeaders(published, k))).call == Reject(true)
      {
        NthDeliveryCount(published, k);
      }
    }
  }
}
