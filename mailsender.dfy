/**
 * The email sending worker (internal/id/mailing/mailsender/worker.go): each queued envelope
 * is decoded and handed to the mail client under a two-minute deadline.
 */
module MailSender {
  import opened Wrappers
  import opened Errors
  import opened Text
  import opened Rfc3339
  import MailQueue
  import Consumer

  const SendTimeout: int := 2 * 60 * 1_000_000_000

  /** One call of the mail client: the deadline of its context, the message id and the envelope. */
  datatype SendCall = SendCall(deadline: Instant, messageId: string, message: MailQueue.Envelope)

  datatype SendOutcome = SendOutcome(err: Option<Error>, calls: seq<SendCall>)

  /** `context.WithTimeout`: the sooner of the parent's deadline and now plus the timeout. */
  function Deadline(now: Instant, parentDeadline: Option<Instant>, timeout: int): (d: Instant)
    ensures d <= now + timeout
    ensures parentDeadline.Some? ==> d <= parentDeadline.value
    ensures d == now + timeout || (parentDeadline.Some? && d == parentDeadline.value)
  {
    if parentDeadline.Some? && parentDeadline.value < now + timeout then parentDeadline.value
    else now + timeout
  }

  /**
   * Worker.sendEmail: a malformed body returns the decode error without calling the client;
   * otherwise the client is called once and its error is the result.
   */
  function SendEmail(now: Instant, parentDeadline: Option<Instant>, messageId: string, queueMessage: seq<Byte>,
                     client: SendCall -> Option<Error>): (r: SendOutcome)
    ensures MailQueue.Decode(queueMessage).Malformed? ==>
      r == SendOutcome(Some(MailQueue.Decode(queueMessage).err), [])
    ensures MailQueue.Decode(queueMessage).Decoded? ==>
      |r.calls| == 1 && r.err == client(r.calls[0])
      && r.calls[0].messageId == messageId
      && r.calls[0].message == MailQueue.Decode(queueMessage).message
      && r.calls[0].deadline <= now + SendTimeout
  {
    match MailQueue.Decode(queueMessage)
    case Malformed(err) => SendOutcome(Some(err), [])
    case Decoded(emailMessage) =>
      var call := SendCall(Deadline(now, parentDeadline, SendTimeout), messageId, emailMessage);
      SendOutcome(client(call), [call])
  }

  /** An envelope that Add published reaches the client with the recipient and email it was given. */
  lemma QueuedEmailIsSent(recipient: string, email: seq<Byte>, publish: seq<Byte> -> Option<Error>,
                          now: Instant, messageId: string, client: SendCall -> Option<Error>)
    ensures var added := MailQueue.Add(recipient, email, None, publish);
      var sent := SendEmail(now, None, messageId, added.published[0], client);
      |sent.calls| == 1 && sent.calls[0].message == MailQueue.Envelope(recipient, email)
      && sent.calls[0].deadline == now + SendTimeout
  {
  }

  /**
   * The job DoWork hands to the queue: sendEmail, with its outcome reduced to the error.
   * `clock(k)` is the time the delivery at position `k` is handled and `client(k, _)` the mail
   * server's answer at that time, so a redelivered envelope can get another answer and deadline.
   */
  function Job(clock: nat -> Instant, parentDeadline: Option<Instant>, client: (nat, SendCall) -> Option<Error>)
    : Consumer.Job
  {
    (k: nat, messageId: string, body: seq<Byte>) =>
      SendEmail(clock(k), parentDeadline, messageId, body, (c: SendCall) => client(k, c)).err
  }

  /** Worker.DoWork: runs the consumer with sendEmail as its job. */
  method DoWork(clock: nat -> Instant, parentDeadline: Option<Instant>, client: (nat, SendCall) -> Option<Error>,
                connectError: Option<Error>, events: seq<Consumer.Event>)
    returns (end: Consumer.ConsumeEnd)
    requires Consumer.DistinctDeliveries(events)
    modifies Consumer.Deliveries(events)
    ensures end == Consumer.ConsumeOutcome(connectError, events, Job(clock, parentDeadline, client))
    ensures forall i :: 0 <= i < |events| && events[i].Delivered? ==>
      var m := events[i].msg;
      var jobError := SendEmail(clock(i), parentDeadline, m.messageId, m.body, (c: SendCall) => client(i, c)).err;
      if connectError.None? && i < Consumer.Handled(events, Job(clock, parentDeadline, client)) then
        m.calls == old(m.calls) + Consumer.JobResult(old(m.Table()), jobError).calls
        && m.Table() == Consumer.JobResult(old(m.Table()), jobError).table
      else m.calls == old(m.calls) && m.Table() == old(m.Table())
  {
    var job := Job(clock, parentDeadline, client);
    end := Consumer.Consume(connectError, job, events);
  }
}
