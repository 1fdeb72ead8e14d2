/** The outbound webhook handler, branch by branch. */
module Webhook {
  import opened Lease
  import opened QueueModel
  import opened Payloads
  import opened Handlers
  import opened Backends
  import Deliver

  /** The next retry, or the end of the budget with what it may set off. */
  method FailAttempt(b: Backend, id: nat, p: Payload, raw: Raw, f: Fate, attemptNum: int)
    requires b.Running(DeliveryTask(id), raw)
    modifies b, b.queue
    ensures b.Reached(old(b.run), old(b.trace) + MessageFail(b.site, id, p, f, attemptNum))
  {
    var delay := NextDelay(attemptNum);
    if delay.None? {
      b.Write(DeliveryTask(id), Mark(Dead));
      if !b.site.operational(id) { b.PublishExhausted(id); }
      if b.site.maxFailures > 0 { var _ := b.IncrEndpointFailures(id); }
      b.DeadLetter(raw);
      return;
    }
    var next := f.now + delay.value;
    b.Write(DeliveryTask(id), RetryAt(next));
    b.Schedule(p, next);
    b.Ack(raw);
  }

  /** A failure no retry can mend: recorded, dead, dead-lettered, and not held
      against the endpoint. */
  method Condemn(b: Backend, id: nat, raw: Raw, num: int)
    requires b.Running(DeliveryTask(id), raw)
    modifies b, b.queue
    ensures b.Reached(old(b.run), old(b.trace) + [Record(num), Mark(Dead), Bury])
  {
    b.RecordAttempt(DeliveryTask(id), num);
    b.Write(DeliveryTask(id), Mark(Dead));
    b.DeadLetter(raw);
  }

  method Accepted(b: Backend, id: nat, raw: Raw)
    requires b.Running(DeliveryTask(id), raw)
    modifies b, b.queue
    ensures b.Reached(old(b.run), old(b.trace) + ([Mark(Delivered)] + (if b.site.maxFailures > 0 then [Clear] else []) + [Drop]))
  {
    b.Write(DeliveryTask(id), Mark(Delivered));
    if b.site.maxFailures > 0 { b.ResetEndpointFailures(id); }
    b.Ack(raw);
  }

  /** From MarkDeliveryInFlight to the outcome. */
  method Attempt(b: Backend, id: nat, row: Row, p: Payload, raw: Raw, f: Fate)
    requires b.Running(DeliveryTask(id), raw)
    modifies b, b.queue
    ensures b.Reached(old(b.run), old(b.trace) + MessageSend(b.site, id, row, p, f))
  {
    var t := DeliveryTask(id);
    var num := row.attempts + 1;
    b.Write(t, Start);
    if !f.requestOk {
      FailAttempt(b, id, p, raw, f, num);
      return;
    }
    b.Send(t);
    b.RecordAttempt(t, num);
    if Success(f.reply) {
      Accepted(b, id, raw);
      return;
    }
    FailAttempt(b, id, p, raw, f, num);
  }

  method Gated(b: Backend, id: nat, row: Row, p: Payload, raw: Raw, f: Fate)
    requires b.Running(DeliveryTask(id), raw)
    modifies b, b.queue
    ensures b.Reached(old(b.run), old(b.trace) + MessageGated(b.site, id, row, p, f))
  {
    var num := row.attempts + 1;
    if f.expunged {
      Condemn(b, id, raw, num);
      return;
    }
    if f.filter.FilterError? {
      Condemn(b, id, raw, num);
      return;
    } else if f.filter.Reject? {
      b.Write(DeliveryTask(id), Mark(Filtered));
      b.Ack(raw);
      return;
    }
    if f.transformFails {
      Condemn(b, id, raw, num);
      return;
    }
    if f.rateLimited.Some? {
      var delay := f.rateLimited.value;
      if delay <= 0 { delay := 100; }
      Deliver.Postpone(b, p, raw, f, delay);
      return;
    }
    if !f.urlOk {
      Condemn(b, id, raw, num);
      return;
    }
    if !f.signOk {
      Condemn(b, id, raw, num);
      return;
    }
    Attempt(b, id, row, p, raw, f);
  }

  /** The per-org gate, shared with inbound deliveries. */
  method Admit(b: Backend, id: nat, row: Row, p: Payload, raw: Raw, f: Fate)
    requires b.Running(DeliveryTask(id), raw)
    modifies b, b.queue
    ensures b.Reached(old(b.run), old(b.trace) + OrgGate(b.site, p, f, MessageGated(b.site, id, row, p, f)))
  {
    if b.site.perOrgMax > 0 && f.orgReply.Some? {
      b.Count(OrgSlot, true);
      if f.orgReply.value > b.site.perOrgMax {
        b.Count(OrgSlot, false);
        Deliver.Postpone(b, p, raw, f, 500);
        Around(old(b.trace), OrgSlot, Deferral(p, f, 500));
        return;
      }
      Gated(b, id, row, p, raw, f);
      b.Count(OrgSlot, false);
      Around(old(b.trace), OrgSlot, MessageGated(b.site, id, row, p, f));
      return;
    }
    Gated(b, id, row, p, raw, f);
  }

  method Dispatch(b: Backend, p: Payload, raw: Raw, f: Fate)
    requires b.Running(TaskOf(p), raw) && p.kind.Message?
    modifies b, b.queue
    ensures b.Reached(old(b.run), old(b.trace) + Plan(b.site, old(b.rows), p, f))
  {
    if p.data.None? {
      b.DeadLetter(raw);
      return;
    }
    var id := p.data.value;
    var t := DeliveryTask(id);
    if t !in b.rows {
      b.Ack(raw);
      return;
    }
    var row := b.rows[t];
    match row.status {
      case Delivered | Dead | Disabled | Filtered =>
        b.Ack(raw);
        return;
      case _ =>
    }
    if f.disabled {
      b.Write(t, Mark(Disabled));
      b.Ack(raw);
      return;
    }
    Admit(b, id, row, p, raw, f);
  }

  /** One run does its plan, and so changes the world exactly as the plan says. */
  method Process(b: Backend, p: Payload, raw: Raw, f: Fate)
    requires b.queue.codec == b.site.codec && p.kind.Message?
    modifies b, b.queue
    ensures b.Now() == PerformAll(b.site, old(b.Now()), TaskOf(p), raw, Plan(b.site, old(b.rows), p, f))
  {
    b.Begin(TaskOf(p), raw);
    Dispatch(b, p, raw, f);
    b.Summed();
  }
}
