/** The inbound delivery handler, branch by branch. */
module Deliver {
  import opened Lease
  import opened QueueModel
  import opened Payloads
  import opened Handlers
  import opened Backends
  import opened Successors
  import Backoff

  /** The shared retry/terminate tail: one attempt more, then the end or a backoff. */
  method FailAttempt(b: Backend, p: Payload, raw: Raw, f: Fate)
    requires b.Running(EventTask(p.eventId), raw) && Possible(f)
    modifies b, b.queue
    ensures b.Reached(old(b.run), old(b.trace) + EventFail(b.site, p, f))
  {
    var attempt := p.attempt + 1;
    if attempt > b.site.maxRetries(p.eventId) {
      b.Write(EventTask(p.eventId), Mark(Failed));
      b.DeadLetter(raw);
      return;
    }
    var delay := Backoff.RetryDelay(f.policy, attempt, f.draw);
    b.Schedule(p.(attempt := attempt), f.now + delay / Backoff.MS);
    b.Ack(raw);
  }

  /** A gate deferral: the same payload later, no attempt spent. */
  method Postpone(b: Backend, p: Payload, raw: Raw, f: Fate, delay: int)
    requires b.Traced() && raw == b.run.member
    modifies b, b.queue
    ensures b.Reached(old(b.run), old(b.trace) + Deferral(p, f, delay))
  {
    b.Schedule(p.(enqueuedAt := f.now), f.now + delay);
    b.Ack(raw);
  }

  /** A deterministic failure: recorded, failed, dead-lettered. */
  method Condemn(b: Backend, t: Task, raw: Raw, num: int)
    requires b.Running(t, raw)
    modifies b, b.queue
    ensures b.Reached(old(b.run), old(b.trace) + [Record(num), Mark(Failed), Bury])
  {
    b.RecordAttempt(t, num);
    b.Write(t, Mark(Failed));
    b.DeadLetter(raw);
  }

  /** From MarkEventInFlight to the outcome. */
  method Attempt(b: Backend, row: Row, p: Payload, raw: Raw, f: Fate)
    requires b.Running(EventTask(p.eventId), raw) && Possible(f)
    modifies b, b.queue
    ensures b.Reached(old(b.run), old(b.trace) + EventSend(b.site, row, p, f))
  {
    var t := EventTask(p.eventId);
    var num := row.attempts + 1;
    b.Write(t, Start);
    if !f.bodyFound {
      b.RecordAttempt(t, num);
      FailAttempt(b, p, raw, f);
      return;
    }
    if f.filter.FilterError? {
      Condemn(b, t, raw, num);
      return;
    } else if f.filter.Reject? {
      b.Write(t, Mark(Filtered));
      b.Ack(raw);
      return;
    }
    if f.transformFails {
      Condemn(b, t, raw, num);
      return;
    }
    if !f.requestOk {
      b.RecordAttempt(t, num);
      FailAttempt(b, p, raw, f);
      return;
    }
    b.Send(t);
    b.RecordAttempt(t, num);
    if !Success(f.reply) {
      FailAttempt(b, p, raw, f);
      return;
    }
    b.Write(t, Mark(Delivered));
    b.Ack(raw);
  }

  /** Past the per-org gate: the rate limit, then the destination's own gate. */
  method Gated(b: Backend, row: Row, p: Payload, raw: Raw, f: Fate)
    requires b.Running(EventTask(p.eventId), raw) && Possible(f)
    modifies b, b.queue
    ensures b.Reached(old(b.run), old(b.trace) + EventGated(b.site, row, p, f))
  {
    if f.rateLimited.Some? {
      var retryAfter := f.rateLimited.value;
      if retryAfter <= 0 { retryAfter := 100; }
      Postpone(b, p, raw, f, retryAfter);
      return;
    }
    if f.destMax > 0 && f.destReply.Some? {
      b.Count(DestSlot, true);
      if f.destReply.value > f.destMax {
        b.Count(DestSlot, false);
        Postpone(b, p, raw, f, 250);
        Around(old(b.trace), DestSlot, Deferral(p, f, 250));
        return;
      }
      Attempt(b, row, p, raw, f);
      b.Count(DestSlot, false);
      Around(old(b.trace), DestSlot, EventSend(b.site, row, p, f));
      return;
    }
    Attempt(b, row, p, raw, f);
  }

  method DispatchToCli(b: Backend, p: Payload, raw: Raw, f: Fate)
    requires b.Running(EventTask(p.eventId), raw)
    modifies b, b.queue
    ensures b.Reached(old(b.run), old(b.trace) + EventCli(p, f))
  {
    if !f.cliConnected {
      if p.manual || f.cliExpired {
        b.Write(EventTask(p.eventId), Mark(Discarded));
        b.Ack(raw);
        return;
      }
      b.Write(EventTask(p.eventId), Hold(f.now + 15_000));
      Postpone(b, p, raw, f, 15_000);
      return;
    }
    b.PushDispatch(EventTask(p.eventId));
    b.Ack(raw);
  }

  /** The per-org gate: over the cap the slot goes straight back, under it the slot is
      held to the end of the run. */
  method Admit(b: Backend, row: Row, p: Payload, raw: Raw, f: Fate)
    requires b.Running(EventTask(p.eventId), raw) && Possible(f)
    modifies b, b.queue
    ensures b.Reached(old(b.run), old(b.trace) + OrgGate(b.site, p, f, EventGated(b.site, row, p, f)))
  {
    if b.site.perOrgMax > 0 && f.orgReply.Some? {
      b.Count(OrgSlot, true);
      if f.orgReply.value > b.site.perOrgMax {
        b.Count(OrgSlot, false);
        Postpone(b, p, raw, f, 500);
        Around(old(b.trace), OrgSlot, Deferral(p, f, 500));
        return;
      }
      Gated(b, row, p, raw, f);
      b.Count(OrgSlot, false);
      Around(old(b.trace), OrgSlot, EventGated(b.site, row, p, f));
      return;
    }
    Gated(b, row, p, raw, f);
  }

  method Dispatch(b: Backend, p: Payload, raw: Raw, f: Fate)
    requires b.Running(EventTask(p.eventId), raw) && p.kind.Delivery? && Possible(f)
    modifies b, b.queue
    ensures b.Reached(old(b.run), old(b.trace) + Plan(b.site, old(b.rows), p, f))
  {
    var t := EventTask(p.eventId);
    if t !in b.rows {
      b.Ack(raw);
      return;
    }
    var row := b.rows[t];
    if EventTerminal(row.status) {
      b.Ack(raw);
      return;
    }
    if b.site.destKind(p.eventId).Cli? {
      DispatchToCli(b, p, raw, f);
      return;
    }
    if !b.site.destKind(p.eventId).Http? || !f.hasUrl || !f.urlOk {
      Condemn(b, t, raw, row.attempts + 1);
      return;
    }
    Admit(b, row, p, raw, f);
  }

  /** One run does its plan, and so changes the world exactly as the plan says. */
  method Process(b: Backend, p: Payload, raw: Raw, f: Fate)
    requires b.queue.codec == b.site.codec && p.kind.Delivery? && Possible(f)
    modifies b, b.queue
    ensures b.Now() == PerformAll(b.site, old(b.Now()), TaskOf(p), raw, Plan(b.site, old(b.rows), p, f))
  {
    b.Begin(EventTask(p.eventId), raw);
    Dispatch(b, p, raw, f);
    b.Summed();
  }
}
