/** The email handler, branch by branch. */
module Mailer {
  import opened Lease
  import opened QueueModel
  import opened Payloads
  import opened Handlers
  import opened Backends

  method Dispatch(b: Backend, p: Payload, raw: Raw, f: Fate)
    requires b.Running(TaskOf(p), raw) && p.kind.Email?
    modifies b, b.queue
    ensures b.Reached(old(b.run), old(b.trace) + Plan(b.site, old(b.rows), p, f))
  {
    var t := TaskOf(p);
    if p.data.None? {
      b.DeadLetter(raw);
      return;
    }
    if !f.rendered {
      b.Write(t, Mark(Failed));
      b.DeadLetter(raw);
      return;
    }
    if !f.hasSender {
      b.Write(t, Mark(Discarded));
      b.Ack(raw);
      return;
    }
    b.Send(t);
    if !Success(f.reply) {
      if p.attempt < |EMAIL_BACKOFF| {
        var delay := EMAIL_BACKOFF[p.attempt];
        b.Schedule(p.(attempt := p.attempt + 1), f.now + delay);
        b.Ack(raw);
        return;
      }
      b.Write(t, Mark(Failed));
      b.DeadLetter(raw);
      return;
    }
    b.Write(t, Mark(Delivered));
    b.Ack(raw);
  }

  /** One run does its plan, and so changes the world exactly as the plan says. */
  method Process(b: Backend, p: Payload, raw: Raw, f: Fate)
    requires b.queue.codec == b.site.codec && p.kind.Email?
    modifies b, b.queue
    ensures b.Now() == PerformAll(b.site, old(b.Now()), TaskOf(p), raw, Plan(b.site, old(b.rows), p, f))
  {
    b.Begin(TaskOf(p), raw);
    Dispatch(b, p, raw, f);
    b.Summed();
  }
}
