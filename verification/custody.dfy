/** Custody: a row that promises a live copy has one. The one rule behind it, for
    all three handlers: before a lease is dropped, either a successor was
    scheduled or the row stopped promising. */
module Custody {
  import opened QueueModel
  import opened Payloads
  import opened Handlers
  import opened System

  // ---- the rule --------------------------------------------------------------

  predicate Saves(e: Effect) { e.Defer? || e.Mark? || e.Hold? }

  /** Whatever drop is ahead, something that settles or replaces the copy comes first. */
  predicate Covered(todo: seq<Effect>) {
    todo == [] || Saves(todo[0]) || (!Drops(todo[0]) && Covered(todo[1..]))
  }

  predicate Promises(e: Effect) { e.Start? || e.RetryAt? }

  /** From any effect that makes the row promise a copy, the rest is covered. */
  predicate PromisesCovered(todo: seq<Effect>) {
    todo == [] || ((Promises(todo[0]) ==> Covered(todo[1..])) && PromisesCovered(todo[1..]))
  }

  predicate OwnTask(todo: seq<Effect>, t: Task) {
    && (forall i :: 0 <= i < |todo| && todo[i].Defer? ==> TaskOf(todo[i].p) == t)
    && (forall i :: 0 <= i < |todo| && todo[i].Mark? ==> !todo[i].status.Queued? && !todo[i].status.InFlight?)
    && (forall i :: 0 <= i < |todo| && todo[i].Hold? ==> t.EventTask?)
  }

  /** The rule, as a property of one run of one handler. */
  ghost predicate Custodial(site: Site, rows: map<Task, Row>, t: Task, todo: seq<Effect>) {
    && PromisesCovered(todo)
    && OwnTask(todo, t)
    && (t in rows && Guarded(site, t, rows[t]) ==> Covered(todo))
  }

  // ---- all three handlers keep it ---------------------------------------------

  lemma {:induction false} CoveredJoin(es: seq<Effect>, slot: Slot)
    ensures Covered(es + [Give(slot)]) <==> Covered(es)
    ensures PromisesCovered(es + [Give(slot)]) <==> PromisesCovered(es)
    decreases |es|
  {
    if es == [] {
      assert es + [Give(slot)] == [Give(slot)];
    } else {
      assert (es + [Give(slot)])[1..] == es[1..] + [Give(slot)];
      CoveredJoin(es[1..], slot);
    }
  }

  lemma Wrapped(slot: Slot, es: seq<Effect>)
    ensures Covered([Take(slot)] + es + [Give(slot)]) <==> Covered(es)
    ensures PromisesCovered([Take(slot)] + es + [Give(slot)]) <==> PromisesCovered(es)
  {
    CoveredJoin(es, slot);
    assert ([Take(slot)] + es + [Give(slot)])[1..] == es + [Give(slot)];
  }

  lemma Cons(e: Effect, es: seq<Effect>)
    ensures Covered([e] + es) <==> Saves(e) || (!Drops(e) && Covered(es))
    ensures PromisesCovered([e] + es) <==> (Promises(e) ==> Covered(es)) && PromisesCovered(es)
  {
    assert ([e] + es)[1..] == es;
  }

  lemma EventFailCovered(site: Site, p: Payload, f: Fate)
    ensures Covered(EventFail(site, p, f)) && PromisesCovered(EventFail(site, p, f))
  {
  }

  predicate Kept(es: seq<Effect>) { Covered(es) && PromisesCovered(es) }

  lemma Quiet(e: Effect, es: seq<Effect>)
    requires Kept(es) && !Drops(e)
    ensures Kept([e] + es)
  {
    Cons(e, es);
  }

  lemma Quiet2(e: Effect, e': Effect, es: seq<Effect>)
    requires Kept(es) && !Drops(e) && !Drops(e')
    ensures Kept([e, e'] + es)
  {
    Quiet(e', es);
    Quiet(e, [e'] + es);
    assert [e, e'] + es == [e] + ([e'] + es);
  }

  lemma Ending(s: Status, e: Effect)
    requires Drops(e)
    ensures Kept([Mark(s), e])
  {
    assert [Mark(s), e][1..] == [e];
    assert [e][1..] == [];
  }

  lemma EndingAfter(e1: Effect, s: Status, e: Effect)
    requires Drops(e) && !Drops(e1)
    ensures Kept([e1, Mark(s), e])
  {
    Ending(s, e);
    Quiet(e1, [Mark(s), e]);
    assert [e1, Mark(s), e] == [e1] + [Mark(s), e];
  }

  lemma EventSendKept(site: Site, row: Row, p: Payload, f: Fate)
    ensures Kept(EventSend(site, row, p, f))
  {
    var record := Record(row.attempts + 1);
    EventFailCovered(site, p, f);
    Quiet(record, EventFail(site, p, f));
    Quiet2(Post, record, EventFail(site, p, f));
    EndingAfter(record, Failed, Bury);
    Ending(Filtered, Drop);
    Ending(Delivered, Drop);
    Quiet2(Post, record, [Mark(Delivered), Drop]);
    assert [Post, record, Mark(Delivered), Drop] == [Post, record] + [Mark(Delivered), Drop];
    assert EventSend(site, row, p, f) == [Start] + EventSend(site, row, p, f)[1..];
    Quiet(Start, EventSend(site, row, p, f)[1..]);
  }

  lemma DeferralKept(p: Payload, f: Fate, delay: int)
    ensures Kept(Deferral(p, f, delay))
  {
  }

  lemma HeldSlot(slot: Slot, es: seq<Effect>)
    requires Kept(es)
    ensures Kept([Take(slot)] + es + [Give(slot)])
    ensures Kept([Take(slot), Give(slot)] + es)
  {
    Wrapped(slot, es);
    Quiet2(Take(slot), Give(slot), es);
  }

  lemma EventGatedKept(site: Site, row: Row, p: Payload, f: Fate)
    ensures Kept(EventGated(site, row, p, f))
  {
    EventSendKept(site, row, p, f);
    HeldSlot(DestSlot, EventSend(site, row, p, f));
    DeferralKept(p, f, 250);
    HeldSlot(DestSlot, Deferral(p, f, 250));
  }

  lemma GateKept(site: Site, p: Payload, f: Fate, inner: seq<Effect>)
    requires Kept(inner)
    ensures Kept(OrgGate(site, p, f, inner))
  {
    HeldSlot(OrgSlot, inner);
    DeferralKept(p, f, 500);
    HeldSlot(OrgSlot, Deferral(p, f, 500));
  }

  lemma EventPlanKept(site: Site, row: Option<Row>, p: Payload, f: Fate)
    ensures PromisesCovered(EventPlan(site, row, p, f))
    ensures row.Some? && site.destKind(p.eventId).Http? && row.value.status.InFlight? ==> Covered(EventPlan(site, row, p, f))
  {
    if row.Some? {
      EventGatedKept(site, row.value, p, f);
      GateKept(site, p, f, EventGated(site, row.value, p, f));
      EndingAfter(Record(row.value.attempts + 1), Failed, Bury);
      Ending(Discarded, Drop);
      DeferralKept(p, f, 15_000);
      Quiet(Hold(f.now + 15_000), Deferral(p, f, 15_000));
    }
    assert [Drop][1..] == [];
  }

  lemma MessageFailKept(site: Site, id: nat, p: Payload, f: Fate, n: int)
    ensures Kept(MessageFail(site, id, p, f, n))
  {
    var es := MessageFail(site, id, p, f, n);
    if es[0].Mark? {
      var rest := es[1..];
      assert es == [Mark(Dead)] + rest;
      Cons(Mark(Dead), rest);
      NoPromises(rest);
    } else {
      var rest := [Defer(p, es[0].at), Drop];
      assert es == [es[0]] + rest;
      NoPromises(rest);
      Cons(es[0], rest);
    }
  }

  lemma {:induction false} NoPromises(es: seq<Effect>)
    requires forall i :: 0 <= i < |es| ==> !Promises(es[i])
    ensures PromisesCovered(es)
  {
    if es != [] { NoPromises(es[1..]); }
  }

  lemma MessageSendKept(site: Site, id: nat, row: Row, p: Payload, f: Fate)
    ensures Kept(MessageSend(site, id, row, p, f))
  {
    var n := row.attempts + 1;
    MessageFailKept(site, id, p, f, n);
    Quiet2(Post, Record(n), MessageFail(site, id, p, f, n));
    var tail := (if site.maxFailures > 0 then [Clear] else []) + [Drop];
    NoPromises(tail);
    Cons(Mark(Delivered), tail);
    Quiet2(Post, Record(n), [Mark(Delivered)] + tail);
    assert [Post, Record(n), Mark(Delivered)] + (if site.maxFailures > 0 then [Clear] else []) + [Drop]
        == [Post, Record(n)] + ([Mark(Delivered)] + tail);
    var es := MessageSend(site, id, row, p, f);
    assert es == [Start] + es[1..];
    Quiet(Start, es[1..]);
  }

  lemma MessagePlanKept(site: Site, row: Option<Row>, p: Payload, f: Fate)
    ensures PromisesCovered(MessagePlan(site, row, p, f))
    ensures p.data.Some? && row.Some? && !DeliveryTerminal(row.value.status) ==> Covered(MessagePlan(site, row, p, f))
  {
    if p.data.Some? && row.Some? {
      MessageSendKept(site, p.data.value, row.value, p, f);
      EndingAfter(Record(row.value.attempts + 1), Dead, Bury);
      Ending(Filtered, Drop);
      DeferralKept(p, f, if f.rateLimited.Some? && f.rateLimited.value > 0 then f.rateLimited.value else 100);
      GateKept(site, p, f, MessageGated(site, p.data.value, row.value, p, f));
      Ending(Disabled, Drop);
    }
    assert [Drop][1..] == [] && [Bury][1..] == [];
  }

  lemma EmailPlanKept(p: Payload, f: Fate)
    ensures PromisesCovered(EmailPlan(p, f))
    ensures p.data.Some? ==> Covered(EmailPlan(p, f))
  {
    Ending(Failed, Bury);
    Ending(Discarded, Drop);
    EndingAfter(Post, Delivered, Drop);
    EndingAfter(Post, Failed, Bury);
    if p.attempt < |EMAIL_BACKOFF| {
      var d := Defer(p.(attempt := p.attempt + 1), f.now + EMAIL_BACKOFF[p.attempt]);
      assert [Post, d, Drop] == [Post] + [d, Drop];
      Cons(Post, [d, Drop]);
    }
    assert [Bury][1..] == [];
  }

  lemma EventOwnTask(site: Site, row: Row, p: Payload, f: Fate)
    requires p.kind.Delivery?
    ensures OwnTask(EventGated(site, row, p, f), TaskOf(p))
  {
    assert OwnTask(EventSend(site, row, p, f), TaskOf(p));
  }

  lemma MessageOwnTask(site: Site, row: Row, p: Payload, f: Fate)
    requires p.kind.Message? && p.data.Some?
    ensures OwnTask(MessageGated(site, p.data.value, row, p, f), TaskOf(p))
  {
    assert OwnTask(MessageFail(site, p.data.value, p, f, row.attempts + 1), TaskOf(p));
    assert OwnTask(MessageSend(site, p.data.value, row, p, f), TaskOf(p));
  }

  lemma GateOwnTask(site: Site, p: Payload, f: Fate, inner: seq<Effect>)
    requires OwnTask(inner, TaskOf(p))
    ensures OwnTask(OrgGate(site, p, f, inner), TaskOf(p))
  {
  }

  lemma PlanOwnTask(site: Site, rows: map<Task, Row>, p: Payload, f: Fate)
    ensures OwnTask(Plan(site, rows, p, f), TaskOf(p))
  {
    var t := TaskOf(p);
    if t in rows && p.kind.Delivery? {
      EventOwnTask(site, rows[t], p, f);
      GateOwnTask(site, p, f, EventGated(site, rows[t], p, f));
    } else if t in rows && p.kind.Message? && p.data.Some? {
      MessageOwnTask(site, rows[t], p, f);
      GateOwnTask(site, p, f, MessageGated(site, p.data.value, rows[t], p, f));
    }
  }

  /** Every run of every handler, whatever it reads and draws, keeps the rule. */
  lemma HandlersCustodial(site: Site, rows: map<Task, Row>, p: Payload, f: Fate)
    ensures Custodial(site, rows, TaskOf(p), Plan(site, rows, p, f))
  {
    var t := TaskOf(p);
    var row := if t in rows then Some(rows[t]) else None;
    PlanOwnTask(site, rows, p, f);
    EventPlanKept(site, row, p, f);
    MessagePlanKept(site, row, p, f);
    EmailPlanKept(p, f);
  }
}
