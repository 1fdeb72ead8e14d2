/** What a run leaves behind in the queue: its successor, and when that is due. */
module Successors {
  import opened Lease
  import opened QueueModel
  import opened Payloads
  import opened Handlers
  import Backoff

  /** The payload again, at most one attempt on. */
  predicate Heir(p: Payload, q: Payload, now: int) {
    q == p || q == p.(enqueuedAt := now) || q == p.(attempt := p.attempt + 1)
  }

  /** Any effect that names a time: the retry time in the row, the time in the queue. */
  function TimeOf(e: Effect): Option<int> {
    match e
    case Defer(_, at) => Some(at)
    case RetryAt(at) => Some(at)
    case Hold(at) => Some(at)
    case _ => None
  }

  /** At most one successor, an heir, not before its time; and the row never names
      another time than the queue does. */
  predicate Orderly(es: seq<Effect>, p: Payload, now: int) {
    && (forall i :: 0 <= i < |es| && es[i].Defer? ==> Heir(p, es[i].p, now))
    && (forall i :: 0 <= i < |es| && TimeOf(es[i]).Some? ==> TimeOf(es[i]).value >= now)
    && (forall i, j :: 0 <= i < j < |es| && es[i].Defer? ==> !es[j].Defer?)
    && (forall i, j :: 0 <= i < j < |es| && TimeOf(es[i]).Some? && TimeOf(es[j]).Some? ==> TimeOf(es[i]) == TimeOf(es[j]))
    && (forall i :: 0 <= i < |es| && (es[i].RetryAt? || es[i].Hold?) ==> exists j :: i < j < |es| && es[j].Defer?)
  }

  lemma DeferralOrderly(p: Payload, f: Fate, delay: int)
    requires delay >= 0
    ensures Orderly(Deferral(p, f, delay), p, f.now)
  {
  }

  /** Effects without a time around an orderly run. */
  lemma Padded(a: seq<Effect>, es: seq<Effect>, b: seq<Effect>, p: Payload, now: int)
    requires Orderly(es, p, now)
    requires forall i :: 0 <= i < |a| ==> TimeOf(a[i]).None?
    requires forall i :: 0 <= i < |b| ==> TimeOf(b[i]).None?
    ensures Orderly(a + es + b, p, now)
  {
    var all := a + es + b;
    assert forall i :: 0 <= i < |all| && TimeOf(all[i]).Some? ==> |a| <= i < |a| + |es| && all[i] == es[i - |a|];
    forall i | 0 <= i < |all| && (all[i].RetryAt? || all[i].Hold?) ensures exists j :: i < j < |all| && all[j].Defer? {
      assert TimeOf(all[i]).Some? && all[i] == es[i - |a|];
      var j :| i - |a| < j < |es| && es[j].Defer?;
      assert all[j + |a|] == es[j];
    }
  }

  lemma Before(a: seq<Effect>, es: seq<Effect>, p: Payload, now: int)
    requires Orderly(es, p, now)
    requires forall i :: 0 <= i < |a| ==> TimeOf(a[i]).None?
    ensures Orderly(a + es, p, now)
  {
    Padded(a, es, [], p, now);
    assert a + es + [] == a + es;
  }

  lemma Timeless(es: seq<Effect>, p: Payload, now: int)
    requires forall i :: 0 <= i < |es| ==> TimeOf(es[i]).None?
    ensures Orderly(es, p, now)
  {
  }

  /** The policy comes from int32 columns, the draw from rand.Float64. */
  predicate Possible(f: Fate) { 0.0 <= f.draw < 1.0 && Backoff.Stored(f.policy) }

  lemma EventFailOrderly(site: Site, p: Payload, f: Fate)
    requires Possible(f)
    ensures Orderly(EventFail(site, p, f), p, f.now)
  {
    Backoff.DelayBounds(f.policy, p.attempt + 1, f.draw);
  }

  lemma EventSendOrderly(site: Site, row: Row, p: Payload, f: Fate)
    requires Possible(f)
    ensures Orderly(EventSend(site, row, p, f), p, f.now)
  {
    var record := Record(row.attempts + 1);
    var fail := EventFail(site, p, f);
    EventFailOrderly(site, p, f);
    Before([Start, record], fail, p, f.now);
    Before([Start, Post, record], fail, p, f.now);
    var es := EventSend(site, row, p, f);
    if es == [Start] + ([record] + fail) {
      assert es == [Start, record] + fail;
    } else if es == [Start] + ([Post, record] + fail) {
      assert es == [Start, Post, record] + fail;
    } else {
      Timeless(es, p, f.now);
    }
  }

  lemma GateOrderly(site: Site, p: Payload, f: Fate, inner: seq<Effect>)
    requires Orderly(inner, p, f.now)
    ensures Orderly(OrgGate(site, p, f, inner), p, f.now)
  {
    DeferralOrderly(p, f, 500);
    Padded([Take(OrgSlot)], inner, [Give(OrgSlot)], p, f.now);
    Before([Take(OrgSlot), Give(OrgSlot)], Deferral(p, f, 500), p, f.now);
  }

  lemma EventGatedOrderly(site: Site, row: Row, p: Payload, f: Fate)
    requires Possible(f)
    ensures Orderly(EventGated(site, row, p, f), p, f.now)
  {
    var send := EventSend(site, row, p, f);
    EventSendOrderly(site, row, p, f);
    Padded([Take(DestSlot)], send, [Give(DestSlot)], p, f.now);
    DeferralOrderly(p, f, 250);
    Before([Take(DestSlot), Give(DestSlot)], Deferral(p, f, 250), p, f.now);
    DeferralOrderly(p, f, if f.rateLimited.Some? && f.rateLimited.value > 0 then f.rateLimited.value else 100);
  }

  lemma EventPlanOrderly(site: Site, row: Option<Row>, p: Payload, f: Fate)
    requires Possible(f)
    ensures Orderly(EventPlan(site, row, p, f), p, f.now)
  {
    if row.Some? {
      EventGatedOrderly(site, row.value, p, f);
      GateOrderly(site, p, f, EventGated(site, row.value, p, f));
      assert ([Hold(f.now + 15_000)] + Deferral(p, f, 15_000))[1].Defer?;
    }
  }

  lemma MessageFailOrderly(site: Site, id: nat, p: Payload, f: Fate, n: int)
    ensures Orderly(MessageFail(site, id, p, f, n), p, f.now)
  {
    if NextDelay(n).Some? {
      assert MessageFail(site, id, p, f, n)[1].Defer?;
    } else {
      Timeless(MessageFail(site, id, p, f, n), p, f.now);
    }
  }

  lemma MessageSendOrderly(site: Site, id: nat, row: Row, p: Payload, f: Fate)
    ensures Orderly(MessageSend(site, id, row, p, f), p, f.now)
  {
    var n := row.attempts + 1;
    var fail := MessageFail(site, id, p, f, n);
    MessageFailOrderly(site, id, p, f, n);
    Before([Start], fail, p, f.now);
    Before([Start, Post, Record(n)], fail, p, f.now);
    var es := MessageSend(site, id, row, p, f);
    if f.requestOk && !Success(f.reply) {
      assert es == [Start, Post, Record(n)] + fail;
    } else if f.requestOk {
      Timeless(es, p, f.now);
    }
  }

  lemma MessageGatedOrderly(site: Site, id: nat, row: Row, p: Payload, f: Fate)
    ensures Orderly(MessageGated(site, id, row, p, f), p, f.now)
  {
    MessageSendOrderly(site, id, row, p, f);
    DeferralOrderly(p, f, if f.rateLimited.Some? && f.rateLimited.value > 0 then f.rateLimited.value else 100);
  }

  lemma MessagePlanOrderly(site: Site, row: Option<Row>, p: Payload, f: Fate)
    ensures Orderly(MessagePlan(site, row, p, f), p, f.now)
  {
    if row.Some? && p.data.Some? {
      MessageGatedOrderly(site, p.data.value, row.value, p, f);
      GateOrderly(site, p, f, MessageGated(site, p.data.value, row.value, p, f));
    }
  }

  lemma EmailPlanOrderly(p: Payload, f: Fate)
    ensures Orderly(EmailPlan(p, f), p, f.now)
  {
  }

  /** Every run of every handler leaves at most one successor: the same payload, one
      attempt on or the same, due at the time its row says and never before now. */
  lemma OneSuccessor(site: Site, rows: map<Task, Row>, p: Payload, f: Fate)
    requires Possible(f)
    ensures Orderly(Plan(site, rows, p, f), p, f.now)
  {
    var t := TaskOf(p);
    var row := if t in rows then Some(rows[t]) else None;
    match p.kind {
      case Delivery => EventPlanOrderly(site, row, p, f);
      case Message => MessagePlanOrderly(site, row, p, f);
      case Email => EmailPlanOrderly(p, f);
    }
  }
}
