/** How a complete run on an outbound delivery, or on a mail, ends. */
module DeliveryOutcomes {
  import opened Lease
  import opened QueueModel
  import opened Payloads
  import opened Handlers
  import opened Views
  import opened Outcomes

  /** What a delivery's row, attempts, sends and payload come to, given how far its run
      got. */
  ghost predicate DeliveryTells(site: Site, member: Raw, v: View, v': View, p: Payload, f: Fate,
                                turned: bool, go: bool, sent: bool, delivered: bool, filtered: bool, doomed: bool)
  {
    var n := v.row.attempts + 1;
    var over := go && !delivered && n >= 8;
    var again := go && !delivered && n < 8;
    && (v'.row.status.Delivered? <==> delivered)
    && (v'.row.status.Filtered? <==> filtered)
    && (v'.row.status.Dead? <==> doomed || over)
    && (again ==> v'.row.status.Queued?)
    && (turned ==> v'.row == v.row)
    && v'.row.attempts == (if go then n else v.row.attempts)
    && v'.row.nextRetry == (if again then Some(f.now + Pause(n)) else v.row.nextRetry)
    && v'.posts == v.posts + (if sent then 1 else 0)
    && Records(v, v', n, doomed || sent)
    && Dropped(v.q, v'.q, member)
    && Listed(v.q, v'.q, member, doomed || over)
    && v'.q.scheduled == (
         if again then v.q.scheduled[site.codec.enc(p) := f.now + Pause(n)]
         else if turned then v.q.scheduled[site.codec.enc(p.(enqueuedAt := f.now)) := f.now + GatePause(site, f)]
         else v.q.scheduled)
  }

  /** A delivery to an enabled endpoint, not finished. It is delivered exactly by a send
      answered 200 to 299; filtered by its filter alone; dead when the message is gone,
      filter or transform break, or the URL or the signature is no good, and when its
      eighth attempt fails. Any earlier attempt that fails leaves row and queue agreeing
      on the time of the next; a run the gates turn back leaves the payload scheduled
      after their pause. */
  ghost predicate DeliveryAnswer(site: Site, member: Raw, v: View, v': View, p: Payload, f: Fate) {
    var past := PastOrg(site, f) && !f.expunged;
    var filtered := past && f.filter.Reject?;
    var ready := past && Passes(f) && f.rateLimited.None?;
    var turned := !PastOrg(site, f) || (past && Passes(f) && f.rateLimited.Some?);
    var doomed := PastOrg(site, f) && (f.expunged || Breaks(f) || (ready && !(f.urlOk && f.signOk)));
    var go := ready && f.urlOk && f.signOk;
    var sent := go && f.requestOk;
    var delivered := sent && f.reply.Some? && 200 <= f.reply.value <= 299;
    DeliveryTells(site, member, v, v', p, f, turned, go, sent, delivered, filtered, doomed)
  }

  /** Notices and strikes leave this task's share of the world alone. */
  lemma Unseen(site: Site, t: Task, member: Raw, v: View, e: Effect, made: bool)
    requires e.Exhausted? || e.Strike? || e.Clear?
    ensures SeeAll(site, t, member, v, if made then [e] else []) == v
  {
    assert [e] + [] == [e];
    SeeCons(site, t, member, v, e, []);
  }

  lemma DeadSeen(site: Site, t: Task, member: Raw, v: View, published: bool, struck: bool)
    ensures SeeAll(site, t, member, v,
                   [Mark(Dead)] + (if published then [Exhausted] else []) + (if struck then [Strike] else []) + [Bury])
         == See(site, t, member, See(site, t, member, v, Mark(Dead)), Bury)
  {
    var (a, b) := (if published then [Exhausted] else [], if struck then [Strike] else []);
    var v1 := See(site, t, member, v, Mark(Dead));
    SeeJoin(site, t, member, v, [Mark(Dead)] + a + b, [Bury]);
    SeeJoin(site, t, member, v, [Mark(Dead)] + a, b);
    SeeCons(site, t, member, v, Mark(Dead), a);
    Unseen(site, t, member, v1, Exhausted, published);
    Unseen(site, t, member, v1, Strike, struck);
    assert [Bury] + [] == [Bury];
    SeeCons(site, t, member, v1, Bury, []);
  }

  /** What a delivery accepted does. */
  function Done(site: Site): seq<Effect> { [Mark(Delivered)] + (if site.maxFailures > 0 then [Clear] else []) + [Drop] }

  lemma DoneSeen(site: Site, t: Task, member: Raw, v: View)
    ensures SeeAll(site, t, member, v, Done(site)) == See(site, t, member, See(site, t, member, v, Mark(Delivered)), Drop)
  {
    var a := if site.maxFailures > 0 then [Clear] else [];
    var v1 := See(site, t, member, v, Mark(Delivered));
    SeeJoin(site, t, member, v, [Mark(Delivered)] + a, [Drop]);
    SeeCons(site, t, member, v, Mark(Delivered), a);
    Unseen(site, t, member, v1, Clear, site.maxFailures > 0);
    assert [Drop] + [] == [Drop];
    SeeCons(site, t, member, v1, Drop, []);
  }

  /** The retry tail of a delivery, after its n-th attempt. */
  ghost predicate FailAnswer(site: Site, member: Raw, v: View, v': View, p: Payload, f: Fate, n: int) {
    && v'.row == (if n >= 8 then v.row.(status := Dead) else v.row.(status := Queued, nextRetry := Some(f.now + Pause(n))))
    && v'.posts == v.posts && v'.records == v.records
    && Dropped(v.q, v'.q, member) && Listed(v.q, v'.q, member, n >= 8)
    && v'.q.scheduled == if n >= 8 then v.q.scheduled else v.q.scheduled[site.codec.enc(p) := f.now + Pause(n)]
  }

  lemma FailSeen(site: Site, member: Raw, v: View, p: Payload, f: Fate, n: int)
    requires p.kind.Message? && p.data.Some? && n >= 1
    ensures FailAnswer(site, member, v, SeeAll(site, TaskOf(p), member, v, MessageFail(site, p.data.value, p, f, n)), p, f, n)
  {
    match NextDelay(n)
    case None =>
      DeadSeen(site, TaskOf(p), member, v, !site.operational(p.data.value), site.maxFailures > 0);
      BuriedSeen(v.q, member);
    case Some(delay) =>
      assert delay == Pause(n);
      SeeThree(site, TaskOf(p), member, v, RetryAt(f.now + delay), Defer(p, f.now + delay), Drop);
  }

  lemma FailIsTold(site: Site, member: Raw, v: View, v1: View, v': View, p: Payload, f: Fate, sent: bool)
    requires v1.row == v.row.(status := InFlight, attempts := v.row.attempts + 1) && v1.q == v.q
    requires v1.posts == v.posts + (if sent then 1 else 0) && Records(v, v1, v.row.attempts + 1, sent)
    requires FailAnswer(site, member, v1, v', p, f, v.row.attempts + 1)
    ensures DeliveryTells(site, member, v, v', p, f, false, true, sent, false, false, false)
  {
  }

  lemma UnsentTells(site: Site, member: Raw, v: View, p: Payload, f: Fate, fail: seq<Effect>)
    requires p.kind.Message? && p.data.Some? && fail == MessageFail(site, p.data.value, p, f, v.row.attempts + 1)
    ensures DeliveryTells(site, member, v, SeeAll(site, TaskOf(p), member, v, [Start] + fail), p, f,
                          false, true, false, false, false, false)
  {
    var (t, n) := (TaskOf(p), v.row.attempts + 1);
    var v1 := v.(row := v.row.(status := InFlight, attempts := n));
    StartedSeen(site, t, member, v, fail);
    FailSeen(site, member, v1, p, f, n);
    FailIsTold(site, member, v, v1, SeeAll(site, t, member, v1, fail), p, f, false);
  }

  lemma RefusedTells(site: Site, member: Raw, v: View, p: Payload, f: Fate, fail: seq<Effect>)
    requires p.kind.Message? && p.data.Some? && fail == MessageFail(site, p.data.value, p, f, v.row.attempts + 1)
    ensures var es := [Start] + ([Post] + ([Record(v.row.attempts + 1)] + fail));
            DeliveryTells(site, member, v, SeeAll(site, TaskOf(p), member, v, es), p, f, false, true, true, false, false, false)
  {
    var (t, n) := (TaskOf(p), v.row.attempts + 1);
    var v1 := v.(row := v.row.(status := InFlight, attempts := n));
    var v2 := Recorded(v1.(posts := v1.posts + 1), n);
    StartedSeen(site, t, member, v, [Post] + ([Record(n)] + fail));
    RecordedSeen(site, t, member, v1, n, fail);
    FailSeen(site, member, v2, p, f, n);
    FailIsTold(site, member, v, v2, SeeAll(site, t, member, v2, fail), p, f, true);
  }

  lemma DeliveredTells(site: Site, member: Raw, v: View, p: Payload, f: Fate)
    requires p.kind.Message? && p.data.Some?
    ensures var es := [Start] + ([Post] + ([Record(v.row.attempts + 1)] + Done(site)));
            DeliveryTells(site, member, v, SeeAll(site, TaskOf(p), member, v, es), p, f, false, true, true, true, false, false)
  {
    var (t, n) := (TaskOf(p), v.row.attempts + 1);
    var v1 := v.(row := v.row.(status := InFlight, attempts := n));
    StartedSeen(site, t, member, v, [Post] + ([Record(n)] + Done(site)));
    RecordedSeen(site, t, member, v1, n, Done(site));
    DoneSeen(site, t, member, Recorded(v1.(posts := v1.posts + 1), n));
  }

  lemma DoomedTells(site: Site, member: Raw, v: View, p: Payload, f: Fate)
    requires p.kind.Message? && p.data.Some? && !DeliveryTerminal(v.row.status)
    ensures DeliveryTells(site, member, v, SeeAll(site, TaskOf(p), member, v, [Record(v.row.attempts + 1), Mark(Dead), Bury]), p, f,
                          false, false, false, false, false, true)
  {
    SeeThree(site, TaskOf(p), member, v, Record(v.row.attempts + 1), Mark(Dead), Bury);
    BuriedSeen(v.q, member);
  }

  lemma FilteredTells(site: Site, member: Raw, v: View, p: Payload, f: Fate)
    requires p.kind.Message? && p.data.Some? && !DeliveryTerminal(v.row.status)
    ensures DeliveryTells(site, member, v, SeeAll(site, TaskOf(p), member, v, [Mark(Filtered), Drop]), p, f,
                          false, false, false, false, true, false)
  {
    SeeTwo(site, TaskOf(p), member, v, Mark(Filtered), Drop);
  }

  lemma TurnedTells(site: Site, member: Raw, v: View, p: Payload, f: Fate)
    requires p.kind.Message? && p.data.Some? && !DeliveryTerminal(v.row.status)
    ensures DeliveryTells(site, member, v, SeeAll(site, TaskOf(p), member, v, Deferral(p, f, GatePause(site, f))), p, f,
                          true, false, false, false, false, false)
  {
    DeferralSeen(site, TaskOf(p), member, v, p, f, GatePause(site, f));
  }

  /** An attempt in its three forms. */
  lemma SendForm(site: Site, id: nat, row: Row, p: Payload, f: Fate, fail: seq<Effect>)
    requires fail == MessageFail(site, id, p, f, row.attempts + 1)
    ensures MessageSend(site, id, row, p, f) == [Start] +
              if !f.requestOk then fail
              else if Success(f.reply) then [Post] + ([Record(row.attempts + 1)] + Done(site))
              else [Post] + ([Record(row.attempts + 1)] + fail)
  {
    assert [Post, Record(row.attempts + 1)] + fail == [Post] + ([Record(row.attempts + 1)] + fail);
    assert [Post, Record(row.attempts + 1), Mark(Delivered)] + (if site.maxFailures > 0 then [Clear] else []) + [Drop]
        == [Post] + ([Record(row.attempts + 1)] + Done(site));
  }

  lemma SendAnswer(site: Site, member: Raw, v: View, p: Payload, f: Fate)
    requires p.kind.Message? && p.data.Some?
    ensures var sent := f.requestOk;
            var delivered := sent && f.reply.Some? && 200 <= f.reply.value <= 299;
            DeliveryTells(site, member, v, SeeAll(site, TaskOf(p), member, v, MessageSend(site, p.data.value, v.row, p, f)), p, f,
                          false, true, sent, delivered, false, false)
  {
    var fail := MessageFail(site, p.data.value, p, f, v.row.attempts + 1);
    SendForm(site, p.data.value, v.row, p, f, fail);
    if !f.requestOk {
      UnsentTells(site, member, v, p, f, fail);
    } else if Success(f.reply) {
      DeliveredTells(site, member, v, p, f);
    } else {
      RefusedTells(site, member, v, p, f, fail);
    }
  }

  lemma GatedAnswer(site: Site, member: Raw, v: View, p: Payload, f: Fate)
    requires p.kind.Message? && p.data.Some? && PastOrg(site, f) && !DeliveryTerminal(v.row.status)
    ensures DeliveryAnswer(site, member, v, SeeAll(site, TaskOf(p), member, v, MessageGated(site, p.data.value, v.row, p, f)), p, f)
  {
    SendAnswer(site, member, v, p, f);
    DoomedTells(site, member, v, p, f);
    FilteredTells(site, member, v, p, f);
    TurnedTells(site, member, v, p, f);
  }

  lemma GateAnswer(site: Site, member: Raw, v: View, p: Payload, f: Fate)
    requires p.kind.Message? && p.data.Some? && !DeliveryTerminal(v.row.status)
    ensures DeliveryAnswer(site, member, v,
              SeeAll(site, TaskOf(p), member, v, OrgGate(site, p, f, MessageGated(site, p.data.value, v.row, p, f))), p, f)
  {
    var inner := MessageGated(site, p.data.value, v.row, p, f);
    if PastOrg(site, f) {
      GatedAnswer(site, member, v, p, f);
      SlotUnseen(site, TaskOf(p), member, v, OrgSlot, inner);
    } else {
      TurnedTells(site, member, v, p, f);
      SlotUnseen(site, TaskOf(p), member, v, OrgSlot, Deferral(p, f, 500));
    }
  }

  lemma DeliveryOutcome(site: Site, w: World, member: Raw, p: Payload, f: Fate)
    requires p.kind.Message? && p.data.Some? && TaskOf(p) in w.rows
    requires !DeliveryTerminal(w.rows[TaskOf(p)].status) && !f.disabled
    ensures var w' := PerformAll(site, w, TaskOf(p), member, Plan(site, w.rows, p, f));
            TaskOf(p) in w'.rows && DeliveryAnswer(site, member, ViewOf(w, TaskOf(p)), ViewOf(w', TaskOf(p)), p, f)
  {
    AllSeen(site, w, TaskOf(p), member, Plan(site, w.rows, p, f));
    GateAnswer(site, member, ViewOf(w, TaskOf(p)), p, f);
  }

  /** A delivery to a disabled endpoint is closed as disabled, unsent. */
  lemma DisabledDelivery(site: Site, w: World, member: Raw, p: Payload, f: Fate)
    requires p.kind.Message? && p.data.Some? && TaskOf(p) in w.rows
    requires !DeliveryTerminal(w.rows[TaskOf(p)].status) && f.disabled
    ensures var w' := PerformAll(site, w, TaskOf(p), member, Plan(site, w.rows, p, f));
            && TaskOf(p) in w'.rows
            && ViewOf(w', TaskOf(p)) == ViewOf(w, TaskOf(p)).(row := w.rows[TaskOf(p)].(status := Disabled), q := w'.q)
            && Dropped(w.q, w'.q, member) && Listed(w.q, w'.q, member, false) && w'.q.scheduled == w.q.scheduled
  {
    AllSeen(site, w, TaskOf(p), member, Plan(site, w.rows, p, f));
    SeeTwo(site, TaskOf(p), member, ViewOf(w, TaskOf(p)), Mark(Disabled), Drop);
  }

  // ---- what a delivery's run says about its endpoint -----------------------------------

  predicate IsLoud(e: Effect) { e.Exhausted? || e.Strike? || e.Clear? }

  /** The effects other tasks can notice. */
  function Loud(es: seq<Effect>): seq<Effect> {
    if es == [] then [] else (if IsLoud(es[0]) then [es[0]] else []) + Loud(es[1..])
  }

  lemma {:induction false} LoudJoin(a: seq<Effect>, b: seq<Effect>)
    ensures Loud(a + b) == Loud(a) + Loud(b)
    decreases |a|
  {
    if a == [] {
      assert a + b == b;
    } else {
      assert (a + b)[0] == a[0] && (a + b)[1..] == a[1..] + b;
      LoudJoin(a[1..], b);
    }
  }

  predicate AllSilent(es: seq<Effect>) { forall i :: 0 <= i < |es| ==> !IsLoud(es[i]) }

  lemma {:induction false} NoneLoud(es: seq<Effect>)
    requires AllSilent(es)
    ensures Loud(es) == []
  {
    if es != [] { NoneLoud(es[1..]); }
  }

  lemma OneLoud(e: Effect, made: bool)
    requires IsLoud(e)
    ensures var es := if made then [e] else []; Loud(es) == es
  {
    if made { assert [e][1..] == []; }
  }

  lemma FailLoud(site: Site, id: nat, p: Payload, f: Fate, n: int)
    requires n >= 1
    ensures Loud(MessageFail(site, id, p, f, n))
         == if n >= 8 then (if site.operational(id) then [] else [Exhausted]) + (if site.maxFailures > 0 then [Strike] else []) else []
  {
    var es := MessageFail(site, id, p, f, n);
    if n >= 8 {
      var (a, b) := (if !site.operational(id) then [Exhausted] else [], if site.maxFailures > 0 then [Strike] else []);
      NoneLoud([Mark(Dead)]);
      NoneLoud([Bury]);
      OneLoud(Exhausted, !site.operational(id));
      OneLoud(Strike, site.maxFailures > 0);
      LoudJoin([Mark(Dead)] + a + b, [Bury]);
      LoudJoin([Mark(Dead)] + a, b);
      LoudJoin([Mark(Dead)], a);
    } else {
      NoneLoud(es);
    }
  }

  lemma AfterQuiet(a: seq<Effect>, b: seq<Effect>)
    requires AllSilent(a)
    ensures Loud(a + b) == Loud(b)
  {
    NoneLoud(a);
    LoudJoin(a, b);
  }

  lemma DoneLoud(site: Site)
    ensures Loud(Done(site)) == if site.maxFailures > 0 then [Clear] else []
  {
    var c := if site.maxFailures > 0 then [Clear] else [];
    NoneLoud([Drop]);
    OneLoud(Clear, site.maxFailures > 0);
    LoudJoin([Mark(Delivered)] + c, [Drop]);
    AfterQuiet([Mark(Delivered)], c);
  }

  lemma QuietStart(n: int, es: seq<Effect>)
    ensures Loud([Start] + es) == Loud(es)
    ensures Loud([Start] + ([Post] + ([Record(n)] + es))) == Loud(es)
  {
    AfterQuiet([Record(n)], es);
    AfterQuiet([Post], [Record(n)] + es);
    AfterQuiet([Start], [Post] + ([Record(n)] + es));
    AfterQuiet([Start], es);
  }

  lemma SendLoud(site: Site, id: nat, row: Row, p: Payload, f: Fate)
    ensures var delivered := f.requestOk && f.reply.Some? && 200 <= f.reply.value <= 299;
            Loud(MessageSend(site, id, row, p, f))
            == if delivered then if site.maxFailures > 0 then [Clear] else []
               else Loud(MessageFail(site, id, p, f, row.attempts + 1))
  {
    var fail := MessageFail(site, id, p, f, row.attempts + 1);
    SendForm(site, id, row, p, f, fail);
    QuietStart(row.attempts + 1, fail);
    QuietStart(row.attempts + 1, Done(site));
    DoneLoud(site);
  }

  lemma GateLoud(site: Site, p: Payload, f: Fate, inner: seq<Effect>)
    ensures Loud(OrgGate(site, p, f, inner)) == if PastOrg(site, f) then Loud(inner) else []
  {
    NoneLoud([Take(OrgSlot)]);
    NoneLoud([Give(OrgSlot)]);
    NoneLoud([Take(OrgSlot), Give(OrgSlot)] + Deferral(p, f, 500));
    LoudJoin([Take(OrgSlot)] + inner, [Give(OrgSlot)]);
    LoudJoin([Take(OrgSlot)], inner);
  }

  /** Past every check, so that an attempt is made. */
  predicate Attempts(site: Site, row: Row, f: Fate) {
    && !DeliveryTerminal(row.status) && !f.disabled
    && PastOrg(site, f) && !f.expunged && Passes(f) && f.rateLimited.None? && f.urlOk && f.signOk
  }

  lemma GatedLoud(site: Site, id: nat, row: Row, p: Payload, f: Fate)
    requires PastOrg(site, f) && !DeliveryTerminal(row.status) && !f.disabled
    ensures Loud(MessageGated(site, id, row, p, f)) == if Attempts(site, row, f) then Loud(MessageSend(site, id, row, p, f)) else []
  {
    if !Attempts(site, row, f) { NoneLoud(MessageGated(site, id, row, p, f)); }
  }

  /** Only an eighth failed attempt is published and held against the endpoint, and only
      a send answered 200 to 299 clears it. */
  lemma WhatIsHeard(site: Site, rows: map<Task, Row>, id: nat, p: Payload, f: Fate)
    requires p.kind.Message? && p.data == Some(id) && DeliveryTask(id) in rows
    ensures var row := rows[DeliveryTask(id)];
            var delivered := Attempts(site, row, f) && f.requestOk && f.reply.Some? && 200 <= f.reply.value <= 299;
            var over := Attempts(site, row, f) && !delivered && row.attempts + 1 >= 8;
            Loud(Plan(site, rows, p, f))
            == if over then (if site.operational(id) then [] else [Exhausted]) + (if site.maxFailures > 0 then [Strike] else [])
               else if delivered && site.maxFailures > 0 then [Clear] else []
  {
    var row := rows[DeliveryTask(id)];
    var inner := MessageGated(site, id, row, p, f);
    if DeliveryTerminal(row.status) {
      NoneLoud([Drop]);
    } else if f.disabled {
      NoneLoud([Mark(Disabled), Drop]);
    } else {
      GateLoud(site, p, f, inner);
      if PastOrg(site, f) { GatedLoud(site, id, row, p, f); }
      SendLoud(site, id, row, p, f);
      FailLoud(site, id, p, f, row.attempts + 1);
    }
  }

  /** Nothing else is heard of. */
  lemma OthersAreSilent(site: Site, rows: map<Task, Row>, p: Payload, f: Fate)
    requires !(TaskOf(p).DeliveryTask? && TaskOf(p) in rows)
    ensures Loud(Plan(site, rows, p, f)) == []
  {
    if p.kind.Delivery? && TaskOf(p) in rows { EventSilent(site, rows[TaskOf(p)], p, f); }
    NoneLoud(Plan(site, rows, p, f));
  }

  lemma EventSilent(site: Site, row: Row, p: Payload, f: Fate)
    ensures AllSilent(EventGated(site, row, p, f)) && AllSilent(OrgGate(site, p, f, EventGated(site, row, p, f)))
  {
    assert AllSilent(EventSend(site, row, p, f));
    assert AllSilent(EventGated(site, row, p, f));
  }

  // ---- mail ------------------------------------------------------------------------------

  /** A mail is sent once it renders and there is a sender; accepted (an SMTP answer
      200 to 299) it is over, refused it comes back after a minute, then after five, and
      the third refusal ends it. */
  ghost predicate MailAnswer(site: Site, member: Raw, v: View, v': View, p: Payload, f: Fate) {
    var sent := f.rendered && f.hasSender;
    var accepted := sent && f.reply.Some? && 200 <= f.reply.value <= 299;
    var over := !f.rendered || (sent && !accepted && p.attempt >= 2);
    var again := sent && !accepted && p.attempt < 2;
    && v'.posts == v.posts + (if sent then 1 else 0) && v'.records == v.records
    && v'.row == v.row.(status := if over then Failed else if again then v.row.status else if accepted then Delivered else Discarded)
    && Dropped(v.q, v'.q, member) && Listed(v.q, v'.q, member, over)
    && v'.q.scheduled == if again
         then v.q.scheduled[site.codec.enc(p.(attempt := p.attempt + 1)) := f.now + if p.attempt == 0 then 60_000 else 300_000]
         else v.q.scheduled
  }

  lemma MailSeen(site: Site, member: Raw, v: View, p: Payload, f: Fate)
    requires p.kind.Email? && p.data.Some?
    ensures MailAnswer(site, member, v, SeeAll(site, TaskOf(p), member, v, EmailPlan(p, f)), p, f)
  {
    var (t, es) := (TaskOf(p), EmailPlan(p, f));
    BuriedSeen(v.q, member);
    if f.rendered && f.hasSender {
      assert es == [es[0], es[1], es[2]];
      SeeThree(site, t, member, v, es[0], es[1], es[2]);
    } else {
      assert es == [es[0], es[1]];
      SeeTwo(site, t, member, v, es[0], es[1]);
    }
  }

  lemma MailOutcome(site: Site, w: World, member: Raw, p: Payload, f: Fate)
    requires p.kind.Email? && p.data.Some? && TaskOf(p) in w.rows
    ensures var w' := PerformAll(site, w, TaskOf(p), member, Plan(site, w.rows, p, f));
            TaskOf(p) in w'.rows && MailAnswer(site, member, ViewOf(w, TaskOf(p)), ViewOf(w', TaskOf(p)), p, f)
  {
    AllSeen(site, w, TaskOf(p), member, Plan(site, w.rows, p, f));
    MailSeen(site, member, ViewOf(w, TaskOf(p)), p, f);
  }

  /** A message or a mail whose data does not decode is listed dead, and that is all. */
  lemma UnreadableTask(site: Site, w: World, member: Raw, p: Payload, f: Fate)
    requires !p.kind.Delivery? && p.data.None?
    ensures var w' := PerformAll(site, w, TaskOf(p), member, Plan(site, w.rows, p, f));
            && w' == w.(q := w'.q)
            && Dropped(w.q, w'.q, member) && Listed(w.q, w'.q, member, true) && w'.q.scheduled == w.q.scheduled
  {
    PerformFront(site, w, TaskOf(p), member, [Bury]);
    BuriedSeen(w.q, member);
  }
}
