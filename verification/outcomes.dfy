/** How a complete run of a handler ends, read off the world it leaves: which replies
    deliver, what ends a task and how, what waits and until when. */
module Outcomes {
  import opened Lease
  import opened QueueModel
  import opened Payloads
  import opened Handlers
  import opened Views
  import Backoff

  // ---- what a run reads, in order ------------------------------------------------

  predicate PastOrg(site: Site, f: Fate) {
    site.perOrgMax > 0 && f.orgReply.Some? ==> f.orgReply.value <= site.perOrgMax
  }

  /** The gates let the run through; only events have one per destination. */
  predicate Executes(site: Site, t: Task, f: Fate) {
    && PastOrg(site, f)
    && f.rateLimited.None?
    && (t.EventTask? && f.destMax > 0 && f.destReply.Some? ==> f.destReply.value <= f.destMax)
  }

  /** Filter and transform let it through. */
  predicate Passes(f: Fate) { (f.filter.NoFilter? || f.filter.Pass?) && !f.transformFails }

  predicate Breaks(f: Fate) { f.filter.FilterError? || ((f.filter.NoFilter? || f.filter.Pass?) && f.transformFails) }

  /** How long a run waits that the gates turned back. */
  function GatePause(site: Site, f: Fate): int {
    if !PastOrg(site, f) then 500
    else if f.rateLimited.Some? then if f.rateLimited.value > 0 then f.rateLimited.value else 100
    else 250
  }

  /** Milliseconds from the n-th failed send of a delivery to its next: 5 s, 5 min,
      30 min, 2 h, 5 h, 10 h, 10 h. */
  function Pause(n: int): int {
    if n <= 1 then 5_000
    else if n == 2 then 5 * 60_000
    else if n == 3 then 30 * 60_000
    else if n == 4 then 2 * 3_600_000
    else if n == 5 then 5 * 3_600_000
    else 10 * 3_600_000
  }

  // ---- what is left of the queue ----------------------------------------------------

  /** The lease is gone, and nothing has happened to what is pending. */
  predicate Dropped(q: State, q': State, member: Raw) {
    && q'.processing == q.processing - {member}
    && q'.pending == q.pending && q'.ring == q.ring && q'.notify == q.notify
  }

  /** The payload is listed dead, or the dead list is as it was. */
  predicate Listed(q: State, q': State, member: Raw, dies: bool) {
    var all := q.dead + [StripToken(member)];
    q'.dead == if !dies then q.dead else if |all| <= 10_000 then all else all[|all| - 10_000..]
  }

  predicate Records(v: View, v': View, n: int, recorded: bool) {
    v'.records == if recorded && n !in v.records then v.records + [n] else v.records
  }

  // ---- an event ------------------------------------------------------------------------

  /** What an event's row, attempts, sends and payload come to, given how far its run
      got. */
  ghost predicate EventTells(site: Site, member: Raw, v: View, v': View, p: Payload, f: Fate,
                             go: bool, sent: bool, delivered: bool, filtered: bool, broken: bool, failed: bool)
  {
    var n := v.row.attempts + 1;
    var over := failed && p.attempt + 1 > site.maxRetries(p.eventId);
    && (v'.row.status.Delivered? <==> delivered)
    && (v'.row.status.Filtered? <==> filtered)
    && (v'.row.status.Failed? <==> broken || over)
    && (failed && !over ==> v'.row.status.InFlight?)
    && (!go ==> v'.row == v.row)
    && (go ==> v'.row.attempts == n)
    && v'.row.nextRetry == (if delivered || broken || over then None else v.row.nextRetry)
    && v'.posts == v.posts + (if sent then 1 else 0)
    && Records(v, v', n, go && !filtered)
    && Dropped(v.q, v'.q, member)
    && Listed(v.q, v'.q, member, broken || over)
    && v'.q.scheduled == (
         if failed && !over then
           v.q.scheduled[site.codec.enc(p.(attempt := p.attempt + 1)) :=
             f.now + Backoff.Delay(f.policy, p.attempt + 1, f.draw) / 1_000_000]
         else if !go then v.q.scheduled[site.codec.enc(p.(enqueuedAt := f.now)) := f.now + GatePause(site, f)]
         else v.q.scheduled)
  }

  /** An HTTP event with a proper URL, not finished. It is delivered exactly by a send
      answered 200 to 299; filtered by its filter alone; failed when filter or transform
      break, or when the attempt fails with no retry left. Any other attempt leaves the
      payload scheduled, one attempt on, at the backoff; a run the gates turn back leaves
      it scheduled as it is, after their pause. */
  ghost predicate EventAnswer(site: Site, member: Raw, v: View, v': View, p: Payload, f: Fate) {
    var go := Executes(site, EventTask(p.eventId), f);
    var sent := go && f.bodyFound && Passes(f) && f.requestOk;
    var delivered := sent && f.reply.Some? && 200 <= f.reply.value <= 299;
    var filtered := go && f.bodyFound && f.filter.Reject?;
    var broken := go && f.bodyFound && Breaks(f);
    var failed := go && (!f.bodyFound || (Passes(f) && !delivered));
    EventTells(site, member, v, v', p, f, go, sent, delivered, filtered, broken, failed)
  }

  lemma BuriedSeen(q: State, member: Raw)
    ensures Dropped(q, DeadLetter(q, member), member) && Listed(q, DeadLetter(q, member), member, true)
    ensures DeadLetter(q, member).scheduled == q.scheduled
  {
    StripAgrees(member);
  }

  /** The retry tail of an event. */
  ghost predicate FailAnswer(site: Site, member: Raw, v: View, v': View, p: Payload, f: Fate) {
    var over := p.attempt + 1 > site.maxRetries(p.eventId);
    && v'.row == (if over then v.row.(status := Failed, nextRetry := None) else v.row)
    && v'.posts == v.posts && v'.records == v.records
    && Dropped(v.q, v'.q, member) && Listed(v.q, v'.q, member, over)
    && v'.q.scheduled == (if over then v.q.scheduled else v.q.scheduled[site.codec.enc(p.(attempt := p.attempt + 1)) :=
                            f.now + Backoff.Delay(f.policy, p.attempt + 1, f.draw) / 1_000_000])
  }

  lemma EventFailSeen(site: Site, member: Raw, v: View, p: Payload, f: Fate)
    requires p.kind.Delivery?
    ensures FailAnswer(site, member, v, SeeAll(site, TaskOf(p), member, v, EventFail(site, p, f)), p, f)
  {
    var es := EventFail(site, p, f);
    assert es == [es[0], es[1]];
    SeeTwo(site, TaskOf(p), member, v, es[0], es[1]);
    BuriedSeen(v.q, member);
  }

  /** Start, then what comes after it. */
  lemma StartedSeen(site: Site, t: Task, member: Raw, v: View, es: seq<Effect>)
    ensures SeeAll(site, t, member, v, [Start] + es)
         == SeeAll(site, t, member, v.(row := v.row.(status := InFlight, attempts := v.row.attempts + 1)), es)
  {
    SeeCons(site, t, member, v, Start, es);
  }

  function Recorded(v: View, n: int): View { if n in v.records then v else v.(records := v.records + [n]) }

  lemma RecordedSeen(site: Site, t: Task, member: Raw, v: View, n: int, es: seq<Effect>)
    ensures SeeAll(site, t, member, v, [Record(n)] + es) == SeeAll(site, t, member, Recorded(v, n), es)
    ensures SeeAll(site, t, member, v, [Post] + ([Record(n)] + es)) == SeeAll(site, t, member, Recorded(v.(posts := v.posts + 1), n), es)
  {
    SeeCons(site, t, member, v, Record(n), es);
    SeeCons(site, t, member, v, Post, [Record(n)] + es);
    SeeCons(site, t, member, v.(posts := v.posts + 1), Record(n), es);
  }

  lemma CondemnedSeen(site: Site, member: Raw, v: View, t: Task)
    requires t.EventTask?
    ensures var v' := SeeAll(site, t, member, v, [Mark(Failed), Bury]);
            && v' == v.(row := Row(Failed, v.row.attempts, None), q := v'.q)
            && Dropped(v.q, v'.q, member) && Listed(v.q, v'.q, member, true) && v'.q.scheduled == v.q.scheduled
  {
    SeeTwo(site, t, member, v, Mark(Failed), Bury);
    BuriedSeen(v.q, member);
  }

  lemma EndSeen(site: Site, t: Task, member: Raw, v: View, s: Status)
    ensures SeeAll(site, t, member, v, [Mark(s), Drop]) == See(site, t, member, See(site, t, member, v, Mark(s)), Drop)
  {
    SeeTwo(site, t, member, v, Mark(s), Drop);
  }

  /** An attempt that failed, with or without a send. */
  lemma FailedTells(site: Site, member: Raw, v: View, p: Payload, f: Fate, sent: bool)
    requires p.kind.Delivery?
    ensures var (n, fail) := (v.row.attempts + 1, EventFail(site, p, f));
            var es := [Start] + if sent then [Post] + ([Record(n)] + fail) else [Record(n)] + fail;
            EventTells(site, member, v, SeeAll(site, TaskOf(p), member, v, es), p, f, true, sent, false, false, false, true)
  {
    var (t, n) := (TaskOf(p), v.row.attempts + 1);
    var fail := EventFail(site, p, f);
    var v1 := v.(row := v.row.(status := InFlight, attempts := n));
    StartedSeen(site, t, member, v, if sent then [Post] + ([Record(n)] + fail) else [Record(n)] + fail);
    RecordedSeen(site, t, member, v1, n, fail);
    EventFailSeen(site, member, Recorded(if sent then v1.(posts := v1.posts + 1) else v1, n), p, f);
  }

  lemma BrokenTells(site: Site, member: Raw, v: View, p: Payload, f: Fate)
    requires p.kind.Delivery?
    ensures var es := [Start] + ([Record(v.row.attempts + 1)] + [Mark(Failed), Bury]);
            EventTells(site, member, v, SeeAll(site, TaskOf(p), member, v, es), p, f, true, false, false, false, true, false)
  {
    var (t, n) := (TaskOf(p), v.row.attempts + 1);
    var v1 := v.(row := v.row.(status := InFlight, attempts := n));
    StartedSeen(site, t, member, v, [Record(n)] + [Mark(Failed), Bury]);
    RecordedSeen(site, t, member, v1, n, [Mark(Failed), Bury]);
    CondemnedSeen(site, member, Recorded(v1, n), t);
  }

  lemma FilteredTells(site: Site, member: Raw, v: View, p: Payload, f: Fate)
    requires p.kind.Delivery?
    ensures EventTells(site, member, v, SeeAll(site, TaskOf(p), member, v, [Start] + [Mark(Filtered), Drop]), p, f,
                       true, false, false, true, false, false)
  {
    StartedSeen(site, TaskOf(p), member, v, [Mark(Filtered), Drop]);
    EndSeen(site, TaskOf(p), member, v.(row := v.row.(status := InFlight, attempts := v.row.attempts + 1)), Filtered);
  }

  lemma DeliveredTells(site: Site, member: Raw, v: View, p: Payload, f: Fate)
    requires p.kind.Delivery?
    ensures var es := [Start] + ([Post] + ([Record(v.row.attempts + 1)] + [Mark(Delivered), Drop]));
            EventTells(site, member, v, SeeAll(site, TaskOf(p), member, v, es), p, f, true, true, true, false, false, false)
  {
    var (t, n) := (TaskOf(p), v.row.attempts + 1);
    var v1 := v.(row := v.row.(status := InFlight, attempts := n));
    StartedSeen(site, t, member, v, [Post] + ([Record(n)] + [Mark(Delivered), Drop]));
    RecordedSeen(site, t, member, v1, n, [Mark(Delivered), Drop]);
    EndSeen(site, t, member, Recorded(v1.(posts := v1.posts + 1), n), Delivered);
  }

  lemma EventSendAnswer(site: Site, member: Raw, v: View, p: Payload, f: Fate)
    requires p.kind.Delivery? && Executes(site, TaskOf(p), f)
    ensures EventAnswer(site, member, v, SeeAll(site, TaskOf(p), member, v, EventSend(site, v.row, p, f)), p, f)
  {
    var (n, fail, es) := (v.row.attempts + 1, EventFail(site, p, f), EventSend(site, v.row, p, f));
    if !f.bodyFound || (Passes(f) && !f.requestOk) {
      FailedTells(site, member, v, p, f, false);
      assert es == [Start] + ([Record(n)] + fail);
    } else if f.filter.Reject? {
      FilteredTells(site, member, v, p, f);
      assert es == [Start] + [Mark(Filtered), Drop];
    } else if Breaks(f) {
      BrokenTells(site, member, v, p, f);
      assert es == [Start] + ([Record(n)] + [Mark(Failed), Bury]);
    } else if Success(f.reply) {
      DeliveredTells(site, member, v, p, f);
      assert es == [Start] + ([Post] + ([Record(n)] + [Mark(Delivered), Drop]));
    } else {
      FailedTells(site, member, v, p, f, true);
      assert es == [Start] + ([Post] + ([Record(n)] + fail));
    }
  }

  /** A run the gates turn back: the same payload again after their pause, and nothing
      else. */
  ghost predicate TurnedBack(site: Site, member: Raw, v: View, v': View, p: Payload, f: Fate, pause: int) {
    && v'.row == v.row && v'.posts == v.posts && v'.records == v.records
    && Dropped(v.q, v'.q, member) && Listed(v.q, v'.q, member, false)
    && v'.q.scheduled == v.q.scheduled[site.codec.enc(p.(enqueuedAt := f.now)) := f.now + pause]
  }

  lemma DeferralSeen(site: Site, t: Task, member: Raw, v: View, p: Payload, f: Fate, pause: int)
    ensures TurnedBack(site, member, v, SeeAll(site, t, member, v, Deferral(p, f, pause)), p, f, pause)
  {
    SeeTwo(site, t, member, v, Defer(p.(enqueuedAt := f.now), f.now + pause), Drop);
  }

  lemma EventGatedAnswer(site: Site, member: Raw, v: View, p: Payload, f: Fate)
    requires p.kind.Delivery? && PastOrg(site, f) && !EventTerminal(v.row.status)
    ensures EventAnswer(site, member, v, SeeAll(site, TaskOf(p), member, v, EventGated(site, v.row, p, f)), p, f)
  {
    var t := TaskOf(p);
    if Executes(site, t, f) {
      EventSendAnswer(site, member, v, p, f);
      SlotUnseen(site, t, member, v, DestSlot, EventSend(site, v.row, p, f));
    } else {
      DeferralSeen(site, t, member, v, p, f, GatePause(site, f));
      SlotUnseen(site, t, member, v, DestSlot, Deferral(p, f, 250));
    }
  }

  lemma EventGateAnswer(site: Site, member: Raw, v: View, p: Payload, f: Fate)
    requires p.kind.Delivery? && !EventTerminal(v.row.status)
    ensures EventAnswer(site, member, v, SeeAll(site, TaskOf(p), member, v, OrgGate(site, p, f, EventGated(site, v.row, p, f))), p, f)
  {
    var t := TaskOf(p);
    if PastOrg(site, f) {
      EventGatedAnswer(site, member, v, p, f);
      SlotUnseen(site, t, member, v, OrgSlot, EventGated(site, v.row, p, f));
    } else {
      DeferralSeen(site, t, member, v, p, f, 500);
      SlotUnseen(site, t, member, v, OrgSlot, Deferral(p, f, 500));
    }
  }

  lemma EventOutcome(site: Site, w: World, member: Raw, p: Payload, f: Fate)
    requires p.kind.Delivery? && TaskOf(p) in w.rows && !EventTerminal(w.rows[TaskOf(p)].status)
    requires site.destKind(p.eventId).Http? && f.hasUrl && f.urlOk
    ensures var w' := PerformAll(site, w, TaskOf(p), member, Plan(site, w.rows, p, f));
            TaskOf(p) in w'.rows && EventAnswer(site, member, ViewOf(w, TaskOf(p)), ViewOf(w', TaskOf(p)), p, f)
  {
    AllSeen(site, w, TaskOf(p), member, Plan(site, w.rows, p, f));
    EventGateAnswer(site, member, ViewOf(w, TaskOf(p)), p, f);
  }

  /** An event that can never be sent: no HTTP destination, no URL, or one refused. */
  lemma HopelessEvent(site: Site, w: World, member: Raw, p: Payload, f: Fate)
    requires p.kind.Delivery? && TaskOf(p) in w.rows && !EventTerminal(w.rows[TaskOf(p)].status)
    requires !site.destKind(p.eventId).Cli? && !(site.destKind(p.eventId).Http? && f.hasUrl && f.urlOk)
    ensures var w' := PerformAll(site, w, TaskOf(p), member, Plan(site, w.rows, p, f));
            && TaskOf(p) in w'.rows
            && var (v, v') := (ViewOf(w, TaskOf(p)), ViewOf(w', TaskOf(p)));
            && v'.row == Row(Failed, v.row.attempts, None) && v'.posts == v.posts
            && Records(v, v', v.row.attempts + 1, true)
            && Dropped(v.q, v'.q, member) && Listed(v.q, v'.q, member, true) && v'.q.scheduled == v.q.scheduled
  {
    var (t, v) := (TaskOf(p), ViewOf(w, TaskOf(p)));
    AllSeen(site, w, t, member, Plan(site, w.rows, p, f));
    SeeThree(site, t, member, v, Record(v.row.attempts + 1), Mark(Failed), Bury);
    BuriedSeen(v.q, member);
  }

  /** An event for the tunnel: handed to a live one and left to it, discarded when none
      will come (a manual retry, or the grace period over), and otherwise back in 15 s. */
  lemma TunnelEvent(site: Site, w: World, member: Raw, p: Payload, f: Fate)
    requires p.kind.Delivery? && TaskOf(p) in w.rows && !EventTerminal(w.rows[TaskOf(p)].status)
    requires site.destKind(p.eventId).Cli?
    ensures var w' := PerformAll(site, w, TaskOf(p), member, Plan(site, w.rows, p, f));
            && TaskOf(p) in w'.rows
            && var (v, v') := (ViewOf(w, TaskOf(p)), ViewOf(w', TaskOf(p)));
            var dropped := !f.cliConnected && (p.manual || f.cliExpired);
            var waits := !f.cliConnected && !dropped;
            && w'.dispatched == (if f.cliConnected then w.dispatched + [TaskOf(p)] else w.dispatched)
            && v'.row == (if dropped then Row(Discarded, v.row.attempts, None)
                          else if waits then Row(Queued, v.row.attempts, Some(f.now + 15_000)) else v.row)
            && v'.posts == v.posts && v'.records == v.records
            && Dropped(v.q, v'.q, member) && Listed(v.q, v'.q, member, false)
            && v'.q.scheduled == if waits then v.q.scheduled[site.codec.enc(p.(enqueuedAt := f.now)) := f.now + 15_000] else v.q.scheduled
  {
    var (t, v, es) := (TaskOf(p), ViewOf(w, TaskOf(p)), EventCli(p, f));
    AllSeen(site, w, t, member, es);
    DispatchedBy(site, w, t, member, es);
    if f.cliConnected {
      SeeTwo(site, t, member, v, HandOff, Drop);
    } else if p.manual || f.cliExpired {
      SeeTwo(site, t, member, v, Mark(Discarded), Drop);
    } else {
      SeeCons(site, t, member, v, Hold(f.now + 15_000), Deferral(p, f, 15_000));
      DeferralSeen(site, t, member, See(site, t, member, v, Hold(f.now + 15_000)), p, f, 15_000);
    }
  }

  lemma DispatchedBy(site: Site, w: World, t: Task, member: Raw, es: seq<Effect>)
    requires 0 < |es| <= 3 && forall i :: 1 <= i < |es| ==> !es[i].HandOff?
    ensures PerformAll(site, w, t, member, es).dispatched == if es[0].HandOff? then w.dispatched + [t] else w.dispatched
  {
    NoHandOff(site, Perform(site, w, t, member, es[0]), t, member, es[1..]);
    PerformFront(site, w, t, member, es);
  }

  lemma NotHandedOff(site: Site, w: World, t: Task, member: Raw, e: Effect)
    requires !e.HandOff?
    ensures Perform(site, w, t, member, e).dispatched == w.dispatched
  {
  }

  lemma {:induction false} NoHandOff(site: Site, w: World, t: Task, member: Raw, es: seq<Effect>)
    requires forall i :: 0 <= i < |es| ==> !es[i].HandOff?
    ensures PerformAll(site, w, t, member, es).dispatched == w.dispatched
    decreases |es|
  {
    if es != [] {
      var n := |es| - 1;
      NoHandOff(site, w, t, member, es[..n]);
      NotHandedOff(site, PerformAll(site, w, t, member, es[..n]), t, member, es[n]);
    }
  }

  /** A finished row, or none: the lease is dropped and nothing else happens. */
  lemma FinishedRun(site: Site, w: World, member: Raw, p: Payload, f: Fate)
    requires !p.kind.Email? && (p.kind.Message? ==> p.data.Some?)
    requires TaskOf(p) in w.rows ==>
               var s := w.rows[TaskOf(p)].status;
               s == Delivered || s == Filtered || s == Dead
               || (p.kind.Delivery? && (s == Failed || s == Discarded)) || (p.kind.Message? && s == Disabled)
    ensures PerformAll(site, w, TaskOf(p), member, Plan(site, w.rows, p, f)) == w.(q := Ack(w.q, member))
  {
    assert Plan(site, w.rows, p, f) == [Drop];
    PerformFront(site, w, TaskOf(p), member, [Drop]);
  }
}
