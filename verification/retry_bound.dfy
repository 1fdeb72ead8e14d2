/** The retry budget over every run of the whole system: how often one event or one
    email can be sent. */
module RetryBound {
  import opened Lease
  import opened QueueModel
  import opened Copies
  import opened Payloads
  import opened Handlers
  import opened System
  import opened Custody
  import opened Ownership
  import opened Sums
  import Fairness

  /** max_retries of the event; the mailer's two retries. */
  function Limit(site: Site, t: Task): int {
    match t
    case EventTask(id) => site.maxRetries(id)
    case _ => |EMAIL_BACKOFF|
  }

  /** Sends a copy at this attempt count may still lead to. */
  function Weight(limit: int, attempt: nat): nat {
    if attempt <= limit then limit + 1 - attempt else 1
  }

  function Worth(site: Site, t: Task, raw: Raw): nat {
    match site.codec.dec(raw)
    case Some(p) => if TaskOf(p) == t then Weight(Limit(site, t), p.attempt) else 0
    case None => 0
  }

  function Worths(site: Site, t: Task): Raw -> nat { raw => Worth(site, t, raw) }

  /** Sends ahead in a run, plus the worth of the successors it will schedule. */
  function CostOf(site: Site, t: Task, own: bool, e: Effect): nat {
    match e
    case Post => if own then 1 else 0
    case Defer(p, _) => Worth(site, t, site.codec.enc(p))
    case _ => 0
  }

  function Cost(site: Site, t: Task, own: bool, todo: seq<Effect>): nat {
    if todo == [] then 0 else CostOf(site, t, own, todo[0]) + Cost(site, t, own, todo[1..])
  }

  // ---- a run costs no more than its copy is worth ------------------------------

  lemma {:induction false} CostJoin(site: Site, t: Task, own: bool, a: seq<Effect>, b: seq<Effect>)
    ensures Cost(site, t, own, a + b) == Cost(site, t, own, a) + Cost(site, t, own, b)
    decreases |a|
  {
    if a == [] {
      assert a + b == b;
    } else {
      assert (a + b)[0] == a[0] && (a + b)[1..] == a[1..] + b;
      CostJoin(site, t, own, a[1..], b);
    }
  }

  lemma {:induction false} FreeCost(site: Site, t: Task, own: bool, es: seq<Effect>)
    requires forall i :: 0 <= i < |es| ==> CostOf(site, t, own, es[i]) == 0
    ensures Cost(site, t, own, es) == 0
  {
    if es != [] { FreeCost(site, t, own, es[1..]); }
  }

  lemma CostCons(site: Site, t: Task, own: bool, e: Effect, es: seq<Effect>)
    ensures Cost(site, t, own, [e] + es) == CostOf(site, t, own, e) + Cost(site, t, own, es)
  {
    assert ([e] + es)[1..] == es;
  }

  lemma DeferCost(site: Site, t: Task, own: bool, p: Payload, at: int)
    requires site.codec.Valid()
    ensures Cost(site, t, own, [Defer(p, at), Drop]) == if TaskOf(p) == t then Weight(Limit(site, t), p.attempt) else 0
  {
    FreeCost(site, t, own, [Drop]);
    CostCons(site, t, own, Defer(p, at), [Drop]);
    assert [Defer(p, at), Drop] == [Defer(p, at)] + [Drop];
  }

  lemma EventFailCost(site: Site, t: Task, p: Payload, f: Fate)
    requires site.codec.Valid() && TaskOf(p) == t && t.EventTask?
    ensures Cost(site, t, true, EventFail(site, p, f)) < Weight(Limit(site, t), p.attempt)
  {
    var p' := p.(attempt := p.attempt + 1);
    assert TaskOf(p') == t;
    if p'.attempt > site.maxRetries(p.eventId) {
      FreeCost(site, t, true, EventFail(site, p, f));
    } else {
      DeferCost(site, t, true, p', EventFail(site, p, f)[0].at);
    }
  }

  /** What comes after MarkEventInFlight. */
  lemma AttemptCost(site: Site, t: Task, n: int, p: Payload, f: Fate)
    requires site.codec.Valid() && TaskOf(p) == t && t.EventTask?
    ensures var fail := [Record(n)] + EventFail(site, p, f);
            && Cost(site, t, true, fail) < Weight(Limit(site, t), p.attempt)
            && Cost(site, t, true, [Post] + fail) <= Weight(Limit(site, t), p.attempt)
    ensures Cost(site, t, true, [Record(n), Mark(Failed), Bury]) == 0
    ensures Cost(site, t, true, [Mark(Filtered), Drop]) == 0
    ensures Cost(site, t, true, [Post, Record(n), Mark(Delivered), Drop]) == 1
  {
    var tail := EventFail(site, p, f);
    EventFailCost(site, t, p, f);
    CostCons(site, t, true, Record(n), tail);
    CostCons(site, t, true, Post, [Record(n)] + tail);
    FreeCost(site, t, true, [Record(n), Mark(Failed), Bury]);
    FreeCost(site, t, true, [Mark(Filtered), Drop]);
    FreeCost(site, t, true, [Record(n), Mark(Delivered), Drop]);
    CostCons(site, t, true, Post, [Record(n), Mark(Delivered), Drop]);
    assert [Post, Record(n), Mark(Delivered), Drop] == [Post] + [Record(n), Mark(Delivered), Drop];
  }

  lemma EventSendCost(site: Site, t: Task, row: Row, p: Payload, f: Fate)
    requires site.codec.Valid() && TaskOf(p) == t && t.EventTask?
    ensures Cost(site, t, true, EventSend(site, row, p, f)) <= Weight(Limit(site, t), p.attempt)
  {
    var n := row.attempts + 1;
    AttemptCost(site, t, n, p, f);
    var rest := EventSend(site, row, p, f)[1..];
    assert EventSend(site, row, p, f) == [Start] + rest;
    CostCons(site, t, true, Start, rest);
    assert [Post, Record(n)] + EventFail(site, p, f) == [Post] + ([Record(n)] + EventFail(site, p, f));
  }

  lemma SlotCost(site: Site, t: Task, own: bool, slot: Slot, es: seq<Effect>)
    ensures Cost(site, t, own, [Take(slot)] + es + [Give(slot)]) == Cost(site, t, own, es)
    ensures Cost(site, t, own, [Take(slot), Give(slot)] + es) == Cost(site, t, own, es)
  {
    FreeCost(site, t, own, [Take(slot)]);
    FreeCost(site, t, own, [Give(slot)]);
    FreeCost(site, t, own, [Take(slot), Give(slot)]);
    CostJoin(site, t, own, [Take(slot)], es);
    CostJoin(site, t, own, [Take(slot)] + es, [Give(slot)]);
    CostJoin(site, t, own, [Take(slot), Give(slot)], es);
  }

  lemma DeferralCost(site: Site, t: Task, own: bool, p: Payload, f: Fate, delay: int)
    requires site.codec.Valid()
    ensures Cost(site, t, own, Deferral(p, f, delay)) == if TaskOf(p) == t then Weight(Limit(site, t), p.attempt) else 0
  {
    var p' := p.(enqueuedAt := f.now);
    assert TaskOf(p') == TaskOf(p);
    DeferCost(site, t, own, p', f.now + delay);
  }

  lemma EventGatedCost(site: Site, t: Task, row: Row, p: Payload, f: Fate)
    requires site.codec.Valid() && TaskOf(p) == t && t.EventTask?
    ensures Cost(site, t, true, EventGated(site, row, p, f)) <= Weight(Limit(site, t), p.attempt)
  {
    EventSendCost(site, t, row, p, f);
    SlotCost(site, t, true, DestSlot, EventSend(site, row, p, f));
    SlotCost(site, t, true, DestSlot, Deferral(p, f, 250));
    DeferralCost(site, t, true, p, f, 250);
    DeferralCost(site, t, true, p, f, if f.rateLimited.Some? && f.rateLimited.value > 0 then f.rateLimited.value else 100);
  }

  lemma GateCost(site: Site, t: Task, p: Payload, f: Fate, inner: seq<Effect>)
    requires site.codec.Valid() && TaskOf(p) == t
    requires Cost(site, t, true, inner) <= Weight(Limit(site, t), p.attempt)
    ensures Cost(site, t, true, OrgGate(site, p, f, inner)) <= Weight(Limit(site, t), p.attempt)
  {
    SlotCost(site, t, true, OrgSlot, inner);
    SlotCost(site, t, true, OrgSlot, Deferral(p, f, 500));
    DeferralCost(site, t, true, p, f, 500);
  }

  lemma EventPlanCost(site: Site, t: Task, row: Option<Row>, p: Payload, f: Fate)
    requires site.codec.Valid() && TaskOf(p) == t && t.EventTask?
    ensures Cost(site, t, true, EventPlan(site, row, p, f)) <= Weight(Limit(site, t), p.attempt)
  {
    var es := EventPlan(site, row, p, f);
    if row.None? || EventTerminal(row.value.status) {
      FreeCost(site, t, true, es);
    } else if site.destKind(p.eventId).Cli? {
      DeferralCost(site, t, true, p, f, 15_000);
      CostCons(site, t, true, Hold(f.now + 15_000), Deferral(p, f, 15_000));
      if f.cliConnected || p.manual || f.cliExpired { FreeCost(site, t, true, es); }
    } else if !site.destKind(p.eventId).Http? || !f.hasUrl || !f.urlOk {
      FreeCost(site, t, true, es);
    } else {
      EventGatedCost(site, t, row.value, p, f);
      GateCost(site, t, p, f, EventGated(site, row.value, p, f));
    }
  }

  lemma EmailPlanCost(site: Site, t: Task, p: Payload, f: Fate)
    requires site.codec.Valid() && TaskOf(p) == t && t.EmailTask?
    ensures Cost(site, t, true, EmailPlan(p, f)) <= Weight(Limit(site, t), p.attempt)
  {
    var es := EmailPlan(p, f);
    if es[0].Post? {
      assert es == [Post] + es[1..];
      CostCons(site, t, true, Post, es[1..]);
      if es[1].Defer? {
        assert es[1..] == [es[1], Drop];
        assert TaskOf(es[1].p) == t;
        DeferCost(site, t, true, es[1].p, es[1].at);
      } else {
        FreeCost(site, t, true, es[1..]);
      }
    } else {
      FreeCost(site, t, true, es);
    }
  }

  lemma {:induction false} ForeignCost(site: Site, t: Task, u: Task, es: seq<Effect>)
    requires site.codec.Valid() && u != t && OwnTask(es, u)
    ensures Cost(site, t, false, es) == 0
  {
    if es != [] {
      assert forall i :: 0 <= i < |es| - 1 ==> es[1..][i] == es[i + 1];
      ForeignCost(site, t, u, es[1..]);
    }
  }

  predicate Counted(t: Task) { t.EventTask? || t.EmailTask? }

  /** What a run may send, now or through its successor, fits in its copy's worth. */
  lemma PlanCost(site: Site, rows: map<Task, Row>, t: Task, raw: Raw, f: Fate)
    requires site.codec.Valid() && Counted(t) && site.codec.dec(raw).Some?
    ensures Cost(site, t, TaskOfRaw(site, raw) == t, Plan(site, rows, site.codec.dec(raw).value, f)) <= Worth(site, t, raw)
  {
    var p := site.codec.dec(raw).value;
    var u := TaskOf(p);
    if u != t {
      PlanOwnTask(site, rows, p, f);
      ForeignCost(site, t, u, Plan(site, rows, p, f));
    } else if t.EventTask? {
      EventPlanCost(site, t, if t in rows then Some(rows[t]) else None, p, f);
    } else {
      EmailPlanCost(site, t, p, f);
    }
  }

  // ---- the ledger of one task -------------------------------------------------

  /** The most any copy is worth: max_retries + 1 sends, and never less than one. */
  function PerCopy(site: Site, t: Task): nat { Weight(Limit(site, t), 0) }

  lemma WorthBound(site: Site, t: Task, raw: Raw)
    ensures Worth(site, t, raw) <= if TaskOfRaw(site, raw) == t then PerCopy(site, t) else 0
  {
  }

  function Held(s: Sys): set<Raw> { set w | w in s.jobs :: s.jobs[w].member }

  /** The copies no worker holds, one by one. */
  ghost function Settle(site: Site, s: Sys, resting: multiset<Raw>, m: Move): multiset<Raw>
    requires Enabled(site, s, m)
  {
    match m
    case Lease(w, deadline, token) =>
      var got := FairPick(s.w.q, deadline, token).got;
      if got.Some? then resting - multiset{StripToken(got.value)} else resting
    case Exec(w) =>
      var e := s.jobs[w].todo[0];
      if e.Defer? && site.codec.enc(e.p) !in s.w.q.scheduled then resting + multiset{site.codec.enc(e.p)} else resting
    case Quit(w) =>
      if s.jobs[w].member in s.w.q.processing then resting + multiset{StripToken(s.jobs[w].member)} else resting
    case QueueMove(op) =>
      if op.DoRecover? then resting - Merged(s.w.q, op.now, Due(s.w.q.processing, op.now))
      else resting + Added(s.w.q, op)
    case Accept(p) => resting + multiset{site.codec.enc(p)}
    case _ => resting
  }

  /** The copy a queue move brings in from outside, if any. */
  function Added(q: State, op: Op): multiset<Raw> {
    match op
    case DoEnqueue(_, raw) => multiset{raw}
    case DoSchedule(raw, _) => if raw in q.scheduled then multiset{} else multiset{raw}
    case DoRequeueDead(oldRaw, newRaw) => if oldRaw in q.dead then multiset{newRaw} else multiset{}
    case _ => multiset{}
  }

  function OneEach(site: Site, t: Task): Raw -> nat { raw => if TaskOfRaw(site, raw) == t then 1 else 0 }

  /** Copies of t brought in by one move: an enqueue (ingest, publish, retry, reaper),
      a first schedule, a dead-list requeue, an accepted email. */
  ghost function Entered(site: Site, t: Task, s: Sys, m: Move): nat {
    match m
    case Accept(p) => if TaskOf(p) == t then 1 else 0
    case QueueMove(op) => SumOver(OneEach(site, t), Added(s.w.q, op))
    case _ => 0
  }

  /** 1 when a run on t ends with its lease still in place: a crash, an error return. */
  ghost function Abandoned(site: Site, t: Task, s: Sys, m: Move): nat
    requires Enabled(site, s, m)
  {
    if m.Quit? && s.jobs[m.w].member in s.w.q.processing && TaskAt(site, s.jobs[m.w].member) == t then 1 else 0
  }

  /** Over a whole run: the copies of t that entered the queue, and the runs on t that
      ended without dropping their lease. */
  ghost function Chances(site: Site, t: Task, s: Sys, moves: seq<Move>): nat
    requires Runs(site, s, moves)
    decreases |moves|
  {
    if moves == [] then 0
    else Entered(site, t, s, moves[0]) + Abandoned(site, t, s, moves[0])
         + Chances(site, t, Step(site, s, moves[0]), moves[1..])
  }

  function JobCost(site: Site, t: Task, job: Job): nat {
    match job
    case Picked(m) => Worth(site, t, StripToken(m))
    case Running(m, todo) => Cost(site, t, TaskAt(site, m) == t, todo)
  }

  function Costs(site: Site, t: Task, s: Sys): map<Worker, nat> {
    map w | w in s.jobs :: JobCost(site, t, s.jobs[w])
  }

  ghost predicate Counts(site: Site, s: Sys, resting: multiset<Raw>) {
    forall r :: resting[r] == Count(site.codec.OrgOf, s.w.q, Held(s), r)
  }

  /** Sends made, plus what resting copies and running workers may still send. */
  ghost function Outlay(site: Site, t: Task, s: Sys, resting: multiset<Raw>): nat {
    s.w.posts[t] + SumOver(Worths(site, t), resting) + Total(Costs(site, t, s))
  }

  /** One move's books: the copies stay counted, and the outlay grows by at most
      `extra`. */
  ghost predicate Grows(site: Site, t: Task, s: Sys, resting: multiset<Raw>, s': Sys, resting': multiset<Raw>, extra: nat) {
    && Counts(site, s', resting')
    && Outlay(site, t, s', resting') <= Outlay(site, t, s, resting) + extra
  }

  // ---- the moves ---------------------------------------------------------------

  lemma LeaseCounts(site: Site, s: Sys, resting: multiset<Raw>, w: Worker, deadline: int, token: Token)
    requires LeasesOk(site, s) && Counts(site, s, resting) && w !in s.jobs && token !in s.used
    requires FairPick(s.w.q, deadline, token).got.Some?
    ensures var raw := StripToken(FairPick(s.w.q, deadline, token).got.value);
            Counts(site, LeaseStep(s, w, deadline, token), resting - multiset{raw}) && raw in resting
  {
    var s' := LeaseStep(s, w, deadline, token);
    var got := FairPick(s.w.q, deadline, token).got;
    FreshPick(site, s, deadline, token);
    HeldWith(s, w, Picked(got.value));
    assert Held(s') == Held(s) + {got.value};
    PickCount(site.codec.OrgOf, s.w.q, deadline, token, Held(s), StripToken(got.value));
    forall r ensures (resting - multiset{StripToken(got.value)})[r] == Count(site.codec.OrgOf, s'.w.q, Held(s'), r) {
      PickCount(site.codec.OrgOf, s.w.q, deadline, token, Held(s), r);
    }
  }

  lemma LeaseGrows(site: Site, t: Task, s: Sys, resting: multiset<Raw>, w: Worker, deadline: int, token: Token)
    requires LeasesOk(site, s) && Counts(site, s, resting) && w !in s.jobs && token !in s.used
    requires FairPick(s.w.q, deadline, token).got.Some?
    ensures Grows(site, t, s, resting, LeaseStep(s, w, deadline, token),
                  resting - multiset{StripToken(FairPick(s.w.q, deadline, token).got.value)}, 0)
  {
    var got := FairPick(s.w.q, deadline, token).got;
    var raw := StripToken(got.value);
    LeaseCounts(site, s, resting, w, deadline, token);
    SumPick(Worths(site, t), resting, raw);
    CostsWith(site, t, s, w, Picked(got.value));
    assert Costs(site, t, LeaseStep(s, w, deadline, token)) == Costs(site, t, s.(jobs := s.jobs[w := Picked(got.value)]));
  }

  /** An empty pick, and every move on the rows alone. */
  lemma IdleGrows(site: Site, t: Task, s: Sys, resting: multiset<Raw>, s': Sys)
    requires Counts(site, s, resting) && s'.jobs == s.jobs && s'.w.q == s.w.q && s'.w.posts == s.w.posts
    ensures Grows(site, t, s, resting, s', resting, 0)
  {
    assert Held(s') == Held(s);
    assert Costs(site, t, s') == Costs(site, t, s);
  }

  lemma EmptyPick(s: Sys, w: Worker, deadline: int, token: Token)
    requires forall o :: o in s.w.q.ring ==> ListAt(s.w.q.pending, o) != []
    requires FairPick(s.w.q, deadline, token).got.None?
    ensures LeaseStep(s, w, deadline, token).w == s.w && LeaseStep(s, w, deadline, token).jobs == s.jobs
  {
  }

  lemma LoadGrows(site: Site, t: Task, s: Sys, resting: multiset<Raw>, w: Worker, f: Fate)
    requires site.codec.Valid() && Counted(t) && Counts(site, s, resting)
    requires w in s.jobs && s.jobs[w].Picked? && site.codec.dec(StripToken(s.jobs[w].member)).Some?
    ensures Grows(site, t, s, resting, LoadStep(site, s, w, f), resting, 0)
  {
    var s' := LoadStep(site, s, w, f);
    var m := s.jobs[w].member;
    PlanCost(site, s.w.rows, t, StripToken(m), f);
    HeldWith(s, w, s'.jobs[w]);
    assert Held(s) + {m} == Held(s);
    CostsWith(site, t, s, w, s'.jobs[w]);
    assert s' == s.(jobs := s.jobs[w := s'.jobs[w]]);
  }

  lemma UnheldBy(s: Sys, w: Worker)
    requires HeldApart(s) && w in s.jobs
    ensures Held(s.(jobs := s.jobs - {w})) == Held(s) - {s.jobs[w].member}
  {
    var s' := s.(jobs := s.jobs - {w});
    forall m ensures m in Held(s') <==> m in Held(s) - {s.jobs[w].member} {
      if m in Held(s) - {s.jobs[w].member} {
        var v :| v in s.jobs && s.jobs[v].member == m;
        assert v in s'.jobs;
      }
    }
  }

  lemma Unhide(orgOf: Raw -> Org, q: State, h: set<Raw>, m: Raw, r: Raw)
    requires m in h
    ensures Count(orgOf, q, h - {m}, r)
         == Count(orgOf, q, h, r) + (if m in q.processing && StripToken(m) == r then 1 else 0)
  {
    if m in q.processing && StripToken(m) == r {
      assert Leases(q.processing, h - {m}, r) == Leases(q.processing, h, r) + {m};
    } else {
      assert Leases(q.processing, h - {m}, r) == Leases(q.processing, h, r);
    }
  }

  lemma QuitCounts(site: Site, s: Sys, resting: multiset<Raw>, w: Worker)
    requires LeasesOk(site, s) && Counts(site, s, resting) && w in s.jobs
    ensures var m := s.jobs[w].member;
            var back := if m in s.w.q.processing then multiset{StripToken(m)} else multiset{};
            Counts(site, s.(jobs := s.jobs - {w}), resting + back)
  {
    var s' := s.(jobs := s.jobs - {w});
    var m := s.jobs[w].member;
    UnheldBy(s, w);
    forall r ensures Count(site.codec.OrgOf, s.w.q, Held(s'), r)
                     == resting[r] + (if m in s.w.q.processing && StripToken(m) == r then 1 else 0) {
      Unhide(site.codec.OrgOf, s.w.q, Held(s), m, r);
    }
  }

  lemma CostsWithout(site: Site, t: Task, s: Sys, w: Worker)
    requires w in s.jobs
    ensures Total(Costs(site, t, s.(jobs := s.jobs - {w}))) <= Total(Costs(site, t, s))
  {
    TotalPick(Costs(site, t, s), w);
    assert Costs(site, t, s.(jobs := s.jobs - {w})) == Costs(site, t, s) - {w};
  }

  lemma QuitOutlay(site: Site, t: Task, s: Sys, resting: multiset<Raw>, w: Worker)
    requires w in s.jobs
    ensures var m := s.jobs[w].member;
            Outlay(site, t, s.(jobs := s.jobs - {w}), resting + multiset{StripToken(m)})
            <= Outlay(site, t, s, resting) + Worth(site, t, StripToken(m))
    ensures Outlay(site, t, s.(jobs := s.jobs - {w}), resting) <= Outlay(site, t, s, resting)
  {
    SumInsert(Worths(site, t), resting, StripToken(s.jobs[w].member));
    CostsWithout(site, t, s, w);
  }

  /** One effect: what it sends or schedules was already in the run's cost. */
  lemma ExecOutlay(site: Site, t: Task, s: Sys, w: Worker)
    requires CanExec(s, w)
    ensures var e := s.jobs[w].todo[0];
            var s' := ExecStep(site, s, w);
            && Held(s') == Held(s)
            && s'.w.posts[t] + Total(Costs(site, t, s')) + (if e.Defer? then Worth(site, t, site.codec.enc(e.p)) else 0)
               == s.w.posts[t] + Total(Costs(site, t, s))
  {
    var job := s.jobs[w];
    var s' := ExecStep(site, s, w);
    var job' := Running(job.member, job.todo[1..]);
    HeldWith(s, w, job');
    assert Held(s') == Held(s.(jobs := s.jobs[w := job'])) == Held(s) + {job.member} == Held(s);
    CostsWith(site, t, s, w, job');
    assert Costs(site, t, s') == Costs(site, t, s.(jobs := s.jobs[w := job']));
    PerformPosts(site, s.w, TaskAt(site, job.member), job.member, job.todo[0], t);
  }

  lemma PerformPosts(site: Site, w: World, u: Task, member: Raw, e: Effect, t: Task)
    ensures Perform(site, w, u, member, e).posts[t] == w.posts[t] + (if e.Post? && u == t then 1 else 0)
  {
  }

  lemma ExecCounts(site: Site, s: Sys, resting: multiset<Raw>, w: Worker)
    requires Counts(site, s, resting) && CanExec(s, w)
    requires Held(ExecStep(site, s, w)) == Held(s)
    ensures var e := s.jobs[w].todo[0];
            Counts(site, ExecStep(site, s, w),
              if e.Defer? && site.codec.enc(e.p) !in s.w.q.scheduled then resting + multiset{site.codec.enc(e.p)} else resting)
  {
    var (e, m, q, orgOf) := (s.jobs[w].todo[0], s.jobs[w].member, s.w.q, site.codec.OrgOf);
    if Drops(e) {
      assert m in Held(s);
      forall r ensures Count(orgOf, ExecStep(site, s, w).w.q, Held(s), r) == resting[r] {
        DropCount(orgOf, q, m, Held(s), r);
      }
    } else if e.Defer? {
      forall r ensures Count(orgOf, ExecStep(site, s, w).w.q, Held(s), r)
                       == resting[r] + (if r == site.codec.enc(e.p) && r !in q.scheduled then 1 else 0) {
        ScheduleCount(orgOf, q, site.codec.enc(e.p), e.at, Held(s), r);
      }
    } else {
      QueueUntouched(site, s.w, TaskAt(site, m), m, e);
    }
  }

  lemma ExecGrows(site: Site, t: Task, s: Sys, resting: multiset<Raw>, w: Worker)
    requires Counts(site, s, resting) && CanExec(s, w)
    ensures var e := s.jobs[w].todo[0];
            Grows(site, t, s, resting, ExecStep(site, s, w),
              if e.Defer? && site.codec.enc(e.p) !in s.w.q.scheduled then resting + multiset{site.codec.enc(e.p)} else resting, 0)
  {
    var e := s.jobs[w].todo[0];
    ExecOutlay(site, t, s, w);
    ExecCounts(site, s, resting, w);
    if e.Defer? { SumInsert(Worths(site, t), resting, site.codec.enc(e.p)); }
  }

  lemma HeldWith(s: Sys, w: Worker, job: Job)
    requires w !in s.jobs || job.member == s.jobs[w].member
    ensures Held(s.(jobs := s.jobs[w := job])) == Held(s) + {job.member}
  {
    var s' := s.(jobs := s.jobs[w := job]);
    forall m | m in Held(s) + {job.member} ensures m in Held(s') {
      if m in Held(s) {
        var v :| v in s.jobs && s.jobs[v].member == m;
        assert v in s'.jobs && s'.jobs[v].member == m;
      } else {
        assert s'.jobs[w].member == m;
      }
    }
  }

  lemma CostsWith(site: Site, t: Task, s: Sys, w: Worker, job: Job)
    ensures Total(Costs(site, t, s.(jobs := s.jobs[w := job]))) + (if w in s.jobs then JobCost(site, t, s.jobs[w]) else 0)
         == Total(Costs(site, t, s)) + JobCost(site, t, job)
  {
    assert Costs(site, t, s.(jobs := s.jobs[w := job])) == Costs(site, t, s)[w := JobCost(site, t, job)];
    TotalUpdate(Costs(site, t, s), w, JobCost(site, t, job));
  }

  /** Only three parts of the state are counted. */
  lemma SameCount(orgOf: Raw -> Org, q: State, q': State, h: set<Raw>, r: Raw)
    requires q'.pending == q.pending && q'.scheduled == q.scheduled && q'.processing == q.processing
    ensures Count(orgOf, q', h, r) == Count(orgOf, q, h, r)
  {
  }

  lemma EnqueueTally(orgOf: Raw -> Org, q: State, raw: Raw, h: set<Raw>, r: Raw)
    ensures Count(orgOf, Enqueue(q, orgOf(raw), raw), h, r) == Count(orgOf, q, h, r) + multiset{raw}[r]
  {
    PushCount(orgOf, q, raw, h, r);
    SameCount(orgOf, Push(q, orgOf(raw), raw), Enqueue(q, orgOf(raw), raw), h, r);
  }

  lemma PromotedTally(orgOf: Raw -> Org, q: State, raw: Raw, h: set<Raw>, r: Raw)
    ensures Count(orgOf, PromoteScheduled(orgOf, q, raw), h, r) == Count(orgOf, q, h, r)
  {
    if raw in q.scheduled {
      PromoteOneCount(orgOf, q, raw, h, r);
      SameCount(orgOf, PromoteOne(orgOf, q, raw), PromoteScheduled(orgOf, q, raw), h, r);
    }
  }

  lemma RequeueTally(orgOf: Raw -> Org, q: State, x: Raw, y: Raw, h: set<Raw>, r: Raw)
    ensures Count(orgOf, RequeueDead(orgOf, q, x, y), h, r)
         == Count(orgOf, q, h, r) + (if x in q.dead && r == y then 1 else 0)
  {
    if x in q.dead {
      var q' := q.(dead := WithoutFirst(q.dead, x));
      EnqueueTally(orgOf, q', y, h, r);
      SameCount(orgOf, q, q', h, r);
    }
  }

  predicate Enters(op: Op) { op.DoEnqueue? || op.DoSchedule? || op.DoRequeueDead? }

  predicate Shuffles(op: Op) { op.DoPromoteDue? || op.DoPromoteScheduled? || op.DoDrainDead? || op.DoTakeNotify? }

  lemma EnterTally(orgOf: Raw -> Org, q: State, op: Op, h: set<Raw>, r: Raw)
    requires Homed(orgOf, op) && Enters(op)
    ensures Count(orgOf, Apply(orgOf, q, op), h, r) == Count(orgOf, q, h, r) + Added(q, op)[r]
  {
    match op {
      case DoEnqueue(_, raw) => EnqueueTally(orgOf, q, raw, h, r);
      case DoSchedule(raw, at) => ScheduleCount(orgOf, q, raw, at, h, r);
      case DoRequeueDead(x, y) => RequeueTally(orgOf, q, x, y, h, r);
    }
  }

  lemma ShuffleTally(orgOf: Raw -> Org, q: State, op: Op, h: set<Raw>, r: Raw)
    requires Shuffles(op)
    ensures Count(orgOf, Apply(orgOf, q, op), h, r) == Count(orgOf, q, h, r)
  {
    match op {
      case DoPromoteDue(now, limit) => PromoteDueCount(orgOf, q, now, limit, h, r);
      case DoPromoteScheduled(raw) => PromotedTally(orgOf, q, raw, h, r);
      case DoDrainDead => SameCount(orgOf, q, DrainDead(q), h, r);
      case DoTakeNotify => SameCount(orgOf, q, TakeNotify(q), h, r);
    }
  }

  lemma QueueCounts(site: Site, s: Sys, resting: multiset<Raw>, op: Op)
    requires Counts(site, s, resting) && Homed(site.codec.OrgOf, op)
    requires !op.DoPick? && !op.DoAck? && !op.DoDeadLetter? && !op.DoRecover?
    ensures Counts(site, QueueStep(site, s, op), resting + Added(s.w.q, op))
  {
    var (orgOf, q, h) := (site.codec.OrgOf, s.w.q, Held(s));
    assert Held(QueueStep(site, s, op)) == h;
    forall r ensures Count(orgOf, Apply(orgOf, q, op), h, r) == resting[r] + Added(q, op)[r] {
      if Enters(op) { EnterTally(orgOf, q, op, h, r); } else { ShuffleTally(orgOf, q, op, h, r); }
    }
  }

  lemma ExpiredUnheld(s: Sys, now: int)
    requires !LeaseExpired(s, now)
    ensures forall k :: k in s.w.q.processing && s.w.q.processing[k] <= now ==> k !in Held(s)
  {
  }

  lemma RecoverTally(orgOf: Raw -> Org, q: State, now: int, h: set<Raw>, resting: multiset<Raw>, merged: multiset<Raw>)
    requires merged == Merged(q, now, Due(q.processing, now))
    requires forall r :: resting[r] == Count(orgOf, q, h, r)
    requires forall k :: k in q.processing && q.processing[k] <= now ==> k !in h
    ensures forall r :: (resting - merged)[r] == Count(orgOf, Recover(q, now), h, r)
  {
    forall r ensures (resting - merged)[r] == Count(orgOf, Recover(q, now), h, r) {
      RecoverCount(orgOf, q, now, h, r);
    }
  }

  lemma RecoverCounts(site: Site, s: Sys, resting: multiset<Raw>, now: int)
    requires Counts(site, s, resting) && !LeaseExpired(s, now)
    ensures Counts(site, QueueStep(site, s, DoRecover(now)), resting - Merged(s.w.q, now, Due(s.w.q.processing, now)))
  {
    ExpiredUnheld(s, now);
    RecoverTally(site.codec.OrgOf, s.w.q, now, Held(s), resting, Merged(s.w.q, now, Due(s.w.q.processing, now)));
    assert Held(QueueStep(site, s, DoRecover(now))) == Held(s);
  }

  lemma AddedOutlay(site: Site, t: Task, s: Sys, s': Sys, resting: multiset<Raw>, raw: Raw)
    requires s'.jobs == s.jobs && s'.w.posts == s.w.posts
    ensures Outlay(site, t, s', resting + multiset{raw}) == Outlay(site, t, s, resting) + Worth(site, t, raw)
  {
    SumInsert(Worths(site, t), resting, raw);
    assert Costs(site, t, s') == Costs(site, t, s);
  }

  lemma SameOutlay(site: Site, t: Task, s: Sys, s': Sys, resting: multiset<Raw>, resting': multiset<Raw>)
    requires s'.jobs == s.jobs && s'.w.posts == s.w.posts
    requires SumOver(Worths(site, t), resting') <= SumOver(Worths(site, t), resting)
    ensures Outlay(site, t, s', resting') <= Outlay(site, t, s, resting)
  {
    assert Costs(site, t, s') == Costs(site, t, s);
  }

  lemma RecoverGrows(site: Site, t: Task, s: Sys, resting: multiset<Raw>, now: int)
    requires Counts(site, s, resting) && !LeaseExpired(s, now)
    ensures Grows(site, t, s, resting, QueueStep(site, s, DoRecover(now)),
                  resting - Merged(s.w.q, now, Due(s.w.q.processing, now)), 0)
  {
    var merged := Merged(s.w.q, now, Due(s.w.q.processing, now));
    RecoverCounts(site, s, resting, now);
    SumShrinks(Worths(site, t), resting, merged);
    SameOutlay(site, t, s, QueueStep(site, s, DoRecover(now)), resting, resting - merged);
  }

  lemma AddedOne(q: State, op: Op) returns (raw: Raw)
    ensures Added(q, op) == multiset{} || Added(q, op) == multiset{raw}
  {
    raw := match op
      case DoEnqueue(_, r) => r
      case DoSchedule(r, _) => r
      case DoRequeueDead(_, r) => r
      case _ => "";
  }

  lemma QueueGrows(site: Site, t: Task, s: Sys, resting: multiset<Raw>, op: Op)
    requires Counts(site, s, resting) && Homed(site.codec.OrgOf, op)
    requires !op.DoPick? && !op.DoAck? && !op.DoDeadLetter? && !op.DoRecover?
    ensures Grows(site, t, s, resting, QueueStep(site, s, op), resting + Added(s.w.q, op),
                  if Entered(site, t, s, QueueMove(op)) > 0 then PerCopy(site, t) else 0)
  {
    var s' := QueueStep(site, s, op);
    var raw := AddedOne(s.w.q, op);
    QueueCounts(site, s, resting, op);
    if Added(s.w.q, op) == multiset{} {
      assert resting + multiset{} == resting;
      SameOutlay(site, t, s, s', resting, resting);
    } else {
      AddedOutlay(site, t, s, s', resting, raw);
      WorthBound(site, t, raw);
      SumInsert(OneEach(site, t), multiset{}, raw);
      assert multiset{} + multiset{raw} == multiset{raw};
    }
  }

  lemma AcceptGrows(site: Site, t: Task, s: Sys, resting: multiset<Raw>, p: Payload)
    requires site.codec.Valid() && Counts(site, s, resting)
    ensures Grows(site, t, s, resting, AcceptStep(site, s, p), resting + multiset{site.codec.enc(p)},
                  if TaskOf(p) == t then PerCopy(site, t) else 0)
  {
    var s' := AcceptStep(site, s, p);
    var raw := site.codec.enc(p);
    assert Held(s') == Held(s);
    assert site.codec.OrgOf(raw) == p.org;
    forall r ensures Count(site.codec.OrgOf, s'.w.q, Held(s), r) == (resting + multiset{raw})[r] {
      PushCount(site.codec.OrgOf, s.w.q, raw, Held(s), r);
    }
    AddedOutlay(site, t, s, s', resting, raw);
    WorthBound(site, t, raw);
  }

  // ---- whole runs --------------------------------------------------------------

  ghost function Extra(site: Site, t: Task, s: Sys, m: Move): nat
    requires Enabled(site, s, m)
  {
    Entered(site, t, s, m) + Abandoned(site, t, s, m)
  }

  lemma LeaseBooks(site: Site, t: Task, s: Sys, resting: multiset<Raw>, m: Move)
    requires LeasesOk(site, s) && Counts(site, s, resting) && m.Lease? && Enabled(site, s, m)
    ensures Grows(site, t, s, resting, LeaseStep(s, m.w, m.deadline, m.token), Settle(site, s, resting, m), 0)
  {
    if FairPick(s.w.q, m.deadline, m.token).got.Some? {
      LeaseGrows(site, t, s, resting, m.w, m.deadline, m.token);
    } else {
      EmptyPick(s, m.w, m.deadline, m.token);
      IdleGrows(site, t, s, resting, LeaseStep(s, m.w, m.deadline, m.token));
    }
  }

  lemma QuitBooks(site: Site, t: Task, s: Sys, resting: multiset<Raw>, m: Move)
    requires LeasesOk(site, s) && Counts(site, s, resting) && m.Quit? && Enabled(site, s, m)
    ensures Grows(site, t, s, resting, s.(jobs := s.jobs - {m.w}), Settle(site, s, resting, m),
                  if Abandoned(site, t, s, m) > 0 then PerCopy(site, t) else 0)
  {
    QuitCounts(site, s, resting, m.w);
    QuitOutlay(site, t, s, resting, m.w);
    WorthBound(site, t, StripToken(s.jobs[m.w].member));
    assert resting + multiset{} == resting;
  }

  lemma QueueBooks(site: Site, t: Task, s: Sys, resting: multiset<Raw>, m: Move)
    requires Counts(site, s, resting) && m.QueueMove? && Enabled(site, s, m)
    ensures Grows(site, t, s, resting, QueueStep(site, s, m.op), Settle(site, s, resting, m),
                  if Entered(site, t, s, m) > 0 then PerCopy(site, t) else 0)
  {
    if m.op.DoRecover? {
      RecoverGrows(site, t, s, resting, m.op.now);
    } else {
      QueueGrows(site, t, s, resting, m.op);
    }
  }

  lemma StepBooks(site: Site, t: Task, s: Sys, resting: multiset<Raw>, m: Move)
    requires site.codec.Valid() && Counted(t)
    requires LeasesOk(site, s) && Counts(site, s, resting) && Enabled(site, s, m)
    ensures Grows(site, t, s, resting, Step(site, s, m), Settle(site, s, resting, m),
                  if Extra(site, t, s, m) > 0 then PerCopy(site, t) else 0)
  {
    match m {
      case Lease(_, _, _) => LeaseBooks(site, t, s, resting, m);
      case Load(w, f) => LoadGrows(site, t, s, resting, w, f);
      case Exec(w) => ExecGrows(site, t, s, resting, w);
      case Quit(w) => QuitBooks(site, t, s, resting, m);
      case QueueMove(op) => QueueBooks(site, t, s, resting, m);
      case Accept(p) => AcceptGrows(site, t, s, resting, p);
      case _ => IdleGrows(site, t, s, resting, Step(site, s, m));
    }
  }

  lemma {:induction false} TimesMore(n: nat, k: nat, m: nat)
    ensures Fairness.Times(n, m) + (if k > 0 then m else 0) <= Fairness.Times(n + k, m)
  {
    if k > 0 { TimesMore(n, k - 1, m); }
  }

  ghost predicate Budgeted(site: Site, t: Task, s: Sys, resting: multiset<Raw>, n: nat) {
    Counts(site, s, resting) && Outlay(site, t, s, resting) <= Fairness.Times(n, PerCopy(site, t))
  }

  lemma StillBudgeted(site: Site, t: Task, s: Sys, resting: multiset<Raw>, s': Sys, resting': multiset<Raw>, extra: nat, n: nat, n': nat)
    requires Budgeted(site, t, s, resting, n)
    requires Grows(site, t, s, resting, s', resting', extra)
    requires n' >= n && extra <= if n' > n then PerCopy(site, t) else 0
    ensures Budgeted(site, t, s', resting', n')
  {
    TimesMore(n, n' - n, PerCopy(site, t));
  }

  lemma BudgetStep(site: Site, t: Task, s: Sys, m: Move, resting: multiset<Raw>, n: nat, n': nat)
    requires site.codec.Valid() && Counted(t)
    requires LeasesOk(site, s) && Budgeted(site, t, s, resting, n) && Enabled(site, s, m)
    requires n' == n + Extra(site, t, s, m)
    ensures Budgeted(site, t, Step(site, s, m), Settle(site, s, resting, m), n')
  {
    StepBooks(site, t, s, resting, m);
    var extra := if Extra(site, t, s, m) > 0 then PerCopy(site, t) else 0;
    StillBudgeted(site, t, s, resting, Step(site, s, m), Settle(site, s, resting, m), extra, n, n');
  }

  lemma Unrolled(site: Site, t: Task, s: Sys, moves: seq<Move>)
    requires moves != [] && Runs(site, s, moves)
    ensures var s' := Step(site, s, moves[0]);
            && Chances(site, t, s, moves) == Extra(site, t, s, moves[0]) + Chances(site, t, s', moves[1..])
            && End(site, s, moves) == End(site, s', moves[1..])
  {
  }

  lemma SendsInOutlay(site: Site, t: Task, s: Sys, resting: multiset<Raw>, n: nat)
    requires Budgeted(site, t, s, resting, n)
    ensures s.w.posts[t] <= Fairness.Times(n, PerCopy(site, t))
  {
  }

  lemma Advance(site: Site, t: Task, s: Sys, moves: seq<Move>, resting: multiset<Raw>, n: nat)
    returns (s': Sys, resting': multiset<Raw>, n': nat)
    requires site.codec.Valid() && Counted(t) && moves != []
    requires LeasesOk(site, s) && Budgeted(site, t, s, resting, n) && Runs(site, s, moves)
    ensures LeasesOk(site, s') && Budgeted(site, t, s', resting', n') && Runs(site, s', moves[1..])
    ensures End(site, s, moves) == End(site, s', moves[1..])
    ensures n' + Chances(site, t, s', moves[1..]) == n + Chances(site, t, s, moves)
  {
    s', resting' := Step(site, s, moves[0]), Settle(site, s, resting, moves[0]);
    n' := n + Extra(site, t, s, moves[0]);
    BudgetStep(site, t, s, moves[0], resting, n, n');
    LeasesStep(site, s, moves[0]);
    Unrolled(site, t, s, moves);
  }

  lemma {:induction false} BooksRun(site: Site, t: Task, s: Sys, moves: seq<Move>, resting: multiset<Raw>, n: nat, total: nat)
    requires site.codec.Valid() && Counted(t)
    requires LeasesOk(site, s) && Budgeted(site, t, s, resting, n) && Runs(site, s, moves)
    requires total == n + Chances(site, t, s, moves)
    ensures End(site, s, moves).w.posts[t] <= Fairness.Times(total, PerCopy(site, t))
    decreases |moves|
  {
    if moves == [] {
      SendsInOutlay(site, t, s, resting, n);
    } else {
      var s', resting', n' := Advance(site, t, s, moves, resting, n);
      BooksRun(site, t, s', moves[1..], resting', n', total);
    }
  }

  /** The retry budget. In every run of the whole system, whatever workers, crashes,
      recoveries, promotions and duplicates, an event is sent at most
      max(1, max_retries + 1) times, and an email at most three times, for each of its
      copies that entered the queue and each run that ended without dropping its
      lease. */
  lemma SendsBounded(site: Site, t: Task, moves: seq<Move>)
    requires site.codec.Valid() && Counted(t) && Runs(site, INITIAL, moves)
    ensures End(site, INITIAL, moves).w.posts[t] <= Chances(site, t, INITIAL, moves) * PerCopy(site, t)
  {
    var none: multiset<Raw> := multiset{};
    forall r ensures none[r] == Count(site.codec.OrgOf, EMPTY, Held(INITIAL), r) {
      assert Leases(EMPTY.processing, Held(INITIAL), r) == {};
    }
    assert Costs(site, t, INITIAL) == map[];
    BooksRun(site, t, INITIAL, moves, none, 0, Chances(site, t, INITIAL, moves));
    Fairness.TimesIs(Chances(site, t, INITIAL, moves), PerCopy(site, t));
  }
}
