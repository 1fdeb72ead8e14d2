/** The outbound budget over every run of the whole system: how often one delivery can
    be sent, whatever workers run it at the same time. */
module DeliveryBound {
  import opened Lease
  import opened QueueModel
  import opened Copies
  import opened Payloads
  import opened Handlers
  import opened System
  import opened Custody
  import opened Ownership
  import opened Sums
  import opened RetryBound
  import OutboundBudget

  // ---- a stock of resting copies and running workers ---------------------------

  ghost function Values(ahead: Job -> nat, s: Sys): map<Worker, nat> {
    map w | w in s.jobs :: ahead(s.jobs[w])
  }

  ghost function Stock(rest: Raw -> nat, ahead: Job -> nat, s: Sys, resting: multiset<Raw>): nat {
    SumOver(rest, resting) + Total(Values(ahead, s))
  }

  /** What one move changes it by, at most. */
  ghost function Paid(site: Site, rest: Raw -> nat, ahead: Job -> nat, s: Sys, m: Move): int
    requires Enabled(site, s, m)
  {
    match m
    case Load(w, f) => ahead(LoadStep(site, s, w, f).jobs[w]) - ahead(s.jobs[w])
    case Exec(w) =>
      var (job, e) := (s.jobs[w], s.jobs[w].todo[0]);
      ahead(Running(job.member, job.todo[1..])) - ahead(job) + if e.Defer? then rest(site.codec.enc(e.p)) else 0
    case Quit(w) => if s.jobs[w].member in s.w.q.processing then rest(StripToken(s.jobs[w].member)) else 0
    case QueueMove(op) => SumOver(rest, Added(s.w.q, op))
    case Accept(p) => rest(site.codec.enc(p))
    case _ => 0
  }

  lemma ValuesWith(ahead: Job -> nat, s: Sys, s': Sys, w: Worker, job: Job)
    requires s'.jobs == s.jobs[w := job]
    ensures Total(Values(ahead, s')) + (if w in s.jobs then ahead(s.jobs[w]) else 0) == Total(Values(ahead, s)) + ahead(job)
  {
    assert Values(ahead, s') == Values(ahead, s)[w := ahead(job)];
    TotalUpdate(Values(ahead, s), w, ahead(job));
  }

  lemma ValuesWithout(ahead: Job -> nat, s: Sys, s': Sys, w: Worker)
    requires w in s.jobs && s'.jobs == s.jobs - {w}
    ensures Total(Values(ahead, s')) <= Total(Values(ahead, s))
  {
    TotalPick(Values(ahead, s), w);
    assert Values(ahead, s') == Values(ahead, s) - {w};
  }

  lemma SameValues(ahead: Job -> nat, s: Sys, s': Sys)
    requires s'.jobs == s.jobs
    ensures Values(ahead, s') == Values(ahead, s)
  {
  }

  lemma LeaseStock(site: Site, rest: Raw -> nat, ahead: Job -> nat, s: Sys, resting: multiset<Raw>, m: Move)
    requires LeasesOk(site, s) && Counts(site, s, resting) && m.Lease? && Enabled(site, s, m)
    requires forall x :: ahead(Picked(x)) == rest(StripToken(x))
    ensures Stock(rest, ahead, LeaseStep(s, m.w, m.deadline, m.token), Settle(site, s, resting, m)) <= Stock(rest, ahead, s, resting)
  {
    var s' := LeaseStep(s, m.w, m.deadline, m.token);
    var got := FairPick(s.w.q, m.deadline, m.token).got;
    if got.Some? {
      LeaseCounts(site, s, resting, m.w, m.deadline, m.token);
      SumPick(rest, resting, StripToken(got.value));
      ValuesWith(ahead, s, s', m.w, Picked(got.value));
    } else {
      SameValues(ahead, s, s');
    }
  }

  lemma LoadStock(site: Site, rest: Raw -> nat, ahead: Job -> nat, s: Sys, resting: multiset<Raw>, m: Move)
    requires m.Load? && Enabled(site, s, m)
    ensures Stock(rest, ahead, LoadStep(site, s, m.w, m.fate), resting) <= Stock(rest, ahead, s, resting) + Paid(site, rest, ahead, s, m)
  {
    var s' := LoadStep(site, s, m.w, m.fate);
    ValuesWith(ahead, s, s', m.w, s'.jobs[m.w]);
  }

  lemma ExecStock(site: Site, rest: Raw -> nat, ahead: Job -> nat, s: Sys, resting: multiset<Raw>, m: Move)
    requires m.Exec? && Enabled(site, s, m)
    ensures Stock(rest, ahead, ExecStep(site, s, m.w), Settle(site, s, resting, m)) <= Stock(rest, ahead, s, resting) + Paid(site, rest, ahead, s, m)
  {
    var (s', job) := (ExecStep(site, s, m.w), s.jobs[m.w]);
    ValuesWith(ahead, s, s', m.w, Running(job.member, job.todo[1..]));
    if job.todo[0].Defer? { SumInsert(rest, resting, site.codec.enc(job.todo[0].p)); }
  }

  lemma QuitStock(site: Site, rest: Raw -> nat, ahead: Job -> nat, s: Sys, resting: multiset<Raw>, m: Move)
    requires m.Quit? && Enabled(site, s, m)
    ensures Stock(rest, ahead, s.(jobs := s.jobs - {m.w}), Settle(site, s, resting, m)) <= Stock(rest, ahead, s, resting) + Paid(site, rest, ahead, s, m)
  {
    ValuesWithout(ahead, s, s.(jobs := s.jobs - {m.w}), m.w);
    SumInsert(rest, resting, StripToken(s.jobs[m.w].member));
  }

  lemma QueueStock(site: Site, rest: Raw -> nat, ahead: Job -> nat, s: Sys, resting: multiset<Raw>, m: Move)
    requires m.QueueMove? && Enabled(site, s, m)
    ensures Stock(rest, ahead, QueueStep(site, s, m.op), Settle(site, s, resting, m)) <= Stock(rest, ahead, s, resting) + Paid(site, rest, ahead, s, m)
  {
    SameValues(ahead, s, QueueStep(site, s, m.op));
    if m.op.DoRecover? {
      SumShrinks(rest, resting, Merged(s.w.q, m.op.now, Due(s.w.q.processing, m.op.now)));
    } else {
      var raw := AddedOne(s.w.q, m.op);
      SumInsert(rest, resting, raw);
      SumInsert(rest, multiset{}, raw);
      assert resting + multiset{} == resting && multiset{} + multiset{raw} == multiset{raw};
    }
  }

  lemma AcceptStock(site: Site, rest: Raw -> nat, ahead: Job -> nat, s: Sys, resting: multiset<Raw>, p: Payload)
    ensures Stock(rest, ahead, AcceptStep(site, s, p), resting + multiset{site.codec.enc(p)}) <= Stock(rest, ahead, s, resting) + rest(site.codec.enc(p))
  {
    SameValues(ahead, s, AcceptStep(site, s, p));
    SumInsert(rest, resting, site.codec.enc(p));
  }

  /** However copies and workers are valued, as long as a fresh lease is worth what the
      copy was: one move pays for the difference. */
  lemma StockStep(site: Site, rest: Raw -> nat, ahead: Job -> nat, s: Sys, resting: multiset<Raw>, m: Move)
    requires LeasesOk(site, s) && Counts(site, s, resting) && Enabled(site, s, m)
    requires forall x :: ahead(Picked(x)) == rest(StripToken(x))
    ensures Stock(rest, ahead, Step(site, s, m), Settle(site, s, resting, m)) <= Stock(rest, ahead, s, resting) + Paid(site, rest, ahead, s, m)
  {
    match m {
      case Lease(_, _, _) => LeaseStock(site, rest, ahead, s, resting, m);
      case Load(_, _) => LoadStock(site, rest, ahead, s, resting, m);
      case Exec(_) => ExecStock(site, rest, ahead, s, resting, m);
      case Quit(_) => QuitStock(site, rest, ahead, s, resting, m);
      case QueueMove(_) => QueueStock(site, rest, ahead, s, resting, m);
      case Accept(p) => AcceptStock(site, rest, ahead, s, resting, p);
      case _ => SameValues(ahead, s, Step(site, s, m));
    }
  }

  // ---- what one copy of a delivery may still cost ---------------------------------

  /** Early, while the row still has retries to give, a copy is worth two attempts not
      paid for by the row; Late, once it has none, its last one. Heads counts copies. */
  datatype Mode = Heads | Early | Late

  function Rate(mode: Mode): nat { if mode.Early? then 2 else 1 }

  function RateOf(site: Site, t: Task, mode: Mode, raw: Raw): nat {
    if TaskOfRaw(site, raw) == t then Rate(mode) else 0
  }

  /** The attempts and successors ahead in a run. Early, the row pays for the attempt,
      which only has to stay affordable should the row run out first. */
  function Ahead(site: Site, t: Task, own: bool, mode: Mode, todo: seq<Effect>): nat {
    if todo == [] then 0 else
      var after := Ahead(site, t, own, mode, todo[1..]);
      match todo[0]
      case Start => if !own || mode.Heads? then after else if mode.Late? then 1 + after else if after > 0 then after else 1
      case Defer(p, _) => RateOf(site, t, mode, site.codec.enc(p)) + after
      case _ => after
  }

  /** Sends ahead in a run that no attempt ahead in it accounts for. */
  function Need(own: bool, todo: seq<Effect>): nat {
    if todo == [] then 0 else
      var after := Need(own, todo[1..]);
      if own && todo[0].Start? then if after > 0 then after - 1 else 0
      else if own && todo[0].Post? then after + 1
      else after
  }

  function Rates(site: Site, t: Task, mode: Mode): Raw -> nat { raw => RateOf(site, t, mode, raw) }

  function AheadOf(site: Site, t: Task, mode: Mode): Job -> nat {
    (job: Job) =>
      match job
      case Picked(m) => RateOf(site, t, mode, StripToken(m))
      case Running(m, todo) => Ahead(site, t, TaskAt(site, m) == t, mode, todo)
  }

  function NeedOf(site: Site, t: Task): Job -> nat {
    (job: Job) => if job.Picked? then 0 else Need(TaskAt(site, job.member) == t, job.todo)
  }

  function Nothing(): Raw -> nat { (raw: Raw) => 0 }

  predicate Plain(e: Effect) { !e.Start? && !e.Defer? }

  lemma AheadCons(site: Site, t: Task, mode: Mode, e: Effect, es: seq<Effect>)
    requires Plain(e)
    ensures Ahead(site, t, true, mode, [e] + es) == Ahead(site, t, true, mode, es)
  {
    assert ([e] + es)[1..] == es;
  }

  lemma {:induction false} AheadSnoc(site: Site, t: Task, mode: Mode, es: seq<Effect>, e: Effect)
    requires Plain(e)
    ensures Ahead(site, t, true, mode, es + [e]) == Ahead(site, t, true, mode, es)
    decreases |es|
  {
    if es == [] {
      assert es + [e] == [e];
    } else {
      assert (es + [e])[1..] == es[1..] + [e];
      AheadSnoc(site, t, mode, es[1..], e);
    }
  }

  lemma {:induction false} AheadPlain(site: Site, t: Task, mode: Mode, es: seq<Effect>)
    requires forall i :: 0 <= i < |es| ==> Plain(es[i])
    ensures Ahead(site, t, true, mode, es) == 0
  {
    if es != [] { AheadPlain(site, t, mode, es[1..]); }
  }

  lemma AheadDefer(site: Site, t: Task, mode: Mode, p: Payload, at: int)
    requires site.codec.Valid() && TaskOf(p) == t
    ensures Ahead(site, t, true, mode, [Defer(p, at), Drop]) == Rate(mode)
  {
    assert [Defer(p, at), Drop][1..] == [Drop];
    AheadPlain(site, t, mode, [Drop]);
  }

  lemma FailAhead(site: Site, t: Task, mode: Mode, id: nat, p: Payload, f: Fate, n: int)
    requires site.codec.Valid() && TaskOf(p) == t
    ensures Ahead(site, t, true, mode, MessageFail(site, id, p, f, n)) == if NextDelay(n).Some? then Rate(mode) else 0
  {
    var es := MessageFail(site, id, p, f, n);
    match NextDelay(n)
    case None => AheadPlain(site, t, mode, es);
    case Some(delay) =>
      AheadDefer(site, t, mode, p, f.now + delay);
      AheadCons(site, t, mode, RetryAt(f.now + delay), [Defer(p, f.now + delay), Drop]);
      assert es == [RetryAt(f.now + delay)] + [Defer(p, f.now + delay), Drop];
  }

  lemma StartAhead(site: Site, t: Task, mode: Mode, es: seq<Effect>)
    requires Ahead(site, t, true, mode, es) <= if mode.Late? then 0 else Rate(mode)
    ensures Ahead(site, t, true, mode, [Start] + es) <= Rate(mode)
  {
    assert ([Start] + es)[1..] == es;
  }

  /** Late means the row has no retry left. */
  predicate Timely(mode: Mode, r: Row) { mode.Late? ==> r.attempts >= |RETRY_SCHEDULE| }

  lemma SendAhead(site: Site, t: Task, mode: Mode, id: nat, r: Row, p: Payload, f: Fate)
    requires site.codec.Valid() && TaskOf(p) == t && Timely(mode, r)
    ensures Ahead(site, t, true, mode, MessageSend(site, id, r, p, f)) <= Rate(mode)
  {
    var n := r.attempts + 1;
    var (es, fail) := (MessageSend(site, id, r, p, f), MessageFail(site, id, p, f, n));
    FailAhead(site, t, mode, id, p, f, n);
    AheadCons(site, t, mode, Record(n), fail);
    AheadCons(site, t, mode, Post, [Record(n)] + fail);
    assert es == [Start] + es[1..];
    if f.requestOk && Success(f.reply) {
      AheadPlain(site, t, mode, es[1..]);
    } else if f.requestOk {
      assert es[1..] == [Post] + ([Record(n)] + fail);
    } else {
      assert es[1..] == fail;
    }
    StartAhead(site, t, mode, es[1..]);
  }

  lemma DeferralAhead(site: Site, t: Task, mode: Mode, p: Payload, f: Fate, delay: int)
    requires site.codec.Valid() && TaskOf(p) == t
    ensures Ahead(site, t, true, mode, Deferral(p, f, delay)) == Rate(mode)
  {
    assert TaskOf(p.(enqueuedAt := f.now)) == t;
    AheadDefer(site, t, mode, p.(enqueuedAt := f.now), f.now + delay);
  }

  lemma GatedAhead(site: Site, t: Task, mode: Mode, id: nat, r: Row, p: Payload, f: Fate)
    requires site.codec.Valid() && TaskOf(p) == t && Timely(mode, r)
    ensures Ahead(site, t, true, mode, MessageGated(site, id, r, p, f)) <= Rate(mode)
  {
    SendAhead(site, t, mode, id, r, p, f);
    DeferralAhead(site, t, mode, p, f, if f.rateLimited.Some? && f.rateLimited.value > 0 then f.rateLimited.value else 100);
    AheadPlain(site, t, mode, [Record(r.attempts + 1), Mark(Dead), Bury]);
    AheadPlain(site, t, mode, [Mark(Filtered), Drop]);
  }

  lemma GateAhead(site: Site, t: Task, mode: Mode, p: Payload, f: Fate, inner: seq<Effect>)
    requires site.codec.Valid() && TaskOf(p) == t
    requires Ahead(site, t, true, mode, inner) <= Rate(mode)
    ensures Ahead(site, t, true, mode, OrgGate(site, p, f, inner)) <= Rate(mode)
  {
    var turn := Deferral(p, f, 500);
    AheadCons(site, t, mode, Take(OrgSlot), inner);
    AheadSnoc(site, t, mode, [Take(OrgSlot)] + inner, Give(OrgSlot));
    DeferralAhead(site, t, mode, p, f, 500);
    AheadCons(site, t, mode, Give(OrgSlot), turn);
    AheadCons(site, t, mode, Take(OrgSlot), [Give(OrgSlot)] + turn);
    assert [Take(OrgSlot), Give(OrgSlot)] + turn == [Take(OrgSlot)] + ([Give(OrgSlot)] + turn);
  }

  lemma MessageAhead(site: Site, t: Task, mode: Mode, row: Option<Row>, p: Payload, f: Fate)
    requires site.codec.Valid() && TaskOf(p) == t && (row.Some? ==> Timely(mode, row.value))
    ensures Ahead(site, t, true, mode, MessagePlan(site, row, p, f)) <= Rate(mode)
  {
    AheadPlain(site, t, mode, [Bury]);
    AheadPlain(site, t, mode, [Drop]);
    AheadPlain(site, t, mode, [Mark(Disabled), Drop]);
    if p.data.Some? && row.Some? {
      GatedAhead(site, t, mode, p.data.value, row.value, p, f);
      GateAhead(site, t, mode, p, f, MessageGated(site, p.data.value, row.value, p, f));
    }
  }

  lemma {:induction false} ForeignAhead(site: Site, t: Task, mode: Mode, u: Task, es: seq<Effect>)
    requires site.codec.Valid() && u != t && OwnTask(es, u)
    ensures Ahead(site, t, false, mode, es) == 0 && Need(false, es) == 0
  {
    if es != [] {
      assert forall i :: 0 <= i < |es| - 1 ==> es[1..][i] == es[i + 1];
      ForeignAhead(site, t, mode, u, es[1..]);
    }
  }

  lemma {:induction false} PaidNeed(es: seq<Effect>, credit: nat)
    requires OutboundBudget.PaidFirst(es, credit)
    ensures Need(true, es) <= credit
    decreases |es|
  {
    if es != [] {
      PaidNeed(es[1..], if es[0].Start? then credit + 1 else if es[0].Post? then credit - 1 else credit);
    }
  }

  predicate RowTimely(t: Task, mode: Mode, rows: map<Task, Row>) { t in rows ==> Timely(mode, rows[t]) }

  /** A run of the delivery holds no more ahead than its copy was worth, and every send
      of it follows its own attempt. */
  lemma PlanAhead(site: Site, rows: map<Task, Row>, t: Task, mode: Mode, raw: Raw, f: Fate)
    requires site.codec.Valid() && t.DeliveryTask? && site.codec.dec(raw).Some? && RowTimely(t, mode, rows)
    ensures var es := Plan(site, rows, site.codec.dec(raw).value, f);
            && Ahead(site, t, TaskOfRaw(site, raw) == t, mode, es) <= RateOf(site, t, mode, raw)
            && Need(TaskOfRaw(site, raw) == t, es) == 0
  {
    var p := site.codec.dec(raw).value;
    if TaskOf(p) != t {
      PlanOwnTask(site, rows, p, f);
      ForeignAhead(site, t, mode, TaskOf(p), Plan(site, rows, p, f));
    } else {
      MessageAhead(site, t, mode, if t in rows then Some(rows[t]) else None, p, f);
      if t in rows {
        OutboundBudget.PlanLawful(site, rows, p, f);
        PaidNeed(Plan(site, rows, p, f), 0);
      }
    }
  }

  // ---- one move ----------------------------------------------------------------------

  predicate Own(site: Site, t: Task, s: Sys, m: Move) {
    m.Exec? && CanExec(s, m.w) && TaskAt(site, s.jobs[m.w].member) == t
  }

  predicate Started(site: Site, t: Task, s: Sys, m: Move) { Own(site, t, s, m) && s.jobs[m.w].todo[0].Start? }

  predicate Posted(site: Site, t: Task, s: Sys, m: Move) { Own(site, t, s, m) && s.jobs[m.w].todo[0].Post? }

  lemma AddedRates(site: Site, t: Task, mode: Mode, q: State, op: Op)
    ensures SumOver(Rates(site, t, mode), Added(q, op)) == Rate(mode) * SumOver(OneEach(site, t), Added(q, op))
  {
    var raw := AddedOne(q, op);
    SumInsert(Rates(site, t, mode), multiset{}, raw);
    SumInsert(OneEach(site, t), multiset{}, raw);
    assert multiset{} + multiset{raw} == multiset{raw};
  }

  /** Copies are paid for when they enter or are abandoned; a late attempt is paid for
      by its copy. */
  lemma PaidCopies(site: Site, t: Task, mode: Mode, s: Sys, m: Move)
    requires site.codec.Valid() && t.DeliveryTask? && Enabled(site, s, m) && (m.Load? ==> RowTimely(t, mode, s.w.rows))
    ensures Paid(site, Rates(site, t, mode), AheadOf(site, t, mode), s, m)
         <= Rate(mode) * Extra(site, t, s, m) - (if mode.Late? && Started(site, t, s, m) then 1 else 0)
  {
    match m {
      case Load(w, f) => PlanAhead(site, s.w.rows, t, mode, StripToken(s.jobs[w].member), f);
      case QueueMove(op) => AddedRates(site, t, mode, s.w.q, op);
      case _ =>
    }
  }

  lemma PaidSends(site: Site, t: Task, s: Sys, m: Move)
    requires site.codec.Valid() && t.DeliveryTask? && Enabled(site, s, m)
    ensures Paid(site, Nothing(), NeedOf(site, t), s, m)
         <= (if Started(site, t, s, m) then 1 else 0) - (if Posted(site, t, s, m) then 1 else 0)
  {
    match m {
      case Load(w, f) => PlanAhead(site, s.w.rows, t, Heads, StripToken(s.jobs[w].member), f);
      case QueueMove(op) =>
        var raw := AddedOne(s.w.q, op);
        SumInsert(Nothing(), multiset{}, raw);
        assert multiset{} + multiset{raw} == multiset{raw};
      case _ =>
    }
  }

  function ModeOf(t: Task, rows: map<Task, Row>): Mode {
    if t in rows && rows[t].attempts < |RETRY_SCHEDULE| then Early else Late
  }

  /** Attempts the row still pays for itself. */
  function Slack(t: Task, rows: map<Task, Row>): nat {
    if t in rows && rows[t].attempts < |RETRY_SCHEDULE| - 1 then |RETRY_SCHEDULE| - 1 - rows[t].attempts else 0
  }

  /** A new row, or the old one reset. */
  predicate Begins(t: Task, m: Move) { m == InsertRow(t) || m == Replay(t) }

  function AttemptsIn(t: Task, rows: map<Task, Row>): Option<nat> {
    if t in rows then Some(rows[t].attempts) else None
  }

  /** Which effects of whose runs touch the attempts and the sends of t. */
  lemma ExecRow(site: Site, t: Task, w: World, u: Task, member: Raw, e: Effect)
    ensures var (a, w') := (AttemptsIn(t, w.rows), Perform(site, w, u, member, e));
            && AttemptsIn(t, w'.rows) == (if u == t && e.Start? && a.Some? then Some(a.value + 1) else a)
            && w'.posts[t] == w.posts[t] + (if u == t && e.Post? then 1 else 0)
  {
  }

  lemma EnvironmentRow(t: Task, rows: map<Task, Row>, m: Move)
    requires t.DeliveryTask? && !m.Tunnel? && (m.Replay? ==> m.t in rows)
    requires m.ManualRetry? || m.MarkQueued? || m.Claim? ==> m.t != t
    ensures AttemptsIn(t, RowsAfter(rows, m))
         == if Begins(t, m) then Some(0) else if m == DeleteRow(t) then None else AttemptsIn(t, rows)
  {
  }

  lemma RowStep(site: Site, t: Task, s: Sys, m: Move)
    requires t.DeliveryTask? && Enabled(site, s, m)
    ensures var (a, rows') := (AttemptsIn(t, s.w.rows), Step(site, s, m).w.rows);
            AttemptsIn(t, rows') == if Begins(t, m) then Some(0) else if m == DeleteRow(t) then None
                                    else if Started(site, t, s, m) && a.Some? then Some(a.value + 1) else a
    ensures Step(site, s, m).w.posts[t] == s.w.posts[t] + (if Posted(site, t, s, m) then 1 else 0)
  {
    match m {
      case Exec(w) => ExecRow(site, t, s.w, TaskAt(site, s.jobs[w].member), s.jobs[w].member, s.jobs[w].todo[0]);
      case Lease(_, _, _) =>
      case Load(_, _) =>
      case Quit(_) =>
      case QueueMove(_) =>
      case Accept(_) =>
      case Tunnel(_, _) =>
      case _ => EnvironmentRow(t, s.w.rows, m);
    }
  }

  // ---- early and late ------------------------------------------------------------

  /** Late costs no more than early, early at most one more for each successor, and
      without an attempt they are just the successors at their rates. */
  predicate Compared(starts: nat, h: nat, e: nat, l: nat) {
    l <= e <= l + h && (starts == 0 ==> e == 2 * h && l == h)
  }

  lemma OneMore(site: Site, t: Task, own: bool, todo: seq<Effect>)
    requires todo != [] && !(own && todo[0].Start?)
    ensures var borne := if todo[0].Defer? && TaskOfRaw(site, site.codec.enc(todo[0].p)) == t then 1 else 0;
            forall mode :: Ahead(site, t, own, mode, todo) == Rate(mode) * borne + Ahead(site, t, own, mode, todo[1..])
  {
  }

  lemma {:induction false} AheadCompare(site: Site, t: Task, own: bool, todo: seq<Effect>)
    requires own ==> OutboundBudget.Starts(todo) <= 1
    ensures Compared(if own then OutboundBudget.Starts(todo) else 0, Ahead(site, t, own, Heads, todo),
                     Ahead(site, t, own, Early, todo), Ahead(site, t, own, Late, todo))
  {
    if todo != [] {
      AheadCompare(site, t, own, todo[1..]);
      if !(own && todo[0].Start?) { OneMore(site, t, own, todo); }
    }
  }

  /** No run on t attempts twice. */
  ghost predicate StartsOnce(site: Site, t: Task, s: Sys) {
    forall w :: w in s.jobs && s.jobs[w].Running? && TaskAt(site, s.jobs[w].member) == t
      ==> OutboundBudget.Starts(s.jobs[w].todo) <= 1
  }

  lemma PlanStartsOnce(site: Site, rows: map<Task, Row>, p: Payload, f: Fate)
    requires TaskOf(p).DeliveryTask?
    ensures OutboundBudget.Starts(Plan(site, rows, p, f)) <= 1
  {
    if TaskOf(p) in rows { OutboundBudget.PlanLawful(site, rows, p, f); }
  }

  lemma StartsOnceStep(site: Site, t: Task, s: Sys, m: Move)
    requires t.DeliveryTask? && StartsOnce(site, t, s) && Enabled(site, s, m)
    ensures StartsOnce(site, t, Step(site, s, m))
  {
    if m.Load? {
      var p := site.codec.dec(StripToken(s.jobs[m.w].member)).value;
      if TaskOf(p) == t { PlanStartsOnce(site, s.w.rows, p, m.fate); }
    }
  }

  ghost function StockOf(site: Site, t: Task, mode: Mode, s: Sys, resting: multiset<Raw>): nat {
    Stock(Rates(site, t, mode), AheadOf(site, t, mode), s, resting)
  }

  lemma JobCompare(site: Site, t: Task, job: Job)
    requires job.Running? && TaskAt(site, job.member) == t ==> OutboundBudget.Starts(job.todo) <= 1
    ensures AheadOf(site, t, Late)(job) <= AheadOf(site, t, Early)(job)
         <= AheadOf(site, t, Late)(job) + AheadOf(site, t, Heads)(job)
  {
    if job.Running? { AheadCompare(site, t, TaskAt(site, job.member) == t, job.todo); }
  }

  /** Late never costs more than early, and early at most one more for each copy. */
  lemma StockCompare(site: Site, t: Task, s: Sys, resting: multiset<Raw>)
    requires StartsOnce(site, t, s)
    ensures StockOf(site, t, Late, s, resting) <= StockOf(site, t, Early, s, resting)
         <= StockOf(site, t, Late, s, resting) + StockOf(site, t, Heads, s, resting)
  {
    var none := (job: Job) => 0;
    forall w | w in s.jobs
      ensures AheadOf(site, t, Late)(s.jobs[w]) <= AheadOf(site, t, Early)(s.jobs[w])
           <= AheadOf(site, t, Late)(s.jobs[w]) + AheadOf(site, t, Heads)(s.jobs[w])
    {
      JobCompare(site, t, s.jobs[w]);
    }
    SumBelow(Rates(site, t, Late), Rates(site, t, Early), Nothing(), resting);
    SumBelow(Rates(site, t, Early), Rates(site, t, Late), Rates(site, t, Heads), resting);
    SumZero(Nothing(), resting);
    TotalBelow(Values(AheadOf(site, t, Late), s), Values(AheadOf(site, t, Early), s), Values(none, s));
    TotalBelow(Values(AheadOf(site, t, Early), s), Values(AheadOf(site, t, Late), s), Values(AheadOf(site, t, Heads), s));
    TotalZero(Values(none, s));
  }

  // ---- the books ------------------------------------------------------------------

  /** Sends made and sends to which running workers are already entitled; attempts the
      row still pays for; attempts its copies may still make. */
  ghost function Owed(site: Site, t: Task, s: Sys, resting: multiset<Raw>): nat {
    s.w.posts[t] + Stock(Nothing(), NeedOf(site, t), s, resting)
    + Slack(t, s.w.rows) + StockOf(site, t, ModeOf(t, s.w.rows), s, resting)
  }

  lemma StockOfStep(site: Site, t: Task, mode: Mode, s: Sys, resting: multiset<Raw>, m: Move)
    requires site.codec.Valid() && t.DeliveryTask? && (m.Load? ==> RowTimely(t, mode, s.w.rows))
    requires LeasesOk(site, s) && Counts(site, s, resting) && Enabled(site, s, m)
    ensures StockMoved(site, t, mode, s, resting, Step(site, s, m), Settle(site, s, resting, m), Started(site, t, s, m), Extra(site, t, s, m))
  {
    PaidCopies(site, t, mode, s, m);
    StockStep(site, Rates(site, t, mode), AheadOf(site, t, mode), s, resting, m);
  }

  lemma SendsStep(site: Site, t: Task, s: Sys, resting: multiset<Raw>, m: Move)
    requires site.codec.Valid() && t.DeliveryTask?
    requires LeasesOk(site, s) && Counts(site, s, resting) && Enabled(site, s, m)
    ensures SendsMoved(site, t, s, resting, Step(site, s, m), Settle(site, s, resting, m), Started(site, t, s, m))
  {
    RowStep(site, t, s, m);
    PaidSends(site, t, s, m);
    StockStep(site, Nothing(), NeedOf(site, t), s, resting, m);
  }

  ghost predicate SendsMoved(site: Site, t: Task, s: Sys, resting: multiset<Raw>, s': Sys, resting': multiset<Raw>, started: bool) {
    s'.w.posts[t] + Stock(Nothing(), NeedOf(site, t), s', resting')
    <= s.w.posts[t] + Stock(Nothing(), NeedOf(site, t), s, resting) + (if started then 1 else 0)
  }

  ghost predicate StockMoved(site: Site, t: Task, mode: Mode, s: Sys, resting: multiset<Raw>, s': Sys, resting': multiset<Raw>, started: bool, x: nat) {
    StockOf(site, t, mode, s', resting')
    <= StockOf(site, t, mode, s, resting) + Rate(mode) * x - (if mode.Late? && started then 1 else 0)
  }

  predicate RowMoved(t: Task, rows: map<Task, Row>, rows': map<Task, Row>, begins: bool, started: bool, x: nat) {
    if begins then AttemptsIn(t, rows') == Some(0) && !started && x == 0
    else if started && t in rows then AttemptsIn(t, rows') == Some(rows[t].attempts + 1)
    else AttemptsIn(t, rows') == AttemptsIn(t, rows) || (AttemptsIn(t, rows') == None && x == 0)
  }

  /** What one move makes of the row and the stocks: begins says whether a cycle of the
      row begins, started whether its attempts go up, x what copies come in. */
  ghost predicate Moved(site: Site, t: Task, s: Sys, resting: multiset<Raw>, s': Sys, resting': multiset<Raw>, begins: bool, started: bool, x: nat) {
    && RowMoved(t, s.w.rows, s'.w.rows, begins, started, x)
    && SendsMoved(site, t, s, resting, s', resting', started)
    && StockMoved(site, t, Heads, s, resting, s', resting', started, x)
    && StockMoved(site, t, Early, s, resting, s', resting', started, x)
    && (ModeOf(t, s.w.rows).Late? || started ==> StockMoved(site, t, Late, s, resting, s', resting', started, x))
  }

  lemma RowMoves(site: Site, t: Task, s: Sys, m: Move)
    requires t.DeliveryTask? && Enabled(site, s, m)
    ensures RowMoved(t, s.w.rows, Step(site, s, m).w.rows, Begins(t, m), Started(site, t, s, m), Extra(site, t, s, m))
  {
    RowStep(site, t, s, m);
  }

  lemma MovesLate(site: Site, t: Task, s: Sys, resting: multiset<Raw>, m: Move)
    requires site.codec.Valid() && t.DeliveryTask?
    requires LeasesOk(site, s) && Counts(site, s, resting) && Enabled(site, s, m)
    ensures ModeOf(t, s.w.rows).Late? || Started(site, t, s, m)
         ==> StockMoved(site, t, Late, s, resting, Step(site, s, m), Settle(site, s, resting, m), Started(site, t, s, m), Extra(site, t, s, m))
  {
    if ModeOf(t, s.w.rows).Late? || Started(site, t, s, m) { StockOfStep(site, t, Late, s, resting, m); }
  }

  lemma Moves(site: Site, t: Task, s: Sys, resting: multiset<Raw>, m: Move)
    requires site.codec.Valid() && t.DeliveryTask?
    requires LeasesOk(site, s) && Counts(site, s, resting) && Enabled(site, s, m)
    ensures Moved(site, t, s, resting, Step(site, s, m), Settle(site, s, resting, m),
                  Begins(t, m), Started(site, t, s, m), Extra(site, t, s, m))
  {
    RowMoves(site, t, s, m);
    SendsStep(site, t, s, resting, m);
    StockOfStep(site, t, Heads, s, resting, m);
    StockOfStep(site, t, Early, s, resting, m);
    MovesLate(site, t, s, resting, m);
  }

  /** A cycle begun has the row pay anew, and every copy is early again. */
  lemma OwedAnew(site: Site, t: Task, s: Sys, resting: multiset<Raw>, s': Sys, resting': multiset<Raw>, started: bool, x: nat)
    requires Moved(site, t, s, resting, s', resting', true, started, x) && StartsOnce(site, t, s)
    ensures Owed(site, t, s', resting') <= Owed(site, t, s, resting) + |RETRY_SCHEDULE| - 1 + StockOf(site, t, Heads, s, resting)
  {
    StockCompare(site, t, s, resting);
  }

  /** An attempt is paid for by the row or, once it is the last the row has, by its copy. */
  lemma OwedTried(site: Site, t: Task, s: Sys, resting: multiset<Raw>, s': Sys, resting': multiset<Raw>, x: nat)
    requires Moved(site, t, s, resting, s', resting', false, true, x) && StartsOnce(site, t, s)
    ensures Owed(site, t, s', resting') <= Owed(site, t, s, resting) + if ModeOf(t, s'.w.rows).Early? then 2 * x else x
    ensures ModeOf(t, s'.w.rows).Early? ==> ModeOf(t, s.w.rows).Early?
  {
    StockCompare(site, t, s, resting);
  }

  /** Any other move adds to the debt only what it brings in. */
  lemma OwedOn(site: Site, t: Task, s: Sys, resting: multiset<Raw>, s': Sys, resting': multiset<Raw>, x: nat)
    requires Moved(site, t, s, resting, s', resting', false, false, x) && StartsOnce(site, t, s')
    ensures Owed(site, t, s', resting') <= Owed(site, t, s, resting) + if ModeOf(t, s'.w.rows).Early? then 2 * x else x
    ensures ModeOf(t, s'.w.rows).Early? ==> ModeOf(t, s.w.rows).Early?
  {
    StockCompare(site, t, s', resting');
  }

  /** k cycles of the row, c copies brought in or left behind. */
  function Allowance(k: nat, c: nat): nat { (|RETRY_SCHEDULE| - 1) * k + (k + 1) * c }

  lemma AllowMore(begins: bool, k: nat, c: nat, x: nat, heads: nat, owed: nat, owed': nat, rate: nat)
    requires heads <= c && owed <= Allowance(k, c)
    requires if begins then x == 0 && owed' <= owed + |RETRY_SCHEDULE| - 1 + heads else rate <= k + 1 && owed' <= owed + rate * x
    ensures owed' <= Allowance(if begins then k + 1 else k, c + x)
  {
    assert rate <= k + 1 ==> rate * x <= (k + 1) * x;
    assert (k + 1) * (c + x) == (k + 1) * c + (k + 1) * x;
  }

  ghost predicate Orderly(site: Site, t: Task, s: Sys, resting: multiset<Raw>) {
    LeasesOk(site, s) && Counts(site, s, resting) && StartsOnce(site, t, s)
  }

  ghost predicate WithinAllowance(site: Site, t: Task, s: Sys, resting: multiset<Raw>, k: nat, c: nat) {
    && StockOf(site, t, Heads, s, resting) <= c
    && Owed(site, t, s, resting) <= Allowance(k, c)
    && (ModeOf(t, s.w.rows).Early? ==> k >= 1)
  }

  lemma InOrder(site: Site, t: Task, s: Sys, resting: multiset<Raw>, m: Move)
    requires site.codec.Valid() && t.DeliveryTask? && Orderly(site, t, s, resting) && Enabled(site, s, m)
    ensures Orderly(site, t, Step(site, s, m), Settle(site, s, resting, m))
  {
    LeasesStep(site, s, m);
    StartsOnceStep(site, t, s, m);
    StepBooks(site, EventTask(0), s, resting, m);
  }

  lemma StillAllowed(site: Site, t: Task, s: Sys, resting: multiset<Raw>, s': Sys, resting': multiset<Raw>, begins: bool, started: bool, x: nat, k: nat, c: nat, k': nat, c': nat)
    requires WithinAllowance(site, t, s, resting, k, c) && Moved(site, t, s, resting, s', resting', begins, started, x)
    requires StartsOnce(site, t, s) && StartsOnce(site, t, s')
    requires k' == (if begins then k + 1 else k) && c' == c + x
    ensures WithinAllowance(site, t, s', resting', k', c')
  {
    if begins {
      OwedAnew(site, t, s, resting, s', resting', started, x);
    } else if started {
      OwedTried(site, t, s, resting, s', resting', x);
    } else {
      OwedOn(site, t, s, resting, s', resting', x);
    }
    AllowMore(begins, k, c, x, StockOf(site, t, Heads, s, resting), Owed(site, t, s, resting), Owed(site, t, s', resting'),
              if ModeOf(t, s'.w.rows).Early? then 2 else 1);
  }

  lemma AllowanceStep(site: Site, t: Task, s: Sys, resting: multiset<Raw>, m: Move, k: nat, c: nat, k': nat, c': nat)
    requires site.codec.Valid() && t.DeliveryTask? && Enabled(site, s, m)
    requires Orderly(site, t, s, resting) && StartsOnce(site, t, Step(site, s, m)) && WithinAllowance(site, t, s, resting, k, c)
    requires k' == (if Begins(t, m) then k + 1 else k) && c' == c + Extra(site, t, s, m)
    ensures WithinAllowance(site, t, Step(site, s, m), Settle(site, s, resting, m), k', c')
  {
    Moves(site, t, s, resting, m);
    StillAllowed(site, t, s, resting, Step(site, s, m), Settle(site, s, resting, m),
                 Begins(t, m), Started(site, t, s, m), Extra(site, t, s, m), k, c, k', c');
  }

  /** Insertions and replays of the row. */
  function Cycles(t: Task, moves: seq<Move>): nat {
    if moves == [] then 0 else (if Begins(t, moves[0]) then 1 else 0) + Cycles(t, moves[1..])
  }

  lemma NextAllowed(site: Site, t: Task, s: Sys, moves: seq<Move>, resting: multiset<Raw>, k: nat, c: nat)
    returns (s': Sys, resting': multiset<Raw>, k': nat, c': nat)
    requires site.codec.Valid() && t.DeliveryTask? && moves != [] && Runs(site, s, moves)
    requires Orderly(site, t, s, resting) && WithinAllowance(site, t, s, resting, k, c)
    ensures Runs(site, s', moves[1..]) && End(site, s, moves) == End(site, s', moves[1..])
    ensures Orderly(site, t, s', resting') && WithinAllowance(site, t, s', resting', k', c')
    ensures k' + Cycles(t, moves[1..]) == k + Cycles(t, moves)
    ensures c' + Chances(site, t, s', moves[1..]) == c + Chances(site, t, s, moves)
  {
    s', resting' := Step(site, s, moves[0]), Settle(site, s, resting, moves[0]);
    k', c' := if Begins(t, moves[0]) then k + 1 else k, c + Extra(site, t, s, moves[0]);
    InOrder(site, t, s, resting, moves[0]);
    AllowanceStep(site, t, s, resting, moves[0], k, c, k', c');
    Unrolled(site, t, s, moves);
  }

  lemma SendsAllowed(site: Site, t: Task, s: Sys, resting: multiset<Raw>, k: nat, c: nat)
    requires WithinAllowance(site, t, s, resting, k, c)
    ensures s.w.posts[t] <= Allowance(k, c)
  {
  }

  lemma {:induction false} AllowanceRun(site: Site, t: Task, s: Sys, moves: seq<Move>, resting: multiset<Raw>, k: nat, c: nat, cycles: nat, chances: nat)
    requires site.codec.Valid() && t.DeliveryTask? && Runs(site, s, moves)
    requires Orderly(site, t, s, resting) && WithinAllowance(site, t, s, resting, k, c)
    requires cycles == k + Cycles(t, moves) && chances == c + Chances(site, t, s, moves)
    ensures End(site, s, moves).w.posts[t] <= Allowance(cycles, chances)
    decreases |moves|
  {
    if moves == [] {
      SendsAllowed(site, t, s, resting, k, c);
    } else {
      var s', resting', k', c' := NextAllowed(site, t, s, moves, resting, k, c);
      AllowanceRun(site, t, s', moves[1..], resting', k', c', cycles, chances);
    }
  }

  /** The outbound budget over every run of the whole system, whatever workers, crashes,
      recoveries, promotions and duplicates: k cycles of a delivery's row (its insertion
      and its replays) and c chances (copies that entered the queue, runs that ended
      without dropping their lease) allow 6k + (k + 1)c sends. In its first cycle a
      delivery is sent at most 6 + 2c times: eight with the one copy it is published
      with, and two more for every other copy and every abandoned run. */
  lemma DeliverySends(site: Site, id: nat, moves: seq<Move>)
    requires site.codec.Valid() && Runs(site, INITIAL, moves)
    ensures var (k, c) := (Cycles(DeliveryTask(id), moves), Chances(site, DeliveryTask(id), INITIAL, moves));
            End(site, INITIAL, moves).w.posts[DeliveryTask(id)] <= 6 * k + (k + 1) * c
  {
    var none: multiset<Raw> := multiset{};
    var t := DeliveryTask(id);
    forall r ensures none[r] == Count(site.codec.OrgOf, EMPTY, Held(INITIAL), r) {
      assert Leases(EMPTY.processing, Held(INITIAL), r) == {};
    }
    assert forall ahead :: Values(ahead, INITIAL) == map[];
    AllowanceRun(site, t, INITIAL, moves, none, 0, 0, Cycles(t, moves), Chances(site, t, INITIAL, moves));
  }
}
