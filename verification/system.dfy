/** Many workers on one queue, interleaved at the grain of a single effect, with
    crashes anywhere. */
module System {
  import opened Lease
  import opened QueueModel
  import opened Copies
  import opened Payloads
  import opened Handlers

  type Worker = nat

  /** A worker's current piece of work: just picked, or with these effects left. */
  datatype Job = Picked(member: Raw) | Running(member: Raw, todo: seq<Effect>)

  datatype Sys = Sys(w: World, jobs: map<Worker, Job>, used: set<Raw>)

  const INITIAL := Sys(World(EMPTY, map[], map[], multiset{}, map[], [], []), map[], {})

  function TaskOfRaw(site: Site, raw: Raw): Task {
    match site.codec.dec(raw)
    case Some(p) => TaskOf(p)
    case None => NoTask
  }

  function TaskAt(site: Site, member: Raw): Task { TaskOfRaw(site, StripToken(member)) }

  datatype Move =
    | Lease(w: Worker, deadline: int, token: Token)
    | Load(w: Worker, fate: Fate)     // read the row, start Process
    | Exec(w: Worker)                 // the next effect of Process
    | Quit(w: Worker)                 // crash, error return, or normal end
    | QueueMove(op: Op)               // anything else that happens to the queue
    | Accept(p: Payload)              // an email handed to the mailer
    | InsertRow(t: Task)              // ingest, publish
    | DeleteRow(t: Task)              // cascade
    | ManualRetry(t: Task)            // ResetEventForManualRetry
    | MarkQueued(t: Task)             // MarkEventQueued
    | Replay(t: Task)                 // ResetDeliveryForReplay
    | Claim(t: Task, now: int)        // ClaimStuckEvents, one row
    | Tunnel(t: Task, row: Row)       // the CLI tunnel writing its own rows

  /** Rows whose status promises a live copy: HTTP events in flight; deliveries in
      flight or waiting for a retry; emails still owed. */
  predicate Guarded(site: Site, t: Task, row: Row) {
    match t
    case EventTask(id) => site.destKind(id).Http? && row.status.InFlight?
    case DeliveryTask(_) => row.status.InFlight? || (row.status.Queued? && row.nextRetry.Some?)
    case EmailTask(_) => row.status.Queued?
    case NoTask => false
  }

  /** What ClaimStuckEvents may take, staleness aside. */
  predicate Claimable(site: Site, t: Task, row: Row) {
    t.EventTask? && (row.status.Queued? || (row.status.InFlight? && site.destKind(t.id).Cli?))
  }

  ghost predicate LeaseExpired(s: Sys, now: int) {
    exists w :: w in s.jobs && s.jobs[w].member in s.w.q.processing && s.w.q.processing[s.jobs[w].member] <= now
  }

  ghost predicate Enabled(site: Site, s: Sys, m: Move) {
    match m
    case Lease(w, _, token) => w !in s.jobs && token !in s.used
    case Load(w, _) => w in s.jobs && s.jobs[w].Picked? && site.codec.dec(StripToken(s.jobs[w].member)).Some?
    case Exec(w) => w in s.jobs && s.jobs[w].Running? && s.jobs[w].todo != []
    case Quit(w) => w in s.jobs
    case QueueMove(op) =>
      && Homed(site.codec.OrgOf, op)
      && !op.DoPick? && !op.DoAck? && !op.DoDeadLetter?
      // leases outlast live deliveries: Recover meets only those of dead workers
      && (op.DoRecover? ==> !LeaseExpired(s, op.now))
    case Accept(p) => p.kind.Email?
    case InsertRow(t) => t !in s.w.rows && (t.EventTask? || t.DeliveryTask?)
    case DeleteRow(t) => t in s.w.rows
    case ManualRetry(t) => t in s.w.rows && t.EventTask?
    case MarkQueued(t) => t in s.w.rows && t.EventTask?
    case Replay(t) => t in s.w.rows && t.DeliveryTask?
    case Claim(t, _) => t in s.w.rows && Claimable(site, t, s.w.rows[t])
    case Tunnel(t, _) => t in s.w.rows && t.EventTask? && site.destKind(t.id).Cli?
  }

  ghost function LeaseStep(s: Sys, w: Worker, deadline: int, token: Token): Sys {
    var pick := FairPick(s.w.q, deadline, token);
    Sys(s.w.(q := pick.after),
        if pick.got.Some? then s.jobs[w := Picked(pick.got.value)] else s.jobs,
        s.used + {token})
  }

  ghost function LoadStep(site: Site, s: Sys, w: Worker, f: Fate): Sys
    requires w in s.jobs && site.codec.dec(StripToken(s.jobs[w].member)).Some?
  {
    var member := s.jobs[w].member;
    var p := site.codec.dec(StripToken(member)).value;
    s.(jobs := s.jobs[w := Running(member, Plan(site, s.w.rows, p, f))])
  }

  ghost function ExecStep(site: Site, s: Sys, w: Worker): Sys
    requires w in s.jobs && s.jobs[w].Running? && s.jobs[w].todo != []
  {
    var job := s.jobs[w];
    s.(w := Perform(site, s.w, TaskAt(site, job.member), job.member, job.todo[0]),
       jobs := s.jobs[w := Running(job.member, job.todo[1..])])
  }

  ghost function QueueStep(site: Site, s: Sys, op: Op): Sys {
    s.(w := s.w.(q := Apply(site.codec.OrgOf, s.w.q, op)))
  }

  ghost function AcceptStep(site: Site, s: Sys, p: Payload): Sys {
    s.(w := s.w.(q := Enqueue(s.w.q, p.org, site.codec.enc(p)),
                 rows := if TaskOf(p).NoTask? then s.w.rows else s.w.rows[TaskOf(p) := Row(Queued, 0, None)]))
  }

  /** Moves of the environment on the rows alone. */
  function RowsAfter(rows: map<Task, Row>, m: Move): map<Task, Row> {
    match m
    case InsertRow(t) => rows[t := Row(Queued, 0, None)]
    case DeleteRow(t) => rows - {t}
    case ManualRetry(t) => Update(rows, t, (r: Row) => r.(status := Queued, nextRetry := None))
    case MarkQueued(t) => Update(rows, t, (r: Row) => r.(status := Queued))
    case Replay(t) => Update(rows, t, (r: Row) => Row(Queued, 0, None))
    case Claim(t, now) => Update(rows, t, (r: Row) => r.(status := Queued, nextRetry := Some(now)))
    case Tunnel(t, row) => Update(rows, t, (r: Row) => row)
    case _ => rows
  }

  ghost function Step(site: Site, s: Sys, m: Move): Sys
    requires Enabled(site, s, m)
  {
    match m
    case Lease(w, deadline, token) => LeaseStep(s, w, deadline, token)
    case Load(w, f) => LoadStep(site, s, w, f)
    case Exec(w) => ExecStep(site, s, w)
    case Quit(w) => s.(jobs := s.jobs - {w})
    case QueueMove(op) => QueueStep(site, s, op)
    case Accept(p) => AcceptStep(site, s, p)
    case _ => s.(w := s.w.(rows := RowsAfter(s.w.rows, m)))
  }

  ghost predicate Runs(site: Site, s: Sys, moves: seq<Move>)
    decreases |moves|
  {
    moves == [] || (Enabled(site, s, moves[0]) && Runs(site, Step(site, s, moves[0]), moves[1..]))
  }

  ghost function End(site: Site, s: Sys, moves: seq<Move>): Sys
    requires Runs(site, s, moves)
    decreases |moves|
  {
    if moves == [] then s else End(site, Step(site, s, moves[0]), moves[1..])
  }

  // ---- leases in whole-system runs -----------------------------------------

  /** Effects that cannot touch the queue, a row or the wire: what may be left of a
      run once its lease is gone. */
  predicate Idle(e: Effect) { e.Give? || e.Take? || e.Record? }

  predicate Spent(todo: seq<Effect>) { forall i :: 0 <= i < |todo| ==> Idle(todo[i]) }

  predicate Drops(e: Effect) { e.Drop? || e.Bury? }

  /** A run that drops its lease at most once, and does nothing of consequence after. */
  predicate DropsLast(todo: seq<Effect>) {
    forall i, j :: 0 <= i < j < |todo| && Drops(todo[i]) ==> Idle(todo[j])
  }

  ghost predicate Owned(s: Sys, w: Worker)
    requires w in s.jobs
  {
    s.jobs[w].member in s.w.q.processing || (s.jobs[w].Running? && Spent(s.jobs[w].todo))
  }

  ghost predicate TokensKnown(s: Sys) {
    && (forall m :: m in s.w.q.processing ==> TokenOf(m) in s.used)
    && (forall w :: w in s.jobs ==> TokenOf(s.jobs[w].member) in s.used)
  }

  ghost predicate HeldApart(s: Sys) {
    forall w, v :: w in s.jobs && v in s.jobs && w != v ==> s.jobs[w].member != s.jobs[v].member
  }

  ghost predicate AllOwned(s: Sys) { forall w :: w in s.jobs ==> Owned(s, w) }

  ghost predicate AllDropLast(s: Sys) {
    forall w :: w in s.jobs && s.jobs[w].Running? ==> DropsLast(s.jobs[w].todo)
  }

  /** Every lease carries a token already handed out, no two workers hold the same
      one, and a worker that has not dropped its lease still has it. */
  ghost predicate LeasesOk(site: Site, s: Sys) {
    RingOk(site.codec.OrgOf, s.w.q) && TokensKnown(s) && HeldApart(s) && AllOwned(s) && AllDropLast(s)
  }

  lemma FreshPick(site: Site, s: Sys, deadline: int, token: Token)
    requires LeasesOk(site, s) && token !in s.used
    ensures var got := FairPick(s.w.q, deadline, token).got;
            got.Some? ==>
              && TokenOf(got.value) == token
              && got.value !in s.w.q.processing
              && forall w :: w in s.jobs ==> s.jobs[w].member != got.value
  {
    if s.w.q.ring != [] && ListAt(s.w.q.pending, s.w.q.ring[0]) != [] {
      StripUndoesTag(token, ListAt(s.w.q.pending, s.w.q.ring[0])[0]);
    }
  }

  /** What a queue move other than a pick or a drop leaves in processing. */
  lemma QueueMoveLeases(orgOf: Raw -> Org, q: State, op: Op)
    requires !op.DoPick? && !op.DoAck? && !op.DoDeadLetter?
    ensures forall m :: m in Apply(orgOf, q, op).processing ==> m in q.processing
    ensures forall m :: m in q.processing && (op.DoRecover? ==> q.processing[m] > op.now) ==>
              m in Apply(orgOf, q, op).processing
  {
    match op {
      case DoPromoteDue(now, limit) => PromoteAllKeys(orgOf, q, Limited(Due(q.scheduled, now), limit));
      case DoRecover(now) => RecoverAllKeys(q, now, Due(q.processing, now));
      case _ =>
    }
  }

  lemma PerformRing(site: Site, w: World, t: Task, member: Raw, e: Effect)
    requires RingOk(site.codec.OrgOf, w.q)
    ensures RingOk(site.codec.OrgOf, Perform(site, w, t, member, e).q)
    ensures var z := Perform(site, w, t, member, e).q.processing;
            z == if e.Drop? || e.Bury? then w.q.processing - {member} else w.q.processing
  {
  }

  lemma NextTodo(todo: seq<Effect>)
    requires todo != [] && DropsLast(todo)
    ensures DropsLast(todo[1..])
    ensures Spent(todo) || Drops(todo[0]) ==> Spent(todo[1..])
    ensures !Idle(todo[0]) ==> !Spent(todo)
  {
    assert forall i :: 0 <= i < |todo| - 1 ==> todo[1..][i] == todo[i + 1];
  }

  lemma ExecOwned(site: Site, s: Sys, w: Worker, v: Worker)
    requires LeasesOk(site, s) && w in s.jobs && s.jobs[w].Running? && s.jobs[w].todo != [] && v in s.jobs
    ensures Owned(ExecStep(site, s, w), v)
  {
    var job := s.jobs[w];
    PerformRing(site, s.w, TaskAt(site, job.member), job.member, job.todo[0]);
    NextTodo(job.todo);
    assert Owned(s, v) && Owned(s, w);
  }

  lemma ExecLeases(site: Site, s: Sys, w: Worker)
    requires LeasesOk(site, s) && w in s.jobs && s.jobs[w].Running? && s.jobs[w].todo != []
    ensures LeasesOk(site, ExecStep(site, s, w))
  {
    var job := s.jobs[w];
    var s' := ExecStep(site, s, w);
    PerformRing(site, s.w, TaskAt(site, job.member), job.member, job.todo[0]);
    assert AllOwned(s') by {
      forall v | v in s'.jobs ensures Owned(s', v) { ExecOwned(site, s, w, v); }
    }
    NextTodo(job.todo);
  }

  // ---- every plan drops its lease once, at the end --------------------------

  lemma EventSendDropsLast(site: Site, row: Row, p: Payload, f: Fate)
    ensures DropsLast(EventSend(site, row, p, f))
  {
  }

  lemma EventGatedDropsLast(site: Site, row: Row, p: Payload, f: Fate)
    ensures DropsLast(EventGated(site, row, p, f))
  {
    EventSendDropsLast(site, row, p, f);
  }

  lemma GateDropsLast(site: Site, p: Payload, f: Fate, inner: seq<Effect>)
    requires DropsLast(inner)
    ensures DropsLast(OrgGate(site, p, f, inner))
  {
  }

  lemma EventPlanDropsLast(site: Site, row: Option<Row>, p: Payload, f: Fate)
    ensures DropsLast(EventPlan(site, row, p, f))
  {
    if row.Some? {
      EventGatedDropsLast(site, row.value, p, f);
      GateDropsLast(site, p, f, EventGated(site, row.value, p, f));
    }
  }

  lemma MessagePlanDropsLast(site: Site, row: Option<Row>, p: Payload, f: Fate)
    ensures DropsLast(MessagePlan(site, row, p, f))
  {
    if row.Some? && p.data.Some? {
      assert DropsLast(MessageFail(site, p.data.value, p, f, row.value.attempts + 1));
      assert DropsLast(MessageSend(site, p.data.value, row.value, p, f));
      assert DropsLast(MessageGated(site, p.data.value, row.value, p, f));
      GateDropsLast(site, p, f, MessageGated(site, p.data.value, row.value, p, f));
    }
  }

  lemma PlanDropsLast(site: Site, rows: map<Task, Row>, p: Payload, f: Fate)
    ensures DropsLast(Plan(site, rows, p, f))
  {
    var t := TaskOf(p);
    var row := if t in rows then Some(rows[t]) else None;
    EventPlanDropsLast(site, row, p, f);
    MessagePlanDropsLast(site, row, p, f);
  }

  // ---- every move keeps the leases in order ---------------------------------

  lemma SameJobs(s: Sys, s': Sys)
    requires AllOwned(s) && s'.jobs == s.jobs
    requires forall w :: w in s.jobs && s.jobs[w].member in s.w.q.processing ==> s.jobs[w].member in s'.w.q.processing
    ensures AllOwned(s')
  {
    forall v | v in s'.jobs ensures Owned(s', v) { assert Owned(s, v); }
  }

  lemma PickLeases(site: Site, s: Sys, w: Worker, deadline: int, token: Token)
    requires LeasesOk(site, s) && w !in s.jobs && token !in s.used
    ensures LeasesOk(site, LeaseStep(s, w, deadline, token))
  {
    FreshPick(site, s, deadline, token);
    PickKeepsRing(site.codec.OrgOf, s.w.q, deadline, token);
    PickOwned(s, w, deadline, token);
  }

  lemma PickOwned(s: Sys, w: Worker, deadline: int, token: Token)
    requires AllOwned(s) && w !in s.jobs
    ensures AllOwned(LeaseStep(s, w, deadline, token))
  {
    var s' := LeaseStep(s, w, deadline, token);
    assert forall m :: m in s.w.q.processing ==> m in s'.w.q.processing;
    forall v | v in s'.jobs ensures Owned(s', v) {
      if v in s.jobs { assert Owned(s, v); }
    }
  }

  lemma LoadLeases(site: Site, s: Sys, w: Worker, f: Fate)
    requires LeasesOk(site, s)
    requires w in s.jobs && s.jobs[w].Picked? && site.codec.dec(StripToken(s.jobs[w].member)).Some?
    ensures LeasesOk(site, LoadStep(site, s, w, f))
  {
    var s' := LoadStep(site, s, w, f);
    PlanDropsLast(site, s.w.rows, site.codec.dec(StripToken(s.jobs[w].member)).value, f);
    forall v | v in s'.jobs ensures Owned(s', v) { assert Owned(s, v) && Owned(s, w); }
  }

  lemma QuitLeases(site: Site, s: Sys, w: Worker)
    requires LeasesOk(site, s) && w in s.jobs
    ensures LeasesOk(site, s.(jobs := s.jobs - {w}))
  {
    var s' := s.(jobs := s.jobs - {w});
    forall v | v in s'.jobs ensures Owned(s', v) { assert Owned(s, v); }
  }

  lemma QueueLeases(site: Site, s: Sys, op: Op)
    requires LeasesOk(site, s) && Homed(site.codec.OrgOf, op)
    requires !op.DoPick? && !op.DoAck? && !op.DoDeadLetter?
    requires op.DoRecover? ==> !LeaseExpired(s, op.now)
    ensures LeasesOk(site, QueueStep(site, s, op))
  {
    StepKeepsRing(site.codec.OrgOf, s.w.q, op);
    QueueMoveLeases(site.codec.OrgOf, s.w.q, op);
    SameJobs(s, QueueStep(site, s, op));
  }

  lemma WorldLeases(site: Site, s: Sys, w': World)
    requires LeasesOk(site, s) && RingOk(site.codec.OrgOf, w'.q)
    requires w'.q.processing == s.w.q.processing
    ensures LeasesOk(site, s.(w := w'))
  {
    SameJobs(s, s.(w := w'));
  }

  lemma AcceptRing(site: Site, s: Sys, p: Payload)
    requires site.codec.Valid() && RingOk(site.codec.OrgOf, s.w.q)
    ensures RingOk(site.codec.OrgOf, Enqueue(s.w.q, p.org, site.codec.enc(p)))
  {
    assert site.codec.OrgOf(site.codec.enc(p)) == p.org;
    PushKeepsRing(site.codec.OrgOf, s.w.q, site.codec.enc(p));
  }

  lemma LeasesStep(site: Site, s: Sys, m: Move)
    requires site.codec.Valid()
    requires LeasesOk(site, s) && Enabled(site, s, m)
    ensures LeasesOk(site, Step(site, s, m))
  {
    match m {
      case Lease(w, deadline, token) => PickLeases(site, s, w, deadline, token);
      case Load(w, f) => LoadLeases(site, s, w, f);
      case Exec(w) => ExecLeases(site, s, w);
      case Quit(w) => QuitLeases(site, s, w);
      case QueueMove(op) => QueueLeases(site, s, op);
      case Accept(p) => AcceptRing(site, s, p); WorldLeases(site, s, Step(site, s, m).w);
      case _ => WorldLeases(site, s, Step(site, s, m).w);
    }
  }
}
