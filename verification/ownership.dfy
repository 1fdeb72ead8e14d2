/** Ownership over every run of the whole system: inbound, outbound and mail on one
    queue, any number of workers, any crash. */
module Ownership {
  import opened Lease
  import opened QueueModel
  import opened Copies
  import opened Payloads
  import opened Handlers
  import opened System
  import opened Custody
  import opened Sums

  predicate Dropping(job: Job) { job.Running? && !Covered(job.todo) }

  /** The leases about to be dropped with nothing left to save their task. */
  function Hidden(s: Sys): set<Raw> {
    set w | w in s.jobs && Dropping(s.jobs[w]) :: s.jobs[w].member
  }

  function Kept(site: Site, s: Sys, r: Raw): nat {
    Count(site.codec.OrgOf, s.w.q, Hidden(s), r)
  }

  ghost predicate HasCopy(site: Site, s: Sys, t: Task) {
    exists r :: TaskOfRaw(site, r) == t && Kept(site, s, r) > 0
  }

  ghost predicate AllCustodial(site: Site, s: Sys) {
    forall w :: w in s.jobs && s.jobs[w].Running? ==>
      PromisesCovered(s.jobs[w].todo) && OwnTask(s.jobs[w].todo, TaskAt(site, s.jobs[w].member))
  }

  ghost predicate PromisesKept(site: Site, s: Sys) {
    forall t :: t in s.w.rows && Guarded(site, t, s.w.rows[t]) ==> HasCopy(site, s, t)
  }

  ghost predicate Inv(site: Site, s: Sys) {
    LeasesOk(site, s) && AllCustodial(site, s) && PromisesKept(site, s)
  }

  // ---- counting under a changing set of hidden leases ------------------------

  lemma FewerHidden(orgOf: Raw -> Org, q: State, h: set<Raw>, h': set<Raw>, r: Raw)
    requires h' <= h
    ensures Count(orgOf, q, h', r) >= Count(orgOf, q, h, r)
  {
    SubsetSize(Leases(q.processing, h, r), Leases(q.processing, h', r));
  }

  lemma OtherHidden(orgOf: Raw -> Org, q: State, h: set<Raw>, m: Raw, r: Raw)
    requires StripToken(m) != r
    ensures Count(orgOf, q, h + {m}, r) == Count(orgOf, q, h, r)
  {
    assert Leases(q.processing, h + {m}, r) == Leases(q.processing, h, r);
  }

  lemma HiddenUpdate(s: Sys, w: Worker, job: Job)
    requires HeldApart(s) && w in s.jobs && job.member == s.jobs[w].member
    ensures Hidden(s.(jobs := s.jobs[w := job]))
         == (Hidden(s) - {job.member}) + (if Dropping(job) then {job.member} else {})
    ensures Dropping(s.jobs[w]) <==> job.member in Hidden(s)
  {
    var s' := s.(jobs := s.jobs[w := job]);
    forall m ensures m in Hidden(s') <==> m in (Hidden(s) - {job.member}) + (if Dropping(job) then {job.member} else {}) {
      if m in Hidden(s') {
        var v :| v in s'.jobs && Dropping(s'.jobs[v]) && s'.jobs[v].member == m;
        assert v == w || s.jobs[v].member != job.member;
      }
      if m in Hidden(s) - {job.member} {
        var v :| v in s.jobs && Dropping(s.jobs[v]) && s.jobs[v].member == m;
        assert v != w && s'.jobs[v] == s.jobs[v];
      }
      if m == job.member && Dropping(job) { assert s'.jobs[w] == job; }
    }
  }

  lemma Carried(site: Site, s: Sys, s': Sys, t: Task)
    requires HasCopy(site, s, t)
    requires forall r :: TaskOfRaw(site, r) == t && Kept(site, s, r) > 0 ==> Kept(site, s', r) > 0
    ensures HasCopy(site, s', t)
  {
    var r :| TaskOfRaw(site, r) == t && Kept(site, s, r) > 0;
    assert Kept(site, s', r) > 0;
  }

  /** A lease still in hand and not about to be dropped is itself a copy. */
  lemma HeldIsCopy(site: Site, s: Sys, w: Worker)
    requires w in s.jobs && s.jobs[w].member in s.w.q.processing && s.jobs[w].member !in Hidden(s)
    ensures HasCopy(site, s, TaskAt(site, s.jobs[w].member))
  {
    var m := s.jobs[w].member;
    assert m in Leases(s.w.q.processing, Hidden(s), StripToken(m));
    assert Kept(site, s, StripToken(m)) > 0;
  }

  // ---- the moves -----------------------------------------------------------

  lemma LeaseHidden(s: Sys, w: Worker, deadline: int, token: Token)
    requires w !in s.jobs
    ensures Hidden(LeaseStep(s, w, deadline, token)) == Hidden(s)
  {
    var s' := LeaseStep(s, w, deadline, token);
    assert forall v :: v in s.jobs ==> v in s'.jobs && s'.jobs[v] == s.jobs[v];
  }

  lemma HiddenIsHeld(s: Sys, m: Raw)
    requires forall w :: w in s.jobs ==> s.jobs[w].member != m
    ensures m !in Hidden(s)
  {
  }

  lemma LeaseKept(site: Site, s: Sys, w: Worker, deadline: int, token: Token, r: Raw)
    requires LeasesOk(site, s) && w !in s.jobs && token !in s.used
    ensures Kept(site, LeaseStep(s, w, deadline, token), r) == Kept(site, s, r)
  {
    FreshPick(site, s, deadline, token);
    LeaseHidden(s, w, deadline, token);
    var got := FairPick(s.w.q, deadline, token).got;
    if got.Some? { HiddenIsHeld(s, got.value); }
    PickCount(site.codec.OrgOf, s.w.q, deadline, token, Hidden(s), r);
  }

  lemma LeaseMove(site: Site, s: Sys, w: Worker, deadline: int, token: Token)
    requires Inv(site, s) && w !in s.jobs && token !in s.used
    ensures Inv(site, LeaseStep(s, w, deadline, token))
  {
    var s' := LeaseStep(s, w, deadline, token);
    PickLeases(site, s, w, deadline, token);
    forall r ensures Kept(site, s', r) == Kept(site, s, r) { LeaseKept(site, s, w, deadline, token, r); }
    StillPromised(site, s, s');
  }

  lemma StillPromised(site: Site, s: Sys, s': Sys)
    requires PromisesKept(site, s) && s'.w.rows == s.w.rows
    requires forall r :: Kept(site, s, r) > 0 ==> Kept(site, s', r) > 0
    ensures PromisesKept(site, s')
  {
    forall t | t in s'.w.rows && Guarded(site, t, s'.w.rows[t]) ensures HasCopy(site, s', t) {
      Carried(site, s, s', t);
    }
  }

  lemma QuitMove(site: Site, s: Sys, w: Worker)
    requires Inv(site, s) && w in s.jobs
    ensures Inv(site, s.(jobs := s.jobs - {w}))
  {
    var s' := s.(jobs := s.jobs - {w});
    QuitLeases(site, s, w);
    assert Hidden(s') <= Hidden(s);
    forall r ensures Kept(site, s', r) >= Kept(site, s, r) {
      FewerHidden(site.codec.OrgOf, s.w.q, Hidden(s), Hidden(s'), r);
    }
    StillPromised(site, s, s');
  }

  lemma QueueMoveKeeps(site: Site, s: Sys, op: Op)
    requires Inv(site, s) && Homed(site.codec.OrgOf, op)
    requires !op.DoPick? && !op.DoAck? && !op.DoDeadLetter?
    requires op.DoRecover? ==> !LeaseExpired(s, op.now)
    ensures Inv(site, QueueStep(site, s, op))
  {
    var s' := QueueStep(site, s, op);
    QueueLeases(site, s, op);
    assert Hidden(s') == Hidden(s);
    forall r | Kept(site, s, r) > 0 ensures Kept(site, s', r) > 0 {
      QueueMoveCount(site, s, op, r);
    }
    StillPromised(site, s, s');
  }

  lemma QueueMoveCount(site: Site, s: Sys, op: Op, r: Raw)
    requires Homed(site.codec.OrgOf, op)
    requires !op.DoPick? && !op.DoAck? && !op.DoDeadLetter?
    requires op.DoRecover? ==> !LeaseExpired(s, op.now)
    requires Count(site.codec.OrgOf, s.w.q, Hidden(s), r) > 0
    ensures Count(site.codec.OrgOf, Apply(site.codec.OrgOf, s.w.q, op), Hidden(s), r) > 0
  {
    var (orgOf, q, h) := (site.codec.OrgOf, s.w.q, Hidden(s));
    match op {
      case DoEnqueue(o, raw) => PushCount(orgOf, q, raw, h, r);
      case DoSchedule(raw, at) => ScheduleCount(orgOf, q, raw, at, h, r);
      case DoPromoteDue(now, limit) => PromoteDueCount(orgOf, q, now, limit, h, r);
      case DoRecover(now) => RecoverCount(orgOf, q, now, h, r);
      case DoRequeueDead(x, y) => PushCount(orgOf, q.(dead := WithoutFirst(q.dead, x)), y, h, r);
      case DoPromoteScheduled(raw) => if raw in q.scheduled { PromoteOneCount(orgOf, q, raw, h, r); }
      case _ =>
    }
  }

  /** Starting a run hides its lease only if the row it read promises nothing. */
  lemma LoadKept(site: Site, s: Sys, w: Worker, f: Fate, t: Task, r: Raw)
    requires LeasesOk(site, s) && t in s.w.rows && Guarded(site, t, s.w.rows[t]) && TaskOfRaw(site, r) == t
    requires w in s.jobs && s.jobs[w].Picked? && site.codec.dec(StripToken(s.jobs[w].member)).Some?
    ensures Kept(site, LoadStep(site, s, w, f), r) == Kept(site, s, r)
  {
    var s' := LoadStep(site, s, w, f);
    var m := s.jobs[w].member;
    HandlersCustodial(site, s.w.rows, site.codec.dec(StripToken(m)).value, f);
    HiddenUpdate(s, w, s'.jobs[w]);
    assert s' == s.(jobs := s.jobs[w := s'.jobs[w]]);
    if !Dropping(s'.jobs[w]) {
      assert Hidden(s') == Hidden(s);
    } else {
      assert Hidden(s') == Hidden(s) + {m};
      OtherHidden(site.codec.OrgOf, s.w.q, Hidden(s), m, r);
    }
  }

  lemma LoadMove(site: Site, s: Sys, w: Worker, f: Fate)
    requires Inv(site, s)
    requires w in s.jobs && s.jobs[w].Picked? && site.codec.dec(StripToken(s.jobs[w].member)).Some?
    ensures Inv(site, LoadStep(site, s, w, f))
  {
    var s' := LoadStep(site, s, w, f);
    LoadLeases(site, s, w, f);
    HandlersCustodial(site, s.w.rows, site.codec.dec(StripToken(s.jobs[w].member)).value, f);
    forall t | t in s'.w.rows && Guarded(site, t, s'.w.rows[t]) ensures HasCopy(site, s', t) {
      forall r | TaskOfRaw(site, r) == t ensures Kept(site, s', r) == Kept(site, s, r) {
        LoadKept(site, s, w, f, t, r);
      }
      Carried(site, s, s', t);
    }
  }

  // ---- one effect ------------------------------------------------------------

  lemma NextCustodial(todo: seq<Effect>, t: Task)
    requires todo != [] && PromisesCovered(todo) && OwnTask(todo, t) && DropsLast(todo)
    ensures PromisesCovered(todo[1..]) && OwnTask(todo[1..], t)
    ensures Promises(todo[0]) ==> Covered(todo) && Covered(todo[1..])
    ensures Drops(todo[0]) ==> !Covered(todo) && Covered(todo[1..])
    ensures !Saves(todo[0]) && !Drops(todo[0]) ==> (Covered(todo[1..]) <==> Covered(todo))
  {
    assert forall i :: 0 <= i < |todo| - 1 ==> todo[1..][i] == todo[i + 1];
    if Drops(todo[0]) { NextTodo(todo); SpentCovered(todo[1..]); }
  }

  lemma {:induction false} SpentCovered(todo: seq<Effect>)
    requires Spent(todo)
    ensures Covered(todo)
  {
    if todo != [] {
      assert forall i :: 0 <= i < |todo| - 1 ==> todo[1..][i] == todo[i + 1];
      SpentCovered(todo[1..]);
    }
  }

  predicate CanExec(s: Sys, w: Worker) {
    w in s.jobs && s.jobs[w].Running? && s.jobs[w].todo != []
  }

  lemma ExecHidden(site: Site, s: Sys, w: Worker)
    requires Inv(site, s) && CanExec(s, w)
    ensures var (m, e, h, h') := (s.jobs[w].member, s.jobs[w].todo[0], Hidden(s), Hidden(ExecStep(site, s, w)));
            && (Drops(e) ==> m in h && h' == h - {m})
            && (Saves(e) ==> h' == h - {m} || h' == h + {m})
            && (!Drops(e) && !Saves(e) ==> h' == h)
            && (Promises(e) ==> m !in h')
  {
    var job := s.jobs[w];
    var job' := Running(job.member, job.todo[1..]);
    NextCustodial(job.todo, TaskAt(site, job.member));
    HiddenUpdate(s, w, job');
    assert Hidden(ExecStep(site, s, w)) == Hidden(s.(jobs := s.jobs[w := job']));
    var h := Hidden(s);
    if job.member in h {
      assert (h - {job.member}) + {job.member} == h == h + {job.member};
    } else {
      assert h - {job.member} == h;
    }
  }

  /** A drop takes out a hidden copy: nothing anyone counts on. */
  lemma DropKept(site: Site, s: Sys, w: Worker, r: Raw)
    requires Inv(site, s) && CanExec(s, w) && Drops(s.jobs[w].todo[0])
    ensures Kept(site, ExecStep(site, s, w), r) == Kept(site, s, r)
  {
    ExecHidden(site, s, w);
    DropCount(site.codec.OrgOf, s.w.q, s.jobs[w].member, Hidden(s), r);
  }

  lemma SaveKept(site: Site, s: Sys, w: Worker, r: Raw)
    requires Inv(site, s) && CanExec(s, w) && Saves(s.jobs[w].todo[0])
    ensures Kept(site, ExecStep(site, s, w), r) >= Kept(site, s, r) || StripToken(s.jobs[w].member) == r
  {
    var (orgOf, q, m, h) := (site.codec.OrgOf, s.w.q, s.jobs[w].member, Hidden(s));
    var s' := ExecStep(site, s, w);
    ExecHidden(site, s, w);
    assert Count(orgOf, s'.w.q, h, r) >= Count(orgOf, q, h, r) by {
      var e := s.jobs[w].todo[0];
      if e.Defer? { ScheduleCount(orgOf, q, site.codec.enc(e.p), e.at, h, r); }
    }
    if StripToken(m) != r {
      if Hidden(s') == h - {m} {
        FewerHidden(orgOf, s'.w.q, h, h - {m}, r);
      } else {
        OtherHidden(orgOf, s'.w.q, h, m, r);
      }
    }
  }

  lemma QueueUntouched(site: Site, w: World, t: Task, member: Raw, e: Effect)
    requires !Drops(e) && !e.Defer?
    ensures Perform(site, w, t, member, e).q == w.q
  {
  }

  lemma QuietKept(site: Site, s: Sys, w: Worker, r: Raw)
    requires Inv(site, s) && CanExec(s, w) && !Saves(s.jobs[w].todo[0]) && !Drops(s.jobs[w].todo[0])
    ensures Kept(site, ExecStep(site, s, w), r) == Kept(site, s, r)
  {
    ExecHidden(site, s, w);
    var job := s.jobs[w];
    QueueUntouched(site, s.w, TaskAt(site, job.member), job.member, job.todo[0]);
  }

  /** After scheduling a successor its row has a copy, whatever becomes of the lease. */
  lemma SuccessorIsCopy(site: Site, s: Sys, w: Worker)
    requires site.codec.Valid()
    requires Inv(site, s) && CanExec(s, w) && s.jobs[w].todo[0].Defer?
    ensures HasCopy(site, ExecStep(site, s, w), TaskAt(site, s.jobs[w].member))
  {
    var s' := ExecStep(site, s, w);
    var raw := site.codec.enc(s.jobs[w].todo[0].p);
    assert TaskOfRaw(site, raw) == TaskAt(site, s.jobs[w].member);
    assert raw in s'.w.q.scheduled;
    assert Kept(site, s', raw) > 0;
  }

  lemma PromiserIsCopy(site: Site, s: Sys, w: Worker)
    requires Inv(site, s) && CanExec(s, w) && Promises(s.jobs[w].todo[0])
    ensures HasCopy(site, ExecStep(site, s, w), TaskAt(site, s.jobs[w].member))
  {
    var s' := ExecStep(site, s, w);
    ExecHidden(site, s, w);
    NextTodo(s.jobs[w].todo);
    assert Owned(s, w);
    HeldIsCopy(site, s', w);
  }

  lemma PerformRows(site: Site, w: World, t: Task, member: Raw, e: Effect)
    ensures var rows' := Perform(site, w, t, member, e).rows;
            && rows'.Keys == w.rows.Keys
            && (forall u :: u in w.rows && u != t ==> rows'[u] == w.rows[u])
            && (!Promises(e) && !e.Mark? && !e.Hold? ==> rows' == w.rows)
            && (t in w.rows && e.Mark? ==> rows'[t].status == e.status)
            && (t in w.rows && e.Hold? ==> rows'[t].status.Queued?)
  {
  }

  lemma ExecRows(site: Site, s: Sys, w: Worker, t: Task)
    requires Inv(site, s) && CanExec(s, w)
    requires var s' := ExecStep(site, s, w); t in s'.w.rows && Guarded(site, t, s'.w.rows[t])
    ensures t in s.w.rows
    ensures Guarded(site, t, s.w.rows[t]) || (Promises(s.jobs[w].todo[0]) && t == TaskAt(site, s.jobs[w].member))
    ensures s.jobs[w].todo[0].Mark? || s.jobs[w].todo[0].Hold? ==> t != TaskAt(site, s.jobs[w].member)
  {
    var job := s.jobs[w];
    assert OwnTask(job.todo, TaskAt(site, job.member));
    PerformRows(site, s.w, TaskAt(site, job.member), job.member, job.todo[0]);
  }

  lemma ExecCopy(site: Site, s: Sys, w: Worker, t: Task)
    requires site.codec.Valid()
    requires Inv(site, s) && CanExec(s, w)
    requires var s' := ExecStep(site, s, w); t in s'.w.rows && Guarded(site, t, s'.w.rows[t])
    ensures HasCopy(site, ExecStep(site, s, w), t)
  {
    var s' := ExecStep(site, s, w);
    var e := s.jobs[w].todo[0];
    ExecRows(site, s, w, t);
    if Promises(e) && t == TaskAt(site, s.jobs[w].member) {
      PromiserIsCopy(site, s, w);
    } else if e.Defer? && t == TaskAt(site, s.jobs[w].member) {
      SuccessorIsCopy(site, s, w);
    } else {
      forall r | TaskOfRaw(site, r) == t && Kept(site, s, r) > 0 ensures Kept(site, s', r) > 0 {
        if Drops(e) { DropKept(site, s, w, r); }
        else if Saves(e) { SaveKept(site, s, w, r); }
        else { QuietKept(site, s, w, r); }
      }
      Carried(site, s, s', t);
    }
  }

  lemma ExecMove(site: Site, s: Sys, w: Worker)
    requires site.codec.Valid()
    requires Inv(site, s) && CanExec(s, w)
    ensures Inv(site, ExecStep(site, s, w))
  {
    var s' := ExecStep(site, s, w);
    ExecLeases(site, s, w);
    NextCustodial(s.jobs[w].todo, TaskAt(site, s.jobs[w].member));
    forall t | t in s'.w.rows && Guarded(site, t, s'.w.rows[t]) ensures HasCopy(site, s', t) {
      ExecCopy(site, s, w, t);
    }
  }

  // ---- rows and mail -----------------------------------------------------------

  lemma RowMove(site: Site, s: Sys, m: Move)
    requires Inv(site, s) && Enabled(site, s, m)
    requires !m.Lease? && !m.Load? && !m.Exec? && !m.Quit? && !m.QueueMove? && !m.Accept?
    ensures Inv(site, Step(site, s, m))
  {
    var s' := Step(site, s, m);
    WorldLeases(site, s, s'.w);
    forall t | t in s'.w.rows && Guarded(site, t, s'.w.rows[t]) ensures HasCopy(site, s', t) {
      assert t in s.w.rows && s.w.rows[t] == s'.w.rows[t];
      Carried(site, s, s', t);
    }
  }

  lemma AcceptKept(site: Site, s: Sys, p: Payload, r: Raw)
    requires site.codec.Valid() && p.kind.Email?
    ensures Kept(site, AcceptStep(site, s, p), r)
         == Kept(site, s, r) + (if r == site.codec.enc(p) then 1 else 0)
  {
    assert site.codec.OrgOf(site.codec.enc(p)) == p.org;
    PushCount(site.codec.OrgOf, s.w.q, site.codec.enc(p), Hidden(s), r);
  }

  lemma AcceptMove(site: Site, s: Sys, p: Payload)
    requires site.codec.Valid() && p.kind.Email?
    requires Inv(site, s)
    ensures Inv(site, AcceptStep(site, s, p))
  {
    var s' := AcceptStep(site, s, p);
    var raw := site.codec.enc(p);
    assert site.codec.OrgOf(raw) == p.org;
    AcceptRing(site, s, p);
    WorldLeases(site, s, s'.w);
    forall r ensures Kept(site, s', r) == Kept(site, s, r) + (if r == raw then 1 else 0) {
      AcceptKept(site, s, p, r);
    }
    forall t | t in s'.w.rows && Guarded(site, t, s'.w.rows[t]) ensures HasCopy(site, s', t) {
      if t == TaskOf(p) {
        assert TaskOfRaw(site, raw) == t && Kept(site, s', raw) > 0;
      } else {
        assert t in s.w.rows && s.w.rows[t] == s'.w.rows[t];
        Carried(site, s, s', t);
      }
    }
  }

  lemma InvStep(site: Site, s: Sys, m: Move)
    requires site.codec.Valid()
    requires Inv(site, s) && Enabled(site, s, m)
    ensures Inv(site, Step(site, s, m))
  {
    match m {
      case Lease(w, deadline, token) => LeaseMove(site, s, w, deadline, token);
      case Load(w, f) => LoadMove(site, s, w, f);
      case Exec(w) => ExecMove(site, s, w);
      case Quit(w) => QuitMove(site, s, w);
      case QueueMove(op) => QueueMoveKeeps(site, s, op);
      case Accept(p) => AcceptMove(site, s, p);
      case _ => RowMove(site, s, m);
    }
  }

  lemma {:induction false} InvRun(site: Site, s: Sys, moves: seq<Move>)
    requires site.codec.Valid()
    requires Inv(site, s) && Runs(site, s, moves)
    ensures Inv(site, End(site, s, moves))
    decreases |moves|
  {
    if moves != [] {
      InvStep(site, s, moves[0]);
      InvRun(site, Step(site, s, moves[0]), moves[1..]);
    }
  }

  // ---- what it means -----------------------------------------------------------

  ghost predicate LiveInQueue(site: Site, q: State, t: Task) {
    exists r :: TaskOfRaw(site, r) == t &&
      (|| r in ListAt(q.pending, site.codec.OrgOf(r))
       || r in q.scheduled
       || exists m :: m in q.processing && StripToken(m) == r)
  }

  lemma CopyIsLive(site: Site, s: Sys, t: Task)
    requires HasCopy(site, s, t)
    ensures LiveInQueue(site, s.w.q, t)
  {
    var r :| TaskOfRaw(site, r) == t && Kept(site, s, r) > 0;
    var l := Leases(s.w.q.processing, Hidden(s), r);
    if |l| > 0 {
      var m :| m in l;
    }
  }

  /** Ownership. In every reachable state, every row that promises a live copy has
      one: an HTTP event in flight, a delivery in flight or waiting for its retry, an
      email not yet settled. */
  lemma PromisesAlwaysKept(site: Site, moves: seq<Move>, t: Task)
    requires site.codec.Valid() && Runs(site, INITIAL, moves)
    requires var s := End(site, INITIAL, moves); t in s.w.rows && Guarded(site, t, s.w.rows[t])
    ensures LiveInQueue(site, End(site, INITIAL, moves).w.q, t)
  {
    InvRun(site, INITIAL, moves);
    CopyIsLive(site, End(site, INITIAL, moves), t);
  }

  /** Why the event reaper may leave HTTP events in flight alone: it may claim exactly
      the queued ones, and any other is finished or still owned by the queue. */
  lemma ReaperMissesNothing(site: Site, moves: seq<Move>, id: nat)
    requires site.codec.Valid() && Runs(site, INITIAL, moves)
    requires site.destKind(id).Http?
    requires var s := End(site, INITIAL, moves);
             EventTask(id) in s.w.rows
    ensures var s := End(site, INITIAL, moves);
            var row := s.w.rows[EventTask(id)];
            && (Claimable(site, EventTask(id), row) <==> row.status == Queued)
            && (row.status == Queued || row.status == Delivered || row.status == Failed || row.status == Discarded
                || row.status == Filtered || row.status == Dead || row.status == Disabled
                || LiveInQueue(site, s.w.q, EventTask(id)))
  {
    var s := End(site, INITIAL, moves);
    if s.w.rows[EventTask(id)].status.InFlight? { PromisesAlwaysKept(site, moves, EventTask(id)); }
  }

  /** Why the delivery reaper may claim only rows queued with no retry time: every
      other unfinished delivery still has its copy. */
  lemma DeliveryReaperMissesNothing(site: Site, moves: seq<Move>, id: nat)
    requires site.codec.Valid() && Runs(site, INITIAL, moves)
    requires var s := End(site, INITIAL, moves);
             DeliveryTask(id) in s.w.rows
             && !(s.w.rows[DeliveryTask(id)].status.Queued? && s.w.rows[DeliveryTask(id)].nextRetry.None?)
    ensures var s := End(site, INITIAL, moves);
            var st := s.w.rows[DeliveryTask(id)].status;
            (!st.InFlight? && !st.Queued?) || LiveInQueue(site, s.w.q, DeliveryTask(id))
  {
    var s := End(site, INITIAL, moves);
    if s.w.rows[DeliveryTask(id)].status.InFlight? || s.w.rows[DeliveryTask(id)].status.Queued? {
      PromisesAlwaysKept(site, moves, DeliveryTask(id));
    }
  }
}
