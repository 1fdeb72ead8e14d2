/** The consumer loop. */
module Workers {
  import opened Lease
  import opened QueueModel
  import opened Payloads
  import opened Handlers
  import opened FairQueue
  import opened Backends
  import Deliver
  import Webhook
  import Mailer
  import Successors
  import System
  import Timing

  const LEASE_MS := 150_000

  /** What one turn of the loop does to the world: nothing to pick, a payload that
      does not decode (its lease stays, for the recoverer), or one whole run of the
      handler its kind names. */
  function Turn(site: Site, w: World, token: Token, f: Fate): World {
    var pick := QueueModel.FairPick(w.q, f.now + LEASE_MS, token);
    var w' := w.(q := pick.after);
    if pick.got.None? then w.(q := TakeNotify(pick.after)) else
      match site.codec.dec(StripToken(pick.got.value))
      case None => w'
      case Some(p) => PerformAll(site, w', TaskOf(p), pick.got.value, Plan(site, w.rows, p, f))
  }

  method Consume(b: Backend, token: Token, f: Fate)
    requires b.queue.codec == b.site.codec && Successors.Possible(f)
    modifies b, b.queue
    ensures b.Now() == Turn(b.site, old(b.Now()), token, f)
  {
    var reply := b.queue.FairPick(f.now, LEASE_MS, token);
    match reply {
      case Empty => b.queue.WaitNotify();
      case Undecodable(_) =>
      case Leased(raw, p) =>
        if p.kind.Email? {
          Mailer.Process(b, p, raw, f);
        } else if p.kind.Message? {
          Webhook.Process(b, p, raw, f);
        } else {
          Deliver.Process(b, p, raw, f);
        }
    }
  }

  // ---- the loop among the other workers --------------------------------------------

  function Execs(w: System.Worker, n: nat): seq<System.Move> { seq(n, i => System.Exec(w)) }

  ghost predicate RunsTo(site: Site, s: System.Sys, moves: seq<System.Move>, s': System.Sys) {
    System.Runs(site, s, moves) && System.End(site, s, moves) == s'
  }

  lemma OneMove(site: Site, s: System.Sys, m: System.Move)
    requires System.Enabled(site, s, m)
    ensures RunsTo(site, s, [m], System.Step(site, s, m))
  {
    assert [m][1..] == [];
  }

  lemma {:induction false} RunsJoin(site: Site, s: System.Sys, a: seq<System.Move>, mid: System.Sys, b: seq<System.Move>, s': System.Sys)
    requires RunsTo(site, s, a, mid) && RunsTo(site, mid, b, s')
    ensures RunsTo(site, s, a + b, s')
    decreases |a|
  {
    if a == [] {
      assert a + b == b;
    } else {
      assert (a + b)[0] == a[0] && (a + b)[1..] == a[1..] + b;
      RunsJoin(site, System.Step(site, s, a[0]), a[1..], mid, b, s');
    }
  }

  /** The system with a worker's effects all done. */
  ghost function Executed(site: Site, s: System.Sys, w: System.Worker, member: Raw, es: seq<Effect>): System.Sys {
    s.(w := PerformAll(site, s.w, System.TaskAt(site, member), member, es), jobs := s.jobs[w := System.Running(member, [])])
  }

  lemma ExecutedFront(site: Site, s: System.Sys, w: System.Worker, member: Raw, es: seq<Effect>)
    requires w in s.jobs && s.jobs[w] == System.Running(member, es) && es != []
    ensures Executed(site, System.ExecStep(site, s, w), w, member, es[1..]) == Executed(site, s, w, member, es)
  {
    PerformFront(site, s.w, System.TaskAt(site, member), member, es);
    assert s.jobs[w := System.Running(member, es[1..])][w := System.Running(member, [])] == s.jobs[w := System.Running(member, [])];
  }

  lemma ExecOne(site: Site, s: System.Sys, w: System.Worker)
    requires w in s.jobs && s.jobs[w].Running? && s.jobs[w].todo != []
    ensures RunsTo(site, s, [System.Exec(w)], System.ExecStep(site, s, w))
  {
    OneMove(site, s, System.Exec(w));
  }

  lemma {:induction false} ExecutesAll(site: Site, s: System.Sys, w: System.Worker, member: Raw, es: seq<Effect>)
    requires w in s.jobs && s.jobs[w] == System.Running(member, es)
    ensures RunsTo(site, s, Execs(w, |es|), Executed(site, s, w, member, es))
    decreases |es|
  {
    if es == [] {
      assert s.jobs[w := System.Running(member, [])] == s.jobs;
    } else {
      var s' := System.ExecStep(site, s, w);
      ExecOne(site, s, w);
      ExecutesAll(site, s', w, member, es[1..]);
      ExecutedFront(site, s, w, member, es);
      RunsJoin(site, s, [System.Exec(w)], s', Execs(w, |es| - 1), Executed(site, s, w, member, es));
      assert [System.Exec(w)] + Execs(w, |es| - 1) == Execs(w, |es|);
    }
  }

  /** What a pick that decodes gives. */
  ghost predicate Picks(site: Site, q: State, token: Token, now: int, q': State, member: Raw, p: Payload) {
    QueueModel.FairPick(q, now + LEASE_MS, token) == Pick(q', Some(member)) && site.codec.dec(StripToken(member)) == Some(p)
  }

  lemma PickAndLoad(site: Site, s: System.Sys, w: System.Worker, token: Token, f: Fate, q': State, member: Raw, p: Payload)
    requires w !in s.jobs && token !in s.used && Picks(site, s.w.q, token, f.now, q', member, p)
    ensures RunsTo(site, s, [System.Lease(w, f.now + LEASE_MS, token)] + [System.Load(w, f)],
                   System.Sys(s.w.(q := q'), s.jobs[w := System.Running(member, Plan(site, s.w.rows, p, f))], s.used + {token}))
  {
    var s1 := System.Sys(s.w.(q := q'), s.jobs[w := System.Picked(member)], s.used + {token});
    OneMove(site, s, System.Lease(w, f.now + LEASE_MS, token));
    Loads(site, s1, w, f);
    var s2 := System.LoadStep(site, s1, w, f);
    RunsJoin(site, s, [System.Lease(w, f.now + LEASE_MS, token)], s1, [System.Load(w, f)], s2);
    assert s2.jobs == s.jobs[w := System.Running(member, Plan(site, s.w.rows, p, f))];
  }

  lemma Loads(site: Site, s: System.Sys, w: System.Worker, f: Fate)
    requires w in s.jobs && s.jobs[w].Picked? && site.codec.dec(StripToken(s.jobs[w].member)).Some?
    ensures RunsTo(site, s, [System.Load(w, f)], System.LoadStep(site, s, w, f))
  {
    OneMove(site, s, System.Load(w, f));
  }

  lemma Quits(site: Site, s: System.Sys, w: System.Worker)
    requires w in s.jobs
    ensures RunsTo(site, s, [System.Quit(w)], s.(jobs := s.jobs - {w}))
  {
    OneMove(site, s, System.Quit(w));
  }

  /** From loaded to done. */
  lemma RunsOut(site: Site, s: System.Sys, w: System.Worker, member: Raw, es: seq<Effect>)
    requires w in s.jobs && s.jobs[w] == System.Running(member, es)
    ensures RunsTo(site, s, Execs(w, |es|) + [System.Quit(w)],
                   s.(w := PerformAll(site, s.w, System.TaskAt(site, member), member, es), jobs := s.jobs - {w}))
  {
    var s' := Executed(site, s, w, member, es);
    ExecutesAll(site, s, w, member, es);
    Quits(site, s', w);
    assert s'.jobs - {w} == s.jobs - {w};
    RunsJoin(site, s, Execs(w, |es|), s', [System.Quit(w)], s'.(jobs := s'.jobs - {w}));
  }

  lemma TurnPerforms(site: Site, w: World, token: Token, f: Fate, q': State, member: Raw, p: Payload, es: seq<Effect>)
    requires Picks(site, w.q, token, f.now, q', member, p) && es == Plan(site, w.rows, p, f)
    ensures Turn(site, w, token, f) == PerformAll(site, w.(q := q'), System.TaskAt(site, member), member, es)
  {
    assert System.TaskAt(site, member) == TaskOf(p);
  }

  /** The loop as it is written is one of the runs the whole-system theorems are about:
      taken move by move (pick, load, every effect, done), a turn that picks a payload
      leaves exactly what `Turn` says. */
  lemma TurnIsARun(site: Site, s: System.Sys, w: System.Worker, token: Token, f: Fate, q': State, member: Raw, p: Payload)
    requires w !in s.jobs && token !in s.used && Picks(site, s.w.q, token, f.now, q', member, p)
    ensures var n := |Plan(site, s.w.rows, p, f)|;
            RunsTo(site, s, [System.Lease(w, f.now + LEASE_MS, token)] + [System.Load(w, f)] + (Execs(w, n) + [System.Quit(w)]),
                   System.Sys(Turn(site, s.w, token, f), s.jobs, s.used + {token}))
  {
    var start := [System.Lease(w, f.now + LEASE_MS, token)] + [System.Load(w, f)];
    var es := Plan(site, s.w.rows, p, f);
    var s2 := System.Sys(s.w.(q := q'), s.jobs[w := System.Running(member, es)], s.used + {token});
    TurnPerforms(site, s.w, token, f, q', member, p, es);
    var w' := PerformAll(site, s2.w, System.TaskAt(site, member), member, es);
    PickAndLoad(site, s, w, token, f, q', member, p);
    RunsOut(site, s2, w, member, es);
    assert s2.jobs - {w} == s.jobs;
    RunsJoin(site, s, start, s2, Execs(w, |es|) + [System.Quit(w)], s2.(w := w', jobs := s.jobs));
  }

  /** A lease lasts two and a half minutes: whatever else happens, the payload a turn
      picked stays leased until its own worker drops it or a recovery reads a clock that
      far on. */
  lemma HeldForTheLease(orgOf: Raw -> Org, q: State, token: Token, now: int, ops: seq<Op>)
    requires QueueModel.FairPick(q, now + LEASE_MS, token).got.Some?
    requires var m := QueueModel.FairPick(q, now + LEASE_MS, token).got.value;
             forall i :: 0 <= i < |ops| ==> Timing.Respects(ops[i], m, now + 150_000)
    ensures var pick := QueueModel.FairPick(q, now + LEASE_MS, token);
            Timing.Leased(QueueModel.Run(orgOf, pick.after, ops), pick.got.value, now + 150_000)
  {
    var pick := QueueModel.FairPick(q, now + LEASE_MS, token);
    Timing.LeaseRun(orgOf, pick.after, ops, pick.got.value, now + 150_000);
  }
}
