/** When runs come round again: what a run deferred, and the clock of a whole life. */
module Timeline {
  import opened Lease
  import opened QueueModel
  import opened Payloads
  import opened Handlers
  import opened System
  import opened Copies
  import opened History
  import opened SingleCopy
  import opened Views
  import opened Outcomes
  import opened DeliveryOutcomes
  import opened ExactRun
  import opened Timing
  import Successors
  import Backoff

  // ---- what a run deferred -------------------------------------------------------------

  lemma EffectPasses(site: Site, w: World, t: Task, member: Raw, e: Effect, raw: Raw)
    ensures var w' := Perform(site, w, t, member, e);
            && w'.q.pending == w.q.pending
            && (!e.Defer? ==> w'.q.scheduled == w.q.scheduled)
            && (forall m :: m in w'.q.processing ==> m in w.q.processing)
  {
  }

  lemma {:induction false} RunPasses(site: Site, w: World, t: Task, member: Raw, es: seq<Effect>, raw: Raw)
    ensures var w' := PerformAll(site, w, t, member, es);
            && w'.q.pending == w.q.pending
            && ((forall i :: 0 <= i < |es| ==> !es[i].Defer?) ==> w'.q.scheduled == w.q.scheduled)
            && (forall m :: m in w'.q.processing ==> m in w.q.processing)
    decreases |es|
  {
    if es != [] {
      var n := |es| - 1;
      RunPasses(site, w, t, member, es[..n], raw);
      EffectPasses(site, PerformAll(site, w, t, member, es[..n]), t, member, es[n], raw);
    }
  }

  lemma {:induction false} LastDefer(site: Site, w: World, t: Task, member: Raw, es: seq<Effect>, i: nat)
    requires i < |es| && es[i].Defer? && forall j :: i < j < |es| ==> !es[j].Defer?
    ensures var (q', raw) := (PerformAll(site, w, t, member, es).q, site.codec.enc(es[i].p));
            raw in q'.scheduled && q'.scheduled[raw] == es[i].at
    decreases |es|
  {
    var n := |es| - 1;
    EffectPasses(site, PerformAll(site, w, t, member, es[..n]), t, member, es[n], site.codec.enc(es[i].p));
    if i < n { LastDefer(site, w, t, member, es[..n], i); }
  }

  /** A payload that a run of any handler deferred is due at the time the row says, not
      before now, and is not handed out again before then. */
  lemma DeferredUntilDue(site: Site, w: World, member: Raw, p: Payload, f: Fate, i: nat, ops: seq<Op>)
    requires site.codec.Valid() && Successors.Possible(f)
    requires var es := Plan(site, w.rows, p, f); i < |es| && es[i].Defer?
    requires var raw := site.codec.enc(Plan(site, w.rows, p, f)[i].p); forall o :: raw !in ListAt(w.q.pending, o)
    requires var e := Plan(site, w.rows, p, f)[i];
             AllLeave(site.codec.OrgOf, PerformAll(site, w, TaskOf(p), member, Plan(site, w.rows, p, f)).q, ops, site.codec.enc(e.p), e.at)
    ensures var e := Plan(site, w.rows, p, f)[i];
            var q' := Run(site.codec.OrgOf, PerformAll(site, w, TaskOf(p), member, Plan(site, w.rows, p, f)).q, ops);
            && Successors.Heir(p, e.p, f.now) && e.at >= f.now
            && Asleep(q', site.codec.enc(e.p), e.at)
            && NoNewLease(w.q, q', site.codec.enc(e.p))
  {
    var es := Plan(site, w.rows, p, f);
    var raw := site.codec.enc(es[i].p);
    Successors.OneSuccessor(site, w.rows, p, f);
    assert Successors.TimeOf(es[i]) == Some(es[i].at);
    LastDefer(site, w, TaskOf(p), member, es, i);
    RunPasses(site, w, TaskOf(p), member, es, raw);
    StaysAsleep(site.codec.OrgOf, PerformAll(site, w, TaskOf(p), member, es).q, ops, raw, es[i].at);
  }

  // ---- the clock of a whole life ----------------------------------------------------------

  /** The sweeps that bring a round's copy round have read no later a clock than its
      worker does, and nobody promotes it by hand. */
  predicate Timely(site: Site, t: Task, op: Op, clock: int) {
    (op.DoPromoteDue? ==> op.now <= clock) && (op.DoPromoteScheduled? ==> TaskOfRaw(site, op.raw) != t)
  }

  predicate Clocked(site: Site, t: Task, round: Round) {
    forall i :: 0 <= i < |round.ops| ==> Timely(site, t, round.ops[i], round.fate.now)
  }

  predicate AllClocked(site: Site, t: Task, rounds: seq<Round>) {
    forall i :: 0 <= i < |rounds| ==> Clocked(site, t, rounds[i])
  }

  /** A sleeping only copy has no lease beside it. */
  lemma NoneLeased(site: Site, h: Log, t: Task, raw: Raw, at: int)
    requires Settled(site, h, t, raw, 1) && TaskOfRaw(site, raw) == t && Asleep(h.s, raw, at)
    ensures forall m :: m in h.s.processing ==> StripToken(m) != raw
  {
    forall m | m in h.s.processing ensures StripToken(m) != raw {
      if StripToken(m) == raw { TheCopy(site, h.s, t, raw, 1, m); assert false; }
    }
  }

  lemma SleeperLeft(site: Site, h: Log, op: Op, t: Task, raw: Raw, at: int, clock: int)
    requires Settled(site, h, t, raw, 1) && TaskOfRaw(site, raw) == t && Asleep(h.s, raw, at)
    requires Apart(site, t, op) && Timely(site, t, op, clock) && clock < at
    ensures Leaves(h.s, op, raw, at)
  {
    NoneLeased(site, h, t, raw, at);
  }

  lemma {:induction false} SleepsOn(site: Site, h: Log, ops: seq<Op>, t: Task, raw: Raw, at: int, clock: int)
    requires Settled(site, h, t, raw, 1) && TaskOfRaw(site, raw) == t && Asleep(h.s, raw, at) && clock < at
    requires AllAllowed(site.codec.OrgOf, h, ops) && AllApart(site, t, ops)
    requires forall i :: 0 <= i < |ops| ==> Timely(site, t, ops[i], clock)
    ensures Asleep(After(site.codec.OrgOf, h, ops).s, raw, at)
    decreases |ops|
  {
    if ops != [] {
      assert Apart(site, t, ops[0]) && Timely(site, t, ops[0], clock);
      SleeperLeft(site, h, ops[0], t, raw, at, clock);
      AsleepStep(site.codec.OrgOf, h.s, ops[0], raw, at);
      SettledStep(site, h, ops[0], t, raw, 1);
      assert forall i :: 0 <= i < |ops| - 1 ==> ops[1..][i] == ops[i + 1];
      SleepsOn(site, Next(site.codec.OrgOf, h, ops[0]), ops[1..], t, raw, at, clock);
    }
  }

  /** Standing, and due no earlier than a time; before the first run there is none. */
  ghost predicate StandsUntil(site: Site, x: Life, p: Payload, n: nat, at: Option<int>) {
    Standing(site, x, p, n) && (at.Some? ==> Asleep(x.w.q, site.codec.enc(p), at.value))
  }

  /** A round comes no earlier than the copy was due. */
  lemma InTime(site: Site, x: Life, p: Payload, round: Round, n: nat, at: int)
    requires site.codec.Valid() && StandsUntil(site, x, p, n, Some(at))
    requires Fits(site, TaskOf(p), x, round) && Clocked(site, TaskOf(p), round)
    ensures round.fate.now >= at
  {
    var (t, raw) := (TaskOf(p), site.codec.enc(p));
    if round.fate.now < at {
      SleepsOn(site, LogOf(x), round.ops, t, raw, at, round.fate.now);
      SettledRun(site, LogOf(x), round.ops, t, raw, 1);
      TheCopy(site, Handed(site, x, round).s, t, raw, 1, round.member);
      assert false;
    }
  }

  /** The copy is a lease, so it is not pending as well. */
  lemma NotPending(site: Site, h: Log, t: Task, member: Raw, raw: Raw, o: Org)
    requires Settled(site, h, t, StripToken(member), 1) && member in h.s.processing && TaskAt(site, member) == t
    requires TaskOfRaw(site, raw) == t
    ensures raw !in ListAt(h.s.pending, o)
  {
    TheCopy(site, h.s, t, StripToken(member), 1, member);
    var k := Leases(h.s.processing, {}, StripToken(member));
    assert member in k;
    assert |k| >= 1 by { assert k == {member} + (k - {member}); }
    assert Count(site.codec.OrgOf, h.s, {}, raw) == if raw == StripToken(member) then 1 else 0;
    var l := ListAt(h.s.pending, o);
    assert forall i :: 0 <= i < |l| ==> site.codec.OrgOf(l[i]) == o;
    if o == site.codec.OrgOf(raw) { assert multiset(l)[raw] == 0; }
  }

  /** After a run that goes on, the successor sleeps until its time. */
  lemma SleepsNext(site: Site, x: Life, p: Payload, round: Round, n: nat)
    requires site.codec.Valid() && Standing(site, x, p, n) && Fits(site, TaskOf(p), x, round)
    requires Successor(site, p, n, round.fate).Some?
    ensures var p' := Successor(site, p, n, round.fate).value;
            && TaskOf(p') == TaskOf(p)
            && StandsUntil(site, Ran(site, TaskOf(p), x, round), p',
                           if Executes(site, TaskOf(p), round.fate) then n + 1 else n, Some(DueAt(site, p, n, round.fate)))
  {
    var (t, h, p') := (TaskOf(p), Handed(site, x, round), Successor(site, p, n, round.fate).value);
    var raw' := site.codec.enc(p');
    RoundGoesOn(site, x, p, round, n);
    RoundSeen(site, x, p, round, n);
    HandedIsSuccessor(site, x, p, round, n);
    forall o ensures raw' !in ListAt(h.s.pending, o) { NotPending(site, h, t, round.member, raw', o); }
    assert Ran(site, t, x, round).w.q == Ack(Schedule(h.s, raw', DueAt(site, p, n, round.fate)), round.member);
  }

  /** The fates of the rounds that got through to a send, in order. */
  function SendFates(site: Site, t: Task, rounds: seq<Round>): seq<Fate> {
    if rounds == [] then []
    else (if Executes(site, t, rounds[0].fate) then [rounds[0].fate] else []) + SendFates(site, t, rounds[1..])
  }

  /** The pause after the n-th send: the event's backoff as its fate reads and draws it,
      or the delivery's schedule. */
  function PauseAfter(t: Task, n: nat, f: Fate): int {
    if t.EventTask? then Backoff.Delay(f.policy, n, f.draw) / 1_000_000 else Pause(n)
  }

  /** The first of them no earlier than a time, each next no earlier than the pause after
      the one before; n sends have gone before. */
  predicate Spaced(t: Task, fs: seq<Fate>, n: nat, at: Option<int>) {
    && (fs != [] && at.Some? ==> fs[0].now >= at.value)
    && forall k: nat :: k + 1 < |fs| ==> Gap(t, fs, n, k)
  }

  predicate Gap(t: Task, fs: seq<Fate>, n: nat, k: nat)
    requires k + 1 < |fs|
  {
    fs[k + 1].now >= fs[k].now + PauseAfter(t, n + k + 1, fs[k])
  }

  lemma SpacedCons(t: Task, f: Fate, fs: seq<Fate>, n: nat, at: Option<int>)
    requires Spaced(t, fs, n + 1, Some(f.now + PauseAfter(t, n + 1, f))) && (at.Some? ==> f.now >= at.value)
    ensures Spaced(t, [f] + fs, n, at)
  {
    var all := [f] + fs;
    forall k: nat | k + 1 < |all| ensures Gap(t, all, n, k) {
      if k > 0 { assert Gap(t, fs, n + 1, k - 1); }
    }
  }

  lemma {:induction false} LifeSpaced(site: Site, x: Life, p: Payload, rounds: seq<Round>, n: nat, at: Option<int>)
    requires site.codec.Valid() && StandsUntil(site, x, p, n, at)
    requires Lives(site, TaskOf(p), x, rounds) && AllClocked(site, TaskOf(p), rounds)
    ensures Spaced(TaskOf(p), SendFates(site, TaskOf(p), rounds), n, at)
    decreases |rounds|
  {
    if rounds != [] {
      var (t, round) := (TaskOf(p), rounds[0]);
      assert Clocked(site, t, round);
      assert forall i :: 0 <= i < |rounds| - 1 ==> rounds[1..][i] == rounds[i + 1];
      if at.Some? { InTime(site, x, p, round, n, at.value); }
      if Successor(site, p, n, round.fate).Some? {
        var p' := Successor(site, p, n, round.fate).value;
        var (n', at') := (if Executes(site, t, round.fate) then n + 1 else n, DueAt(site, p, n, round.fate));
        SleepsNext(site, x, p, round, n);
        LifeSpaced(site, Ran(site, t, x, round), p', rounds[1..], n', Some(at'));
        DueIs(site, p, n, round.fate);
        GoesOnSpaced(t, round.fate, SendFates(site, t, rounds[1..]), n, at, Executes(site, t, round.fate), at');
      } else {
        LastRound(site, x, p, rounds, n);
        assert rounds[1..] == [];
        assert SendFates(site, t, rounds) == [round.fate];
      }
    }
  }

  /** A send sets the next time by its pause, a run turned back never an earlier one. */
  lemma DueIs(site: Site, p: Payload, n: nat, f: Fate)
    requires p.kind.Delivery? ==> p.attempt == n
    requires !p.kind.Email? && TaskOf(p) != NoTask
    ensures if Executes(site, TaskOf(p), f) then DueAt(site, p, n, f) == f.now + PauseAfter(TaskOf(p), n + 1, f)
            else DueAt(site, p, n, f) > f.now
  {
  }

  lemma GoesOnSpaced(t: Task, f: Fate, fs: seq<Fate>, n: nat, at: Option<int>, executes: bool, due: int)
    requires if executes then due == f.now + PauseAfter(t, n + 1, f) else due > f.now
    requires at.Some? ==> f.now >= at.value
    requires Spaced(t, fs, if executes then n + 1 else n, Some(due))
    ensures Spaced(t, (if executes then [f] else []) + fs, n, at)
  {
    if executes { SpacedCons(t, f, fs, n, at); } else { assert [] + fs == fs; }
  }

  lemma Schedule7(t: Task, fs: seq<Fate>)
    requires t.DeliveryTask? && |fs| >= 8 && Spaced(t, fs, 0, None)
    ensures fs[7].now - fs[0].now >= ((27 * 60 + 35) * 60 + 5) * 1000
  {
    assert Gap(t, fs, 0, 0) && Gap(t, fs, 0, 1) && Gap(t, fs, 0, 2) && Gap(t, fs, 0, 3);
    assert Gap(t, fs, 0, 4) && Gap(t, fs, 0, 5) && Gap(t, fs, 0, 6);
  }

  /** What the spacing says in numbers, from the first send on. */
  predicate Waited(t: Task, fs: seq<Fate>, k: nat)
    requires k + 1 < |fs|
  {
    fs[k + 1].now - fs[k].now
    >= if t.EventTask? then Backoff.Delay(fs[k].policy, k + 1, fs[k].draw) / 1_000_000
       else [5_000, 300_000, 1_800_000, 7_200_000, 18_000_000, 36_000_000, 36_000_000][if k < 7 then k else 6]
  }

  lemma WaitedEach(t: Task, fs: seq<Fate>, k: nat)
    requires Spaced(t, fs, 0, None) && k + 1 < |fs|
    ensures Waited(t, fs, k)
  {
    assert Gap(t, fs, 0, k);
  }

  /** The clock of a refused task's life: each send comes no earlier than the pause after
      the one before it, whatever the queue, the gates and the other workers do. The
      eighth send of a delivery is at least 27 h 35 min 5 s after its first. */
  lemma SendsSpaced(site: Site, x: Life, p: Payload, rounds: seq<Round>)
    requires site.codec.Valid() && Standing(site, x, p, 0)
    requires Lives(site, TaskOf(p), x, rounds) && AllClocked(site, TaskOf(p), rounds)
    ensures var (t, fs) := (TaskOf(p), SendFates(site, TaskOf(p), rounds));
            && (forall k :: 0 <= k < |fs| - 1 ==> Waited(t, fs, k))
            && (t.DeliveryTask? && |fs| >= 8 ==> fs[7].now - fs[0].now >= ((27 * 60 + 35) * 60 + 5) * 1000)
  {
    var (t, fs) := (TaskOf(p), SendFates(site, TaskOf(p), rounds));
    LifeSpaced(site, x, p, rounds, 0, None);
    forall k | 0 <= k < |fs| - 1 ensures Waited(t, fs, k) { WaitedEach(t, fs, k); }
    if t.DeliveryTask? && |fs| >= 8 { Schedule7(t, fs); }
  }
}
