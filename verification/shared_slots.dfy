/** The slots among all the workers of the system: the counters in Redis beside the runs
    that ask them. Everything is said of either kind of slot: an org's, which inbound
    and outbound runs share, and a destination's. */
module SharedSlots {
  import opened Lease
  import opened QueueModel
  import opened Payloads
  import opened Handlers
  import opened System
  import opened Semaphore
  import opened Sums

  /** The system, one kind of counters with their holders, and the clock they expire by. */
  datatype Fleet = Fleet(s: Sys, gates: map<nat, Gate>, now: int)

  /** A move of the system; a crash, which runs no deferred DECR; time passing. A Quit
      is any return of Process, error or not, and does run it. */
  datatype Turn = Plain(m: Move) | Dies(w: Worker) | Tick(to: int)

  function GateOf(f: Fleet, key: nat): Gate {
    if key in f.gates then f.gates[key] else Gate(Missing, f.now, map[], 0)
  }

  /** Whose counter a run asks: its org's, by the org its payload names, or its event's
      destination's. */
  function KeyOf(site: Site, slot: Slot, job: Job): nat {
    match slot
    case OrgSlot => site.codec.OrgOf(StripToken(job.member))
    case DestSlot =>
      match TaskAt(site, job.member)
      case EventTask(id) => site.destOf(id)
      case _ => 0
  }

  function CapOf(site: Site, slot: Slot, key: nat): int {
    match slot
    case OrgSlot => site.perOrgMax
    case DestSlot => site.destCap(key)
  }

  /** The tasks whose sends this kind of slot covers. */
  predicate Covers(slot: Slot, t: Task) { t.EventTask? || (slot.OrgSlot? && t.DeliveryTask?) }

  predicate Gated(site: Site, slot: Slot, job: Job) {
    Covers(slot, TaskAt(site, job.member)) && CapOf(site, slot, KeyOf(site, slot, job)) > 0
  }

  /** The counter answers (a Redis error would let the run through), and the cap a run
      reads is the one in force. */
  predicate Answered(site: Site, slot: Slot, t: Task, f: Fate) {
    match slot
    case OrgSlot => f.orgReply.Some?
    case DestSlot => t.EventTask? ==> f.destReply.Some? && f.destMax == site.destCap(site.destOf(t.id))
  }

  predicate Asks(slot: Slot, s: Sys, w: Worker) {
    w in s.jobs && s.jobs[w].Running? && s.jobs[w].todo != [] && s.jobs[w].todo[0] == Take(slot)
  }

  predicate Returns(slot: Slot, s: Sys, w: Worker) {
    w in s.jobs && s.jobs[w].Running? && s.jobs[w].todo != [] && s.jobs[w].todo[0] == Give(slot)
  }

  /** A run that will find itself over the cap: its DECR follows at once. */
  predicate Bounces(slot: Slot, todo: seq<Effect>) { |todo| > 1 && todo[0] == Take(slot) && todo[1] == Give(slot) }

  /** Between a granted INCR and its DECR: a slot to give back, and none still to take. */
  predicate InSlot(slot: Slot, job: Job) { job.Running? && Holding(job.todo, slot) == -1 }

  function Holders(site: Site, slot: Slot, s: Sys, key: nat): set<Worker> {
    set w | w in s.jobs && InSlot(slot, s.jobs[w]) && KeyOf(site, slot, s.jobs[w]) == key
  }

  /** What an INCR answers is what it counted; holds are shorter than the lifetime. */
  ghost predicate May(site: Site, slot: Slot, f: Fleet, t: Turn) {
    match t
    case Plain(m) =>
      && Enabled(site, f.s, m)
      && (m.Load? ==> Answered(site, slot, TaskAt(site, f.s.jobs[m.w].member), m.fate))
      && (m.Exec? && Asks(slot, f.s, m.w) ==>
            var key := KeyOf(site, slot, f.s.jobs[m.w]);
            Bounces(slot, f.s.jobs[m.w].todo) <==> !Granted(GateOf(f, key), CapOf(site, slot, key)))
    case Dies(w) => w in f.s.jobs
    case Tick(to) => f.now <= to && forall key :: key in f.gates ==> Can(f.gates[key], Wait(to))
  }

  function Acted(site: Site, slot: Slot, f: Fleet, key: nat, a: Act): map<nat, Gate> {
    f.gates[key := Do(GateOf(f, key), CapOf(site, slot, key), a)]
  }

  /** A rejected INCR and its DECR are one step, as is everything else. */
  ghost function Executed(site: Site, slot: Slot, f: Fleet, w: Worker): Fleet
    requires Enabled(site, f.s, Exec(w))
  {
    var key := KeyOf(site, slot, f.s.jobs[w]);
    var s' := ExecStep(site, f.s, w);
    if Asks(slot, f.s, w) then
      f.(s := if Bounces(slot, f.s.jobs[w].todo) then ExecStep(site, s', w) else s',
         gates := Acted(site, slot, f, key, Ask(w)))
    else if Returns(slot, f.s, w) then f.(s := s', gates := Acted(site, slot, f, key, Release(w)))
    else f.(s := s')
  }

  ghost function Left(site: Site, slot: Slot, f: Fleet, w: Worker, a: Act): Fleet
    requires w in f.s.jobs
  {
    f.(s := f.s.(jobs := f.s.jobs - {w}),
       gates := if InSlot(slot, f.s.jobs[w]) then Acted(site, slot, f, KeyOf(site, slot, f.s.jobs[w]), a) else f.gates)
  }

  function Ticked(site: Site, slot: Slot, f: Fleet, to: int): Fleet {
    f.(now := to, gates := map key | key in f.gates :: Do(f.gates[key], CapOf(site, slot, key), Wait(to)))
  }

  ghost function Turned(site: Site, slot: Slot, f: Fleet, t: Turn): Fleet
    requires May(site, slot, f, t)
  {
    match t
    case Plain(m) =>
      if m.Exec? then Executed(site, slot, f, m.w)
      else if m.Quit? then Left(site, slot, f, m.w, Release(m.w))
      else f.(s := Step(site, f.s, m))
    case Dies(w) => Left(site, slot, f, w, Crash(w))
    case Tick(to) => Ticked(site, slot, f, to)
  }

  // ---- what is left of a run ------------------------------------------------------------

  /** From outside or inside a slot: it is taken only outside and given back only inside,
      at the end it has been given back, and a gated run sends only inside. */
  predicate Lawful(slot: Slot, gated: bool, todo: seq<Effect>, inside: bool)
    decreases |todo|
  {
    if todo == [] then !inside
    else if todo[0] == Take(slot) then
      !inside && if Bounces(slot, todo) then Lawful(slot, gated, todo[2..], false) else Lawful(slot, gated, todo[1..], true)
    else if todo[0] == Give(slot) then inside && Lawful(slot, gated, todo[1..], false)
    else (gated && todo[0].Post? ==> inside) && Lawful(slot, gated, todo[1..], inside)
  }

  lemma HoldingFront(todo: seq<Effect>, slot: Slot)
    requires todo != []
    ensures Holding(todo, slot) == (if todo[0] == Take(slot) then 1 else if todo[0] == Give(slot) then -1 else 0) + Holding(todo[1..], slot)
  {
    HoldingJoin([todo[0]], todo[1..], slot);
    assert [todo[0]] + todo[1..] == todo && [todo[0]][..0] == [];
  }

  lemma {:induction false} OwesInside(slot: Slot, gated: bool, todo: seq<Effect>, inside: bool)
    requires Lawful(slot, gated, todo, inside)
    ensures Holding(todo, slot) == if inside then -1 else 0
    decreases |todo|
  {
    if todo != [] {
      HoldingFront(todo, slot);
      if Bounces(slot, todo) {
        HoldingFront(todo[1..], slot);
        assert todo[1..][1..] == todo[2..];
        OwesInside(slot, gated, todo[2..], false);
      } else {
        OwesInside(slot, gated, todo[1..], if todo[0] == Take(slot) then true else if todo[0] == Give(slot) then false else inside);
      }
    }
  }

  predicate Sendless(es: seq<Effect>) { forall i :: 0 <= i < |es| ==> !es[i].Post? }

  lemma {:induction false} Passes(slot: Slot, gated: bool, a: seq<Effect>, b: seq<Effect>, inside: bool)
    requires Untouched(a, slot) && (gated && !inside ==> Sendless(a)) && Lawful(slot, gated, b, inside)
    ensures Lawful(slot, gated, a + b, inside)
    decreases |a|
  {
    if a == [] {
      assert a + b == b;
    } else {
      assert (a + b)[1..] == a[1..] + b;
      Passes(slot, gated, a[1..], b, inside);
    }
  }

  lemma Free(slot: Slot, gated: bool, a: seq<Effect>)
    requires Untouched(a, slot) && (gated ==> Sendless(a))
    ensures Lawful(slot, gated, a, false)
  {
    Passes(slot, gated, a, [], false);
    assert a + [] == a;
  }

  lemma Wrapped(slot: Slot, gated: bool, inner: seq<Effect>, b: seq<Effect>)
    requires Untouched(inner, slot) && Lawful(slot, gated, b, false)
    ensures Lawful(slot, gated, [Take(slot)] + inner + [Give(slot)] + b, false)
  {
    var todo := [Take(slot)] + inner + [Give(slot)] + b;
    assert ([Give(slot)] + b)[1..] == b;
    Passes(slot, gated, inner, [Give(slot)] + b, true);
    assert todo[1..] == inner + ([Give(slot)] + b);
    if inner == [] { assert todo[2..] == b; } else { assert todo[1] == inner[0]; }
  }

  lemma Bounced(slot: Slot, gated: bool, rest: seq<Effect>)
    requires Lawful(slot, gated, rest, false)
    ensures Lawful(slot, gated, [Take(slot), Give(slot)] + rest, false)
  {
    assert ([Take(slot), Give(slot)] + rest)[2..] == rest;
  }

  // ---- every plan is lawful, for either slot --------------------------------------------

  lemma OrgGateLawful(site: Site, p: Payload, f: Fate, inner: seq<Effect>)
    requires site.perOrgMax > 0 && f.orgReply.Some? && Untouched(inner, OrgSlot)
    ensures Lawful(OrgSlot, true, OrgGate(site, p, f, inner), false)
  {
    Free(OrgSlot, true, Deferral(p, f, 500));
    Bounced(OrgSlot, true, Deferral(p, f, 500));
    Wrapped(OrgSlot, true, inner, []);
    assert [Take(OrgSlot)] + inner + [Give(OrgSlot)] + [] == [Take(OrgSlot)] + inner + [Give(OrgSlot)];
  }

  lemma OrgPlanLawful(site: Site, rows: map<Task, Row>, p: Payload, f: Fate)
    requires site.perOrgMax > 0 && f.orgReply.Some?
    ensures Lawful(OrgSlot, Covers(OrgSlot, TaskOf(p)), Plan(site, rows, p, f), false)
  {
    var (t, es) := (TaskOf(p), Plan(site, rows, p, f));
    if Untouched(es, OrgSlot) && (Covers(OrgSlot, t) ==> Sendless(es)) {
      Free(OrgSlot, Covers(OrgSlot, t), es);
    } else if p.kind.Delivery? {
      EventOrgFree(site, rows[t], p, f);
      OrgGateLawful(site, p, f, EventGated(site, rows[t], p, f));
    } else {
      MessageSlots(site, p.data.value, rows[t], p, f, OrgSlot);
      OrgGateLawful(site, p, f, MessageGated(site, p.data.value, rows[t], p, f));
    }
  }

  /** Past the org's gate, with anything at all without a slot behind it. */
  lemma DestGatedLawful(site: Site, gated: bool, row: Row, p: Payload, f: Fate, b: seq<Effect>)
    requires gated ==> f.destReply.Some? && f.destMax > 0
    requires Untouched(b, DestSlot) && Sendless(b)
    ensures Lawful(DestSlot, gated, EventGated(site, row, p, f) + b, false)
  {
    var send := EventSend(site, row, p, f);
    var later := Deferral(p, f, if f.rateLimited.Some? && f.rateLimited.value > 0 then f.rateLimited.value else 100);
    Free(DestSlot, gated, b);
    if f.rateLimited.Some? {
      Free(DestSlot, gated, later + b);
    } else if f.destMax > 0 && f.destReply.Some? {
      if f.destReply.value > f.destMax {
        Free(DestSlot, gated, Deferral(p, f, 250) + b);
        Bounced(DestSlot, gated, Deferral(p, f, 250) + b);
        assert [Take(DestSlot), Give(DestSlot)] + Deferral(p, f, 250) + b == [Take(DestSlot), Give(DestSlot)] + (Deferral(p, f, 250) + b);
      } else {
        SendSlots(site, row, p, f, DestSlot);
        Wrapped(DestSlot, gated, send, b);
      }
    } else {
      SendSlots(site, row, p, f, DestSlot);
      Passes(DestSlot, gated, send, b, false);
    }
  }

  lemma DestGated(site: Site, gated: bool, row: Row, p: Payload, f: Fate)
    requires gated ==> f.destReply.Some? && f.destMax > 0
    ensures var inner := EventGated(site, row, p, f);
            && Lawful(DestSlot, gated, inner, false)
            && Lawful(DestSlot, gated, [Take(OrgSlot)] + inner + [Give(OrgSlot)], false)
  {
    var inner := EventGated(site, row, p, f);
    DestGatedLawful(site, gated, row, p, f, []);
    DestGatedLawful(site, gated, row, p, f, [Give(OrgSlot)]);
    Passes(DestSlot, gated, [Take(OrgSlot)], inner + [Give(OrgSlot)], false);
    assert inner + [] == inner && [Take(OrgSlot)] + (inner + [Give(OrgSlot)]) == [Take(OrgSlot)] + inner + [Give(OrgSlot)];
  }

  lemma DestPlanLawful(site: Site, gated: bool, rows: map<Task, Row>, p: Payload, f: Fate)
    requires gated ==> TaskOf(p).EventTask? && f.destReply.Some? && f.destMax > 0
    ensures Lawful(DestSlot, gated, Plan(site, rows, p, f), false)
  {
    var (t, es) := (TaskOf(p), Plan(site, rows, p, f));
    if Untouched(es, DestSlot) && (gated ==> Sendless(es)) {
      Free(DestSlot, gated, es);
    } else if p.kind.Delivery? {
      DestGated(site, gated, rows[t], p, f);
    } else {
      MessageDestFree(site, rows, p, f);
      Free(DestSlot, gated, es);
    }
  }

  lemma MessageDestFree(site: Site, rows: map<Task, Row>, p: Payload, f: Fate)
    requires !p.kind.Delivery?
    ensures Untouched(Plan(site, rows, p, f), DestSlot)
  {
    var t := TaskOf(p);
    if p.kind.Message? && p.data.Some? && t in rows { MessageSlots(site, p.data.value, rows[t], p, f, DestSlot); }
  }

  // ---- the invariant ---------------------------------------------------------------------

  ghost predicate AllLawful(site: Site, slot: Slot, s: Sys) {
    forall w :: w in s.jobs && s.jobs[w].Running? ==>
      Lawful(slot, Gated(site, slot, s.jobs[w]), s.jobs[w].todo, InSlot(slot, s.jobs[w]))
  }

  /** One counter is in order, and its holders are the runs inside a slot of it. */
  ghost predicate Kept(site: Site, slot: Slot, f: Fleet, key: nat) {
    && Sound(GateOf(f, key), CapOf(site, slot, key))
    && GateOf(f, key).now == f.now
    && GateOf(f, key).live.Keys == Holders(site, slot, f.s, key)
  }

  ghost predicate Inv(site: Site, slot: Slot, f: Fleet, key: nat) {
    AllLawful(site, slot, f.s) && Kept(site, slot, f, key)
  }

  predicate OnlyMoves(s: Sys, s': Sys, w: Worker) {
    && s.jobs.Keys - {w} == s'.jobs.Keys - {w}
    && forall v :: v in s.jobs && v != w && v in s'.jobs ==> s'.jobs[v] == s.jobs[v]
  }

  lemma HoldersBut(site: Site, slot: Slot, s: Sys, s': Sys, w: Worker, key: nat)
    requires OnlyMoves(s, s', w)
    ensures Holders(site, slot, s', key)
         == (Holders(site, slot, s, key) - {w})
            + (if w in s'.jobs && InSlot(slot, s'.jobs[w]) && KeyOf(site, slot, s'.jobs[w]) == key then {w} else {})
  {
    forall v | v != w ensures v in s.jobs <==> v in s'.jobs {
      assert v in s.jobs.Keys - {w} <==> v in s'.jobs.Keys - {w};
    }
  }

  lemma SameClock(g: Gate, cap: int, a: Act)
    requires !a.Wait?
    ensures Do(g, cap, a).now == g.now
  {
  }

  /** The counter of `at` moves on, and with it, if it is this one, its holders. */
  lemma GateMoves(site: Site, slot: Slot, f: Fleet, f': Fleet, at: nat, a: Act, key: nat)
    requires CapOf(site, slot, key) > 0 && Kept(site, slot, f, key) && !a.Wait?
    requires f'.now == f.now && f'.gates == Acted(site, slot, f, at, a)
    requires at == key ==> Can(GateOf(f, key), a)
    requires Holders(site, slot, f'.s, key)
          == if at == key then Do(GateOf(f, key), CapOf(site, slot, key), a).live.Keys else Holders(site, slot, f.s, key)
    ensures Kept(site, slot, f', key)
  {
    if at == key {
      var g := GateOf(f, key);
      assert GateOf(f', key) == Do(g, CapOf(site, slot, key), a);
      SoundStep(g, CapOf(site, slot, key), a);
      SameClock(g, CapOf(site, slot, key), a);
    } else {
      assert GateOf(f', key) == GateOf(f, key);
    }
  }

  lemma Stands(site: Site, slot: Slot, f: Fleet, f': Fleet, key: nat)
    requires Kept(site, slot, f, key) && f'.now == f.now && f'.gates == f.gates
    requires Holders(site, slot, f'.s, key) == Holders(site, slot, f.s, key)
    ensures Kept(site, slot, f', key)
  {
  }

  /** A holder leaves its slot, by a DECR or by dying. */
  lemma Leaves(site: Site, slot: Slot, f: Fleet, f': Fleet, w: Worker, a: Act, key: nat)
    requires CapOf(site, slot, key) > 0 && Kept(site, slot, f, key) && (a == Release(w) || a == Crash(w))
    requires w in f.s.jobs && InSlot(slot, f.s.jobs[w])
    requires f'.now == f.now && f'.gates == Acted(site, slot, f, KeyOf(site, slot, f.s.jobs[w]), a)
    requires OnlyMoves(f.s, f'.s, w) && (w in f'.s.jobs ==> !InSlot(slot, f'.s.jobs[w]))
    ensures Kept(site, slot, f', key)
  {
    var at := KeyOf(site, slot, f.s.jobs[w]);
    HoldersBut(site, slot, f.s, f'.s, w, key);
    if at == key {
      assert w in Holders(site, slot, f.s, key);
      assert (GateOf(f, key).live - {w}).Keys == GateOf(f, key).live.Keys - {w};
    } else {
      assert w !in Holders(site, slot, f.s, key);
    }
    GateMoves(site, slot, f, f', at, a, key);
  }

  lemma LeftKept(site: Site, slot: Slot, f: Fleet, w: Worker, a: Act, key: nat)
    requires CapOf(site, slot, key) > 0 && Inv(site, slot, f, key) && w in f.s.jobs && (a == Release(w) || a == Crash(w))
    ensures Inv(site, slot, Left(site, slot, f, w, a), key)
  {
    var f' := Left(site, slot, f, w, a);
    if InSlot(slot, f.s.jobs[w]) {
      Leaves(site, slot, f, f', w, a, key);
    } else {
      HoldersBut(site, slot, f.s, f'.s, w, key);
      assert w !in Holders(site, slot, f.s, key);
      Stands(site, slot, f, f', key);
    }
  }

  lemma TickKept(site: Site, slot: Slot, f: Fleet, to: int, key: nat)
    requires CapOf(site, slot, key) > 0 && Inv(site, slot, f, key) && May(site, slot, f, Tick(to))
    ensures Inv(site, slot, Ticked(site, slot, f, to), key)
  {
    var f' := Ticked(site, slot, f, to);
    assert Holders(site, slot, f'.s, key) == Holders(site, slot, f.s, key);
    if key in f.gates { SoundStep(f.gates[key], CapOf(site, slot, key), Wait(to)); }
  }

  // ---- the moves of a run ------------------------------------------------------------------

  lemma TodoLeft(site: Site, s: Sys, w: Worker)
    requires Enabled(site, s, Exec(w))
    ensures var s' := ExecStep(site, s, w);
            && s'.jobs == s.jobs[w := Running(s.jobs[w].member, s.jobs[w].todo[1..])]
            && (|s.jobs[w].todo| > 1 ==>
                  && Enabled(site, s', Exec(w))
                  && ExecStep(site, s', w).jobs == s.jobs[w := Running(s.jobs[w].member, s.jobs[w].todo[2..])])
  {
    assert |s.jobs[w].todo| > 1 ==> s.jobs[w].todo[1..][1..] == s.jobs[w].todo[2..];
  }

  /** Putting what is left of a run, lawful from inside or outside, in its place. */
  lemma GoesOn(site: Site, slot: Slot, s: Sys, s': Sys, w: Worker, todo: seq<Effect>, inside: bool)
    requires AllLawful(site, slot, s) && w in s.jobs && s'.jobs == s.jobs[w := Running(s.jobs[w].member, todo)]
    requires Lawful(slot, Gated(site, slot, s.jobs[w]), todo, inside)
    ensures AllLawful(site, slot, s') && OnlyMoves(s, s', w)
    ensures InSlot(slot, s'.jobs[w]) <==> inside
    ensures KeyOf(site, slot, s'.jobs[w]) == KeyOf(site, slot, s.jobs[w])
  {
    OwesInside(slot, Gated(site, slot, s.jobs[w]), todo, inside);
    assert Gated(site, slot, s'.jobs[w]) == Gated(site, slot, s.jobs[w]);
  }

  /** Asking: granted, the run is inside with a slot; over the cap, it never was. */
  lemma AskKept(site: Site, slot: Slot, f: Fleet, w: Worker, key: nat)
    requires CapOf(site, slot, key) > 0 && Inv(site, slot, f, key)
    requires May(site, slot, f, Plain(Exec(w))) && Asks(slot, f.s, w)
    ensures Inv(site, slot, Executed(site, slot, f, w), key)
  {
    var (f', job) := (Executed(site, slot, f, w), f.s.jobs[w]);
    var bounces := Bounces(slot, job.todo);
    TodoLeft(site, f.s, w);
    GoesOn(site, slot, f.s, f'.s, w, if bounces then job.todo[2..] else job.todo[1..], !bounces);
    HoldersBut(site, slot, f.s, f'.s, w, key);
    assert w !in Holders(site, slot, f.s, key);
    GateMoves(site, slot, f, f', KeyOf(site, slot, job), Ask(w), key);
  }

  lemma ReturnKept(site: Site, slot: Slot, f: Fleet, w: Worker, key: nat)
    requires CapOf(site, slot, key) > 0 && Inv(site, slot, f, key)
    requires May(site, slot, f, Plain(Exec(w))) && Returns(slot, f.s, w)
    ensures Inv(site, slot, Executed(site, slot, f, w), key)
  {
    var f' := Executed(site, slot, f, w);
    TodoLeft(site, f.s, w);
    GoesOn(site, slot, f.s, f'.s, w, f.s.jobs[w].todo[1..], false);
    Leaves(site, slot, f, f', w, Release(w), key);
  }

  lemma StaysKept(site: Site, slot: Slot, f: Fleet, f': Fleet, w: Worker, key: nat)
    requires Inv(site, slot, f, key) && f'.now == f.now && f'.gates == f.gates && AllLawful(site, slot, f'.s)
    requires OnlyMoves(f.s, f'.s, w) && w in f'.s.jobs
    requires InSlot(slot, f'.s.jobs[w]) <==> w in f.s.jobs && InSlot(slot, f.s.jobs[w])
    requires w in f.s.jobs ==> KeyOf(site, slot, f'.s.jobs[w]) == KeyOf(site, slot, f.s.jobs[w])
    ensures Inv(site, slot, f', key)
  {
    HoldersBut(site, slot, f.s, f'.s, w, key);
    assert w in Holders(site, slot, f.s, key) <==> w in f.s.jobs && InSlot(slot, f.s.jobs[w]) && KeyOf(site, slot, f.s.jobs[w]) == key;
    Stands(site, slot, f, f', key);
  }

  lemma QuietKept(site: Site, slot: Slot, f: Fleet, w: Worker, key: nat)
    requires Inv(site, slot, f, key) && Enabled(site, f.s, Exec(w)) && !Asks(slot, f.s, w) && !Returns(slot, f.s, w)
    ensures Inv(site, slot, Executed(site, slot, f, w), key)
  {
    var f' := Executed(site, slot, f, w);
    TodoLeft(site, f.s, w);
    GoesOn(site, slot, f.s, f'.s, w, f.s.jobs[w].todo[1..], InSlot(slot, f.s.jobs[w]));
    StaysKept(site, slot, f, f', w, key);
  }

  lemma PlanLawful(site: Site, slot: Slot, rows: map<Task, Row>, job: Job, p: Payload, f: Fate)
    requires site.codec.dec(StripToken(job.member)) == Some(p) && Answered(site, slot, TaskAt(site, job.member), f)
    requires slot.OrgSlot? ==> site.perOrgMax > 0
    ensures Lawful(slot, Gated(site, slot, job), Plan(site, rows, p, f), false)
  {
    match slot {
      case OrgSlot => OrgPlanLawful(site, rows, p, f);
      case DestSlot => DestPlanLawful(site, Gated(site, slot, job), rows, p, f);
    }
  }

  lemma LoadKept(site: Site, slot: Slot, f: Fleet, m: Move, key: nat)
    requires CapOf(site, slot, key) > 0 && Inv(site, slot, f, key) && May(site, slot, f, Plain(m)) && m.Load?
    ensures Inv(site, slot, f.(s := LoadStep(site, f.s, m.w, m.fate)), key)
  {
    var f' := f.(s := LoadStep(site, f.s, m.w, m.fate));
    var job := f.s.jobs[m.w];
    var p := site.codec.dec(StripToken(job.member)).value;
    PlanLawful(site, slot, f.s.w.rows, job, p, m.fate);
    GoesOn(site, slot, f.s, f'.s, m.w, Plan(site, f.s.w.rows, p, m.fate), false);
    StaysKept(site, slot, f, f', m.w, key);
  }

  lemma SameJobsKept(site: Site, slot: Slot, f: Fleet, f': Fleet, key: nat)
    requires Inv(site, slot, f, key) && f'.now == f.now && f'.gates == f.gates && f'.s.jobs == f.s.jobs
    ensures Inv(site, slot, f', key)
  {
    assert Holders(site, slot, f'.s, key) == Holders(site, slot, f.s, key);
  }

  lemma LeaseKept(site: Site, slot: Slot, f: Fleet, m: Move, key: nat)
    requires Inv(site, slot, f, key) && m.Lease? && m.w !in f.s.jobs
    ensures Inv(site, slot, f.(s := LeaseStep(f.s, m.w, m.deadline, m.token)), key)
  {
    var f' := f.(s := LeaseStep(f.s, m.w, m.deadline, m.token));
    if m.w in f'.s.jobs {
      assert OnlyMoves(f.s, f'.s, m.w);
      StaysKept(site, slot, f, f', m.w, key);
    } else {
      SameJobsKept(site, slot, f, f', key);
    }
  }

  lemma TurnKept(site: Site, slot: Slot, f: Fleet, t: Turn, key: nat)
    requires CapOf(site, slot, key) > 0 && Inv(site, slot, f, key) && May(site, slot, f, t)
    ensures Inv(site, slot, Turned(site, slot, f, t), key)
  {
    match t {
      case Plain(m) =>
        if m.Exec? {
          if Asks(slot, f.s, m.w) { AskKept(site, slot, f, m.w, key); }
          else if Returns(slot, f.s, m.w) { ReturnKept(site, slot, f, m.w, key); }
          else { QuietKept(site, slot, f, m.w, key); }
        } else if m.Quit? {
          LeftKept(site, slot, f, m.w, Release(m.w), key);
        } else if m.Lease? {
          LeaseKept(site, slot, f, m, key);
        } else if m.Load? {
          LoadKept(site, slot, f, m, key);
        } else {
          SameJobsKept(site, slot, f, Turned(site, slot, f, t), key);
        }
      case Dies(w) => LeftKept(site, slot, f, w, Crash(w), key);
      case Tick(to) => TickKept(site, slot, f, to, key);
    }
  }

  // ---- runs ------------------------------------------------------------------------------

  ghost predicate AllMay(site: Site, slot: Slot, f: Fleet, ts: seq<Turn>)
    decreases |ts|
  {
    ts == [] || (May(site, slot, f, ts[0]) && AllMay(site, slot, Turned(site, slot, f, ts[0]), ts[1..]))
  }

  ghost function TurnedAll(site: Site, slot: Slot, f: Fleet, ts: seq<Turn>): Fleet
    requires AllMay(site, slot, f, ts)
    decreases |ts|
  {
    if ts == [] then f else TurnedAll(site, slot, Turned(site, slot, f, ts[0]), ts[1..])
  }

  lemma {:induction false} RunKept(site: Site, slot: Slot, f: Fleet, ts: seq<Turn>, key: nat)
    requires CapOf(site, slot, key) > 0 && Inv(site, slot, f, key) && AllMay(site, slot, f, ts)
    ensures Inv(site, slot, TurnedAll(site, slot, f, ts), key)
    decreases |ts|
  {
    if ts != [] {
      TurnKept(site, slot, f, ts[0], key);
      RunKept(site, slot, Turned(site, slot, f, ts[0]), ts[1..], key);
    }
  }

  /** The runs of this org, or to this destination, about to put a delivery on the wire. */
  function Senders(site: Site, slot: Slot, s: Sys, key: nat): set<Worker> {
    set w | w in s.jobs && s.jobs[w].Running? && s.jobs[w].todo != [] && s.jobs[w].todo[0].Post?
            && Covers(slot, TaskAt(site, s.jobs[w].member)) && KeyOf(site, slot, s.jobs[w]) == key
  }

  const NOWHERE: map<nat, Gate> := map[]

  lemma SlotsHold(site: Site, slot: Slot, start: int, ts: seq<Turn>, key: nat)
    requires CapOf(site, slot, key) > 0 && AllMay(site, slot, Fleet(INITIAL, NOWHERE, start), ts)
    ensures var f := TurnedAll(site, slot, Fleet(INITIAL, NOWHERE, start), ts);
            && Senders(site, slot, f.s, key) <= Holders(site, slot, f.s, key)
            && |Senders(site, slot, f.s, key)| <= |Holders(site, slot, f.s, key)| <= CapOf(site, slot, key)
            && Value(GateOf(f, key).key) == |Holders(site, slot, f.s, key)| + GateOf(f, key).phantoms
  {
    var f0 := Fleet(INITIAL, NOWHERE, start);
    assert Holders(site, slot, f0.s, key) == {};
    RunKept(site, slot, f0, ts, key);
    var f := TurnedAll(site, slot, f0, ts);
    SubsetSize(Senders(site, slot, f.s, key), Holders(site, slot, f.s, key));
    assert |GateOf(f, key).live| == |GateOf(f, key).live.Keys|;
  }

  /** One budget per org. In every reachable state of the whole system, over all its
      workers, inbound and outbound together: the runs of an org inside a slot are its
      counter's holders and never more than the cap, and every run about to send a
      delivery is one of them. */
  lemma OneBudgetPerOrg(site: Site, start: int, ts: seq<Turn>, o: Org)
    requires site.perOrgMax > 0 && AllMay(site, OrgSlot, Fleet(INITIAL, NOWHERE, start), ts)
    ensures var f := TurnedAll(site, OrgSlot, Fleet(INITIAL, NOWHERE, start), ts);
            && Senders(site, OrgSlot, f.s, o) <= Holders(site, OrgSlot, f.s, o)
            && |Senders(site, OrgSlot, f.s, o)| <= |Holders(site, OrgSlot, f.s, o)| <= site.perOrgMax
            && Value(GateOf(f, o).key) == |Holders(site, OrgSlot, f.s, o)| + GateOf(f, o).phantoms
  {
    SlotsHold(site, OrgSlot, start, ts, o);
  }

  /** And one per destination that has a cap, for the inbound events it receives. */
  lemma OneBudgetPerDestination(site: Site, start: int, ts: seq<Turn>, dest: nat)
    requires site.destCap(dest) > 0 && AllMay(site, DestSlot, Fleet(INITIAL, NOWHERE, start), ts)
    ensures var f := TurnedAll(site, DestSlot, Fleet(INITIAL, NOWHERE, start), ts);
            && Senders(site, DestSlot, f.s, dest) <= Holders(site, DestSlot, f.s, dest)
            && |Senders(site, DestSlot, f.s, dest)| <= |Holders(site, DestSlot, f.s, dest)| <= site.destCap(dest)
            && Value(GateOf(f, dest).key) == |Holders(site, DestSlot, f.s, dest)| + GateOf(f, dest).phantoms
  {
    SlotsHold(site, DestSlot, start, ts, dest);
  }
}
