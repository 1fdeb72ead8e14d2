/** The in-flight semaphore: a Redis counter with a lifetime, and the slots it hands
    out to runs that may crash. */
module Semaphore {
  import opened Lease
  import opened QueueModel
  import opened Payloads
  import opened Handlers

  /** Five times the delivery timeout, in seconds. */
  const TTL := 150

  // ---- the key --------------------------------------------------------------------

  datatype Key = Missing | Counter(n: int, expires: Option<int>)

  /** What is left of the key at a later time. */
  function Alive(k: Key, now: int): Key {
    if k.Counter? && k.expires.Some? && k.expires.value <= now then Missing else k
  }

  function Value(k: Key): int { if k.Counter? then k.n else 0 }

  function Lifetime(k: Key): Option<int> { if k.Counter? then k.expires else None }

  /** INCR, and a fresh lifetime only when the result is within the cap. */
  function Incr(k: Key, now: int, cap: int): Key {
    var n := Value(Alive(k, now)) + 1;
    Counter(n, if n <= cap then Some(now + TTL) else Lifetime(Alive(k, now)))
  }

  function Decr(k: Key, now: int): Key {
    Counter(Value(Alive(k, now)) - 1, Lifetime(Alive(k, now)))
  }

  /** The key as Redis keeps it. */
  class Slots {
    var held: Option<int>
    var expires: Option<int>

    ghost function Now(): Key
      reads this
    {
      if held.None? then Missing else Counter(held.value, expires)
    }

    constructor ()
      ensures Now() == Missing
    {
      held, expires := None, None;
    }

    method Vanish(now: int)
      modifies this
      ensures Now() == Alive(old(Now()), now)
      ensures held.None? ==> expires.None?
    {
      if expires.Some? && expires.value <= now { held := None; }
      if held.None? { expires := None; }
    }

    method IncrWithin(now: int, cap: int) returns (n: int)
      modifies this
      ensures Now() == Incr(old(Now()), now, cap)
      ensures n == Value(Now())
    {
      Vanish(now);
      n := (if held.Some? then held.value else 0) + 1;
      held := Some(n);
      if n <= cap { expires := Some(now + TTL); }
    }

    method DecrOne(now: int)
      modifies this
      ensures Now() == Decr(old(Now()), now)
    {
      Vanish(now);
      held := Some((if held.Some? then held.value else 0) - 1);
    }
  }

  // ---- the runs that hold slots ------------------------------------------------------

  /** `live` maps each holder to when it got its slot; `phantoms` are the slots of
      holders that crashed since the key last vanished. */
  datatype Gate = Gate(key: Key, now: int, live: map<nat, int>, phantoms: nat)

  datatype Act =
    | Ask(h: nat)       // INCR; over the cap, DECR straight away
    | Release(h: nat)   // the deferred DECR
    | Crash(h: nat)
    | Wait(to: int)

  predicate Granted(g: Gate, cap: int) { Value(Incr(g.key, g.now, cap)) <= cap }

  predicate Can(g: Gate, a: Act) {
    match a
    case Ask(h) => h !in g.live
    case Release(h) => h in g.live
    case Crash(h) => h in g.live
    // a hold is shorter than the lifetime
    case Wait(to) => g.now <= to && forall h :: h in g.live ==> to < g.live[h] + 150
  }

  function Do(g: Gate, cap: int, a: Act): Gate {
    match a
    case Ask(h) =>
      var k := Incr(g.key, g.now, cap);
      if k.n <= cap then g.(key := k, live := g.live[h := g.now]) else g.(key := Decr(k, g.now))
    case Release(h) => g.(key := Decr(g.key, g.now), live := g.live - {h})
    case Crash(h) => g.(live := g.live - {h}, phantoms := g.phantoms + 1)
    case Wait(to) =>
      var k := Alive(g.key, to);
      g.(key := k, now := to, phantoms := if k.Missing? then 0 else g.phantoms)
  }

  predicate AllCan(g: Gate, cap: int, acts: seq<Act>)
    decreases |acts|
  {
    acts == [] || (Can(g, acts[0]) && AllCan(Do(g, cap, acts[0]), cap, acts[1..]))
  }

  function DoAll(g: Gate, cap: int, acts: seq<Act>): Gate
    decreases |acts|
  {
    if acts == [] then g else DoAll(Do(g, cap, acts[0]), cap, acts[1..])
  }

  ghost predicate Sound(g: Gate, cap: int) {
    match g.key
    case Missing => g.live == map[] && g.phantoms == 0
    case Counter(n, expires) =>
      && n == |g.live| + g.phantoms && n <= cap
      && expires.Some? && g.now < expires.value <= g.now + 150
      && forall h :: h in g.live ==> g.live[h] + 150 <= expires.value
  }

  lemma OneFewer(live: map<nat, int>, h: nat)
    requires h in live
    ensures |live - {h}| == |live| - 1
  {
    assert live.Keys == (live - {h}).Keys + {h};
    assert |live - {h}| == |(live - {h}).Keys| && |live| == |live.Keys|;
  }

  lemma SoundWait(g: Gate, cap: int, to: int)
    requires cap > 0 && Sound(g, cap) && Can(g, Wait(to))
    ensures Sound(Do(g, cap, Wait(to)), cap)
  {
    if g.key.Counter? && g.key.expires.value <= to {
      assert g.live == map[] by {
        if h :| h in g.live { assert false; }
      }
    }
  }

  lemma SoundAsk(g: Gate, cap: int, h: nat)
    requires cap > 0 && Sound(g, cap) && h !in g.live
    ensures Sound(Do(g, cap, Ask(h)), cap)
  {
    var k := Incr(g.key, g.now, cap);
    if k.n <= cap {
      assert |g.live[h := g.now]| == |g.live| + 1;
    } else {
      assert Do(g, cap, Ask(h)).key == g.key;
    }
  }

  lemma SoundLeave(g: Gate, cap: int, a: Act)
    requires cap > 0 && Sound(g, cap) && (a.Release? || a.Crash?) && a.h in g.live
    ensures Sound(Do(g, cap, a), cap)
  {
    OneFewer(g.live, a.h);
  }

  lemma SoundStep(g: Gate, cap: int, a: Act)
    requires cap > 0 && Sound(g, cap) && Can(g, a)
    ensures Sound(Do(g, cap, a), cap)
  {
    match a {
      case Ask(h) => SoundAsk(g, cap, h);
      case Release(_) | Crash(_) => SoundLeave(g, cap, a);
      case Wait(to) => SoundWait(g, cap, to);
    }
  }

  lemma {:induction false} SoundRun(g: Gate, cap: int, acts: seq<Act>)
    requires cap > 0 && Sound(g, cap) && AllCan(g, cap, acts)
    ensures Sound(DoAll(g, cap, acts), cap)
    decreases |acts|
  {
    if acts != [] {
      SoundStep(g, cap, acts[0]);
      SoundRun(Do(g, cap, acts[0]), cap, acts[1..]);
    }
  }

  /** Live holders never exceed the cap, whatever crashed; and a request is turned
      away exactly when live and phantom slots together fill it. */
  lemma NeverOverCap(start: int, cap: int, acts: seq<Act>)
    requires cap > 0 && AllCan(Gate(Missing, start, map[], 0), cap, acts)
    ensures var g := DoAll(Gate(Missing, start, map[], 0), cap, acts);
            && |g.live| <= cap
            && Value(g.key) == |g.live| + g.phantoms
            && (Granted(g, cap) <==> |g.live| + g.phantoms < cap)
  {
    SoundRun(Gate(Missing, start, map[], 0), cap, acts);
  }

  predicate NoneGranted(g: Gate, cap: int, acts: seq<Act>)
    decreases |acts|
  {
    acts == [] || ((acts[0].Ask? ==> !Granted(g, cap)) && NoneGranted(Do(g, cap, acts[0]), cap, acts[1..]))
  }

  lemma {:induction false} LifetimeRuns(g: Gate, cap: int, acts: seq<Act>)
    requires cap > 0 && Sound(g, cap) && AllCan(g, cap, acts) && NoneGranted(g, cap, acts)
    ensures var g' := DoAll(g, cap, acts);
            && Sound(g', cap)
            && (g'.key.Missing? || (g.key.Counter? && g'.key.expires == g.key.expires))
    decreases |acts|
  {
    if acts != [] {
      SoundStep(g, cap, acts[0]);
      LifetimeRuns(Do(g, cap, acts[0]), cap, acts[1..]);
    }
  }

  /** Slots lost to crashes come back: once the lifetime has passed with every request
      turned away, no slot is counted any more and the next request is granted. */
  lemma PhantomsReclaimed(g: Gate, cap: int, acts: seq<Act>)
    requires cap > 0 && Sound(g, cap) && AllCan(g, cap, acts) && NoneGranted(g, cap, acts)
    requires DoAll(g, cap, acts).now >= g.now + 150
    ensures var g' := DoAll(g, cap, acts);
            g'.key.Missing? && g'.phantoms == 0 && g'.live == map[] && Granted(g', cap)
  {
    LifetimeRuns(g, cap, acts);
  }

  // ---- what one run takes it gives back ----------------------------------------------

  /** Slots a run holds after these effects. */
  function Holding(es: seq<Effect>, slot: Slot): int
    decreases |es|
  {
    if es == [] then 0 else
      Holding(es[..|es| - 1], slot)
      + (if es[|es| - 1] == Take(slot) then 1 else if es[|es| - 1] == Give(slot) then -1 else 0)
  }

  predicate Untouched(es: seq<Effect>, slot: Slot) {
    forall i :: 0 <= i < |es| ==> es[i] != Take(slot) && es[i] != Give(slot)
  }

  lemma {:induction false} HoldingNone(es: seq<Effect>, slot: Slot)
    requires Untouched(es, slot)
    ensures Holding(es, slot) == 0
    decreases |es|
  {
    if es != [] { HoldingNone(es[..|es| - 1], slot); }
  }

  lemma {:induction false} HoldingJoin(a: seq<Effect>, b: seq<Effect>, slot: Slot)
    ensures Holding(a + b, slot) == Holding(a, slot) + Holding(b, slot)
    decreases |b|
  {
    if b == [] {
      assert a + b == a;
    } else {
      assert (a + b)[..|a + b| - 1] == a + b[..|b| - 1];
      HoldingJoin(a, b[..|b| - 1], slot);
    }
  }

  lemma HoldingPair(slot: Slot, other: Slot)
    ensures Holding([Take(slot)], other) == (if slot == other then 1 else 0)
    ensures Holding([Give(slot)], other) == (if slot == other then -1 else 0)
    ensures Holding([Take(slot), Give(slot)], other) == 0
  {
    assert [Take(slot)][..0] == [] && [Give(slot)][..0] == [];
    HoldingJoin([Take(slot)], [Give(slot)], other);
    assert [Take(slot), Give(slot)] == [Take(slot)] + [Give(slot)];
  }

  /** At every point of the run one slot or none is held, and none at the end. */
  predicate Returned(es: seq<Effect>, slot: Slot) {
    Holding(es, slot) == 0 && forall k :: 0 <= k <= |es| ==> 0 <= Holding(es[..k], slot) <= 1
  }

  lemma NothingTaken(es: seq<Effect>, slot: Slot)
    requires Untouched(es, slot)
    ensures Returned(es, slot)
  {
    HoldingNone(es, slot);
    forall k | 0 <= k <= |es| ensures Holding(es[..k], slot) == 0 { HoldingNone(es[..k], slot); }
  }

  /** Prefixes of a run wrapped in a slot. */
  lemma WrapPrefix(slot: Slot, es: seq<Effect>, k: nat)
    requires 1 <= k <= |es| + 1
    ensures ([Take(slot)] + es + [Give(slot)])[..k] == [Take(slot)] + es[..k - 1]
  {
  }

  lemma Wraps(slot: Slot, es: seq<Effect>)
    requires Untouched(es, slot)
    ensures Returned([Take(slot)] + es + [Give(slot)], slot)
    ensures forall k :: 1 <= k <= |es| + 1 ==> Holding(([Take(slot)] + es + [Give(slot)])[..k], slot) == 1
  {
    var all := [Take(slot)] + es + [Give(slot)];
    HoldingPair(slot, slot);
    HoldingNone(es, slot);
    HoldingJoin([Take(slot)], es, slot);
    HoldingJoin([Take(slot)] + es, [Give(slot)], slot);
    forall k | 1 <= k <= |es| + 1 ensures Holding(all[..k], slot) == 1 {
      WrapPrefix(slot, es, k);
      HoldingNone(es[..k - 1], slot);
      HoldingJoin([Take(slot)], es[..k - 1], slot);
    }
    assert all[..|all|] == all && all[..0] == [];
  }

  lemma Bounces(slot: Slot, es: seq<Effect>)
    requires Untouched(es, slot)
    ensures Returned([Take(slot), Give(slot)] + es, slot)
  {
    var all := [Take(slot), Give(slot)] + es;
    HoldingPair(slot, slot);
    forall k | 0 <= k <= |all| ensures 0 <= Holding(all[..k], slot) <= 1 && (k == |all| ==> Holding(all[..k], slot) == 0) {
      if k >= 2 {
        assert all[..k] == [Take(slot), Give(slot)] + es[..k - 2];
        HoldingNone(es[..k - 2], slot);
        HoldingJoin([Take(slot), Give(slot)], es[..k - 2], slot);
      } else if k == 1 {
        assert all[..1] == [Take(slot)];
      } else {
        assert all[..0] == [];
      }
    }
    assert all[..|all|] == all;
  }

  /** A slot of the other kind around a run changes nothing for this one. */
  lemma {:induction false} Shielded(e: Effect, es: seq<Effect>, e': Effect, slot: Slot)
    requires Returned(es, slot) && Untouched([e], slot) && Untouched([e'], slot)
    ensures Returned([e] + es + [e'], slot)
  {
    var all := [e] + es + [e'];
    HoldingNone([e], slot);
    HoldingNone([e'], slot);
    HoldingJoin([e], es, slot);
    HoldingJoin([e] + es, [e'], slot);
    forall k | 0 <= k <= |all| ensures 0 <= Holding(all[..k], slot) <= 1 {
      if k == 0 {
        assert all[..0] == [];
      } else if k <= |es| + 1 {
        assert all[..k] == [e] + es[..k - 1];
        HoldingJoin([e], es[..k - 1], slot);
      } else {
        assert all[..k] == all;
      }
    }
  }

  lemma SendSlots(site: Site, row: Row, p: Payload, f: Fate, slot: Slot)
    ensures Untouched(EventSend(site, row, p, f), slot)
  {
  }

  lemma DeferralSlots(p: Payload, f: Fate, delay: int, slot: Slot)
    ensures Untouched(Deferral(p, f, delay), slot)
  {
  }

  lemma EventOrgFree(site: Site, row: Row, p: Payload, f: Fate)
    ensures Untouched(EventGated(site, row, p, f), OrgSlot)
  {
    SendSlots(site, row, p, f, OrgSlot);
  }

  lemma EventSlots(site: Site, row: Row, p: Payload, f: Fate)
    ensures Returned(EventGated(site, row, p, f), DestSlot)
  {
    var send := EventSend(site, row, p, f);
    var delay := if f.rateLimited.Some? && f.rateLimited.value > 0 then f.rateLimited.value else 100;
    SendSlots(site, row, p, f, DestSlot);
    DeferralSlots(p, f, 250, DestSlot);
    DeferralSlots(p, f, delay, DestSlot);
    Wraps(DestSlot, send);
    NothingTaken(send, DestSlot);
    Bounces(DestSlot, Deferral(p, f, 250));
    NothingTaken(Deferral(p, f, delay), DestSlot);
  }

  lemma GateSlots(site: Site, p: Payload, f: Fate, inner: seq<Effect>)
    requires Untouched(inner, OrgSlot) && Returned(inner, DestSlot)
    ensures Returned(OrgGate(site, p, f, inner), OrgSlot) && Returned(OrgGate(site, p, f, inner), DestSlot)
  {
    Wraps(OrgSlot, inner);
    NothingTaken(inner, OrgSlot);
    Bounces(OrgSlot, Deferral(p, f, 500));
    Shielded(Take(OrgSlot), inner, Give(OrgSlot), DestSlot);
    NothingTaken([Take(OrgSlot), Give(OrgSlot)] + Deferral(p, f, 500), DestSlot);
  }

  lemma MessageSlots(site: Site, id: nat, row: Row, p: Payload, f: Fate, slot: Slot)
    ensures Untouched(MessageGated(site, id, row, p, f), slot)
  {
    assert Untouched(MessageFail(site, id, p, f, row.attempts + 1), slot);
    assert Untouched(MessageSend(site, id, row, p, f), slot);
  }

  lemma EventPlanSlots(site: Site, row: Option<Row>, p: Payload, f: Fate, slot: Slot)
    ensures Returned(EventPlan(site, row, p, f), slot)
  {
    var es := EventPlan(site, row, p, f);
    if Untouched(es, slot) {
      NothingTaken(es, slot);
    } else {
      EventOrgFree(site, row.value, p, f);
      EventSlots(site, row.value, p, f);
      GateSlots(site, p, f, EventGated(site, row.value, p, f));
    }
  }

  lemma MessagePlanSlots(site: Site, row: Option<Row>, p: Payload, f: Fate, slot: Slot)
    ensures Returned(MessagePlan(site, row, p, f), slot)
  {
    var es := MessagePlan(site, row, p, f);
    if Untouched(es, slot) {
      NothingTaken(es, slot);
    } else {
      var inner := MessageGated(site, p.data.value, row.value, p, f);
      MessageSlots(site, p.data.value, row.value, p, f, OrgSlot);
      MessageSlots(site, p.data.value, row.value, p, f, DestSlot);
      NothingTaken(inner, DestSlot);
      GateSlots(site, p, f, inner);
    }
  }

  lemma PlanSlots(site: Site, rows: map<Task, Row>, p: Payload, f: Fate, slot: Slot)
    ensures Returned(Plan(site, rows, p, f), slot)
  {
    var t := TaskOf(p);
    var row := if t in rows then Some(rows[t]) else None;
    match p.kind {
      case Delivery => EventPlanSlots(site, row, p, f, slot);
      case Message => MessagePlanSlots(site, row, p, f, slot);
      case Email => NothingTaken(EmailPlan(p, f), slot);
    }
  }

  /** The deferred DECR of a slot still held when Process returns. */
  function Deferred(done: seq<Effect>, slot: Slot): seq<Effect> {
    if Holding(done, slot) > 0 then [Give(slot)] else []
  }

  /** Process returning after n of its effects: an error return when more were to come,
      the normal end when not. Deferred calls run last in, first out. */
  function Stopped(es: seq<Effect>, n: nat): seq<Effect>
    requires n <= |es|
  {
    es[..n] + Deferred(es[..n], DestSlot) + Deferred(es[..n], OrgSlot)
  }

  lemma OneMore(es: seq<Effect>, e: Effect, slot: Slot)
    requires forall k :: 0 <= k <= |es| ==> 0 <= Holding(es[..k], slot) <= 1
    requires 0 <= Holding(es + [e], slot) <= 1
    ensures forall k :: 0 <= k <= |es| + 1 ==> 0 <= Holding((es + [e])[..k], slot) <= 1
  {
    forall k | 0 <= k <= |es| + 1 ensures 0 <= Holding((es + [e])[..k], slot) <= 1 {
      if k <= |es| { assert (es + [e])[..k] == es[..k]; } else { assert (es + [e])[..k] == es + [e]; }
    }
  }

  /** Running one deferred DECR: the slot it names is back, the other is untouched. */
  lemma DeferredReturns(es: seq<Effect>, done: seq<Effect>, slot: Slot, other: Slot)
    requires forall k :: 0 <= k <= |es| ==> 0 <= Holding(es[..k], other) <= 1
    requires Holding(es, slot) == Holding(done, slot)
    requires Holding(es, other) == Holding(done, other)
    ensures var es' := es + Deferred(done, slot);
            && (forall k :: 0 <= k <= |es'| ==> 0 <= Holding(es'[..k], other) <= 1)
            && Holding(es', other) == if slot == other then 0 else Holding(es, other)
  {
    assert es[..|es|] == es;
    if Deferred(done, slot) == [] {
      assert es + Deferred(done, slot) == es;
    } else {
      HoldingPair(slot, other);
      HoldingJoin(es, [Give(slot)], other);
      OneMore(es, Give(slot), other);
    }
  }

  lemma StoppedReturns(es: seq<Effect>, n: nat, slot: Slot)
    requires n <= |es| && Returned(es, OrgSlot) && Returned(es, DestSlot)
    ensures Returned(Stopped(es, n), slot)
  {
    var done := es[..n];
    forall k | 0 <= k <= |done| ensures done[..k] == es[..k] {}
    assert done[..|done|] == done;
    DeferredReturns(done, done, DestSlot, slot);
    var mid := done + Deferred(done, DestSlot);
    if slot == OrgSlot {
      DeferredReturns(mid, done, OrgSlot, slot);
    } else {
      AfterOrg(mid, done);
    }
  }

  lemma AfterOrg(es: seq<Effect>, done: seq<Effect>)
    requires Returned(es, DestSlot)
    ensures Returned(es + Deferred(done, OrgSlot), DestSlot)
  {
    if Deferred(done, OrgSlot) == [] {
      assert es + Deferred(done, OrgSlot) == es;
    } else {
      HoldingPair(OrgSlot, DestSlot);
      HoldingJoin(es, [Give(OrgSlot)], DestSlot);
      OneMore(es, Give(OrgSlot), DestSlot);
    }
  }

  /** Every return of every handler, wherever it happens, releases exactly what the run
      acquired, and at no point are two slots of one kind held. Only a crash after n
      effects keeps what `Holding` says. */
  lemma SlotsReturned(site: Site, rows: map<Task, Row>, p: Payload, f: Fate, slot: Slot, n: nat)
    requires n <= |Plan(site, rows, p, f)|
    ensures var es := Plan(site, rows, p, f);
            && Returned(Stopped(es, n), slot)
            && Stopped(es, |es|) == es
            && 0 <= Holding(es[..n], slot) <= 1
  {
    var es := Plan(site, rows, p, f);
    PlanSlots(site, rows, p, f, OrgSlot);
    PlanSlots(site, rows, p, f, DestSlot);
    StoppedReturns(es, n, slot);
    assert es[..|es|] == es;
  }

  /** With the per-org gate on and its counter answering, nothing is ever sent outside
      a slot that was granted within the cap. */
  lemma SendsUnderSlot(site: Site, rows: map<Task, Row>, p: Payload, f: Fate, k: nat)
    requires site.perOrgMax > 0 && f.orgReply.Some? && !p.kind.Email?
    requires var es := Plan(site, rows, p, f); k < |es| && es[k].Post?
    ensures f.orgReply.value <= site.perOrgMax
    ensures Holding(Plan(site, rows, p, f)[..k], OrgSlot) == 1
  {
    var t := TaskOf(p);
    if p.kind.Delivery? {
      var inner := EventGated(site, rows[t], p, f);
      EventOrgFree(site, rows[t], p, f);
      Wraps(OrgSlot, inner);
    } else {
      var inner := MessageGated(site, p.data.value, rows[t], p, f);
      MessageSlots(site, p.data.value, rows[t], p, f, OrgSlot);
      Wraps(OrgSlot, inner);
    }
  }
}
