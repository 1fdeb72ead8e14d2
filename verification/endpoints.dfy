/** When an endpoint is disabled: exactly at the strike that fills the count. */
module Endpoints {
  import opened Lease
  import opened QueueModel
  import opened Payloads
  import opened Handlers
  import opened System
  import opened DeliveryOutcomes
  import opened OpEvents
  import OutboundBudget

  // ---- counting ----------------------------------------------------------------------

  /** Strikes since the last clear, on top of what the count started with. */
  function Since(start: nat, trail: seq<Effect>): nat
    decreases |trail|
  {
    if trail == [] then start else
      var n := |trail| - 1;
      if trail[n].Strike? then Since(start, trail[..n]) + 1
      else if trail[n].Clear? then 0
      else Since(start, trail[..n])
  }

  /** The i-th thing heard is a strike, and brings the count to the threshold. */
  predicate Fills(start: nat, trail: seq<Effect>, max: nat, i: nat) {
    i < |trail| && trail[i].Strike? && Since(start, trail[..i + 1]) == max
  }

  ghost predicate Filled(start: nat, trail: seq<Effect>, max: nat) { exists i: nat :: Fills(start, trail, max, i) }

  lemma {:induction false} SinceJoin(start: nat, a: seq<Effect>, b: seq<Effect>)
    ensures Since(start, a + b) == Since(Since(start, a), b)
    decreases |b|
  {
    if b == [] {
      assert a + b == a;
    } else {
      assert (a + b)[..|a + b| - 1] == a + b[..|b| - 1];
      SinceJoin(start, a, b[..|b| - 1]);
    }
  }

  lemma FillsEarly(start: nat, a: seq<Effect>, b: seq<Effect>, max: nat, i: nat)
    requires i < |a|
    ensures Fills(start, a + b, max, i) <==> Fills(start, a, max, i)
  {
    assert (a + b)[..i + 1] == a[..i + 1];
  }

  lemma FillsLate(start: nat, a: seq<Effect>, b: seq<Effect>, max: nat, i: nat)
    ensures Fills(start, a + b, max, |a| + i) <==> Fills(Since(start, a), b, max, i)
  {
    if i < |b| {
      assert (a + b)[..|a| + i + 1] == a + b[..i + 1];
      SinceJoin(start, a, b[..i + 1]);
    }
  }

  lemma FilledJoin(start: nat, a: seq<Effect>, b: seq<Effect>, max: nat)
    ensures Filled(start, a + b, max) <==> Filled(start, a, max) || Filled(Since(start, a), b, max)
  {
    if Filled(start, a + b, max) {
      var i: nat :| Fills(start, a + b, max, i);
      if i < |a| { FillsEarly(start, a, b, max, i); } else { FillsLate(start, a, b, max, i - |a|); }
    }
    if Filled(start, a, max) {
      var i: nat :| Fills(start, a, max, i);
      FillsEarly(start, a, b, max, i);
    }
    if Filled(Since(start, a), b, max) {
      var i: nat :| Fills(Since(start, a), b, max, i);
      FillsLate(start, a, b, max, i);
    }
  }

  lemma FilledOne(start: nat, e: Effect, max: nat)
    ensures Since(start, [e]) == if e.Strike? then start + 1 else if e.Clear? then 0 else start
    ensures Filled(start, [e], max) <==> e.Strike? && start + 1 == max
  {
    assert [e][..1] == [e] && [e][..0] == [];
    if e.Strike? && start + 1 == max { assert Fills(start, [e], max, 0); }
  }

  lemma FilledNone(start: nat, max: nat)
    ensures Since(start, []) == start && !Filled(start, [], max)
  {
  }

  // ---- one endpoint -------------------------------------------------------------------

  predicate Concerns(site: Site, t: Task, e: nat) { t.DeliveryTask? && site.endpointOf(t.id) == e }

  /** What an endpoint hears of a list of effects of t. */
  function Heard(site: Site, t: Task, es: seq<Effect>, e: nat): seq<Effect> {
    if Concerns(site, t, e) then Loud(es) else []
  }

  /** An endpoint that is not disabled has room. */
  predicate Room(site: Site, was: Endpoint) { was.disabled || was.failures < site.maxFailures }

  /** What has been heard accounts for the count and for the disabling. */
  ghost predicate Accounts(site: Site, was: Endpoint, now: Endpoint, trail: seq<Effect>) {
    && now.failures == Since(was.failures, trail)
    && (now.disabled <==> was.disabled || Filled(was.failures, trail, site.maxFailures))
    && Room(site, now)
  }

  lemma AccountsJoin(site: Site, was: Endpoint, mid: Endpoint, now: Endpoint, a: seq<Effect>, b: seq<Effect>)
    requires Accounts(site, was, mid, a) && Accounts(site, mid, now, b)
    ensures Accounts(site, was, now, a + b)
  {
    SinceJoin(was.failures, a, b);
    FilledJoin(was.failures, a, b, site.maxFailures);
  }

  lemma EffectHeard(site: Site, w: World, t: Task, member: Raw, eff: Effect, e: nat)
    requires site.maxFailures > 0 && e in w.endpoints && Room(site, w.endpoints[e])
    ensures var w' := Perform(site, w, t, member, eff);
            e in w'.endpoints && Accounts(site, w.endpoints[e], w'.endpoints[e], Heard(site, t, [eff], e))
  {
    FilledOne(w.endpoints[e].failures, eff, site.maxFailures);
    FilledNone(w.endpoints[e].failures, site.maxFailures);
    if IsLoud(eff) { OneLoud(eff, true); } else { NoneLoud([eff]); }
    assert Perform(site, w, t, member, eff).endpoints == w.endpoints || eff.Strike? || eff.Clear?;
  }

  lemma {:induction false} RunHeard(site: Site, w: World, t: Task, member: Raw, es: seq<Effect>, e: nat)
    requires site.maxFailures > 0 && e in w.endpoints && Room(site, w.endpoints[e])
    ensures var w' := PerformAll(site, w, t, member, es);
            e in w'.endpoints && Accounts(site, w.endpoints[e], w'.endpoints[e], Heard(site, t, es, e))
    decreases |es|
  {
    if es == [] {
      FilledNone(w.endpoints[e].failures, site.maxFailures);
    } else {
      var n := |es| - 1;
      var mid := PerformAll(site, w, t, member, es[..n]);
      RunHeard(site, w, t, member, es[..n], e);
      EffectHeard(site, mid, t, member, es[n], e);
      AccountsJoin(site, w.endpoints[e], mid.endpoints[e], Perform(site, mid, t, member, es[n]).endpoints[e],
                   Heard(site, t, es[..n], e), Heard(site, t, [es[n]], e));
      assert es == es[..n] + [es[n]];
      LoudJoin(es[..n], [es[n]]);
    }
  }

  // ---- whole runs ----------------------------------------------------------------------

  function Performed(site: Site, w: World, h: Happening): seq<Effect>
    requires h.Handle?
  {
    OutboundBudget.Cut(Plan(site, w.rows, h.p, h.fate), h.upTo)
  }

  function HeardNow(site: Site, w: World, h: Happening, e: nat): seq<Effect> {
    if h.Handle? then Heard(site, TaskOf(h.p), Performed(site, w, h), e) else []
  }

  /** Everything an endpoint hears in a run. */
  function Trail(site: Site, w: World, hs: seq<Happening>, e: nat): seq<Effect>
    decreases |hs|
  {
    if hs == [] then []
    else HeardNow(site, w, hs[0], e) + Trail(site, Happen(site, w, hs[0]), hs[1..], e)
  }

  predicate Untouched(hs: seq<Happening>, e: nat) {
    forall i :: 0 <= i < |hs| && hs[i].EditEndpoint? ==> hs[i].e != e
  }

  lemma HappenHeard(site: Site, w: World, h: Happening, e: nat)
    requires site.maxFailures > 0 && e in w.endpoints && Room(site, w.endpoints[e])
    requires h.EditEndpoint? ==> h.e != e
    ensures var w' := Happen(site, w, h);
            e in w'.endpoints && Accounts(site, w.endpoints[e], w'.endpoints[e], HeardNow(site, w, h, e))
  {
    if h.Handle? {
      RunHeard(site, w, TaskOf(h.p), h.member, Performed(site, w, h), e);
    } else {
      FilledNone(w.endpoints[e].failures, site.maxFailures);
    }
  }

  lemma {:induction false} AllHeard(site: Site, w: World, hs: seq<Happening>, e: nat)
    requires site.maxFailures > 0 && e in w.endpoints && Room(site, w.endpoints[e]) && Untouched(hs, e)
    ensures var w' := HappenAll(site, w, hs);
            e in w'.endpoints && Accounts(site, w.endpoints[e], w'.endpoints[e], Trail(site, w, hs, e))
    decreases |hs|
  {
    if hs == [] {
      FilledNone(w.endpoints[e].failures, site.maxFailures);
    } else {
      var mid := Happen(site, w, hs[0]);
      HappenHeard(site, w, hs[0], e);
      assert Untouched(hs[1..], e) by { assert forall i :: 0 <= i < |hs| - 1 ==> hs[1..][i] == hs[i + 1]; }
      AllHeard(site, mid, hs[1..], e);
      AccountsJoin(site, w.endpoints[e], mid.endpoints[e], HappenAll(site, mid, hs[1..]).endpoints[e],
                   HeardNow(site, w, hs[0], e), Trail(site, mid, hs[1..], e));
    }
  }

  /** As long as nobody edits it, an endpoint's count is the strikes since its last clear
      on top of what it started with, and it is disabled exactly once a strike has
      brought that to the threshold: by no strike before, and at the latest by that
      one. */
  lemma DisabledAtThreshold(site: Site, w: World, hs: seq<Happening>, e: nat)
    requires site.maxFailures > 0 && e in w.endpoints && Room(site, w.endpoints[e]) && Untouched(hs, e)
    ensures var (was, trail) := (w.endpoints[e], Trail(site, w, hs, e));
            && e in HappenAll(site, w, hs).endpoints
            && var now := HappenAll(site, w, hs).endpoints[e];
            && now.failures == Since(was.failures, trail)
            && (now.disabled <==>
                  was.disabled
                  || exists i :: 0 <= i < |trail| && trail[i].Strike? && Since(was.failures, trail[..i + 1]) == site.maxFailures)
  {
    AllHeard(site, w, hs, e);
    var (was, trail) := (w.endpoints[e], Trail(site, w, hs, e));
    if Filled(was.failures, trail, site.maxFailures) {
      var i: nat :| Fills(was.failures, trail, site.maxFailures, i);
    }
    if i :| 0 <= i < |trail| && trail[i].Strike? && Since(was.failures, trail[..i + 1]) == site.maxFailures {
      assert Fills(was.failures, trail, site.maxFailures, i);
    }
  }

  // ---- notices --------------------------------------------------------------------------

  predicate Ordinary(site: Site, t: Task) { t.DeliveryTask? && !site.operational(t.id) }

  /** 1 when a run of an ordinary delivery disables e. */
  function OrdinaryDisabling(site: Site, w: World, h: Happening, e: nat): nat {
    if h.Handle? && Ordinary(site, TaskOf(h.p)) then Disabling(w, Happen(site, w, h), e) else 0
  }

  function OrdinaryDisablings(site: Site, w: World, hs: seq<Happening>, e: nat): nat
    decreases |hs|
  {
    if hs == [] then 0
    else OrdinaryDisabling(site, w, hs[0], e) + OrdinaryDisablings(site, Happen(site, w, hs[0]), hs[1..], e)
  }

  lemma EffectNotices(site: Site, w: World, t: Task, member: Raw, eff: Effect, e: nat)
    ensures var w' := Perform(site, w, t, member, eff);
            && Notices(w'.published, e) == Notices(w.published, e) + (if Ordinary(site, t) then Disabling(w, w', e) else 0)
            && (Down(w, e) ==> Down(w', e))
  {
    var w' := Perform(site, w, t, member, eff);
    assert w'.published == w.published || w'.published == w.published + [w'.published[|w.published|]];
  }

  lemma {:induction false} RunNotices(site: Site, w: World, t: Task, member: Raw, es: seq<Effect>, e: nat)
    ensures var w' := PerformAll(site, w, t, member, es);
            && Notices(w'.published, e) == Notices(w.published, e) + (if Ordinary(site, t) then Disabling(w, w', e) else 0)
            && (Down(w, e) ==> Down(w', e))
    decreases |es|
  {
    if es != [] {
      RunNotices(site, w, t, member, es[..|es| - 1], e);
      EffectNotices(site, PerformAll(site, w, t, member, es[..|es| - 1]), t, member, es[|es| - 1], e);
    }
  }

  /** endpoint.disabled is published exactly once for each time an ordinary delivery
      disables the endpoint, edits or no edits, and never otherwise. */
  lemma {:induction false} NoticePerDisabling(site: Site, w: World, hs: seq<Happening>, e: nat)
    ensures Notices(HappenAll(site, w, hs).published, e) == Notices(w.published, e) + OrdinaryDisablings(site, w, hs, e)
    decreases |hs|
  {
    if hs != [] {
      var h := hs[0];
      if h.Handle? { RunNotices(site, w, TaskOf(h.p), h.member, Performed(site, w, h), e); }
      NoticePerDisabling(site, Happen(site, w, h), hs[1..], e);
    }
  }
}
