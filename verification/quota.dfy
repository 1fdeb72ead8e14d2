/** The quota gate: a cached table of limits, a live counter per period, and one alert
    per tier. */
module Quota {
  import opened QueueModel

  datatype Metric = Events | Messages

  datatype Limits = Limits(eventsSoft: int, eventsHard: int, messagesSoft: int, messagesHard: int, period: string)

  /** What a lookup that misses answers. */
  const UNLIMITED := Limits(0, 0, 0, 0, "")

  datatype Decision = Allow | OverSoft | OverHard

  function Check(count: int, soft: int, hard: int): Decision {
    if hard > 0 && count >= hard then OverHard
    else if soft > 0 && count >= soft then OverSoft
    else Allow
  }

  function Soft(lim: Limits, m: Metric): int { if m.Events? then lim.eventsSoft else lim.messagesSoft }
  function Hard(lim: Limits, m: Metric): int { if m.Events? then lim.eventsHard else lim.messagesHard }

  datatype CounterKey = CounterKey(org: Org, metric: Metric, start: int)
  datatype Latch = Latch(key: CounterKey, tier: Decision)

  /** The Redis side: counters, latches, and the alerts published. */
  datatype Meters = Meters(counters: map<CounterKey, int>, latches: set<Latch>, alerts: seq<Latch>)

  datatype Request = Request(org: Org, metric: Metric, now: int)

  /** periodStart truncates a time to the start of its quota period. */
  type Calendar = (int, string) -> int

  function CountAt(m: Meters, k: CounterKey): int { if k in m.counters then m.counters[k] else 0 }

  /** One latch per tier and period: only the first request over it alerts. */
  function Alerted(m: Meters, l: Latch): Meters {
    if l.tier.Allow? || l in m.latches then m
    else m.(latches := m.latches + {l}, alerts := m.alerts + [l])
  }

  function KeyOf(start: Calendar, lim: Limits, r: Request): CounterKey {
    CounterKey(r.org, r.metric, start(r.now, lim.period))
  }

  /** One request against one org's limits. An org without limits costs nothing. */
  function Metered(start: Calendar, lim: Limits, m: Meters, r: Request): (Meters, Decision) {
    var (soft, hard) := (Soft(lim, r.metric), Hard(lim, r.metric));
    if soft == 0 && hard == 0 then (m, Allow) else
      var k := KeyOf(start, lim, r);
      var n := CountAt(m, k) + 1;
      var d := Check(n, soft, hard);
      (Alerted(m.(counters := m.counters[k := n]), Latch(k, d)), d)
  }

  // ---- the cached table ------------------------------------------------------------

  datatype QuotaRow = QuotaRow(org: Org, limits: Limits)

  predicate Blank(lim: Limits) {
    lim.eventsSoft == 0 && lim.eventsHard == 0 && lim.messagesSoft == 0 && lim.messagesHard == 0
  }

  /** The rows of the organizations table: one per org. */
  predicate OneRowEach(rows: seq<QuotaRow>) {
    forall i, j :: 0 <= i < j < |rows| ==> rows[i].org != rows[j].org
  }

  /** Asking the table itself. */
  function Direct(rows: seq<QuotaRow>, org: Org): Limits {
    if rows == [] then UNLIMITED
    else if rows[|rows| - 1].org == org then rows[|rows| - 1].limits
    else Direct(rows[..|rows| - 1], org)
  }

  function Cached(snap: map<Org, Limits>, org: Org): Limits { if org in snap then snap[org] else UNLIMITED }

  function Snapshot(rows: seq<QuotaRow>): map<Org, Limits> {
    if rows == [] then map[] else
      var (rest, r) := (Snapshot(rows[..|rows| - 1]), rows[|rows| - 1]);
      if Blank(r.limits) then rest else rest[r.org := r.limits]
  }

  lemma {:induction false} Known(rows: seq<QuotaRow>, org: Org)
    requires OneRowEach(rows)
    ensures if org in Snapshot(rows) then Snapshot(rows)[org] == Direct(rows, org) else Blank(Direct(rows, org))
    ensures org in Snapshot(rows) || Direct(rows, org) != UNLIMITED ==> exists i :: 0 <= i < |rows| && rows[i].org == org
    decreases |rows|
  {
    if rows != [] {
      var n := |rows| - 1;
      Known(rows[..n], org);
      if i :| 0 <= i < n && rows[..n][i].org == org { assert rows[i].org == org; }
      assert rows[n].org == org || rows[n].org != org;
    }
  }

  /** Leaving the all-zero orgs out of the snapshot changes nothing: every request
      moves the same counters, trips the same latches and gets the same decision as
      if its org's row had been read. */
  lemma SnapshotFaithful(start: Calendar, rows: seq<QuotaRow>, m: Meters, r: Request)
    requires OneRowEach(rows)
    ensures Metered(start, Cached(Snapshot(rows), r.org), m, r) == Metered(start, Direct(rows, r.org), m, r)
  {
    Known(rows, r.org);
  }

  class Gate {
    const start: Calendar
    var snap: Option<map<Org, Limits>>
    var counters: map<CounterKey, int>
    var latches: set<Latch>
    var alerts: seq<Latch>

    function Now(): Meters
      reads this
    {
      Meters(counters, latches, alerts)
    }

    constructor (start: Calendar)
      ensures this.start == start && snap == None && Now() == Meters(map[], {}, [])
    {
      this.start, snap := start, None;
      counters, latches, alerts := map[], {}, [];
    }

    method Reload(rows: seq<QuotaRow>)
      modifies this`snap
      ensures snap == Some(Snapshot(rows))
    {
      var limits: map<Org, Limits> := map[];
      for i := 0 to |rows|
        invariant limits == Snapshot(rows[..i])
      {
        assert rows[..i + 1][..i] == rows[..i];
        if Blank(rows[i].limits) { continue; }
        limits := limits[rows[i].org := rows[i].limits];
      }
      assert rows[..|rows|] == rows;
      snap := Some(limits);
    }

    function LimitsOf(org: Org): Limits
      reads this
    {
      match snap
      case None => UNLIMITED
      case Some(limits) => Cached(limits, org)
    }

    method Alert(k: CounterKey, d: Decision)
      modifies this`latches, this`alerts
      ensures Now() == Alerted(old(Now()), Latch(k, d))
    {
      if d.Allow? { return; }
      var latch := Latch(k, d);
      if latch in latches { return; }
      latches := latches + {latch};
      alerts := alerts + [latch];
    }

    method CheckRequest(r: Request) returns (d: Decision)
      modifies this`counters, this`latches, this`alerts
      ensures (Now(), d) == Metered(start, LimitsOf(r.org), old(Now()), r)
    {
      var lim := LimitsOf(r.org);
      var soft, hard := lim.eventsSoft, lim.eventsHard;
      if r.metric.Messages? { soft, hard := lim.messagesSoft, lim.messagesHard; }
      if soft == 0 && hard == 0 { return Allow; }
      var k := CounterKey(r.org, r.metric, start(r.now, lim.period));
      var n := (if k in counters then counters[k] else 0) + 1;
      counters := counters[k := n];
      d := Check(n, soft, hard);
      if d != Allow { Alert(k, d); }
    }
  }

  // ---- runs of requests -----------------------------------------------------------------

  function MeterAll(start: Calendar, limits: Org -> Limits, m: Meters, rs: seq<Request>): Meters
    decreases |rs|
  {
    if rs == [] then m else MeterAll(start, limits, Metered(start, limits(rs[0].org), m, rs[0]).0, rs[1..])
  }

  /** The decisions on one counter's requests, in order, whatever else comes between. */
  function Decisions(start: Calendar, limits: Org -> Limits, m: Meters, rs: seq<Request>, k: CounterKey): seq<Decision>
    decreases |rs|
  {
    if rs == [] then [] else
      var (m', d) := Metered(start, limits(rs[0].org), m, rs[0]);
      (if KeyOf(start, limits(rs[0].org), rs[0]) == k then [d] else []) + Decisions(start, limits, m', rs[1..], k)
  }

  function Tally(ds: seq<Decision>, d: Decision): nat { multiset(ds)[d] }

  /** What the j-th request on the counter is told, its count starting from n. */
  ghost predicate Ranked(ds: seq<Decision>, n: int, soft: int, hard: int) {
    forall j :: 0 <= j < |ds| ==> ds[j] == Check(n + j + 1, soft, hard)
  }

  lemma RankedCons(d: Decision, rest: seq<Decision>, n: int, soft: int, hard: int)
    requires d == Check(n + 1, soft, hard) && Ranked(rest, n + 1, soft, hard)
    ensures Ranked([d] + rest, n, soft, hard)
  {
    forall j | 0 <= j < |rest| + 1 ensures ([d] + rest)[j] == Check(n + j + 1, soft, hard) {
      if j > 0 { assert rest[j - 1] == Check(n + 1 + (j - 1) + 1, soft, hard); }
    }
  }

  lemma {:induction false} Counting(start: Calendar, limits: Org -> Limits, m: Meters, rs: seq<Request>, k: CounterKey)
    requires var lim := limits(k.org); Soft(lim, k.metric) != 0 || Hard(lim, k.metric) != 0
    ensures Ranked(Decisions(start, limits, m, rs, k), CountAt(m, k), Soft(limits(k.org), k.metric), Hard(limits(k.org), k.metric))
    decreases |rs|
  {
    if rs != [] {
      var lim := limits(rs[0].org);
      var (m', d) := Metered(start, lim, m, rs[0]);
      Counting(start, limits, m', rs[1..], k);
      if KeyOf(start, lim, rs[0]) == k {
        RankedCons(d, Decisions(start, limits, m', rs[1..], k), CountAt(m, k), Soft(lim, k.metric), Hard(lim, k.metric));
      } else {
        assert [] + Decisions(start, limits, m', rs[1..], k) == Decisions(start, limits, m', rs[1..], k);
      }
    }
  }

  function Min(a: int, b: int): int { if a < b then a else b }

  lemma {:induction false} LadderTally(ds: seq<Decision>, soft: int, hard: int)
    requires 0 < soft < hard
    requires Ranked(ds, 0, soft, hard)
    ensures Tally(ds, Allow) == Min(|ds|, soft - 1)
    ensures Tally(ds, Allow) + Tally(ds, OverSoft) == Min(|ds|, hard - 1)
    ensures Tally(ds, Allow) + Tally(ds, OverSoft) + Tally(ds, OverHard) == |ds|
    decreases |ds|
  {
    if ds != [] {
      var n := |ds| - 1;
      LadderTally(ds[..n], soft, hard);
      assert ds == ds[..n] + [ds[n]];
    }
  }

  /** The ladder: of the n requests on a fresh counter, interleaved with any others,
      the first soft-1 are allowed, the next up to hard-1 warned, the rest refused;
      exactly min(n, hard-1) get in. */
  lemma Ladder(start: Calendar, limits: Org -> Limits, m: Meters, rs: seq<Request>, k: CounterKey)
    requires var lim := limits(k.org); 0 < Soft(lim, k.metric) < Hard(lim, k.metric)
    requires CountAt(m, k) == 0
    ensures var ds := Decisions(start, limits, m, rs, k);
            var lim := limits(k.org);
            var (soft, hard) := if k.metric == Events then (lim.eventsSoft, lim.eventsHard) else (lim.messagesSoft, lim.messagesHard);
            && (forall j :: 0 <= j < |ds| ==>
                  ds[j] == if j < soft - 1 then Allow else if j < hard - 1 then OverSoft else OverHard)
            && Tally(ds, Allow) == Min(|ds|, soft - 1)
            && Tally(ds, Allow) + Tally(ds, OverSoft) == Min(|ds|, hard - 1)
            && Tally(ds, OverHard) == |ds| - Min(|ds|, hard - 1)
  {
    Counting(start, limits, m, rs, k);
    LadderTally(Decisions(start, limits, m, rs, k), Soft(limits(k.org), k.metric), Hard(limits(k.org), k.metric));
  }

  ghost predicate Latched(m: Meters) {
    && (forall i :: 0 <= i < |m.alerts| ==> m.alerts[i] in m.latches)
    && (forall i, j :: 0 <= i < j < |m.alerts| ==> m.alerts[i] != m.alerts[j])
  }

  /** However many requests are over a limit, each tier of each counter alerts at most
      once. */
  lemma {:induction false} AlertsOnce(start: Calendar, limits: Org -> Limits, m: Meters, rs: seq<Request>)
    requires Latched(m)
    ensures Latched(MeterAll(start, limits, m, rs))
    decreases |rs|
  {
    if rs != [] { AlertsOnce(start, limits, Metered(start, limits(rs[0].org), m, rs[0]).0, rs[1..]); }
  }

  // ---- every shape of limits, and every alert -------------------------------------------

  /** The ladder for an org with one limit, or with a soft one no lower than its hard one:
      a counter without a hard limit never refuses, one without a soft limit below the
      hard one never warns. */
  lemma AnyLadder(start: Calendar, limits: Org -> Limits, m: Meters, rs: seq<Request>, k: CounterKey)
    requires CountAt(m, k) == 0
    requires var lim := limits(k.org); 0 <= Soft(lim, k.metric) && 0 <= Hard(lim, k.metric) && Soft(lim, k.metric) + Hard(lim, k.metric) > 0
    ensures var ds := Decisions(start, limits, m, rs, k);
            var lim := limits(k.org);
            var (soft, hard) := if k.metric == Events then (lim.eventsSoft, lim.eventsHard) else (lim.messagesSoft, lim.messagesHard);
            && (hard == 0 ==> forall j :: 0 <= j < |ds| ==> ds[j] == if j < soft - 1 then Allow else OverSoft)
            && (soft == 0 ==> forall j :: 0 <= j < |ds| ==> ds[j] == if j < hard - 1 then Allow else OverHard)
            && (soft >= hard > 0 ==> forall j :: 0 <= j < |ds| ==> ds[j] == if j < hard - 1 then Allow else OverHard)
  {
    Counting(start, limits, m, rs, k);
  }

  /** A tier is latched by the decisions that reach it, and by nothing else. */
  lemma {:induction false} LatchedBy(start: Calendar, limits: Org -> Limits, m: Meters, rs: seq<Request>, k: CounterKey, d: Decision)
    requires !d.Allow?
    ensures Latch(k, d) in MeterAll(start, limits, m, rs).latches
       <==> Latch(k, d) in m.latches || d in Decisions(start, limits, m, rs, k)
    decreases |rs|
  {
    if rs != [] { LatchedBy(start, limits, Metered(start, limits(rs[0].org), m, rs[0]).0, rs[1..], k, d); }
  }

  ghost predicate AllAlerted(m: Meters) { Latched(m) && forall l :: l in m.latches ==> l in m.alerts }

  lemma {:induction false} AlertsForLatches(start: Calendar, limits: Org -> Limits, m: Meters, rs: seq<Request>)
    requires AllAlerted(m)
    ensures AllAlerted(MeterAll(start, limits, m, rs))
    decreases |rs|
  {
    if rs != [] {
      OneAlert(start, limits(rs[0].org), m, rs[0]);
      AlertsForLatches(start, limits, Metered(start, limits(rs[0].org), m, rs[0]).0, rs[1..]);
    }
  }

  lemma OneAlert(start: Calendar, lim: Limits, m: Meters, r: Request)
    requires AllAlerted(m)
    ensures AllAlerted(Metered(start, lim, m, r).0)
  {
    var m' := Metered(start, lim, m, r).0;
    forall l | l in m'.latches ensures l in m'.alerts {
      if l in m.latches {
        var i :| 0 <= i < |m.alerts| && m.alerts[i] == l;
        assert m'.alerts[i] == l;
      } else {
        assert m'.alerts[|m'.alerts| - 1] == l;
      }
    }
  }

  lemma {:induction false} OnceIn<T>(l: seq<T>, x: T)
    requires forall i, j :: 0 <= i < j < |l| ==> l[i] != l[j]
    ensures multiset(l)[x] == if x in l then 1 else 0
    decreases |l|
  {
    if l != [] {
      var n := |l| - 1;
      OnceIn(l[..n], x);
      assert l == l[..n] + [l[n]];
    }
  }

  lemma TiersReached(ds: seq<Decision>, soft: int, hard: int)
    requires Ranked(ds, 0, soft, hard)
    ensures OverSoft in ds <==> 0 < soft <= |ds| && (hard <= 0 || soft < hard)
    ensures OverHard in ds <==> 0 < hard <= |ds|
  {
    if 0 < hard <= |ds| { assert ds[hard - 1] == Check(0 + (hard - 1) + 1, soft, hard); }
    if 0 < soft <= |ds| { assert ds[soft - 1] == Check(0 + (soft - 1) + 1, soft, hard); }
    if OverSoft in ds { var j :| 0 <= j < |ds| && ds[j] == OverSoft; }
    if OverHard in ds { var j :| 0 <= j < |ds| && ds[j] == OverHard; }
  }

  /** Of n requests on a counter, from meters at zero and among any others, the soft tier
      alerts exactly once if n reaches the soft limit and that is below the hard one, the
      hard tier exactly once if n reaches the hard limit, and otherwise not at all. */
  lemma AlertsExactly(start: Calendar, limits: Org -> Limits, rs: seq<Request>, k: CounterKey)
    requires var lim := limits(k.org); Soft(lim, k.metric) != 0 || Hard(lim, k.metric) != 0
    ensures var zero := Meters(map[], {}, []);
            var n := |Decisions(start, limits, zero, rs, k)|;
            var lim := limits(k.org);
            var (soft, hard) := if k.metric == Events then (lim.eventsSoft, lim.eventsHard) else (lim.messagesSoft, lim.messagesHard);
            var alerts := multiset(MeterAll(start, limits, zero, rs).alerts);
            && alerts[Latch(k, OverSoft)] == (if 0 < soft <= n && (hard <= 0 || soft < hard) then 1 else 0)
            && alerts[Latch(k, OverHard)] == (if 0 < hard <= n then 1 else 0)
  {
    var zero := Meters(map[], {}, []);
    var (soft, hard) := (Soft(limits(k.org), k.metric), Hard(limits(k.org), k.metric));
    var end := MeterAll(start, limits, zero, rs);
    Counting(start, limits, zero, rs, k);
    TiersReached(Decisions(start, limits, zero, rs, k), soft, hard);
    LatchedBy(start, limits, zero, rs, k, OverSoft);
    LatchedBy(start, limits, zero, rs, k, OverHard);
    AlertsForLatches(start, limits, zero, rs);
    OnceIn(end.alerts, Latch(k, OverSoft));
    OnceIn(end.alerts, Latch(k, OverHard));
    assert forall l :: l in end.alerts <==> l in end.latches;
  }

  /** The requests on an org's metric in the period that starts then. */
  function Asked(start: Calendar, limits: Org -> Limits, rs: seq<Request>, org: Org, metric: Metric, since: int): nat {
    if rs == [] then 0
    else (if rs[0].org == org && rs[0].metric == metric && start(rs[0].now, limits(org).period) == since then 1 else 0)
         + Asked(start, limits, rs[1..], org, metric, since)
  }

  /** Every counter counts its own org's requests for its own metric in its own period,
      and nothing else; those of an org without limits for the metric are not counted. */
  lemma {:induction false} CountersExact(start: Calendar, limits: Org -> Limits, m: Meters, rs: seq<Request>, org: Org, metric: Metric, since: int)
    ensures var lim := limits(org);
            var limited := if metric == Events then lim.eventsSoft != 0 || lim.eventsHard != 0 else lim.messagesSoft != 0 || lim.messagesHard != 0;
            var k := CounterKey(org, metric, since);
            CountAt(MeterAll(start, limits, m, rs), k) == CountAt(m, k) + if limited then Asked(start, limits, rs, org, metric, since) else 0
    decreases |rs|
  {
    if rs != [] { CountersExact(start, limits, Metered(start, limits(rs[0].org), m, rs[0]).0, rs[1..], org, metric, since); }
  }
}
