/** The usage sweep: recomputing the current period's counts from the tables, again and
    again, on any number of replicas. */
module Rollup {
  import opened QueueModel

  datatype Period = Day | Month
  datatype Metric = Events | Requests | Messages | Attempts

  const METRICS: seq<Metric> := [Events, Requests, Messages, Attempts]

  /** One metered row of the tables a metric is counted from. */
  datatype Fact = Fact(metric: Metric, org: Org, at: int, test: bool)

  /** quota_period: anything but "day" is a month. */
  function PeriodOf(column: string): Period { if column == "day" then Day else Month }

  /** The start of the period a time falls in, the same in Go and in SQL. */
  datatype Calendar = Calendar(start: (int, Period) -> int) {
    ghost predicate Valid() { forall t, p :: start(t, p) <= t }
  }

  datatype Bucket = Bucket(org: Org, start: int)
  datatype Key = Key(org: Org, start: int, metric: Metric)

  /** Test events are not metered; messages have no such flag, and carry false here. */
  predicate Metered(cal: Calendar, f: Fact, m: Metric, p: Period, after: int, b: Bucket) {
    f.metric == m && !f.test && f.at >= after && b == Bucket(f.org, cal.start(f.at, p))
  }

  function Matching(cal: Calendar, facts: seq<Fact>, m: Metric, p: Period, after: int, b: Bucket): nat {
    if facts == [] then 0
    else (if Metered(cal, facts[0], m, p, after, b) then 1 else 0) + Matching(cal, facts[1..], m, p, after, b)
  }

  function Buckets(cal: Calendar, facts: seq<Fact>, m: Metric, p: Period, after: int): set<Bucket> {
    set i | 0 <= i < |facts| && facts[i].metric == m && !facts[i].test && facts[i].at >= after
      :: Bucket(facts[i].org, cal.start(facts[i].at, p))
  }

  /** SELECT org, date_trunc(period, at), count(*) WHERE at >= after GROUP BY 1, 2. */
  function Query(cal: Calendar, facts: seq<Fact>, m: Metric, p: Period, after: int): map<Bucket, nat> {
    map b | b in Buckets(cal, facts, m, p, after) :: Matching(cal, facts, m, p, after, b)
  }

  /** What the count should be: everything metered for the org in that period. */
  function TrueCount(cal: Calendar, facts: seq<Fact>, m: Metric, p: Period, b: Bucket): nat {
    if facts == [] then 0
    else (if facts[0].metric == m && !facts[0].test && b == Bucket(facts[0].org, cal.start(facts[0].at, p)) then 1 else 0)
         + TrueCount(cal, facts[1..], m, p, b)
  }

  /** Reading from the start of the period misses nothing of that period. */
  lemma {:induction false} QueryIsTrue(cal: Calendar, facts: seq<Fact>, m: Metric, p: Period, b: Bucket)
    requires cal.Valid()
    ensures Matching(cal, facts, m, p, b.start, b) == TrueCount(cal, facts, m, p, b)
    decreases |facts|
  {
    if facts != [] {
      QueryIsTrue(cal, facts[1..], m, p, b);
      assert cal.start(facts[0].at, p) <= facts[0].at;
    }
  }

  function OrgsOn(quotas: map<Org, string>, p: Period): set<Org> { set o | o in quotas && PeriodOf(quotas[o]) == p }

  /** The rows of a query that are written: this period's orgs, the current bucket. */
  function Kept(rows: map<Bucket, nat>, m: Metric, after: int, members: set<Org>, among: set<Bucket>): map<Key, nat> {
    map b | b in among && b in rows && b.start == after && b.org in members :: Key(b.org, b.start, m) := rows[b]
  }

  lemma KeptOne(rows: map<Bucket, nat>, m: Metric, after: int, members: set<Org>, among: set<Bucket>, b: Bucket)
    requires b in rows && b !in among
    ensures Kept(rows, m, after, members, among + {b})
         == if b.start == after && b.org in members
            then Kept(rows, m, after, members, among)[Key(b.org, b.start, m) := rows[b]]
            else Kept(rows, m, after, members, among)
  {
    var (was, now) := (Kept(rows, m, after, members, among), Kept(rows, m, after, members, among + {b}));
    forall k ensures k in now <==> k in was || (k == Key(b.org, b.start, m) && b.start == after && b.org in members) {
      assert k in now <==> Bucket(k.org, k.start) in among + {b} && Bucket(k.org, k.start) in rows && k.start == after && k.org in members && k.metric == m;
      assert k in was <==> Bucket(k.org, k.start) in among && Bucket(k.org, k.start) in rows && k.start == after && k.org in members && k.metric == m;
    }
  }

  /** What one pass writes for one metric. */
  function Writes(cal: Calendar, facts: seq<Fact>, quotas: map<Org, string>, now: int, m: Metric, p: Period): map<Key, nat> {
    var after := cal.start(now, p);
    var rows := Query(cal, facts, m, p, after);
    Kept(rows, m, after, OrgsOn(quotas, p), rows.Keys)
  }

  function PeriodWrites(cal: Calendar, facts: seq<Fact>, quotas: map<Org, string>, now: int, p: Period, n: nat): map<Key, nat>
    requires n <= |METRICS|
  {
    if n == 0 then map[] else PeriodWrites(cal, facts, quotas, now, p, n - 1) + Writes(cal, facts, quotas, now, METRICS[n - 1], p)
  }

  function SweepWrites(cal: Calendar, facts: seq<Fact>, quotas: map<Org, string>, now: int): map<Key, nat> {
    PeriodWrites(cal, facts, quotas, now, Day, 4) + PeriodWrites(cal, facts, quotas, now, Month, 4)
  }

  /** usage_rollups, and the hot-path counters. */
  datatype Books = Books(rollups: map<Key, nat>, counters: map<Key, nat>)

  /** Replacing these counts, in Redis too when there is one. */
  function Write(b: Books, redis: bool, writes: map<Key, nat>): Books {
    Books(b.rollups + writes, if redis then b.counters + writes else b.counters)
  }

  function WriteOne(b: Books, redis: bool, k: Key, n: nat): Books {
    Books(b.rollups[k := n], if redis then b.counters[k := n] else b.counters)
  }

  lemma WriteMore(b: Books, redis: bool, writes: map<Key, nat>, k: Key, n: nat)
    ensures Write(b, redis, writes[k := n]) == WriteOne(Write(b, redis, writes), redis, k, n)
  {
    assert b.rollups + writes[k := n] == (b.rollups + writes)[k := n];
    assert b.counters + writes[k := n] == (b.counters + writes)[k := n];
  }

  lemma WriteTwice(b: Books, redis: bool, first: map<Key, nat>, second: map<Key, nat>)
    ensures Write(Write(b, redis, first), redis, second) == Write(b, redis, first + second)
    ensures Write(b, redis, map[]) == b
  {
    assert (b.rollups + first) + second == b.rollups + (first + second);
    assert (b.counters + first) + second == b.counters + (first + second);
    assert b.rollups + map[] == b.rollups && b.counters + map[] == b.counters;
  }

  class Usage {
    const cal: Calendar
    const redis: bool
    var rollups: map<Key, nat>
    var counters: map<Key, nat>

    function Now(): Books
      reads this
    {
      Books(rollups, counters)
    }

    constructor (cal: Calendar, redis: bool)
      ensures this.cal == cal && this.redis == redis && Now() == Books(map[], map[])
    {
      this.cal, this.redis, rollups, counters := cal, redis, map[], map[];
    }

    /** UpsertUsageRollup and SetCounter: the count replaces what was there. */
    method Upsert(k: Key, count: nat)
      modifies this
      ensures Now() == WriteOne(old(Now()), redis, k, count)
    {
      rollups := rollups[k := count];
      if redis { counters := counters[k := count]; }
    }

    method RollupMetric(facts: seq<Fact>, now: int, m: Metric, p: Period, members: set<Org>)
      modifies this
      ensures var rows := Query(cal, facts, m, p, cal.start(now, p));
              Now() == Write(old(Now()), redis, Kept(rows, m, cal.start(now, p), members, rows.Keys))
    {
      var after := cal.start(now, p);
      var rows := Query(cal, facts, m, p, after);
      ghost var before := Now();
      var left := rows.Keys;
      ghost var seen: set<Bucket> := {};
      WriteTwice(before, redis, map[], map[]);
      assert Kept(rows, m, after, members, seen) == map[];
      while left != {}
        invariant left !! seen && left + seen == rows.Keys
        invariant Now() == Write(before, redis, Kept(rows, m, after, members, seen))
        decreases left
      {
        var b :| b in left;
        KeptOne(rows, m, after, members, seen, b);
        WriteMore(before, redis, Kept(rows, m, after, members, seen), Key(b.org, b.start, m), rows[b]);
        left := left - {b};
        seen := seen + {b};
        if b.org !in members { continue; }
        if b.start != after { continue; }
        Upsert(Key(b.org, b.start, m), rows[b]);
      }
      assert seen == rows.Keys;
    }

    method RollupPeriod(facts: seq<Fact>, quotas: map<Org, string>, now: int, p: Period, members: set<Org>)
      requires members == OrgsOn(quotas, p)
      modifies this
      ensures Now() == Write(old(Now()), redis, PeriodWrites(cal, facts, quotas, now, p, 4))
    {
      ghost var before := Now();
      WriteTwice(before, redis, map[], map[]);
      for i := 0 to |METRICS|
        invariant Now() == Write(before, redis, PeriodWrites(cal, facts, quotas, now, p, i))
      {
        WriteTwice(before, redis, PeriodWrites(cal, facts, quotas, now, p, i), Writes(cal, facts, quotas, now, METRICS[i], p));
        RollupMetric(facts, now, METRICS[i], p, members);
      }
    }

    method GroupByPeriod(quotas: map<Org, string>) returns (byPeriod: map<Period, set<Org>>)
      ensures byPeriod.Keys == {Day, Month}
      ensures byPeriod[Day] == set o | o in quotas && quotas[o] == "day"
      ensures byPeriod[Month] == set o | o in quotas && quotas[o] != "day"
      ensures forall p :: p in byPeriod ==> byPeriod[p] == OrgsOn(quotas, p)
    {
      byPeriod := map[Day := {}, Month := {}];
      var left := quotas.Keys;
      while left != {}
        invariant left <= quotas.Keys && byPeriod.Keys == {Day, Month}
        invariant forall p :: p in byPeriod ==> byPeriod[p] == set o | o in OrgsOn(quotas, p) && o !in left
        decreases left
      {
        var o :| o in left;
        var p := PeriodOf(quotas[o]);
        byPeriod := byPeriod[p := byPeriod[p] + {o}];
        left := left - {o};
      }
    }

    /** One sweep: the orgs grouped by period, then one pass per period. */
    method RollupUsage(facts: seq<Fact>, quotas: map<Org, string>, now: int)
      modifies this
      ensures Now() == Write(old(Now()), redis, SweepWrites(cal, facts, quotas, now))
      ensures cal.Valid() ==> forall o :: o in quotas ==>
                Answered(cal, facts, now, if quotas[o] == "day" then Day else Month, o, redis, old(Now()), Now())
    {
      var byPeriod := GroupByPeriod(quotas);
      RollupPeriod(facts, quotas, now, Day, byPeriod[Day]);
      RollupPeriod(facts, quotas, now, Month, byPeriod[Month]);
      WriteTwice(old(Now()), redis, PeriodWrites(cal, facts, quotas, now, Day, 4), PeriodWrites(cal, facts, quotas, now, Month, 4));
      if cal.Valid() {
        forall o | o in quotas ensures Answered(cal, facts, now, if quotas[o] == "day" then Day else Month, o, redis, old(Now()), Now()) {
          SweptOrg(cal, facts, quotas, redis, now, old(Now()), o);
        }
      }
    }
  }

  // ---- what the sweeps converge to ---------------------------------------------------

  lemma {:induction false} CountedIff(cal: Calendar, facts: seq<Fact>, m: Metric, p: Period, b: Bucket)
    requires cal.Valid()
    ensures TrueCount(cal, facts, m, p, b) > 0 <==> b in Buckets(cal, facts, m, p, b.start)
    decreases |facts|
  {
    if facts != [] {
      var rest := facts[1..];
      CountedIff(cal, rest, m, p, b);
      assert cal.start(facts[0].at, p) <= facts[0].at;
      if b in Buckets(cal, rest, m, p, b.start) {
        var i :| 0 <= i < |rest| && rest[i].metric == m && !rest[i].test && rest[i].at >= b.start && b == Bucket(rest[i].org, cal.start(rest[i].at, p));
        assert facts[i + 1] == rest[i];
      }
      if b in Buckets(cal, facts, m, p, b.start) {
        var i :| 0 <= i < |facts| && facts[i].metric == m && !facts[i].test && facts[i].at >= b.start && b == Bucket(facts[i].org, cal.start(facts[i].at, p));
        if i > 0 { assert rest[i - 1] == facts[i]; }
      }
    }
  }

  /** The org's own current bucket, and something to count in it. */
  ghost predicate Current(cal: Calendar, facts: seq<Fact>, quotas: map<Org, string>, now: int, k: Key) {
    && k.org in quotas
    && var p := if quotas[k.org] == "day" then Day else Month;
    && k.start == cal.start(now, p)
    && TrueCount(cal, facts, k.metric, p, Bucket(k.org, k.start)) > 0
  }

  lemma WritesExact(cal: Calendar, facts: seq<Fact>, quotas: map<Org, string>, now: int, m: Metric, p: Period, k: Key)
    requires cal.Valid()
    ensures var w := Writes(cal, facts, quotas, now, m, p);
            && (k in w <==> Current(cal, facts, quotas, now, k) && k.metric == m && PeriodOf(quotas[k.org]) == p)
            && (k in w ==> w[k] == TrueCount(cal, facts, m, p, Bucket(k.org, k.start)))
  {
    var b := Bucket(k.org, k.start);
    CountedIff(cal, facts, m, p, b);
    QueryIsTrue(cal, facts, m, p, b);
    var w := Writes(cal, facts, quotas, now, m, p);
    var rows := Query(cal, facts, m, p, cal.start(now, p));
    assert k in w <==> b in rows && k.start == cal.start(now, p) && k.org in OrgsOn(quotas, p) && k.metric == m;
  }

  lemma {:induction false} PeriodExact(cal: Calendar, facts: seq<Fact>, quotas: map<Org, string>, now: int, p: Period, n: nat, k: Key)
    requires cal.Valid() && n <= |METRICS|
    ensures var w := PeriodWrites(cal, facts, quotas, now, p, n);
            && (k in w <==> Current(cal, facts, quotas, now, k) && k.metric in METRICS[..n] && PeriodOf(quotas[k.org]) == p)
            && (k in w ==> w[k] == TrueCount(cal, facts, k.metric, p, Bucket(k.org, k.start)))
  {
    if n > 0 {
      PeriodExact(cal, facts, quotas, now, p, n - 1, k);
      WritesExact(cal, facts, quotas, now, METRICS[n - 1], p, k);
      assert METRICS[..n] == METRICS[..n - 1] + [METRICS[n - 1]];
    }
  }

  /** A sweep writes exactly the current bucket of each org, on that org's own period
      and no other, where there is something to count, and writes the true count. */
  lemma SweepExact(cal: Calendar, facts: seq<Fact>, quotas: map<Org, string>, now: int, k: Key)
    requires cal.Valid()
    ensures var w := SweepWrites(cal, facts, quotas, now);
            && (k in w <==> Current(cal, facts, quotas, now, k))
            && (k in w ==> w[k] == TrueCount(cal, facts, k.metric, if quotas[k.org] == "day" then Day else Month, Bucket(k.org, k.start)))
  {
    PeriodExact(cal, facts, quotas, now, Day, 4, k);
    PeriodExact(cal, facts, quotas, now, Month, 4, k);
    assert METRICS[..4] == METRICS;
    assert k.metric in METRICS by {
      match k.metric {
        case Events => assert METRICS[0] == k.metric;
        case Requests => assert METRICS[1] == k.metric;
        case Messages => assert METRICS[2] == k.metric;
        case Attempts => assert METRICS[3] == k.metric;
      }
    }
  }

  predicate SameAt(m: map<Key, nat>, m': map<Key, nat>, k: Key) {
    (k in m' <==> k in m) && (k in m ==> m'[k] == m[k])
  }

  /** An org's books after a sweep on this period: its current bucket holds the true count
      of each metric that has anything to count, in Redis too when there is one, and no
      other bucket of the org has changed. */
  ghost predicate Answered(cal: Calendar, facts: seq<Fact>, now: int, p: Period, o: Org, redis: bool, b: Books, b': Books) {
    forall k: Key :: k.org == o ==>
      var count := TrueCount(cal, facts, k.metric, p, Bucket(o, k.start));
      if k.start == cal.start(now, p) && count > 0
      then k in b'.rollups && b'.rollups[k] == count && (if redis then k in b'.counters && b'.counters[k] == count else SameAt(b.counters, b'.counters, k))
      else SameAt(b.rollups, b'.rollups, k) && SameAt(b.counters, b'.counters, k)
  }

  /** One sweep, org by org: an org whose column says "day" is counted by the day, any
      other by the month, and an org that is not known not at all. */
  lemma SweptOrg(cal: Calendar, facts: seq<Fact>, quotas: map<Org, string>, redis: bool, now: int, b: Books, o: Org)
    requires cal.Valid()
    ensures var b' := Write(b, redis, SweepWrites(cal, facts, quotas, now));
            && (o in quotas && quotas[o] == "day" ==> Answered(cal, facts, now, Day, o, redis, b, b'))
            && (o in quotas && quotas[o] != "day" ==> Answered(cal, facts, now, Month, o, redis, b, b'))
            && (o !in quotas ==> forall k: Key :: k.org == o ==> SameAt(b.rollups, b'.rollups, k) && SameAt(b.counters, b'.counters, k))
  {
    var b' := Write(b, redis, SweepWrites(cal, facts, quotas, now));
    if o in quotas {
      var p := if quotas[o] == "day" then Day else Month;
      forall k: Key | k.org == o
        ensures var count := TrueCount(cal, facts, k.metric, p, Bucket(o, k.start));
                if k.start == cal.start(now, p) && count > 0
                then k in b'.rollups && b'.rollups[k] == count && (if redis then k in b'.counters && b'.counters[k] == count else SameAt(b.counters, b'.counters, k))
                else SameAt(b.rollups, b'.rollups, k) && SameAt(b.counters, b'.counters, k)
      {
        SweepExact(cal, facts, quotas, now, k);
      }
    } else {
      forall k: Key | k.org == o ensures SameAt(b.rollups, b'.rollups, k) && SameAt(b.counters, b'.counters, k) {
        SweepExact(cal, facts, quotas, now, k);
      }
    }
  }

  /** One of the two calls a replica makes for a bucket: the upsert of the row, and then,
      if it has a Redis, the SET of the counter. */
  datatype Stroke = RowStroke(k: Key, count: nat) | CounterStroke(k: Key, count: nat)

  function Struck(b: Books, strokes: seq<Stroke>): Books
    decreases |strokes|
  {
    if strokes == [] then b else
      var b' := Struck(b, strokes[..|strokes| - 1]);
      match strokes[|strokes| - 1]
      case RowStroke(k, n) => b'.(rollups := b'.rollups[k := n])
      case CounterStroke(k, n) => b'.(counters := b'.counters[k := n])
  }

  /** Every call comes from the sweep of a replica whose clock is in this period. */
  ghost predicate FromSweeps(cal: Calendar, facts: seq<Fact>, quotas: map<Org, string>, now: int, strokes: seq<Stroke>) {
    forall s :: s in strokes ==> exists other :: StruckAt(cal, facts, quotas, now, other, s)
  }

  ghost predicate StruckAt(cal: Calendar, facts: seq<Fact>, quotas: map<Org, string>, now: int, other: int, s: Stroke) {
    && (forall p :: cal.start(other, p) == cal.start(now, p))
    && s.k in SweepWrites(cal, facts, quotas, other)
    && s.count == SweepWrites(cal, facts, quotas, other)[s.k]
  }

  lemma SamePeriodSameCount(cal: Calendar, facts: seq<Fact>, quotas: map<Org, string>, now: int, other: int, s: Stroke)
    requires cal.Valid() && StruckAt(cal, facts, quotas, now, other, s)
    ensures s.k in SweepWrites(cal, facts, quotas, now) && s.count == SweepWrites(cal, facts, quotas, now)[s.k]
  {
    SweepExact(cal, facts, quotas, now, s.k);
    SweepExact(cal, facts, quotas, other, s.k);
    assert cal.start(other, PeriodOf(quotas[s.k.org])) == cal.start(now, PeriodOf(quotas[s.k.org]));
  }

  function Rows(strokes: seq<Stroke>): set<Key> { set s | s in strokes && s.RowStroke? :: s.k }

  function Counters(strokes: seq<Stroke>): set<Key> { set s | s in strokes && s.CounterStroke? :: s.k }

  ghost predicate Within(w: map<Key, nat>, strokes: seq<Stroke>) {
    forall s :: s in strokes ==> s.k in w && s.count == w[s.k]
  }

  function Part(w: map<Key, nat>, keys: set<Key>): map<Key, nat> { map k | k in w && k in keys :: w[k] }

  lemma PartGrows(m: map<Key, nat>, w: map<Key, nat>, keys: set<Key>, k: Key)
    requires k in w
    ensures m + Part(w, keys + {k}) == (m + Part(w, keys))[k := w[k]]
  {
    assert Part(w, keys + {k}) == Part(w, keys)[k := w[k]];
  }

  lemma PartNone(m: map<Key, nat>, w: map<Key, nat>)
    ensures m + Part(w, {}) == m
  {
    assert Part(w, {}) == map[];
  }

  lemma StrokeSets(strokes: seq<Stroke>)
    requires strokes != []
    ensures var (init, s) := (strokes[..|strokes| - 1], strokes[|strokes| - 1]);
            && Rows(strokes) == Rows(init) + (if s.RowStroke? then {s.k} else {})
            && Counters(strokes) == Counters(init) + (if s.CounterStroke? then {s.k} else {})
  {
    assert strokes == strokes[..|strokes| - 1] + [strokes[|strokes| - 1]];
  }

  /** In between: each table holds the true counts where it has been struck, and what it
      held elsewhere. */
  lemma {:induction false} StrokesPartial(w: map<Key, nat>, b: Books, strokes: seq<Stroke>)
    requires Within(w, strokes)
    ensures Struck(b, strokes) == Books(b.rollups + Part(w, Rows(strokes)), b.counters + Part(w, Counters(strokes)))
    decreases |strokes|
  {
    if strokes == [] {
      PartNone(b.rollups, w);
      PartNone(b.counters, w);
      assert Rows(strokes) == {} && Counters(strokes) == {};
    } else {
      var (init, s) := (strokes[..|strokes| - 1], strokes[|strokes| - 1]);
      StrokeSets(strokes);
      StrokesPartial(w, b, init);
      PartGrows(b.rollups, w, Rows(init), s.k);
      PartGrows(b.counters, w, Counters(init), s.k);
      assert Rows(init) + {} == Rows(init) && Counters(init) + {} == Counters(init);
    }
  }

  lemma AllTouched(w: map<Key, nat>, redis: bool, b: Books, strokes: seq<Stroke>)
    requires Within(w, strokes) && w.Keys <= Rows(strokes)
    requires if redis then w.Keys <= Counters(strokes) else Counters(strokes) == {}
    ensures Struck(b, strokes) == Write(b, redis, w)
  {
    StrokesPartial(w, b, strokes);
    assert Part(w, Rows(strokes)) == w;
    if redis { assert Part(w, Counters(strokes)) == w; } else { PartNone(b.counters, w); }
  }

  /** Convergence: on tables at rest, the two calls of every bucket of any number of
      sweeps, on any replicas in one period, with or without a Redis, interleaved and
      repeated in any order, leave what one sweep leaves, as soon as every row and
      every counter has been written once. */
  lemma SweepsConverge(cal: Calendar, facts: seq<Fact>, quotas: map<Org, string>, redis: bool, now: int, b: Books, strokes: seq<Stroke>)
    requires cal.Valid() && FromSweeps(cal, facts, quotas, now, strokes)
    requires SweepWrites(cal, facts, quotas, now).Keys <= Rows(strokes)
    requires if redis then SweepWrites(cal, facts, quotas, now).Keys <= Counters(strokes) else Counters(strokes) == {}
    ensures Struck(b, strokes) == Write(b, redis, SweepWrites(cal, facts, quotas, now))
  {
    var w := SweepWrites(cal, facts, quotas, now);
    assert Within(w, strokes) by {
      forall s | s in strokes ensures s.k in w && s.count == w[s.k] {
        var other :| StruckAt(cal, facts, quotas, now, other, s);
        SamePeriodSameCount(cal, facts, quotas, now, other, s);
      }
    }
    AllTouched(w, redis, b, strokes);
  }

  /** A sweep leaves every other row alone: closed periods, periods of the other
      length, unknown orgs, and current buckets with nothing to count. */
  lemma OthersKept(cal: Calendar, facts: seq<Fact>, quotas: map<Org, string>, redis: bool, now: int, b: Books, k: Key)
    requires cal.Valid()
    ensures var b' := Write(b, redis, SweepWrites(cal, facts, quotas, now));
            var p := if k.org in quotas && quotas[k.org] == "day" then Day else Month;
            var count := TrueCount(cal, facts, k.metric, p, Bucket(k.org, k.start));
            if k.org in quotas && k.start == cal.start(now, p) && count > 0
            then k in b'.rollups && b'.rollups[k] == count && (redis ==> k in b'.counters && b'.counters[k] == count)
            else (k in b'.rollups <==> k in b.rollups) && (k in b.rollups ==> b'.rollups[k] == b.rollups[k])
  {
    SweepExact(cal, facts, quotas, now, k);
  }
}
