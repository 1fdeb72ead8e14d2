/** Retry backoff: durations are integer nanoseconds, the float intermediates are
    reals, and the one random draw is a parameter in [0, 1). */
module Backoff {

  const MS := 1_000_000
  const SECOND := 1_000 * MS
  const HOUR := 3_600 * SECOND
  const YEAR_MS := 365 * 24 * 60 * 60 * 1000

  datatype Strategy = Linear | Fixed | Custom | Exponential

  /** The retry columns of a connection. `schedule` is the decoded custom schedule in
      milliseconds, empty when it is absent, malformed or an empty list. */
  datatype Policy = Policy(strategy: Strategy, baseMs: int, capMs: int, jitterPct: int, schedule: seq<int>)

  predicate Int32(x: int) { -0x8000_0000 <= x < 0x8000_0000 }
  predicate Int64(x: int) { -0x8000_0000_0000_0000 <= x < 0x8000_0000_0000_0000 }

  predicate Stored(c: Policy) { Int32(c.baseMs) && Int32(c.capMs) && Int32(c.jitterPct) }

  function Base(c: Policy): int { if c.baseMs * MS <= 0 then SECOND else c.baseMs * MS }
  function Cap(c: Policy): int { if c.capMs * MS <= 0 then HOUR else c.capMs * MS }

  function Pow2(n: int): real
    decreases if n < 0 then -n else n
  {
    if n == 0 then 1.0 else if n > 0 then 2.0 * Pow2(n - 1) else Pow2(n + 1) / 2.0
  }

  /** A float converted to an integer type drops its fraction. */
  function Trunc(x: real): int { if x >= 0.0 then x.Floor else -((-x).Floor) }

  function ClampToCap(ns: real, cap: int): int {
    if ns >= cap as real then cap else if ns <= 0.0 then 0 else Trunc(ns)
  }

  function Min(a: int, b: int): int { if a < b then a else b }

  function CustomDelay(schedule: seq<int>, attempt: int, fallback: int): int {
    if schedule == [] then fallback else
      var i := if attempt < 1 then 0 else if attempt - 1 >= |schedule| then |schedule| - 1 else attempt - 1;
      var ms := schedule[i];
      (if ms < 0 then 0 else if ms > YEAR_MS then YEAR_MS else ms) * MS
  }

  function LinearNs(base: int, attempt: int): real { base as real * attempt as real }
  function ExponentialNs(base: int, attempt: int): real { base as real * Pow2(attempt - 1) }

  /** The strategy's delay before jitter, already under the cap. */
  function Nominal(c: Policy, attempt: int): int {
    Min(match c.strategy
        case Linear => ClampToCap(LinearNs(Base(c), attempt), Cap(c))
        case Fixed => Base(c)
        case Custom => CustomDelay(c.schedule, attempt, Base(c))
        case Exponential => ClampToCap(ExponentialNs(Base(c), attempt), Cap(c)),
        Cap(c))
  }

  function Spread(d: int, pct: int): real { d as real * (if pct > 100 then 100 else pct) as real / 100.0 }

  function Swing(draw: real, spread: real): real { (draw * 2.0 - 1.0) * spread }

  function Jitter(d: int, pct: int, draw: real): int {
    if pct <= 0 then d else d + Trunc(Swing(draw, Spread(d, pct)))
  }

  function Delay(c: Policy, attempt: int, draw: real): int {
    var d := Min(Jitter(Nominal(c, attempt), c.jitterPct, draw), Cap(c));
    if d < 0 then 0 else d
  }

  lemma TruncBounds(x: real, d: int)
    requires d >= 0 && -(d as real) <= x <= d as real
    ensures -d <= Trunc(x) <= d
  {
  }

  lemma SpreadBounds(d: int, pct: int)
    requires d >= 0 && pct > 0
    ensures 0.0 <= Spread(d, pct) <= d as real
  {
    var p := if pct > 100 then 100 else pct;
    assert (100.0 - p as real) * d as real >= 0.0;
    assert p as real * d as real >= 0.0;
  }

  lemma SwingBounds(draw: real, spread: real)
    requires 0.0 <= draw < 1.0 && spread >= 0.0
    ensures -spread <= Swing(draw, spread) <= spread
  {
    var f := draw * 2.0 - 1.0;
    NonNegative(1.0 - f, spread);
    NonNegative(1.0 + f, spread);
    assert (1.0 - f) * spread == spread - f * spread;
    assert (1.0 + f) * spread == spread + f * spread;
  }

  lemma NonNegative(x: real, y: real)
    requires x >= 0.0 && y >= 0.0
    ensures x * y >= 0.0
  {
  }

  /** Jitter moves a delay by at most the delay itself. */
  lemma JitterBounds(d: int, pct: int, draw: real)
    requires d >= 0 && 0.0 <= draw < 1.0
    ensures 0 <= Jitter(d, pct, draw) <= 2 * d
  {
    if pct > 0 {
      SpreadBounds(d, pct);
      SwingBounds(draw, Spread(d, pct));
      TruncBounds(Swing(draw, Spread(d, pct)), d);
    }
  }

  lemma NominalBounds(c: Policy, attempt: int)
    requires Stored(c)
    ensures 0 <= Nominal(c, attempt) <= Cap(c) <= 0x7fff_ffff * MS
  {
  }

  /** The delay is never negative and never above the effective cap, for every
      policy a row can hold, every attempt and every draw; and nothing on the way
      overflows a 64-bit duration. */
  lemma DelayBounds(c: Policy, attempt: int, draw: real)
    requires Stored(c) && 0.0 <= draw < 1.0
    ensures 0 <= Delay(c, attempt, draw) <= Cap(c)
    ensures Int64(c.baseMs * MS) && Int64(c.capMs * MS)
    ensures Int64(Base(c)) && Int64(Cap(c)) && Int64(Nominal(c, attempt))
    ensures Int64(CustomDelay(c.schedule, attempt, Base(c)))
    ensures Int64(Jitter(Nominal(c, attempt), c.jitterPct, draw))
  {
    NominalBounds(c, attempt);
    JitterBounds(Nominal(c, attempt), c.jitterPct, draw);
  }

  function Pow2Int(n: nat): nat { if n == 0 then 1 else 2 * Pow2Int(n - 1) }

  lemma {:induction false} Pow2IsInt(n: nat)
    ensures Pow2(n) == Pow2Int(n) as real
    ensures Pow2Int(n) > n
  {
    if n > 0 { Pow2IsInt(n - 1); }
  }

  lemma ClampIsMin(x: int, cap: int)
    requires x >= 0 && cap >= 0
    ensures ClampToCap(x as real, cap) == Min(x, cap)
  {
  }

  lemma ProductForm(base: int, cap: int, k: nat)
    requires base > 0 && cap > 0
    ensures ClampToCap(base as real * k as real, cap) == Min(base * k, cap)
  {
    Positive(base, k);
    assert base as real * k as real == (base * k) as real;
    ClampIsMin(base * k, cap);
  }

  lemma LinearForm(base: int, cap: int, n: nat)
    requires base > 0 && cap > 0
    ensures ClampToCap(LinearNs(base, n), cap) == Min(base * n, cap)
  {
    ProductForm(base, cap, n);
  }

  lemma ExponentialForm(base: int, cap: int, n: nat)
    requires base > 0 && cap > 0 && n >= 1
    ensures ClampToCap(ExponentialNs(base, n), cap) == Min(base * Pow2Int(n - 1), cap)
  {
    Pow2IsInt(n - 1);
    ProductForm(base, cap, Pow2Int(n - 1));
  }

  /** What base and cap the columns stand for, in nanoseconds: a second and an hour when
      a column holds nothing positive. */
  predicate Columns(c: Policy, base: int, cap: int) {
    && (c.baseMs > 0 ==> base == c.baseMs * 1_000_000) && (c.baseMs <= 0 ==> base == 1_000_000_000)
    && (c.capMs > 0 ==> cap == c.capMs * 1_000_000) && (c.capMs <= 0 ==> cap == 3_600_000_000_000)
  }

  /** Without jitter a fixed policy waits its base at every attempt, and the two growing
      strategies are exactly base*n and base*2^(n-1), all three under the cap. */
  lemma ClosedForms(c: Policy, n: nat, base: int, cap: int, draw: real)
    requires Stored(c) && n >= 1 && c.jitterPct <= 0 && Columns(c, base, cap)
    ensures c.strategy.Fixed? ==> Delay(c, n, draw) == if base < cap then base else cap
    ensures c.strategy.Linear? ==> Delay(c, n, draw) == if base * n < cap then base * n else cap
    ensures c.strategy.Exponential? ==>
              Delay(c, n, draw) == if base * Pow2Int(n - 1) < cap then base * Pow2Int(n - 1) else cap
  {
    NominalBounds(c, n);
    LinearForm(base, cap, n);
    ExponentialForm(base, cap, n);
  }

  /** At the lowest draw jitter takes its whole share, at the middle one nothing. */
  lemma JitterEnds(d: int, pct: int)
    requires d >= 0 && pct > 0
    ensures Jitter(d, pct, 0.0) == d - Spread(d, pct).Floor
    ensures Jitter(d, pct, 0.5) == d
  {
    SpreadBounds(d, pct);
    assert Swing(0.0, Spread(d, pct)) == -Spread(d, pct);
    assert Swing(0.5, Spread(d, pct)) == 0.0;
  }

  /** Jitter is a share of the delay: d*pct/100 either way at most (all of it from 100
      on), the whole of it below at the lowest draw, nothing at the middle one, and never
      less for a higher draw. */
  lemma JitterShare(d: int, pct: int, lower: real, draw: real)
    requires d >= 0 && pct > 0 && 0.0 <= lower <= draw < 1.0
    ensures var share := (d as real * (if pct < 100 then pct else 100) as real / 100.0).Floor;
            && d - share <= Jitter(d, pct, draw) <= d + share
            && Jitter(d, pct, 0.0) == d - share
            && Jitter(d, pct, 0.5) == d
            && Jitter(d, pct, lower) <= Jitter(d, pct, draw)
  {
    var spread := Spread(d, pct);
    SpreadBounds(d, pct);
    JitterEnds(d, pct);
    SwingBounds(draw, spread);
    SwingGrows(lower, draw, spread);
    TruncShare(Swing(draw, spread), spread);
  }

  lemma SwingGrows(lower: real, draw: real, spread: real)
    requires lower <= draw && spread >= 0.0
    ensures Swing(lower, spread) <= Swing(draw, spread)
    ensures Trunc(Swing(lower, spread)) <= Trunc(Swing(draw, spread))
  {
    var (a, b) := (draw * 2.0 - 1.0, lower * 2.0 - 1.0);
    NonNegative(a - b, spread);
    assert (a - b) * spread == a * spread - b * spread;
  }

  lemma TruncShare(x: real, share: real)
    requires -share <= x <= share
    ensures -share.Floor <= Trunc(x) <= share.Floor
  {
  }

  lemma Positive(b: int, n: nat)
    requires b > 0
    ensures b * n >= n
  {
  }

  lemma Larger(b: int, m: nat, n: nat)
    requires b > 0 && m <= n
    ensures b * m <= b * n
  {
  }

  lemma {:induction false} Pow2Grows(m: nat, n: nat)
    requires m <= n
    ensures Pow2Int(m) <= Pow2Int(n)
    decreases n
  {
    if m < n { Pow2Grows(m, n - 1); }
  }

  /** Backoff never shrinks from one attempt to a later one. */
  lemma GrowsToCap(c: Policy, m: nat, n: nat, draw: real)
    requires Stored(c) && 1 <= m <= n && c.jitterPct <= 0
    requires c.strategy.Linear? || c.strategy.Exponential?
    ensures Delay(c, m, draw) <= Delay(c, n, draw)
    ensures Delay(c, m, draw) == Cap(c) ==> Delay(c, n, draw) == Cap(c)
  {
    ClosedForms(c, m, Base(c), Cap(c), draw);
    ClosedForms(c, n, Base(c), Cap(c), draw);
    Pow2Grows(m - 1, n - 1);
    Larger(Base(c), m, n);
    Larger(Base(c), Pow2Int(m - 1), Pow2Int(n - 1));
  }

  /** The n for which the cap is due: base * n or base * 2^(n-1) has caught up with it. */
  predicate CaughtUp(c: Policy, n: nat)
    requires n >= 1
  {
    Cap(c) <= if c.strategy.Linear? then Base(c) * n else Base(c) * Pow2Int(n - 1)
  }

  /** What a stored policy can hold: at least a millisecond, at most 2^31 of them. */
  lemma StoredRange(c: Policy)
    requires Stored(c)
    ensures MS <= Base(c) && Cap(c) <= 0x8000_0000 * MS
  {
  }

  lemma Pow31()
    ensures Pow2Int(31) == 0x8000_0000
  {
    assert Pow2Int(8) == 0x100;
    assert Pow2Int(16) == 0x100 * Pow2Int(8);
    assert Pow2Int(24) == 0x100 * Pow2Int(16);
  }

  lemma Product(base: int, k: nat, m: int, bound: nat)
    requires base >= m > 0 && k >= bound
    ensures base * k >= m * bound
  {
    Larger(base, bound, k);
    assert (base - m) * bound >= 0;
  }

  /** Where the cap is reached: exactly from the attempt at which the growing delay has
      caught up with it. Exponential backoff is there by attempt 32 whatever the row
      holds; linear backoff by attempt cap/base, rounded up. */
  lemma ReachesCap(c: Policy, n: nat, draw: real)
    requires Stored(c) && n >= 1 && c.jitterPct <= 0
    requires c.strategy.Linear? || c.strategy.Exponential?
    ensures Delay(c, n, draw) == Cap(c) <==> CaughtUp(c, n)
    ensures c.strategy.Exponential? && n >= 32 ==> Delay(c, n, draw) == Cap(c)
    ensures c.strategy.Linear? ==> (Delay(c, n, draw) == Cap(c) <==> n >= (Cap(c) + Base(c) - 1) / Base(c))
  {
    ClosedForms(c, n, Base(c), Cap(c), draw);
    if c.strategy.Exponential? && n >= 32 {
      StoredRange(c);
      Pow31();
      Pow2Grows(31, n - 1);
      Product(Base(c), Pow2Int(n - 1), MS, 0x8000_0000);
    }
    CeilingCovers(Base(c), Cap(c), n);
  }

  lemma CeilingCovers(base: int, cap: int, n: nat)
    requires base > 0
    ensures base * n >= cap <==> n >= (cap + base - 1) / base
  {
    var q := (cap + base - 1) / base;
    assert base * q + (cap + base - 1) % base == cap + base - 1;
    if n >= q {
      assert base * (n - q) >= 0;
      assert base * n == base * q + base * (n - q);
    } else {
      assert base * (q - 1 - n) >= 0;
      assert base * n == base * q - base - base * (q - 1 - n);
    }
  }

  // ---- the custom schedule -------------------------------------------------------------

  /** The entry an attempt reads: its own while the schedule has one, else the nearest
      end. */
  predicate Reads(schedule: seq<int>, attempt: int, i: int) {
    && 0 <= i < |schedule|
    && (1 <= attempt <= |schedule| ==> i == attempt - 1)
    && (attempt > |schedule| ==> i == |schedule| - 1)
    && (attempt < 1 ==> i == 0)
  }

  /** d is that entry's delay: exact for an entry between nothing and a year, and
      otherwise the nearer of the two. */
  predicate Grants(ms: int, d: int) {
    && (0 <= ms <= 31_536_000_000 ==> d == ms * 1_000_000)
    && (ms < 0 ==> d == 0)
    && (ms > 31_536_000_000 ==> d == 31_536_000_000_000_000)
  }

  /** What a custom schedule gives through to the end: without jitter each attempt waits
      its own entry, later ones repeat the last, the cap still holds, and without a
      schedule the base stands in. */
  lemma CustomWaits(c: Policy, attempt: int, i: int, d: int, draw: real)
    requires Stored(c) && c.strategy.Custom? && c.jitterPct <= 0
    requires if c.schedule == [] then d == Base(c) else Reads(c.schedule, attempt, i) && Grants(c.schedule[i], d)
    ensures Delay(c, attempt, draw) == if d < Cap(c) then d else Cap(c)
  {
    NominalBounds(c, attempt);
  }

  /** The computation as it is written: one local, clamped again and again. */
  method RetryDelay(c: Policy, attempt: int, draw: real) returns (d: int)
    requires Stored(c) && 0.0 <= draw < 1.0
    ensures d == Delay(c, attempt, draw) && 0 <= d <= Cap(c)
  {
    DelayBounds(c, attempt, draw);
    var base := c.baseMs * MS;
    var cap := c.capMs * MS;
    if base <= 0 { base := SECOND; }
    if cap <= 0 { cap := HOUR; }
    match c.strategy {
      case Linear => d := ClampToCap(LinearNs(base, attempt), cap);
      case Fixed => d := base;
      case Custom => d := CustomSchedule(c.schedule, attempt, base);
      case Exponential => d := ClampToCap(ExponentialNs(base, attempt), cap);
    }
    if d > cap { d := cap; }
    d := Jitter(d, c.jitterPct, draw);
    if d > cap { d := cap; }
    if d < 0 { d := 0; }
  }

  method CustomSchedule(schedule: seq<int>, attempt: int, fallback: int) returns (d: int)
    ensures schedule == [] ==> d == fallback
    ensures schedule != [] ==> 0 <= d <= YEAR_MS * MS
    ensures forall i :: Reads(schedule, attempt, i) ==> Grants(schedule[i], d)
    ensures d == CustomDelay(schedule, attempt, fallback)
  {
    if |schedule| == 0 { return fallback; }
    var idx := attempt - 1;
    if idx < 0 { idx := 0; }
    if idx >= |schedule| { idx := |schedule| - 1; }
    var ms := schedule[idx];
    if ms < 0 { ms := 0; }
    if ms > YEAR_MS { ms := YEAR_MS; }
    return ms * MS;
  }
}
