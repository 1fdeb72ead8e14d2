/** What a promotion sweep moves, and how many sweeps empty the due backlog. */
module Promotion {
  import opened Lease
  import opened QueueModel
  import opened Copies
  import opened Fairness

  lemma DistinctSplit(l: seq<Raw>, k: nat, x: Raw)
    requires Distinct(l) && k <= |l|
    ensures x in l[k..] <==> x in l && x !in l[..k]
  {
    assert l == l[..k] + l[k..];
    if x in l[k..] {
      var j :| 0 <= j < |l| - k && l[k..][j] == x;
      assert l[k + j] == x;
    }
  }

  lemma SuffixElements(z: map<Raw, int>, now: int, l: seq<Raw>, k: nat)
    requires Distinct(l) && k <= |l|
    requires forall x :: x in l <==> x in z && z[x] <= now
    ensures var z' := z - Elements(l[..k]);
            forall x :: x in l[k..] <==> x in z' && z'[x] <= now
  {
    var z' := z - Elements(l[..k]);
    forall x ensures x in l[k..] <==> x in z' && z'[x] <= now {
      DistinctSplit(l, k, x);
    }
  }

  lemma SuffixOrdered(z: map<Raw, int>, l: seq<Raw>, k: nat)
    requires Ordered(z, l) && Distinct(l) && k <= |l|
    ensures Ordered(z - Elements(l[..k]), l[k..])
  {
    var z' := z - Elements(l[..k]);
    forall i | 0 <= i < |l| - k ensures l[k..][i] in z' {
      assert l[k..][i] in l[k..];
      DistinctSplit(l, k, l[k..][i]);
      assert l[k..][i] == l[k + i];
    }
    assert WithScores(z', l[k..]) == WithScores(z, l)[k..];
  }

  /** After the first k due entries are removed the rest are due, in the same order. */
  lemma DueSuffix(z: map<Raw, int>, now: int, k: nat)
    requires k <= |Due(z, now)|
    ensures Due(z - Elements(Due(z, now)[..k]), now) == Due(z, now)[k..]
  {
    var due := Due(z, now);
    SuffixElements(z, now, due, k);
    SuffixOrdered(z, due, k);
    DueUnique(z - Elements(due[..k]), now, due[k..]);
  }

  lemma SweepEffect(orgOf: Raw -> Org, s: State, now: int, limit: nat, o: Org)
    ensures var due := Due(s.scheduled, now);
            var n := if limit < |due| then limit else |due|;
            var s' := PromoteDue(orgOf, s, now, limit);
            && ListAt(s'.pending, o) == ListAt(s.pending, o) + OfOrg(orgOf, due[..n], o)
            && s'.scheduled == s.scheduled - Elements(due[..n])
            && Due(s'.scheduled, now) == due[n..]
  {
    var due := Due(s.scheduled, now);
    var moved := Limited(due, limit);
    assert moved == due[..|moved|];
    PromoteAppends(orgOf, s, moved, o);
    PromoteAllKeys(orgOf, s, moved);
    DueSuffix(s.scheduled, now, |moved|);
  }

  /** What is moved comes before everything that stays. */
  lemma MovedIsLeast(z: map<Raw, int>, now: int, n: nat, x: Raw, y: Raw)
    requires n <= |Due(z, now)|
    requires x in Due(z, now)[..n] && y in z && y !in Due(z, now)[..n]
    ensures z[x] <= now && EntryLess(Entry(z[x], x), Entry(z[y], y))
  {
    var due := Due(z, now);
    var i :| 0 <= i < n && due[i] == x;
    assert x in due;
    if y in due {
      var j :| 0 <= j < |due| && due[j] == y;
      assert forall k :: 0 <= k < n ==> due[k] in due[..n];
      var es := WithScores(z, due);
      assert EntryLess(es[i], es[j]);
    }
  }

  /** One sweep moves the min(limit, #due) least entries and no others, appends each
      org's share in (score, bytes) order, and leaves everything not yet due. */
  lemma SweepMoves(orgOf: Raw -> Org, s: State, now: int, limit: nat, o: Org)
    ensures var due := Due(s.scheduled, now);
            var n := if limit < |due| then limit else |due|;
            var s' := PromoteDue(orgOf, s, now, limit);
            && ListAt(s'.pending, o) == ListAt(s.pending, o) + OfOrg(orgOf, due[..n], o)
            && s'.scheduled == s.scheduled - Elements(due[..n])
            && Due(s'.scheduled, now) == due[n..]
            && (forall x, y :: x in due[..n] && y in s'.scheduled ==>
                  x in s.scheduled && s.scheduled[x] <= now
                  && EntryLess(Entry(s.scheduled[x], x), Entry(s.scheduled[y], y))
                  && s.scheduled[x] <= s.scheduled[y]
                  && (s.scheduled[x] == s.scheduled[y] ==> BytesLess(x, y)))
  {
    SweepEffect(orgOf, s, now, limit, o);
    var due := Due(s.scheduled, now);
    var n := if limit < |due| then limit else |due|;
    forall x, y | x in due[..n] && y in PromoteDue(orgOf, s, now, limit).scheduled
      ensures x in s.scheduled && s.scheduled[x] <= now
              && EntryLess(Entry(s.scheduled[x], x), Entry(s.scheduled[y], y))
              && s.scheduled[x] <= s.scheduled[y]
              && (s.scheduled[x] == s.scheduled[y] ==> BytesLess(x, y))
    {
      assert x in due;
      MovedIsLeast(s.scheduled, now, n, x, y);
    }
  }

  ghost function Iterate<T>(f: T -> T, x: T, n: nat): T {
    if n == 0 then x else f(Iterate(f, x, n - 1))
  }

  /** What holds at the start and is handed on by every round holds after n of them. */
  lemma {:induction false} IterateKeeps<T(!new)>(f: T -> T, inv: (nat, T) -> bool, x: T, n: nat)
    requires inv(0, x) && forall k: nat, t: T :: inv(k, t) ==> inv(k + 1, f(t))
    ensures inv(n, Iterate(f, x, n))
    decreases n
  {
    if n > 0 {
      IterateKeeps(f, inv, x, n - 1);
      assert inv(n - 1 + 1, f(Iterate(f, x, n - 1)));
    }
  }

  ghost function Sweep(orgOf: Raw -> Org, now: int, limit: int): State -> State { s => PromoteDue(orgOf, s, now, limit) }

  ghost function Sweeps(orgOf: Raw -> Org, s: State, now: int, limit: int, n: nat): State {
    Iterate(Sweep(orgOf, now, limit), s, n)
  }

  function Skip(l: seq<Raw>, n: nat): seq<Raw> { if n <= |l| then l[n..] else [] }

  lemma SkipTwice(l: seq<Raw>, a: nat, b: nat)
    ensures Skip(Skip(l, a), b) == Skip(l, a + b)
  {
  }

  lemma DueAfterSweep(orgOf: Raw -> Org, s: State, now: int, limit: nat, due: seq<Raw>)
    requires due == Due(s.scheduled, now)
    ensures Due(PromoteDue(orgOf, s, now, limit).scheduled, now) == Skip(due, limit)
  {
    SweepEffect(orgOf, s, now, limit, 0);
  }

  ghost function DueOf(s: State, now: int): seq<Raw> { Due(s.scheduled, now) }

  /** One more sweep, from any state whose due backlog is known. */
  lemma SweepLeaves(orgOf: Raw -> Org, t: State, now: int, limit: nat, due: seq<Raw>, k: nat)
    requires DueOf(t, now) == Skip(due, k)
    ensures DueOf(PromoteDue(orgOf, t, now, limit), now) == Skip(due, k + limit)
  {
    DueAfterSweep(orgOf, t, now, limit, DueOf(t, now));
    SkipTwice(due, k, limit);
  }

  ghost predicate LeftAfter(limit: nat, now: int, due: seq<Raw>, k: nat, t: State) {
    DueOf(t, now) == Skip(due, Times(k, limit))
  }

  lemma LeftAfterOneMore(orgOf: Raw -> Org, limit: nat, now: int, due: seq<Raw>, k: nat, t: State)
    requires LeftAfter(limit, now, due, k, t)
    ensures LeftAfter(limit, now, due, k + 1, PromoteDue(orgOf, t, now, limit))
  {
    var (a, b) := (Times(k, limit), Times(k + 1, limit));
    assert b == a + limit;
    SweepLeaves(orgOf, t, now, limit, due, a);
  }

  lemma SweepsLeave(orgOf: Raw -> Org, s: State, now: int, limit: nat, n: nat, due: seq<Raw>)
    requires due == DueOf(s, now)
    ensures DueOf(Sweeps(orgOf, s, now, limit, n), now) == Skip(due, Times(n, limit))
  {
    var left := (k: nat, t: State) => LeftAfter(limit, now, due, k, t);
    assert Skip(due, 0) == due;
    forall k: nat, t: State | left(k, t) ensures left(k + 1, Sweep(orgOf, now, limit)(t)) {
      LeftAfterOneMore(orgOf, limit, now, due, k, t);
    }
    IterateKeeps(Sweep(orgOf, now, limit), left, s, n);
  }

  lemma SkipEmpty(l: seq<Raw>, n: nat)
    ensures Skip(l, n) == [] <==> n >= |l|
  {
  }

  /** n sweeps at one instant leave exactly what lies beyond the first n*limit due
      entries; so ceil(#due / limit) sweeps, and no fewer, drain the backlog. */
  lemma SweepsDrain(orgOf: Raw -> Org, s: State, now: int, limit: nat, n: nat)
    ensures var due := Due(s.scheduled, now);
            var left := Due(Sweeps(orgOf, s, now, limit, n).scheduled, now);
            left == Skip(due, Times(n, limit)) && (left == [] <==> Times(n, limit) >= |due|)
  {
    SweepsLeave(orgOf, s, now, limit, n, DueOf(s, now));
    SkipEmpty(Due(s.scheduled, now), Times(n, limit));
  }

  ghost predicate Coming(orgOf: Raw -> Org, s: State, now: int, x: Raw) {
    x in ListAt(s.pending, orgOf(x)) || (x in s.scheduled && s.scheduled[x] <= now)
  }

  lemma SweptOnce(orgOf: Raw -> Org, s: State, now: int, limit: nat, x: Raw)
    requires Coming(orgOf, s, now, x)
    ensures Coming(orgOf, PromoteDue(orgOf, s, now, limit), now, x)
  {
    SweepEffect(orgOf, s, now, limit, orgOf(x));
    var due := Due(s.scheduled, now);
    var moved := due[..if limit < |due| then limit else |due|];
    if x in moved { InOfOrg(orgOf, moved, x); }
  }

  lemma SweptOrWaiting(orgOf: Raw -> Org, s: State, now: int, limit: nat, n: nat, x: Raw)
    requires Coming(orgOf, s, now, x)
    ensures Coming(orgOf, Sweeps(orgOf, s, now, limit, n), now, x)
  {
    var coming := (k: nat, t: State) => Coming(orgOf, t, now, x);
    forall k: nat, t: State | coming(k, t) ensures coming(k + 1, Sweep(orgOf, now, limit)(t)) {
      SweptOnce(orgOf, t, now, limit, x);
    }
    IterateKeeps(Sweep(orgOf, now, limit), coming, s, n);
  }

  lemma {:induction false} InOfOrg(orgOf: Raw -> Org, l: seq<Raw>, x: Raw)
    requires x in l
    ensures x in OfOrg(orgOf, l, orgOf(x))
    decreases |l|
  {
    assert l == l[..|l| - 1] + [l[|l| - 1]];
    if x != l[|l| - 1] { InOfOrg(orgOf, l[..|l| - 1], x); }
  }

  /** A crashed worker's payload comes back: every lease expired at `now` is pending
      again once Recover has run and enough sweeps at the same instant have too. */
  lemma RecoveredIsPending(orgOf: Raw -> Org, s: State, now: int, limit: nat, n: nat, m: Raw)
    requires m in s.processing && s.processing[m] <= now
    requires Times(n, limit) >= |Due(Recover(s, now).scheduled, now)|
    ensures var s' := Sweeps(orgOf, Recover(s, now), now, limit, n);
            StripToken(m) in ListAt(s'.pending, orgOf(StripToken(m)))
  {
    var x := StripToken(m);
    var r := Recover(s, now);
    var expired := Due(s.processing, now);
    assert m in expired;
    RecoverAllKeys(s, now, expired);
    assert x in Payloads(expired);
    assert x in r.scheduled && r.scheduled[x] == now;
    SweptOrWaiting(orgOf, r, now, limit, n, x);
    SweepsDrain(orgOf, r, now, limit, n);
    var s' := Sweeps(orgOf, r, now, limit, n);
    assert Due(s'.scheduled, now) == [];
    assert !(x in s'.scheduled && s'.scheduled[x] <= now);
  }

  // ---- and is leased again -----------------------------------------------------------

  lemma SweepKeepsRing(orgOf: Raw -> Org, s: State, now: int, limit: int)
    requires RingOk(orgOf, s)
    ensures RingOk(orgOf, PromoteDue(orgOf, s, now, limit))
  {
    PromoteKeepsRing(orgOf, s, Limited(Due(s.scheduled, now), limit));
  }

  lemma SweepsKeepRing(orgOf: Raw -> Org, s: State, now: int, limit: int, n: nat)
    requires RingOk(orgOf, s)
    ensures RingOk(orgOf, Sweeps(orgOf, s, now, limit, n))
  {
    var ringOk := (k: nat, t: State) => RingOk(orgOf, t);
    forall k: nat, t: State | ringOk(k, t) ensures ringOk(k + 1, Sweep(orgOf, now, limit)(t)) {
      SweepKeepsRing(orgOf, t, now, limit);
    }
    IterateKeeps(Sweep(orgOf, now, limit), ringOk, s, n);
  }

  /** Some pick of the run leases x. */
  ghost predicate LeasedAt(orgOf: Raw -> Org, s: State, ops: seq<Op>, i: nat, x: Raw) {
    i < |ops| && ops[i].DoPick? && Tagged(ops[i].token, x) in Run(orgOf, s, ops[..i + 1]).processing
  }

  lemma {:induction false} OutIsLeased(orgOf: Raw -> Org, s: State, ops: seq<Op>, o: Org, x: Raw) returns (i: nat)
    requires x in Out(orgOf, s, ops, o)
    ensures LeasedAt(orgOf, s, ops, i, x)
    decreases |ops|
  {
    var s' := Apply(orgOf, s, ops[0]);
    if x in Taken(s, ops[0], o) {
      i := 0;
      assert ops[..1] == [ops[0]] && ops[..1][1..] == [];
      assert Run(orgOf, s, ops[..1]) == s';
    } else {
      var j := OutIsLeased(orgOf, s', ops[1..], o, x);
      i := j + 1;
      assert ops[..i + 1][0] == ops[0] && ops[..i + 1][1..] == ops[1..][..j + 1];
    }
  }

  lemma {:induction false} TimesGrows(a: nat, b: nat, m: nat)
    requires a <= b
    ensures Times(a, m) <= Times(b, m)
    decreases b
  {
    if a < b { TimesGrows(a, b - 1, m); }
  }

  /** What is pending under an org is leased before the org's whole list has had its
      turns, with at most m orgs pending. */
  lemma PendingIsLeased(orgOf: Raw -> Org, s: State, ops: seq<Op>, x: Raw, m: nat) returns (i: nat)
    requires RingOk(orgOf, s) && AllHomed(orgOf, ops) && x in ListAt(s.pending, orgOf(x))
    requires AtMostPending(orgOf, s, ops, m)
    requires FairPicks(ops) >= Times(|ListAt(s.pending, orgOf(x))|, m)
    ensures LeasedAt(orgOf, s, ops, i, x)
  {
    var o := orgOf(x);
    var l := ListAt(s.pending, o);
    var j :| 0 <= j < |l| && l[j] == x;
    assert o in s.pending && o in s.ring;
    var k :| 0 <= k < |s.ring| && s.ring[k] == o;
    TimesGrows(j + 1, |l|, m);
    BoundedWait(orgOf, s, ops, o, k, j, m);
    i := OutIsLeased(orgOf, s, ops, o, x);
  }

  /** The queue after Recover and n sweeps. */
  ghost function Restored(orgOf: Raw -> Org, s: State, now: int, limit: nat, n: nat): State {
    Sweeps(orgOf, Recover(s, now), now, limit, n)
  }

  lemma RestoredRing(orgOf: Raw -> Org, s: State, now: int, limit: nat, n: nat)
    requires RingOk(orgOf, s)
    ensures RingOk(orgOf, Restored(orgOf, s, now, limit, n))
  {
    RecoverLeavesPending(s, now, Due(s.processing, now));
    SweepsKeepRing(orgOf, Recover(s, now), now, limit, n);
  }

  /** A crashed worker's payload is worked on again: after Recover and the sweeps, a pick
      leases it under a new token within m turns for each payload its org then has
      pending, m being the most orgs pending at a time, whatever is interleaved. */
  lemma RecoveredIsLeased(orgOf: Raw -> Org, s: State, now: int, limit: nat, n: nat, lease: Raw, s': State, ops: seq<Op>, m: nat) returns (i: nat)
    requires RingOk(orgOf, s) && lease in s.processing && s.processing[lease] <= now
    requires Times(n, limit) >= |Due(Recover(s, now).scheduled, now)|
    requires s' == Restored(orgOf, s, now, limit, n)
    requires AllHomed(orgOf, ops) && AtMostPending(orgOf, s', ops, m)
    requires FairPicks(ops) >= Times(|ListAt(s'.pending, orgOf(StripToken(lease)))|, m)
    ensures LeasedAt(orgOf, s', ops, i, StripToken(lease))
  {
    RecoveredIsPending(orgOf, s, now, limit, n, lease);
    RestoredRing(orgOf, s, now, limit, n);
    i := PendingIsLeased(orgOf, s', ops, StripToken(lease), m);
  }
}
