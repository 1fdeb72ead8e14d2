/** Fair scheduling over whole runs: first-in first-out inside an org, a bounded
    wait across orgs, one turn each in between. */
module Fairness {
  import opened Lease
  import opened QueueModel

  /** The payload an operation takes from org o, if any. */
  function Taken(s: State, op: Op, o: Org): seq<Raw> {
    if op.DoPick? && s.ring != [] && s.ring[0] == o && ListAt(s.pending, o) != []
    then [ListAt(s.pending, o)[0]] else []
  }

  function OfOrg(orgOf: Raw -> Org, l: seq<Raw>, o: Org): seq<Raw>
    decreases |l|
  {
    if l == [] then [] else
      OfOrg(orgOf, l[..|l| - 1], o) + (if orgOf(l[|l| - 1]) == o then [l[|l| - 1]] else [])
  }

  /** The payloads an operation makes pending under org o, in order. */
  ghost function Added(orgOf: Raw -> Org, s: State, op: Op, o: Org): seq<Raw> {
    match op
    case DoEnqueue(org, raw) => if org == o then [raw] else []
    case DoPromoteDue(now, limit) => OfOrg(orgOf, Limited(Due(s.scheduled, now), limit), o)
    case DoRequeueDead(oldRaw, newRaw) => if oldRaw in s.dead && orgOf(newRaw) == o then [newRaw] else []
    case DoPromoteScheduled(raw) => if raw in s.scheduled && orgOf(raw) == o then [raw] else []
    case _ => []
  }

  ghost function Out(orgOf: Raw -> Org, s: State, ops: seq<Op>, o: Org): seq<Raw>
    decreases |ops|
  {
    if ops == [] then [] else Taken(s, ops[0], o) + Out(orgOf, Apply(orgOf, s, ops[0]), ops[1..], o)
  }

  ghost function In(orgOf: Raw -> Org, s: State, ops: seq<Op>, o: Org): seq<Raw>
    decreases |ops|
  {
    if ops == [] then [] else Added(orgOf, s, ops[0], o) + In(orgOf, Apply(orgOf, s, ops[0]), ops[1..], o)
  }

  function FairPicks(ops: seq<Op>): nat {
    if ops == [] then 0 else (if ops[0].DoPick? then 1 else 0) + FairPicks(ops[1..])
  }

  /** In every state the run passes through, at most m orgs have pending work. */
  ghost predicate AtMostPending(orgOf: Raw -> Org, s: State, ops: seq<Op>, m: nat)
    decreases |ops|
  {
    |s.ring| <= m && (ops != [] ==> AtMostPending(orgOf, Apply(orgOf, s, ops[0]), ops[1..], m))
  }

  lemma {:induction false} PromoteAppends(orgOf: Raw -> Org, s: State, due: seq<Raw>, o: Org)
    ensures ListAt(PromoteAll(orgOf, s, due).pending, o) == ListAt(s.pending, o) + OfOrg(orgOf, due, o)
    ensures s.ring <= PromoteAll(orgOf, s, due).ring
    decreases |due|
  {
    if due != [] {
      PromoteAppends(orgOf, s, due[..|due| - 1], o);
    }
  }

  lemma PickShape(orgOf: Raw -> Org, s: State, op: Op, o: Org)
    requires RingOk(orgOf, s) && op.DoPick? && s.ring != []
    ensures var s' := Apply(orgOf, s, op);
            && ListAt(s.pending, o) == Taken(s, op, o) + ListAt(s'.pending, o)
            && s'.ring == s.ring[1..] + (if |ListAt(s.pending, s.ring[0])| > 1 then [s.ring[0]] else [])
            && ListAt(s.pending, s.ring[0]) != []
  {
    var x := s.ring[0];
    assert x in s.ring;
    assert ListAt(s.pending, x) == [ListAt(s.pending, x)[0]] + ListAt(s.pending, x)[1..];
  }

  /** Every other operation only appends: to the ring and to each org's list. */
  lemma OthersAppend(orgOf: Raw -> Org, s: State, op: Op, o: Org)
    requires !op.DoPick? || s.ring == []
    ensures var s' := Apply(orgOf, s, op);
            && s.ring <= s'.ring
            && ListAt(s'.pending, o) == ListAt(s.pending, o) + Added(orgOf, s, op, o)
            && Taken(s, op, o) == []
  {
    match op {
      case DoPromoteDue(now, limit) =>
        PromoteAppends(orgOf, s, Limited(Due(s.scheduled, now), limit), o);
      case DoRecover(now) => RecoverLeavesPending(s, now, Due(s.processing, now));
      case _ =>
    }
  }

  lemma Tail(orgOf: Raw -> Org, ops: seq<Op>)
    requires AllHomed(orgOf, ops) && ops != []
    ensures Homed(orgOf, ops[0]) && AllHomed(orgOf, ops[1..])
  {
    assert Homed(orgOf, ops[0]);
    forall i | 0 <= i < |ops| - 1 ensures Homed(orgOf, ops[1..][i]) { assert Homed(orgOf, ops[i + 1]); }
  }

  lemma FifoStep(orgOf: Raw -> Org, s: State, op: Op, o: Org)
    requires RingOk(orgOf, s)
    ensures ListAt(s.pending, o) + Added(orgOf, s, op, o)
         == Taken(s, op, o) + ListAt(Apply(orgOf, s, op).pending, o)
  {
    if op.DoPick? && s.ring != [] { PickShape(orgOf, s, op, o); } else { OthersAppend(orgOf, s, op, o); }
  }

  lemma Regroup(a: seq<Raw>, b: seq<Raw>, c: seq<Raw>, d: seq<Raw>, e: seq<Raw>, f: seq<Raw>, g: seq<Raw>)
    requires a + b == c + d && d + e == f + g
    ensures a + (b + e) == (c + f) + g
  {
    assert a + (b + e) == (a + b) + e;
    assert (c + d) + e == c + (d + e);
    assert c + (f + g) == (c + f) + g;
  }

  /** Each org's payloads leave in the order they arrived: what was waiting, plus
      what arrived, is what left, plus what still waits. */
  lemma {:induction false} FirstInFirstOut(orgOf: Raw -> Org, s: State, ops: seq<Op>, o: Org)
    requires RingOk(orgOf, s) && AllHomed(orgOf, ops)
    ensures ListAt(s.pending, o) + In(orgOf, s, ops, o)
         == Out(orgOf, s, ops, o) + ListAt(Run(orgOf, s, ops).pending, o)
    decreases |ops|
  {
    if ops != [] {
      var (op, s') := (ops[0], Apply(orgOf, s, ops[0]));
      Tail(orgOf, ops);
      StepKeepsRing(orgOf, s, op);
      FirstInFirstOut(orgOf, s', ops[1..], o);
      FifoStep(orgOf, s, op, o);
      Regroup(ListAt(s.pending, o), Added(orgOf, s, op, o), Taken(s, op, o), ListAt(s'.pending, o),
              In(orgOf, s', ops[1..], o), Out(orgOf, s', ops[1..], o), ListAt(Run(orgOf, s, ops).pending, o));
    }
  }

  /** n * m, by repeated addition. */
  function Times(n: nat, m: nat): nat { if n == 0 then 0 else Times(n - 1, m) + m }

  lemma TimesIs(n: nat, m: nat)
    ensures Times(n, m) == n * m
  {
    if n > 0 {
      TimesIs(n - 1, m);
      assert n * m == (n - 1) * m + m;
    }
  }

  ghost predicate Waiting(s: State, o: Org, k: nat, j: nat) {
    k < |s.ring| && s.ring[k] == o && j < |ListAt(s.pending, o)|
  }

  /** One operation: either org o is served its last awaited payload, or it waits at
      a new place whose remaining wait has shrunk by each FairPick spent. */
  lemma TurnStep(orgOf: Raw -> Org, s: State, op: Op, o: Org, k: nat, j: nat, m: nat) returns (k': nat, j': nat)
    requires RingOk(orgOf, s) && Homed(orgOf, op) && Waiting(s, o, k, j)
    requires |Apply(orgOf, s, op).ring| <= m
    ensures (|Taken(s, op, o)| == 1 && j == 0)
         || (Waiting(Apply(orgOf, s, op), o, k', j')
             && |Taken(s, op, o)| == j - j'
             && k' + Times(j', m) + (if op.DoPick? then 1 else 0) <= k + Times(j, m))
  {
    k', j' := k, j;
    var s' := Apply(orgOf, s, op);
    if !op.DoPick? {
      OthersAppend(orgOf, s, op, o);
    } else {
      PickShape(orgOf, s, op, o);
      if k > 0 {
        assert s.ring[0] != o;
        assert s'.ring[k - 1] == s.ring[1..][k - 1];
        k' := k - 1;
      } else if j > 0 {
        k', j' := |s'.ring| - 1, j - 1;
      }
    }
  }

  lemma {:induction false} TurnsComeRound(orgOf: Raw -> Org, s: State, ops: seq<Op>, o: Org, k: nat, j: nat, m: nat)
    requires RingOk(orgOf, s) && AllHomed(orgOf, ops) && Waiting(s, o, k, j)
    requires AtMostPending(orgOf, s, ops, m)
    requires FairPicks(ops) >= k + 1 + Times(j, m)
    ensures |Out(orgOf, s, ops, o)| > j
    decreases |ops|
  {
    Tail(orgOf, ops);
    var s' := Apply(orgOf, s, ops[0]);
    assert AtMostPending(orgOf, s', ops[1..], m);
    var k', j' := TurnStep(orgOf, s, ops[0], o, k, j, m);
    StepKeepsRing(orgOf, s, ops[0]);
    if Waiting(s', o, k', j') && |Taken(s, ops[0], o)| == j - j' && FairPicks(ops[1..]) >= k' + 1 + Times(j', m) {
      TurnsComeRound(orgOf, s', ops[1..], o, k', j', m);
    }
  }

  /** Bounded wait. With at most m orgs pending, the payload at position j of its
      org's list, the org at ring index k, is among what its org has been served,
      at place j, after k+1+j*m FairPicks, whatever else is interleaved. */
  lemma BoundedWait(orgOf: Raw -> Org, s: State, ops: seq<Op>, o: Org, k: nat, j: nat, m: nat)
    requires RingOk(orgOf, s) && AllHomed(orgOf, ops)
    requires k < |s.ring| && s.ring[k] == o && j < |ListAt(s.pending, o)|
    requires AtMostPending(orgOf, s, ops, m)
    requires FairPicks(ops) >= k + 1 + Times(j, m)
    ensures var served := Out(orgOf, s, ops, o);
            |served| > j && served[j] == ListAt(s.pending, o)[j]
  {
    TurnsComeRound(orgOf, s, ops, o, k, j, m);
    FirstInFirstOut(orgOf, s, ops, o);
    var whole := ListAt(s.pending, o) + In(orgOf, s, ops, o);
    assert whole[j] == ListAt(s.pending, o)[j];
  }

  function Ahead(s: State, k: nat, x: Org): nat {
    if k <= |s.ring| && x in s.ring[..k] then 1 else 0
  }

  lemma AheadStep(orgOf: Raw -> Org, s: State, op: Op, o: Org, k: nat, other: Org) returns (k': nat)
    requires RingOk(orgOf, s) && other != o
    requires k < |s.ring| && s.ring[k] == o && Taken(s, op, o) == []
    ensures var s' := Apply(orgOf, s, op);
            && k' < |s'.ring| && s'.ring[k'] == o
            && |Taken(s, op, other)| + Ahead(s', k', other) <= Ahead(s, k, other)
  {
    k' := k;
    var s' := Apply(orgOf, s, op);
    if !op.DoPick? {
      OthersAppend(orgOf, s, op, other);
      assert s'.ring[..k] == s.ring[..k];
    } else {
      PickShape(orgOf, s, op, other);
      k' := k - 1;
      assert s.ring[..k] == [s.ring[0]] + s.ring[1..k];
      assert s'.ring[..k - 1] == s.ring[1..k];
      assert s'.ring[k - 1] == s.ring[1..][k - 1];
    }
  }

  lemma {:induction false} OneTurnAhead(orgOf: Raw -> Org, s: State, ops: seq<Op>, o: Org, k: nat, other: Org)
    requires RingOk(orgOf, s) && AllHomed(orgOf, ops) && other != o
    requires k < |s.ring| && s.ring[k] == o
    requires Out(orgOf, s, ops, o) == []
    ensures |Out(orgOf, s, ops, other)| <= Ahead(s, k, other)
    decreases |ops|
  {
    if ops != [] {
      Tail(orgOf, ops);
      assert |Out(orgOf, s, ops, o)| >= |Taken(s, ops[0], o)|;
      var k' := AheadStep(orgOf, s, ops[0], o, k, other);
      StepKeepsRing(orgOf, s, ops[0]);
      OneTurnAhead(orgOf, Apply(orgOf, s, ops[0]), ops[1..], o, k', other);
    }
  }

  /** While a pending org waits for its next turn, no other org gets two. */
  lemma NoOneTwice(orgOf: Raw -> Org, s: State, ops: seq<Op>, o: Org, other: Org)
    requires RingOk(orgOf, s) && AllHomed(orgOf, ops)
    requires ListAt(s.pending, o) != [] && other != o
    requires Out(orgOf, s, ops, o) == []
    ensures |Out(orgOf, s, ops, other)| <= 1
  {
    assert o in s.pending && o in s.ring;
    var k :| 0 <= k < |s.ring| && s.ring[k] == o;
    OneTurnAhead(orgOf, s, ops, o, k, other);
  }
}
