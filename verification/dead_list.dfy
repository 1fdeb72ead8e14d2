/** The dead list, and the wakeup list: what enters them, what leaves them, how long they
    get. */
module DeadList {
  import opened Lease
  import opened QueueModel
  import opened Copies

  /** The payloads a run buries, in order. */
  function Burials(ops: seq<Op>): seq<Raw> {
    if ops == [] then []
    else (if ops[0].DoDeadLetter? then [StripToken(ops[0].member)] else []) + Burials(ops[1..])
  }

  /** The newest ten thousand. */
  function Last(l: seq<Raw>): seq<Raw> { if |l| <= 10_000 then l else l[|l| - 10_000..] }

  lemma LastJoin(d: seq<Raw>, a: seq<Raw>, b: seq<Raw>)
    ensures Last(Last(d + a) + b) == Last(d + (a + b))
  {
    assert d + (a + b) == (d + a) + b;
  }

  lemma DeadStep(orgOf: Raw -> Org, s: State, op: Op)
    requires !op.DoRequeueDead? && !op.DoDrainDead? && |s.dead| <= 10_000
    ensures Apply(orgOf, s, op).dead == Last(s.dead + Burials([op]))
  {
    assert Burials([op]) == (if op.DoDeadLetter? then [StripToken(op.member)] else []) + [];
    assert s.dead + [] == s.dead;
    match op {
      case DoDeadLetter(m) => StripAgrees(m);
      case DoPromoteDue(now, limit) => PromoteAllKeys(orgOf, s, Limited(Due(s.scheduled, now), limit));
      case DoRecover(now) => RecoverLeavesPending(s, now, Due(s.processing, now));
      case _ =>
    }
  }

  lemma BurialsCons(op: Op, ops: seq<Op>)
    ensures Burials([op] + ops) == Burials([op]) + Burials(ops)
  {
    assert ([op] + ops)[1..] == ops && [op][1..] == [];
  }

  /** Between two requeues or drains the dead list is the newest ten thousand of what it
      held and what was buried since, oldest first. */
  lemma {:induction false} DeadTrail(orgOf: Raw -> Org, s: State, ops: seq<Op>)
    requires |s.dead| <= 10_000
    requires forall i :: 0 <= i < |ops| ==> !ops[i].DoRequeueDead? && !ops[i].DoDrainDead?
    ensures Run(orgOf, s, ops).dead == Last(s.dead + Burials(ops))
    decreases |ops|
  {
    if ops == [] {
      assert s.dead + [] == s.dead;
    } else {
      var s' := Apply(orgOf, s, ops[0]);
      DeadStep(orgOf, s, ops[0]);
      assert forall i :: 0 <= i < |ops| - 1 ==> ops[1..][i] == ops[i + 1];
      DeadTrail(orgOf, s', ops[1..]);
      assert [ops[0]] + ops[1..] == ops;
      BurialsCons(ops[0], ops[1..]);
      LastJoin(s.dead, Burials([ops[0]]), Burials(ops[1..]));
    }
  }

  /** A drain empties the list and leaves everything else; after it the list holds what
      was buried since. */
  lemma DeadSinceDrain(orgOf: Raw -> Org, s: State, ops: seq<Op>)
    requires forall i :: 0 <= i < |ops| ==> !ops[i].DoRequeueDead? && !ops[i].DoDrainDead?
    ensures DrainDead(s) == s.(dead := [])
    ensures Run(orgOf, s, [DoDrainDead] + ops).dead == Last(Burials(ops))
  {
    assert ([DoDrainDead] + ops)[0] == DoDrainDead && ([DoDrainDead] + ops)[1..] == ops;
    DeadTrail(orgOf, DrainDead(s), ops);
    assert [] + Burials(ops) == Burials(ops);
  }

  /** x occurs first after a, and b comes behind it. */
  predicate Splits(l: seq<Raw>, x: Raw, a: seq<Raw>, b: seq<Raw>) { l == a + [x] + b && x !in a }

  lemma SplitsBehind(h: Raw, t: seq<Raw>, x: Raw, a: seq<Raw>, b: seq<Raw>)
    requires Splits(t, x, a, b) && h != x
    ensures Splits([h] + t, x, [h] + a, b)
  {
    assert [h] + (a + [x] + b) == [h] + a + [x] + b;
  }

  lemma GoneBehind(h: Raw, t: seq<Raw>, x: Raw, a: seq<Raw>, b: seq<Raw>)
    requires WithoutFirst(t, x) == a + b && h != x
    ensures WithoutFirst([h] + t, x) == [h] + a + b
  {
    assert ([h] + t)[1..] == t;
    assert [h] + (a + b) == [h] + a + b;
  }

  lemma FoundFirst(l: seq<Raw>, x: Raw)
    requires l != [] && l[0] == x
    ensures Splits(l, x, [], l[1..]) && WithoutFirst(l, x) == [] + l[1..]
  {
  }

  lemma {:induction false} FirstGone(l: seq<Raw>, x: Raw) returns (a: seq<Raw>, b: seq<Raw>)
    requires x in l
    ensures Splits(l, x, a, b)
    ensures WithoutFirst(l, x) == a + b
    decreases |l|
  {
    if l[0] == x {
      FoundFirst(l, x);
      a, b := [], l[1..];
    } else {
      var a', b' := FirstGone(l[1..], x);
      SplitsBehind(l[0], l[1..], x, a', b');
      GoneBehind(l[0], l[1..], x, a', b');
      assert l == [l[0]] + l[1..];
      a, b := [l[0]] + a', b';
    }
  }

  /** A requeue takes the oldest listing of that payload off the list, keeps every other
      in its place, and puts the reset payload behind what its org has pending; one that
      is not listed changes nothing. */
  lemma RequeueTakesOldest(orgOf: Raw -> Org, s: State, oldRaw: Raw, newRaw: Raw) returns (older: seq<Raw>, newer: seq<Raw>)
    ensures var s' := RequeueDead(orgOf, s, oldRaw, newRaw);
            if oldRaw !in s.dead then s' == s else
              && s.dead == older + [oldRaw] + newer && oldRaw !in older
              && s'.dead == older + newer
              && ListAt(s'.pending, orgOf(newRaw)) == ListAt(s.pending, orgOf(newRaw)) + [newRaw]
              && s'.scheduled == s.scheduled && s'.processing == s.processing
  {
    older, newer := [], [];
    if oldRaw in s.dead { older, newer := FirstGone(s.dead, oldRaw); }
  }

  // ---- wakeups ---------------------------------------------------------------------------

  /** How many payloads an operation makes pending. */
  ghost function MadePending(s: State, op: Op): nat {
    match op
    case DoEnqueue(_, _) => 1
    case DoRequeueDead(x, _) => if x in s.dead then 1 else 0
    case DoPromoteScheduled(x) => if x in s.scheduled then 1 else 0
    case DoPromoteDue(now, limit) => |Limited(Due(s.scheduled, now), limit)|
    case _ => 0
  }

  lemma WakeupStep(orgOf: Raw -> Org, s: State, op: Op)
    requires s.notify <= 1025
    ensures var (n, n') := (s.notify + MadePending(s, op), Apply(orgOf, s, op).notify);
            n' == if op.DoTakeNotify? then if s.notify > 0 then s.notify - 1 else 0 else if n <= 1025 then n else 1025
  {
    match op {
      case DoPromoteDue(now, limit) => PromoteLeavesNotify(orgOf, s, Limited(Due(s.scheduled, now), limit));
      case DoRecover(now) => RecoverLeavesNotify(s, now, Due(s.processing, now));
      case _ =>
    }
  }

  lemma {:induction false} RecoverLeavesNotify(s: State, now: int, expired: seq<Raw>)
    ensures RecoverAll(s, now, expired).notify == s.notify
    decreases |expired|
  {
    if expired != [] { RecoverLeavesNotify(s, now, expired[..|expired| - 1]); }
  }

  ghost function TotalMade(orgOf: Raw -> Org, s: State, ops: seq<Op>): nat
    decreases |ops|
  {
    if ops == [] then 0 else MadePending(s, ops[0]) + TotalMade(orgOf, Apply(orgOf, s, ops[0]), ops[1..])
  }

  function Taken(ops: seq<Op>): nat {
    if ops == [] then 0 else (if ops[0].DoTakeNotify? then 1 else 0) + Taken(ops[1..])
  }

  /** No wakeup is lost short of the cap: those waiting and those taken together cover
      what was made pending, up to 1025; and there are never more than that, nor more than
      payloads to wake for. */
  lemma {:induction false} Wakeups(orgOf: Raw -> Org, s: State, ops: seq<Op>)
    requires s.notify <= 1025
    ensures var (n', made) := (Run(orgOf, s, ops).notify, TotalMade(orgOf, s, ops));
            && n' <= 1025 && n' <= s.notify + made
            && n' + Taken(ops) >= if s.notify + made < 1025 then s.notify + made else 1025
    decreases |ops|
  {
    if ops != [] {
      var s' := Apply(orgOf, s, ops[0]);
      WakeupStep(orgOf, s, ops[0]);
      Wakeups(orgOf, s', ops[1..]);
    }
  }
}
