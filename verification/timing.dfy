/** Nothing is handed out before its time, and everything is after it; and a lease is
    its holder's until it has run out. */
module Timing {
  import opened Lease
  import opened QueueModel
  import opened Copies
  import opened Fairness
  import opened Promotion

  /** Scheduled for exactly this time, and pending under no org. */
  ghost predicate Asleep(s: State, raw: Raw, at: int) {
    && raw in s.scheduled && s.scheduled[raw] == at
    && forall o :: raw !in ListAt(s.pending, o)
  }

  /** An operation that leaves a sleeper be: no sweep at or after its time, nobody
      promoting it by hand, scheduling it again or bringing in a copy, and no recovery of
      one. */
  ghost predicate Leaves(s: State, op: Op, raw: Raw, at: int) {
    match op
    case DoEnqueue(_, x) => x != raw
    case DoSchedule(x, _) => x != raw
    case DoRequeueDead(_, x) => x != raw
    case DoPromoteScheduled(x) => x != raw
    case DoPromoteDue(now, _) => now < at
    case DoRecover(now) => forall m :: m in s.processing && StripToken(m) == raw ==> s.processing[m] > now
    case _ => true
  }

  ghost predicate AllLeave(orgOf: Raw -> Org, s: State, ops: seq<Op>, raw: Raw, at: int)
    decreases |ops|
  {
    ops == [] || (Leaves(s, ops[0], raw, at) && AllLeave(orgOf, Apply(orgOf, s, ops[0]), ops[1..], raw, at))
  }

  /** No lease of raw that was not there before. */
  ghost predicate NoNewLease(s: State, s': State, raw: Raw) {
    forall m :: m in s'.processing && StripToken(m) == raw ==> m in s.processing
  }

  lemma {:induction false} PromotedFrom(orgOf: Raw -> Org, s: State, due: seq<Raw>, o: Org, x: Raw)
    requires x in ListAt(PromoteAll(orgOf, s, due).pending, o)
    ensures x in ListAt(s.pending, o) || x in due
    decreases |due|
  {
    if due != [] {
      var (n, mid) := (|due| - 1, PromoteAll(orgOf, s, due[..|due| - 1]));
      assert due == due[..n] + [due[n]];
      if x in ListAt(mid.pending, o) { PromotedFrom(orgOf, s, due[..n], o, x); }
    }
  }

  lemma SweepPasses(orgOf: Raw -> Org, s: State, now: int, limit: int, raw: Raw, at: int)
    requires Asleep(s, raw, at) && now < at
    ensures Asleep(PromoteDue(orgOf, s, now, limit), raw, at)
    ensures PromoteDue(orgOf, s, now, limit).processing == s.processing
  {
    var due := Limited(Due(s.scheduled, now), limit);
    assert forall x :: x in due ==> x in Due(s.scheduled, now);
    PromoteAllKeys(orgOf, s, due);
    forall o ensures raw !in ListAt(PromoteAll(orgOf, s, due).pending, o) {
      if raw in ListAt(PromoteAll(orgOf, s, due).pending, o) { PromotedFrom(orgOf, s, due, o, raw); }
    }
  }

  lemma RecoverPasses(s: State, now: int, raw: Raw, at: int)
    requires Asleep(s, raw, at) && Leaves(s, DoRecover(now), raw, at)
    ensures Asleep(Recover(s, now), raw, at) && NoNewLease(s, Recover(s, now), raw)
  {
    var expired := Due(s.processing, now);
    RecoverAllKeys(s, now, expired);
    RecoverLeavesPending(s, now, expired);
    assert raw !in Payloads(expired);
  }

  lemma PickPasses(s: State, deadline: int, token: Token, raw: Raw, at: int)
    requires Asleep(s, raw, at)
    ensures Asleep(FairPick(s, deadline, token).after, raw, at) && NoNewLease(s, FairPick(s, deadline, token).after, raw)
  {
    if s.ring != [] && ListAt(s.pending, s.ring[0]) != [] {
      var l := ListAt(s.pending, s.ring[0]);
      assert l[0] in l;
      StripUndoesTag(token, l[0]);
      forall o ensures raw !in ListAt(FairPick(s, deadline, token).after.pending, o) {
        assert raw !in ListAt(s.pending, o) && raw !in l[1..];
      }
    }
  }

  lemma PushPasses(s: State, o: Org, x: Raw, raw: Raw, at: int)
    requires Asleep(s, raw, at) && x != raw
    ensures Asleep(Push(s, o, x), raw, at)
  {
    forall o' ensures raw !in ListAt(Push(s, o, x).pending, o') {
      assert raw !in ListAt(s.pending, o') && raw !in ListAt(s.pending, o) + [x];
    }
  }

  lemma AsleepStep(orgOf: Raw -> Org, s: State, op: Op, raw: Raw, at: int)
    requires Asleep(s, raw, at) && Leaves(s, op, raw, at)
    ensures Asleep(Apply(orgOf, s, op), raw, at) && NoNewLease(s, Apply(orgOf, s, op), raw)
  {
    match op {
      case DoEnqueue(o, x) => PushPasses(s, o, x, raw, at);
      case DoPick(deadline, token) => PickPasses(s, deadline, token, raw, at);
      case DoPromoteDue(now, limit) => SweepPasses(orgOf, s, now, limit, raw, at);
      case DoRecover(now) => RecoverPasses(s, now, raw, at);
      case DoRequeueDead(x, y) => PushPasses(s.(dead := WithoutFirst(s.dead, x)), orgOf(y), y, raw, at);
      case DoPromoteScheduled(x) => PushPasses(s.(scheduled := s.scheduled - {x}), orgOf(x), x, raw, at);
      case _ =>
    }
  }

  lemma {:induction false} StaysAsleep(orgOf: Raw -> Org, s: State, ops: seq<Op>, raw: Raw, at: int)
    requires Asleep(s, raw, at) && AllLeave(orgOf, s, ops, raw, at)
    ensures Asleep(Run(orgOf, s, ops), raw, at) && NoNewLease(s, Run(orgOf, s, ops), raw)
    decreases |ops|
  {
    if ops != [] {
      AsleepStep(orgOf, s, ops[0], raw, at);
      StaysAsleep(orgOf, Apply(orgOf, s, ops[0]), ops[1..], raw, at);
    }
  }

  /** What is scheduled for a time stays scheduled for that time, is made pending by no
      sweep and leased by no pick before it, whatever else the queue does, schedules of
      other payloads included; and once it has come, enough sweeps make it pending. */
  lemma NotBeforeItsTime(orgOf: Raw -> Org, s: State, raw: Raw, at: int, ops: seq<Op>, now: int, limit: nat, n: nat)
    requires forall o :: raw !in ListAt(s.pending, o)
    requires AllLeave(orgOf, Schedule(s, raw, at), ops, raw, at)
    ensures var s' := Run(orgOf, Schedule(s, raw, at), ops);
            && raw in s'.scheduled && s'.scheduled[raw] == at
            && (forall o :: raw !in ListAt(s'.pending, o))
            && (forall m :: m in s'.processing && StripToken(m) == raw ==> m in s.processing)
            && (now < at ==> raw !in Due(s'.scheduled, now))
            && (now >= at && Times(n, limit) >= |Due(s'.scheduled, now)| ==>
                  raw in ListAt(Sweeps(orgOf, s', now, limit, n).pending, orgOf(raw)))
  {
    StaysAsleep(orgOf, Schedule(s, raw, at), ops, raw, at);
    var s' := Run(orgOf, Schedule(s, raw, at), ops);
    if now >= at && Times(n, limit) >= |Due(s'.scheduled, now)| {
      SweptOrWaiting(orgOf, s', now, limit, n, raw);
      SweepsDrain(orgOf, s', now, limit, n);
      assert Due(Sweeps(orgOf, s', now, limit, n).scheduled, now) == [];
    }
  }

  // ---- leases ----------------------------------------------------------------------------

  /** An operation that leaves a lease alone: neither its own Ack or DeadLetter nor a
      recovery at or after its deadline; tokens do not come back. */
  predicate Respects(op: Op, member: Raw, deadline: int) {
    match op
    case DoPick(_, token) => token != TokenOf(member)
    case DoAck(m) => m != member
    case DoDeadLetter(m) => m != member
    case DoRecover(now) => now < deadline
    case _ => true
  }

  ghost predicate Leased(s: State, member: Raw, deadline: int) {
    member in s.processing && s.processing[member] == deadline
  }

  lemma LeaseStep(orgOf: Raw -> Org, s: State, op: Op, member: Raw, deadline: int)
    requires Leased(s, member, deadline) && Respects(op, member, deadline)
    ensures Leased(Apply(orgOf, s, op), member, deadline)
  {
    match op {
      case DoPick(d, token) =>
        if s.ring != [] && ListAt(s.pending, s.ring[0]) != [] { StripUndoesTag(token, ListAt(s.pending, s.ring[0])[0]); }
      case DoPromoteDue(now, limit) => PromoteAllKeys(orgOf, s, Limited(Due(s.scheduled, now), limit));
      case DoRecover(now) =>
        RecoverAllKeys(s, now, Due(s.processing, now));
        RecoverLeaseScores(s, now, Due(s.processing, now));
      case _ =>
    }
  }

  lemma {:induction false} RecoverLeaseScores(s: State, now: int, expired: seq<Raw>)
    ensures forall m :: m in RecoverAll(s, now, expired).processing ==>
              m in s.processing && RecoverAll(s, now, expired).processing[m] == s.processing[m]
    decreases |expired|
  {
    if expired != [] { RecoverLeaseScores(s, now, expired[..|expired| - 1]); }
  }

  lemma {:induction false} LeaseRun(orgOf: Raw -> Org, s: State, ops: seq<Op>, member: Raw, deadline: int)
    requires Leased(s, member, deadline) && forall i :: 0 <= i < |ops| ==> Respects(ops[i], member, deadline)
    ensures Leased(Run(orgOf, s, ops), member, deadline)
    decreases |ops|
  {
    if ops != [] {
      LeaseStep(orgOf, s, ops[0], member, deadline);
      assert forall i :: 0 <= i < |ops| - 1 ==> ops[1..][i] == ops[i + 1];
      LeaseRun(orgOf, Apply(orgOf, s, ops[0]), ops[1..], member, deadline);
    }
  }
}
