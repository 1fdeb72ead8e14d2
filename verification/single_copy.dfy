/** A task with one copy in the queue keeps one copy there, whatever the queue does, as
    long as nobody brings in or takes out another. */
module SingleCopy {
  import opened Lease
  import opened QueueModel
  import opened Copies
  import opened History
  import opened Payloads
  import opened Handlers
  import opened System
  import RetryBound

  /** The only copies of t are this many of this payload. */
  ghost predicate Only(site: Site, q: State, t: Task, r: Raw, n: nat) {
    forall x :: TaskOfRaw(site, x) == t ==> Count(site.codec.OrgOf, q, {}, x) == if x == r then n else 0
  }

  /** Entries of t on the dead list. */
  function Graves(site: Site, t: Task, dead: seq<Raw>): nat
    decreases |dead|
  {
    if dead == [] then 0
    else Graves(site, t, dead[..|dead| - 1]) + (if TaskOfRaw(site, dead[|dead| - 1]) == t then 1 else 0)
  }

  lemma {:induction false} NoGraves(site: Site, t: Task, dead: seq<Raw>)
    ensures Graves(site, t, dead) == 0 <==> forall i :: 0 <= i < |dead| ==> TaskOfRaw(site, dead[i]) != t
    decreases |dead|
  {
    if dead != [] {
      var n := |dead| - 1;
      NoGraves(site, t, dead[..n]);
      assert forall i :: 0 <= i < n ==> dead[..n][i] == dead[i];
    }
  }

  lemma Buried(site: Site, t: Task, q: State, member: Raw)
    requires TaskAt(site, member) == t && Graves(site, t, q.dead) == 0
    ensures Graves(site, t, DeadLetter(q, member).dead) == 1
  {
    StripAgrees(member);
    var dead' := DeadLetter(q, member).dead;
    var n := |dead'| - 1;
    NoGraves(site, t, q.dead);
    NoGraves(site, t, dead'[..n]);
    assert dead'[n] == LuaStrip(member);
    assert forall i :: 0 <= i < n ==> dead'[..n][i] == (q.dead + [LuaStrip(member)])[|q.dead| - n + i];
  }

  /** An operation that neither brings a payload of t in nor settles one of its leases. */
  predicate Apart(site: Site, t: Task, op: Op) {
    match op
    case DoEnqueue(_, raw) => TaskOfRaw(site, raw) != t
    case DoSchedule(raw, _) => TaskOfRaw(site, raw) != t
    case DoRequeueDead(_, raw) => TaskOfRaw(site, raw) != t
    case DoAck(m) => TaskAt(site, m) != t
    case DoDeadLetter(m) => TaskAt(site, m) != t
    case _ => true
  }

  predicate AllApart(site: Site, t: Task, ops: seq<Op>) {
    forall i :: 0 <= i < |ops| ==> Apart(site, t, ops[i])
  }

  lemma EntersApart(site: Site, t: Task, q: State, op: Op, x: Raw)
    requires Homed(site.codec.OrgOf, op) && RetryBound.Enters(op) && Apart(site, t, op) && TaskOfRaw(site, x) == t
    ensures Count(site.codec.OrgOf, Apply(site.codec.OrgOf, q, op), {}, x) == Count(site.codec.OrgOf, q, {}, x)
  {
    RetryBound.EnterTally(site.codec.OrgOf, q, op, {}, x);
  }

  lemma SettlesApart(site: Site, t: Task, q: State, op: Op, x: Raw)
    requires (op.DoAck? || op.DoDeadLetter?) && Apart(site, t, op) && TaskOfRaw(site, x) == t
    ensures Count(site.codec.OrgOf, Apply(site.codec.OrgOf, q, op), {}, x) == Count(site.codec.OrgOf, q, {}, x)
  {
    DropCount(site.codec.OrgOf, q, op.member, {}, x);
  }

  lemma SameTally(site: Site, t: Task, h: Log, op: Op, x: Raw)
    requires RingOk(site.codec.OrgOf, h.s) && TokensUsed(h) && Allowed(site.codec.OrgOf, h, op)
    requires Apart(site, t, op) && TaskOfRaw(site, x) == t && Count(site.codec.OrgOf, h.s, {}, x) <= 1
    ensures Count(site.codec.OrgOf, Apply(site.codec.OrgOf, h.s, op), {}, x) == Count(site.codec.OrgOf, h.s, {}, x)
  {
    if Mover(op) {
      MoverStep(site.codec.OrgOf, h, op, x);
    } else if RetryBound.Enters(op) {
      EntersApart(site, t, h.s, op, x);
    } else if op.DoAck? || op.DoDeadLetter? {
      SettlesApart(site, t, h.s, op, x);
    } else {
      RetryBound.ShuffleTally(site.codec.OrgOf, h.s, op, {}, x);
    }
  }

  lemma {:induction false} Without(l: seq<Raw>, x: Raw)
    ensures forall k :: k in WithoutFirst(l, x) ==> k in l
  {
    if l != [] && l[0] != x {
      Without(l[1..], x);
      forall k | k in WithoutFirst(l, x) ensures k in l { assert k == l[0] || k in WithoutFirst(l[1..], x); }
    }
  }

  /** No operation of this kind digs t a grave. */
  lemma DeadStep(site: Site, t: Task, q: State, op: Op)
    requires Apart(site, t, op)
    ensures forall k :: k in Apply(site.codec.OrgOf, q, op).dead ==> k in q.dead || TaskOfRaw(site, k) != t
  {
    match op {
      case DoDeadLetter(m) => StripAgrees(m);
      case DoPromoteDue(now, limit) => PromoteAllKeys(site.codec.OrgOf, q, Limited(Due(q.scheduled, now), limit));
      case DoRecover(now) => RecoverLeavesPending(q, now, Due(q.processing, now));
      case DoRequeueDead(x, _) => Without(q.dead, x);
      case _ =>
    }
  }

  lemma GravesStep(site: Site, t: Task, q: State, op: Op)
    requires Apart(site, t, op) && Graves(site, t, q.dead) == 0
    ensures Graves(site, t, Apply(site.codec.OrgOf, q, op).dead) == 0
  {
    var dead' := Apply(site.codec.OrgOf, q, op).dead;
    DeadStep(site, t, q, op);
    NoGraves(site, t, q.dead);
    NoGraves(site, t, dead');
    forall i | 0 <= i < |dead'| ensures TaskOfRaw(site, dead'[i]) != t { assert dead'[i] in dead'; }
  }

  /** Leases and ring in order, and t has n copies, of this payload. */
  ghost predicate Settled(site: Site, h: Log, t: Task, r: Raw, n: nat) {
    RingOk(site.codec.OrgOf, h.s) && TokensUsed(h) && Only(site, h.s, t, r, n)
  }

  lemma SettledStep(site: Site, h: Log, op: Op, t: Task, r: Raw, n: nat)
    requires n <= 1 && Settled(site, h, t, r, n) && Allowed(site.codec.OrgOf, h, op) && Apart(site, t, op)
    ensures Settled(site, Next(site.codec.OrgOf, h, op), t, r, n)
  {
    var h' := Next(site.codec.OrgOf, h, op);
    StepKeepsRing(site.codec.OrgOf, h.s, op);
    TokensStep(site.codec.OrgOf, h, op);
    forall x | TaskOfRaw(site, x) == t ensures Count(site.codec.OrgOf, h'.s, {}, x) == if x == r then n else 0 {
      SameTally(site, t, h, op, x);
    }
  }

  lemma {:induction false} SettledRun(site: Site, h: Log, ops: seq<Op>, t: Task, r: Raw, n: nat)
    requires n <= 1 && Settled(site, h, t, r, n) && AllAllowed(site.codec.OrgOf, h, ops) && AllApart(site, t, ops)
    ensures Settled(site, After(site.codec.OrgOf, h, ops), t, r, n)
    ensures Graves(site, t, h.s.dead) == 0 ==> Graves(site, t, After(site.codec.OrgOf, h, ops).s.dead) == 0
    decreases |ops|
  {
    if ops != [] {
      assert Apart(site, t, ops[0]);
      SettledStep(site, h, ops[0], t, r, n);
      if Graves(site, t, h.s.dead) == 0 { GravesStep(site, t, h.s, ops[0]); }
      assert forall i :: 0 <= i < |ops| - 1 ==> ops[1..][i] == ops[i + 1];
      SettledRun(site, Next(site.codec.OrgOf, h, ops[0]), ops[1..], t, r, n);
    }
  }

  lemma OneElement(l: set<Raw>, a: Raw, b: Raw)
    requires a in l && b in l && |l| <= 1
    ensures a == b
  {
    var rest := l - {a};
    assert l == {a} + rest;
    assert rest == {};
  }

  /** What the queue hands out of t is that copy, and there is no other to hand out. */
  lemma TheCopy(site: Site, q: State, t: Task, r: Raw, n: nat, member: Raw)
    requires n <= 1 && Only(site, q, t, r, n) && member in q.processing && TaskAt(site, member) == t
    ensures n == 1 && StripToken(member) == r
    ensures r !in q.scheduled && forall m :: m in q.processing && TaskAt(site, m) == t ==> m == member
  {
    var x := StripToken(member);
    var l := Leases(q.processing, {}, x);
    assert member in l;
    assert |l| >= 1 by { assert l == {member} + (l - {member}); }
    assert Count(site.codec.OrgOf, q, {}, x) >= 1;
    forall m | m in q.processing && TaskAt(site, m) == t ensures m == member {
      var y := StripToken(m);
      var k := Leases(q.processing, {}, y);
      assert m in k;
      assert |k| >= 1 by { assert k == {m} + (k - {m}); }
      assert Count(site.codec.OrgOf, q, {}, y) >= 1;
      OneElement(l, member, m);
    }
  }

  /** Scheduling the successor and dropping the lease: one copy still, the successor. */
  lemma Succeeded(site: Site, q: State, t: Task, member: Raw, r': Raw, at: int)
    requires Only(site, q, t, StripToken(member), 1) && member in q.processing && TaskAt(site, member) == t && TaskOfRaw(site, r') == t
    ensures Only(site, Ack(Schedule(q, r', at), member), t, r', 1)
  {
    var orgOf := site.codec.OrgOf;
    TheCopy(site, q, t, StripToken(member), 1, member);
    assert Count(orgOf, q, {}, r') == if r' == StripToken(member) then 1 else 0;
    assert r' !in q.scheduled;
    forall x | TaskOfRaw(site, x) == t
      ensures Count(orgOf, Ack(Schedule(q, r', at), member), {}, x) == if x == r' then 1 else 0
    {
      ScheduleCount(orgOf, q, r', at, {}, x);
      DropCount(orgOf, Schedule(q, r', at), member, {}, x);
    }
  }

  /** Burying it: none. */
  lemma Ended(site: Site, q: State, t: Task, member: Raw)
    requires Only(site, q, t, StripToken(member), 1) && member in q.processing && TaskAt(site, member) == t
    ensures Only(site, DeadLetter(q, member), t, StripToken(member), 0)
  {
    forall x | TaskOfRaw(site, x) == t ensures Count(site.codec.OrgOf, DeadLetter(q, member), {}, x) == 0 {
      DropCount(site.codec.OrgOf, q, member, {}, x);
    }
  }
}
