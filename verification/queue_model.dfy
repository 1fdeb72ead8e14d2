/** The delivery queue as values: one function per atomic step (each Lua script,
    plus the two bare Redis commands Schedule and Ack). */
module QueueModel {
  import opened Lease
  import opened Ordering

  type Org = nat

  datatype Option<+T> = None | Some(value: T)

  /** The keyspace. Lists are sequences and an empty list is a missing key;
      sorted sets map exact bytes to scores; `notify` holds identical entries. */
  datatype State = State(
    ring: seq<Org>,
    pending: map<Org, seq<Raw>>,
    processing: map<Raw, int>,
    scheduled: map<Raw, int>,
    dead: seq<Raw>,
    notify: nat)

  const EMPTY := State([], map[], map[], map[], [], 0)

  const DEAD_CAP: nat := 10000
  const NOTIFY_CAP: nat := 1025

  /** LRANGE of a list that may be missing. */
  function ListAt(m: map<Org, seq<Raw>>, o: Org): seq<Raw> {
    if o in m then m[o] else []
  }

  /** Storing a list: Redis deletes the key of a list that becomes empty. */
  function StoreList(m: map<Org, seq<Raw>>, o: Org, l: seq<Raw>): map<Org, seq<Raw>> {
    if l == [] then m - {o} else m[o := l]
  }

  /** RPUSH the payload; the org joins the ring on its first pending payload. */
  function Push(s: State, o: Org, raw: Raw): State {
    var l := ListAt(s.pending, o) + [raw];
    s.(pending := s.pending[o := l],
       ring := if |l| == 1 then s.ring + [o] else s.ring)
  }

  function Woken(s: State, n: nat): State {
    s.(notify := if s.notify + n > NOTIFY_CAP then NOTIFY_CAP else s.notify + n)
  }

  function Enqueue(s: State, o: Org, raw: Raw): State { Woken(Push(s, o, raw), 1) }

  datatype Pick = Pick(after: State, got: Option<Raw>)

  function FairPick(s: State, deadline: int, token: Token): Pick {
    if s.ring == [] then Pick(s, None) else
      var o := s.ring[0];
      var s1 := s.(ring := s.ring[1..]);
      var l := ListAt(s.pending, o);
      if l == [] then Pick(s1, None) else
        var member := Tagged(token, l[0]);
        Pick(s1.(pending := StoreList(s.pending, o, l[1..]),
                 processing := s.processing[member := deadline],
                 ring := if |l[1..]| > 0 then s1.ring + [o] else s1.ring),
             Some(member))
  }

  function Ack(s: State, member: Raw): State {
    s.(processing := s.processing - {member})
  }

  /** LTRIM key -cap -1. */
  function Newest(l: seq<Raw>, cap: nat): seq<Raw> {
    if |l| <= cap then l else l[|l| - cap..]
  }

  function DeadLetter(s: State, member: Raw): State {
    s.(dead := Newest(s.dead + [LuaStrip(member)], DEAD_CAP),
       processing := s.processing - {member})
  }

  function Schedule(s: State, raw: Raw, at: int): State {
    s.(scheduled := s.scheduled[raw := at])
  }

  // ---- ordered range reads -------------------------------------------------

  datatype Entry = Entry(score: int, member: Raw)

  predicate EntryLess(a: Entry, b: Entry) {
    a.score < b.score || (a.score == b.score && BytesLess(a.member, b.member))
  }

  /** Redis's order on a sorted set is a strict total order, so every range read
      has exactly one answer. */
  lemma EntryOrder()
    ensures StrictTotal(EntryLess)
  {
    forall x: Entry ensures !EntryLess(x, x) { BytesIrreflexive(x.member); }
    forall x: Entry, y: Entry, z: Entry | EntryLess(x, y) && EntryLess(y, z)
      ensures EntryLess(x, z)
    {
      if x.score == y.score == z.score { BytesTransitive(x.member, y.member, z.member); }
    }
    forall x: Entry, y: Entry | x != y ensures EntryLess(x, y) || EntryLess(y, x) {
      if x.score == y.score { BytesConnected(x.member, y.member); }
    }
  }

  ghost function Entries(z: map<Raw, int>, max: int): set<Entry> {
    set k | k in z && z[k] <= max :: Entry(z[k], k)
  }

  function Members(es: seq<Entry>): (r: seq<Raw>)
    ensures |r| == |es| && forall i :: 0 <= i < |es| ==> r[i] == es[i].member
  {
    seq(|es|, i requires 0 <= i < |es| => es[i].member)
  }

  /** Members of z in ascending (score, bytes) order. */
  ghost predicate Ordered(z: map<Raw, int>, r: seq<Raw>) {
    && (forall i :: 0 <= i < |r| ==> r[i] in z)
    && Ascending(EntryLess, WithScores(z, r))
  }

  ghost function WithScores(z: map<Raw, int>, r: seq<Raw>): (es: seq<Entry>)
    requires forall i :: 0 <= i < |r| ==> r[i] in z
    ensures |es| == |r| && forall i :: 0 <= i < |r| ==> es[i] == Entry(z[r[i]], r[i])
  {
    seq(|r|, i requires 0 <= i < |r| => Entry(z[r[i]], r[i]))
  }

  ghost predicate IsDue(z: map<Raw, int>, max: int, r: seq<Raw>) {
    && (forall k :: k in r <==> k in z && z[k] <= max)
    && (forall i, j :: 0 <= i < j < |r| ==> r[i] != r[j])
    && Ordered(z, r)
  }

  lemma SortedMembers(z: map<Raw, int>, max: int, es: seq<Entry>)
    requires Ascending(EntryLess, es)
    requires forall e :: e in es <==> e in Entries(z, max)
    ensures IsDue(z, max, Members(es))
  {
    var r := Members(es);
    forall i | 0 <= i < |es| ensures r[i] in z && es[i] == Entry(z[r[i]], r[i]) && z[r[i]] <= max {
      assert es[i] in Entries(z, max);
    }
    forall k | k in z && z[k] <= max ensures k in r {
      assert Entry(z[k], k) in es;
      var i :| 0 <= i < |es| && es[i] == Entry(z[k], k);
      assert r[i] == k;
    }
    assert WithScores(z, r) == es;
    forall i, j | 0 <= i < j < |r| ensures r[i] != r[j] {
      assert EntryLess(es[i], es[j]);
      BytesIrreflexive(r[i]);
    }
  }

  lemma DueExists(z: map<Raw, int>, max: int)
    ensures exists r :: IsDue(z, max, r)
  {
    EntryOrder();
    var es := Sort(EntryLess, Entries(z, max));
    SortedMembers(z, max, es);
  }

  /** ZRANGEBYSCORE z -inf max: the members with score at most max, each once, in
      ascending (score, bytes) order. */
  ghost function Due(z: map<Raw, int>, max: int): (r: seq<Raw>)
    ensures IsDue(z, max, r)
  {
    DueExists(z, max);
    var r :| IsDue(z, max, r);
    r
  }

  lemma ScoredElements(z: map<Raw, int>, max: int, l: seq<Raw>)
    requires IsDue(z, max, l)
    ensures forall e :: e in WithScores(z, l) <==> e in Entries(z, max)
  {
    var es := WithScores(z, l);
    forall e ensures e in es <==> e in Entries(z, max) {
      if e in es {
        var i :| 0 <= i < |l| && es[i] == e;
        assert l[i] in l;
      }
      if e in Entries(z, max) {
        assert e.member in l;
        var i :| 0 <= i < |l| && l[i] == e.member;
        assert es[i] == e;
      }
    }
  }

  /** Redis's order leaves one possible answer. */
  lemma DueUnique(z: map<Raw, int>, max: int, l: seq<Raw>)
    requires IsDue(z, max, l)
    ensures l == Due(z, max)
  {
    EntryOrder();
    var due := Due(z, max);
    ScoredElements(z, max, l);
    ScoredElements(z, max, due);
    SortUnique(EntryLess, WithScores(z, l), Entries(z, max));
    SortUnique(EntryLess, WithScores(z, due), Entries(z, max));
    assert forall i :: 0 <= i < |l| ==> l[i] == WithScores(z, l)[i].member;
    assert forall i :: 0 <= i < |due| ==> due[i] == WithScores(z, due)[i].member;
  }

  /** LIMIT 0 n: a negative count means no limit. */
  function Limited(l: seq<Raw>, limit: int): seq<Raw> {
    if 0 <= limit < |l| then l[..limit] else l
  }

  // ---- the looping scripts, one iteration at a time ------------------------

  function PromoteOne(orgOf: Raw -> Org, s: State, raw: Raw): State {
    Push(s.(scheduled := s.scheduled - {raw}), orgOf(raw), raw)
  }

  function PromoteAll(orgOf: Raw -> Org, s: State, due: seq<Raw>): State
    decreases |due|
  {
    if due == [] then s
    else PromoteOne(orgOf, PromoteAll(orgOf, s, due[..|due| - 1]), due[|due| - 1])
  }

  lemma {:induction false} PromoteLeavesNotify(orgOf: Raw -> Org, s: State, due: seq<Raw>)
    ensures PromoteAll(orgOf, s, due).notify == s.notify
    decreases |due|
  {
    if due != [] { PromoteLeavesNotify(orgOf, s, due[..|due| - 1]); }
  }

  ghost function PromoteDue(orgOf: Raw -> Org, s: State, now: int, limit: int): State {
    var due := Limited(Due(s.scheduled, now), limit);
    Woken(PromoteAll(orgOf, s, due), |due|)
  }

  function RecoverOne(s: State, now: int, member: Raw): State {
    s.(processing := s.processing - {member},
       scheduled := s.scheduled[LuaStrip(member) := now])
  }

  function RecoverAll(s: State, now: int, expired: seq<Raw>): State
    decreases |expired|
  {
    if expired == [] then s
    else RecoverOne(RecoverAll(s, now, expired[..|expired| - 1]), now, expired[|expired| - 1])
  }

  ghost function Recover(s: State, now: int): State {
    RecoverAll(s, now, Due(s.processing, now))
  }

  // ---- admin operations ----------------------------------------------------

  /** LREM key 1 x. */
  function WithoutFirst(l: seq<Raw>, x: Raw): seq<Raw> {
    if l == [] then [] else if l[0] == x then l[1..] else [l[0]] + WithoutFirst(l[1..], x)
  }

  function RequeueDead(orgOf: Raw -> Org, s: State, oldRaw: Raw, newRaw: Raw): State {
    if oldRaw in s.dead
    then Enqueue(s.(dead := WithoutFirst(s.dead, oldRaw)), orgOf(newRaw), newRaw)
    else s
  }

  function PromoteScheduled(orgOf: Raw -> Org, s: State, raw: Raw): State {
    if raw in s.scheduled then Woken(PromoteOne(orgOf, s, raw), 1) else s
  }

  function DrainDead(s: State): State { s.(dead := []) }

  /** BRPOP notify: takes one wakeup when there is one. */
  function TakeNotify(s: State): State {
    if s.notify > 0 then s.(notify := s.notify - 1) else s
  }

  // ---- runs ----------------------------------------------------------------

  datatype Op =
    | DoEnqueue(org: Org, raw: Raw)
    | DoPick(deadline: int, token: Token)
    | DoAck(member: Raw)
    | DoDeadLetter(member: Raw)
    | DoSchedule(raw: Raw, at: int)
    | DoPromoteDue(now: int, limit: int)
    | DoRecover(now: int)
    | DoRequeueDead(oldRaw: Raw, newRaw: Raw)
    | DoPromoteScheduled(raw: Raw)
    | DoDrainDead
    | DoTakeNotify

  ghost function Apply(orgOf: Raw -> Org, s: State, op: Op): State {
    match op
    case DoEnqueue(o, raw) => Enqueue(s, o, raw)
    case DoPick(deadline, token) => FairPick(s, deadline, token).after
    case DoAck(m) => Ack(s, m)
    case DoDeadLetter(m) => DeadLetter(s, m)
    case DoSchedule(raw, at) => Schedule(s, raw, at)
    case DoPromoteDue(now, limit) => PromoteDue(orgOf, s, now, limit)
    case DoRecover(now) => Recover(s, now)
    case DoRequeueDead(r, r') => RequeueDead(orgOf, s, r, r')
    case DoPromoteScheduled(raw) => PromoteScheduled(orgOf, s, raw)
    case DoDrainDead => DrainDead(s)
    case DoTakeNotify => TakeNotify(s)
  }

  /** Callers enqueue a payload under the org the payload itself names. */
  predicate Homed(orgOf: Raw -> Org, op: Op) {
    op.DoEnqueue? ==> orgOf(op.raw) == op.org
  }

  ghost function Run(orgOf: Raw -> Org, s: State, ops: seq<Op>): State
    decreases |ops|
  {
    if ops == [] then s else Run(orgOf, Apply(orgOf, s, ops[0]), ops[1..])
  }

  predicate AllHomed(orgOf: Raw -> Org, ops: seq<Op>) {
    forall i :: 0 <= i < |ops| ==> Homed(orgOf, ops[i])
  }

  // ---- the ring invariant --------------------------------------------------

  ghost predicate RingOk(orgOf: Raw -> Org, s: State) {
    && (forall i, j :: 0 <= i < j < |s.ring| ==> s.ring[i] != s.ring[j])
    && (forall o :: o in s.ring <==> o in s.pending)
    && (forall o :: o in s.pending ==> s.pending[o] != [])
    && (forall o, i :: o in s.pending && 0 <= i < |s.pending[o]| ==> orgOf(s.pending[o][i]) == o)
  }

  lemma PushKeepsRing(orgOf: Raw -> Org, s: State, raw: Raw)
    requires RingOk(orgOf, s)
    ensures RingOk(orgOf, Push(s, orgOf(raw), raw))
  {
    var s' := Push(s, orgOf(raw), raw);
    assert |ListAt(s.pending, orgOf(raw)) + [raw]| == 1 <==> orgOf(raw) !in s.pending;
    forall o ensures o in s'.ring <==> o in s'.pending {
      assert o in s'.ring <==> o in s.ring || o == orgOf(raw);
    }
  }

  lemma PickKeepsRing(orgOf: Raw -> Org, s: State, deadline: int, token: Token)
    requires RingOk(orgOf, s)
    ensures RingOk(orgOf, FairPick(s, deadline, token).after)
  {
    if s.ring != [] {
      var o := s.ring[0];
      assert o in s.ring;
      var l := s.pending[o];
      var s' := FairPick(s, deadline, token).after;
      assert s.ring == [o] + s.ring[1..];
      assert o !in s.ring[1..];
      forall x ensures x in s'.ring <==> x in s'.pending {
        assert x in s.ring <==> x == o || x in s.ring[1..];
        assert x in s'.ring <==> x in s.ring[1..] || (x == o && |l| > 1);
      }
    }
  }

  lemma {:induction false} PromoteKeepsRing(orgOf: Raw -> Org, s: State, due: seq<Raw>)
    requires RingOk(orgOf, s)
    ensures RingOk(orgOf, PromoteAll(orgOf, s, due))
    decreases |due|
  {
    if due != [] {
      var raw := due[|due| - 1];
      PromoteKeepsRing(orgOf, s, due[..|due| - 1]);
      var m := PromoteAll(orgOf, s, due[..|due| - 1]);
      PushKeepsRing(orgOf, m.(scheduled := m.scheduled - {raw}), raw);
    }
  }

  lemma {:induction false} RecoverLeavesPending(s: State, now: int, expired: seq<Raw>)
    ensures RecoverAll(s, now, expired).ring == s.ring
    ensures RecoverAll(s, now, expired).pending == s.pending
    ensures RecoverAll(s, now, expired).dead == s.dead
    decreases |expired|
  {
    if expired != [] { RecoverLeavesPending(s, now, expired[..|expired| - 1]); }
  }

  lemma StepKeepsRing(orgOf: Raw -> Org, s: State, op: Op)
    requires RingOk(orgOf, s) && Homed(orgOf, op)
    ensures RingOk(orgOf, Apply(orgOf, s, op))
  {
    match op {
      case DoEnqueue(o, raw) => PushKeepsRing(orgOf, s, raw);
      case DoPick(deadline, token) => PickKeepsRing(orgOf, s, deadline, token);
      case DoPromoteDue(now, limit) =>
        PromoteKeepsRing(orgOf, s, Limited(Due(s.scheduled, now), limit));
      case DoRecover(now) => RecoverLeavesPending(s, now, Due(s.processing, now));
      case DoRequeueDead(r, r') =>
        PushKeepsRing(orgOf, s.(dead := WithoutFirst(s.dead, r)), r');
      case DoPromoteScheduled(raw) =>
        PushKeepsRing(orgOf, s.(scheduled := s.scheduled - {raw}), raw);
      case _ =>
    }
  }

  /** After every operation of every run: no org twice in the ring, the ring holds
      exactly the orgs with pending payloads, each payload waits under its own org. */
  lemma {:induction false} RingAlwaysOk(orgOf: Raw -> Org, s: State, ops: seq<Op>)
    requires RingOk(orgOf, s) && AllHomed(orgOf, ops)
    ensures RingOk(orgOf, Run(orgOf, s, ops))
    decreases |ops|
  {
    if ops != [] {
      assert Homed(orgOf, ops[0]);
      StepKeepsRing(orgOf, s, ops[0]);
      assert AllHomed(orgOf, ops[1..]) by {
        forall i | 0 <= i < |ops| - 1 ensures Homed(orgOf, ops[1..][i]) { assert Homed(orgOf, ops[i + 1]); }
      }
      RingAlwaysOk(orgOf, Apply(orgOf, s, ops[0]), ops[1..]);
    }
  }

  /** FairPick says "nothing to do" exactly when no payload is pending under any
      org: the script's empty-list exit is never taken. */
  lemma PickEmptyIff(orgOf: Raw -> Org, ops: seq<Op>, deadline: int, token: Token)
    requires AllHomed(orgOf, ops)
    ensures var s := Run(orgOf, EMPTY, ops);
            && (FairPick(s, deadline, token).got.None? <==> forall o :: ListAt(s.pending, o) == [])
            && (s.ring != [] ==> ListAt(s.pending, s.ring[0]) != [])
  {
    RingAlwaysOk(orgOf, EMPTY, ops);
    var s := Run(orgOf, EMPTY, ops);
    if s.ring != [] {
      assert s.ring[0] in s.ring;
      assert ListAt(s.pending, s.ring[0]) != [];
    } else {
      forall o ensures ListAt(s.pending, o) == [] { assert o !in s.ring; }
    }
  }
}
