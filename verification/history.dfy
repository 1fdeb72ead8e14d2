/** Whole runs of the queue with their books: which tokens were handed out and
    where every accepted copy went. */
module History {
  import opened Lease
  import opened QueueModel
  import opened Copies

  /** accepted: enqueued, scheduled or requeued. acked, buried: leases removed by an
      Ack or a DeadLetter that found its member. merged: copies absorbed by an
      identical scheduled entry. */
  datatype Ledger = Ledger(
    accepted: multiset<Raw>,
    acked: multiset<Raw>,
    buried: multiset<Raw>,
    merged: multiset<Raw>)

  datatype Log = Log(s: State, used: set<Raw>, books: Ledger)

  const START := Log(EMPTY, {}, Ledger(multiset{}, multiset{}, multiset{}, multiset{}))

  ghost function Account(s: State, b: Ledger, op: Op): Ledger {
    match op
    case DoEnqueue(_, raw) => b.(accepted := b.accepted + multiset{raw})
    case DoSchedule(raw, _) =>
      b.(accepted := b.accepted + multiset{raw},
         merged := b.merged + if raw in s.scheduled then multiset{raw} else multiset{})
    case DoRequeueDead(oldRaw, newRaw) =>
      if oldRaw in s.dead then b.(accepted := b.accepted + multiset{newRaw}) else b
    case DoAck(m) =>
      if m in s.processing then b.(acked := b.acked + multiset{StripToken(m)}) else b
    case DoDeadLetter(m) =>
      if m in s.processing then b.(buried := b.buried + multiset{StripToken(m)}) else b
    case DoRecover(now) => b.(merged := b.merged + Merged(s, now, Due(s.processing, now)))
    case _ => b
  }

  ghost function Next(orgOf: Raw -> Org, h: Log, op: Op): Log {
    Log(Apply(orgOf, h.s, op),
        if op.DoPick? then h.used + {op.token} else h.used,
        Account(h.s, h.books, op))
  }

  /** uuid.NewString never repeats. */
  ghost predicate Allowed(orgOf: Raw -> Org, h: Log, op: Op) {
    Homed(orgOf, op) && (op.DoPick? ==> op.token !in h.used)
  }

  ghost function After(orgOf: Raw -> Org, h: Log, ops: seq<Op>): Log
    decreases |ops|
  {
    if ops == [] then h else After(orgOf, Next(orgOf, h, ops[0]), ops[1..])
  }

  ghost predicate AllAllowed(orgOf: Raw -> Org, h: Log, ops: seq<Op>)
    decreases |ops|
  {
    ops == [] || (Allowed(orgOf, h, ops[0]) && AllAllowed(orgOf, Next(orgOf, h, ops[0]), ops[1..]))
  }

  ghost predicate Balanced(orgOf: Raw -> Org, h: Log) {
    forall r :: h.books.accepted[r]
             == Count(orgOf, h.s, {}, r) + h.books.acked[r] + h.books.buried[r] + h.books.merged[r]
  }

  ghost predicate NoneMissing(orgOf: Raw -> Org, h: Log) {
    forall r :: r in h.books.accepted ==>
      Count(orgOf, h.s, {}, r) > 0 || r in h.books.acked || r in h.books.buried
  }

  ghost predicate TokensUsed(h: Log) {
    && (forall m :: m in h.s.processing ==> TokenOf(m) in h.used)
    && (forall m1, m2 :: m1 in h.s.processing && m2 in h.s.processing && TokenOf(m1) == TokenOf(m2) ==> m1 == m2)
  }

  ghost predicate Good(orgOf: Raw -> Org, h: Log) {
    RingOk(orgOf, h.s) && Balanced(orgOf, h) && NoneMissing(orgOf, h) && TokensUsed(h)
  }

  lemma FreshMember(h: Log, token: Token, evt: Raw)
    requires TokensUsed(h) && token !in h.used
    ensures Tagged(token, evt) !in h.s.processing
  {
    StripUndoesTag(token, evt);
  }

  /** A step brings at most one member into processing: the pick's, under its own
      fresh token. */
  lemma ProcessingStep(orgOf: Raw -> Org, s: State, op: Op)
    ensures forall m :: m in Apply(orgOf, s, op).processing ==>
              m in s.processing || (op.DoPick? && TokenOf(m) == op.token)
    ensures forall m1, m2 ::
              (m1 in Apply(orgOf, s, op).processing && m2 in Apply(orgOf, s, op).processing
               && m1 !in s.processing && m2 !in s.processing) ==> m1 == m2
  {
    match op {
      case DoPick(deadline, token) =>
        if s.ring != [] && ListAt(s.pending, s.ring[0]) != [] {
          StripUndoesTag(token, ListAt(s.pending, s.ring[0])[0]);
        }
      case DoPromoteDue(now, limit) =>
        PromoteAllKeys(orgOf, s, Limited(Due(s.scheduled, now), limit));
      case DoRecover(now) => RecoverAllKeys(s, now, Due(s.processing, now));
      case _ =>
    }
  }

  lemma TokensStep(orgOf: Raw -> Org, h: Log, op: Op)
    requires TokensUsed(h) && Allowed(orgOf, h, op)
    ensures TokensUsed(Next(orgOf, h, op))
  {
    ProcessingStep(orgOf, h.s, op);
  }

  predicate Mover(op: Op) {
    op.DoPick? || op.DoPromoteDue? || op.DoPromoteScheduled? || op.DoRecover?
  }

  /** The part of a step the ledger has to explain, for one payload. */
  ghost predicate Explained(orgOf: Raw -> Org, h: Log, h': Log, r: Raw) {
    var (c, c') := (Count(orgOf, h.s, {}, r), Count(orgOf, h'.s, {}, r));
    var (b, b') := (h.books, h'.books);
    && b'.accepted[r] + c + b.acked[r] + b.buried[r] + b.merged[r]
       == b.accepted[r] + c' + b'.acked[r] + b'.buried[r] + b'.merged[r]
    && b'.accepted[r] >= b.accepted[r] && b'.acked[r] >= b.acked[r] && b'.buried[r] >= b.buried[r]
    && (b'.accepted[r] > 0 && c' == 0 ==>
          (c == 0 && b'.accepted[r] == b.accepted[r]) || b'.acked[r] > b.acked[r] || b'.buried[r] > b.buried[r])
  }

  lemma PickMoves(orgOf: Raw -> Org, h: Log, op: Op, r: Raw)
    requires TokensUsed(h) && RingOk(orgOf, h.s) && Allowed(orgOf, h, op) && op.DoPick?
    ensures Count(orgOf, Apply(orgOf, h.s, op), {}, r) == Count(orgOf, h.s, {}, r)
  {
    if h.s.ring != [] && ListAt(h.s.pending, h.s.ring[0]) != [] {
      FreshMember(h, op.token, ListAt(h.s.pending, h.s.ring[0])[0]);
    }
    PickCount(orgOf, h.s, op.deadline, op.token, {}, r);
  }

  lemma MoverStep(orgOf: Raw -> Org, h: Log, op: Op, r: Raw)
    requires TokensUsed(h) && RingOk(orgOf, h.s) && Allowed(orgOf, h, op) && Mover(op)
    ensures var s' := Apply(orgOf, h.s, op);
            && Count(orgOf, s', {}, r)
               + (if op.DoRecover? then Merged(h.s, op.now, Due(h.s.processing, op.now))[r] else 0)
               == Count(orgOf, h.s, {}, r)
            && (Count(orgOf, h.s, {}, r) > 0 ==> Count(orgOf, s', {}, r) > 0)
  {
    match op {
      case DoPick(_, _) => PickMoves(orgOf, h, op, r);
      case DoPromoteDue(now, limit) => PromoteDueCount(orgOf, h.s, now, limit, {}, r);
      case DoRecover(now) => RecoverCount(orgOf, h.s, now, {}, r);
      case DoPromoteScheduled(raw) => if raw in h.s.scheduled { PromoteOneCount(orgOf, h.s, raw, {}, r); }
    }
  }

  lemma RemovalBooked(orgOf: Raw -> Org, h: Log, op: Op, r: Raw)
    requires op.DoAck? || op.DoDeadLetter?
    ensures Explained(orgOf, h, Next(orgOf, h, op), r)
  {
    DropCount(orgOf, h.s, op.member, {}, r);
  }

  lemma RequeueBooked(orgOf: Raw -> Org, h: Log, op: Op, r: Raw)
    requires op.DoRequeueDead?
    ensures Explained(orgOf, h, Next(orgOf, h, op), r)
  {
    if op.oldRaw in h.s.dead {
      PushCount(orgOf, h.s.(dead := WithoutFirst(h.s.dead, op.oldRaw)), op.newRaw, {}, r);
    }
  }

  lemma BookedStep(orgOf: Raw -> Org, h: Log, op: Op, r: Raw)
    requires Allowed(orgOf, h, op) && !Mover(op)
    ensures Explained(orgOf, h, Next(orgOf, h, op), r)
  {
    var s := h.s;
    match op {
      case DoEnqueue(o, raw) => PushCount(orgOf, s, raw, {}, r);
      case DoAck(_) | DoDeadLetter(_) => RemovalBooked(orgOf, h, op, r);
      case DoSchedule(raw, at) => ScheduleCount(orgOf, s, raw, at, {}, r);
      case DoRequeueDead(_, _) => RequeueBooked(orgOf, h, op, r);
      case _ =>
    }
  }

  /** A mover books nothing but what recovery merges. */
  lemma MoverBooks(s: State, b: Ledger, op: Op, r: Raw)
    requires Mover(op)
    ensures var b' := Account(s, b, op);
            && b'.accepted == b.accepted && b'.acked == b.acked && b'.buried == b.buried
            && b'.merged[r] == b.merged[r] + (if op.DoRecover? then Merged(s, op.now, Due(s.processing, op.now))[r] else 0)
  {
  }

  lemma MoverBooked(orgOf: Raw -> Org, h: Log, op: Op, r: Raw)
    requires TokensUsed(h) && RingOk(orgOf, h.s) && Allowed(orgOf, h, op) && Mover(op)
    ensures Explained(orgOf, h, Next(orgOf, h, op), r)
  {
    MoverStep(orgOf, h, op, r);
    MoverBooks(h.s, h.books, op, r);
  }

  lemma CountStep(orgOf: Raw -> Org, h: Log, op: Op, r: Raw)
    requires TokensUsed(h) && RingOk(orgOf, h.s) && Allowed(orgOf, h, op)
    ensures Explained(orgOf, h, Next(orgOf, h, op), r)
  {
    if Mover(op) { MoverBooked(orgOf, h, op, r); } else { BookedStep(orgOf, h, op, r); }
  }

  lemma GoodStep(orgOf: Raw -> Org, h: Log, op: Op)
    requires Good(orgOf, h) && Allowed(orgOf, h, op)
    ensures Good(orgOf, Next(orgOf, h, op))
  {
    var h' := Next(orgOf, h, op);
    StepKeepsRing(orgOf, h.s, op);
    TokensStep(orgOf, h, op);
    assert Balanced(orgOf, h') by {
      forall r ensures h'.books.accepted[r] == Count(orgOf, h'.s, {}, r) + h'.books.acked[r] + h'.books.buried[r] + h'.books.merged[r] {
        CountStep(orgOf, h, op, r);
      }
    }
    assert NoneMissing(orgOf, h') by {
      forall r | r in h'.books.accepted
        ensures Count(orgOf, h'.s, {}, r) > 0 || r in h'.books.acked || r in h'.books.buried
      {
        CountStep(orgOf, h, op, r);
      }
    }
  }

  lemma {:induction false} GoodRun(orgOf: Raw -> Org, h: Log, ops: seq<Op>)
    requires Good(orgOf, h) && AllAllowed(orgOf, h, ops)
    ensures Good(orgOf, After(orgOf, h, ops))
    decreases |ops|
  {
    if ops != [] {
      GoodStep(orgOf, h, ops[0]);
      GoodRun(orgOf, Next(orgOf, h, ops[0]), ops[1..]);
    }
  }

  lemma StartGood(orgOf: Raw -> Org)
    ensures Good(orgOf, START)
  {
    forall r ensures Count(orgOf, EMPTY, {}, r) == 0 {
      assert Leases(EMPTY.processing, {}, r) == {};
    }
  }

  /** Conservation over whole runs, payload by payload: every copy accepted is
      pending, leased or scheduled, or left by an effective Ack, an effective
      DeadLetter, or a merge. */
  lemma Conservation(orgOf: Raw -> Org, ops: seq<Op>, r: Raw)
    requires AllAllowed(orgOf, START, ops)
    ensures var h := After(orgOf, START, ops);
            h.books.accepted[r]
            == multiset(ListAt(h.s.pending, orgOf(r)))[r]
               + (if r in h.s.scheduled then 1 else 0)
               + |set m | m in h.s.processing && StripToken(m) == r|
               + h.books.acked[r] + h.books.buried[r] + h.books.merged[r]
  {
    StartGood(orgOf);
    GoodRun(orgOf, START, ops);
    var h := After(orgOf, START, ops);
    assert Leases(h.s.processing, {}, r) == set m | m in h.s.processing && StripToken(m) == r;
  }

  /** No accepted payload disappears: while it was never acknowledged nor
      dead-lettered, a copy of it is still in the queue. */
  lemma NothingLost(orgOf: Raw -> Org, ops: seq<Op>, r: Raw)
    requires AllAllowed(orgOf, START, ops)
    requires r in After(orgOf, START, ops).books.accepted
    ensures var h := After(orgOf, START, ops);
            || r in h.books.acked
            || r in h.books.buried
            || r in h.s.scheduled
            || r in ListAt(h.s.pending, orgOf(r))
            || exists m :: m in h.s.processing && StripToken(m) == r
  {
    StartGood(orgOf);
    GoodRun(orgOf, START, ops);
    var h := After(orgOf, START, ops);
    if |Leases(h.s.processing, {}, r)| > 0 {
      var m :| m in Leases(h.s.processing, {}, r);
    }
  }

  /** The movers (pick, promotion, recovery) neither create nor lose a payload; only
      recovery can reduce the number of copies, and never to zero. */
  lemma MoversConserve(orgOf: Raw -> Org, ops: seq<Op>, op: Op, r: Raw)
    requires AllAllowed(orgOf, START, ops) && Allowed(orgOf, After(orgOf, START, ops), op)
    requires Mover(op)
    ensures var s := After(orgOf, START, ops).s;
            var before := Count(orgOf, s, {}, r);
            var after := Count(orgOf, Apply(orgOf, s, op), {}, r);
            && after <= before
            && (before > 0 ==> after > 0)
            && (!op.DoRecover? ==> after == before)
  {
    StartGood(orgOf);
    GoodRun(orgOf, START, ops);
    var h := After(orgOf, START, ops);
    MoverStep(orgOf, h, op, r);
  }

  // ---- fencing -------------------------------------------------------------

  lemma {:induction false} LeasesSplit(orgOf: Raw -> Org, h: Log, first: seq<Op>, second: seq<Op>)
    ensures After(orgOf, h, first + second) == After(orgOf, After(orgOf, h, first), second)
    ensures AllAllowed(orgOf, h, first + second) <==>
            AllAllowed(orgOf, h, first) && AllAllowed(orgOf, After(orgOf, h, first), second)
    decreases |first|
  {
    if first == [] {
      assert first + second == second;
    } else {
      assert (first + second)[0] == first[0] && (first + second)[1..] == first[1..] + second;
      LeasesSplit(orgOf, Next(orgOf, h, first[0]), first[1..], second);
    }
  }

  lemma {:induction false} StaysGone(orgOf: Raw -> Org, h: Log, ops: seq<Op>, m: Raw)
    requires Good(orgOf, h) && AllAllowed(orgOf, h, ops)
    requires m !in h.s.processing && TokenOf(m) in h.used
    ensures m !in After(orgOf, h, ops).s.processing
    decreases |ops|
  {
    if ops != [] {
      var op := ops[0];
      var h' := Next(orgOf, h, op);
      GoodStep(orgOf, h, op);
      ProcessingStep(orgOf, h.s, op);
      StaysGone(orgOf, h', ops[1..], m);
    }
  }

  /** Fencing: once a lease is gone (recovered, acked or buried), an Ack or a
      DeadLetter by its old holder, however much later, leaves the whole processing
      set alone, so every newer lease of the same payload survives. */
  lemma StaleHolderHarmless(orgOf: Raw -> Org, before: seq<Op>, m: Raw, later: seq<Op>)
    requires AllAllowed(orgOf, START, before + later)
    requires var h := After(orgOf, START, before);
             TokenOf(m) in h.used && m !in h.s.processing
    ensures var s := After(orgOf, START, before + later).s;
            && Ack(s, m) == s
            && DeadLetter(s, m).processing == s.processing
  {
    LeasesSplit(orgOf, START, before, later);
    StartGood(orgOf);
    GoodRun(orgOf, START, before);
    StaysGone(orgOf, After(orgOf, START, before), later, m);
    var s := After(orgOf, START, before + later).s;
    assert s.processing - {m} == s.processing;
  }

  /** Two leases never share a token, and each lease is its token plus its payload. */
  lemma LeasesByToken(orgOf: Raw -> Org, ops: seq<Op>, m1: Raw, m2: Raw)
    requires AllAllowed(orgOf, START, ops)
    requires var z := After(orgOf, START, ops).s.processing; m1 in z && m2 in z
    requires TokenOf(m1) == TokenOf(m2)
    ensures m1 == m2
  {
    StartGood(orgOf);
    GoodRun(orgOf, START, ops);
  }

  // ---- when a burial ends a payload --------------------------------------------------

  lemma BuriedIsDead(s: State, m: Raw)
    ensures StripToken(m) in DeadLetter(s, m).dead
  {
    StripAgrees(m);
    var dead := DeadLetter(s, m).dead;
    assert dead[|dead| - 1] == LuaStrip(m);
  }

  /** A DeadLetter always lists its payload as dead. It leaves the payload live as well
      exactly when the queue held another copy: any copy at all if the lease was
      already gone, a second one if it was still there. */
  lemma BurialEndsPayload(orgOf: Raw -> Org, s: State, m: Raw)
    ensures var r := StripToken(m);
            && r in DeadLetter(s, m).dead
            && (Count(orgOf, DeadLetter(s, m), {}, r) > 0
                <==> Count(orgOf, s, {}, r) > (if m in s.processing then 1 else 0))
  {
    BuriedIsDead(s, m);
    DropCount(orgOf, s, m, {}, StripToken(m));
  }

  /** After any run: a payload just buried is in the queue as well, in pending,
      scheduled or leased, exactly when it had a copy besides the lease buried. */
  lemma DeadAndLive(orgOf: Raw -> Org, ops: seq<Op>, m: Raw)
    requires AllAllowed(orgOf, START, ops + [DoDeadLetter(m)])
    ensures var (s, s', r) := (After(orgOf, START, ops).s, After(orgOf, START, ops + [DoDeadLetter(m)]).s, StripToken(m));
            && r in s'.dead
            && (Live(orgOf, s', r) <==> Count(orgOf, s, {}, r) > (if m in s.processing then 1 else 0))
            && (m !in s.processing ==> (Live(orgOf, s', r) <==> Live(orgOf, s, r)))
  {
    LeasesSplit(orgOf, START, ops, [DoDeadLetter(m)]);
    var h := After(orgOf, START, ops);
    assert After(orgOf, h, [DoDeadLetter(m)]) == Next(orgOf, h, DoDeadLetter(m));
    BurialEndsPayload(orgOf, h.s, m);
    LiveIsCounted(orgOf, h.s, StripToken(m));
    LiveIsCounted(orgOf, DeadLetter(h.s, m), StripToken(m));
  }

  ghost predicate Live(orgOf: Raw -> Org, s: State, r: Raw) {
    || r in ListAt(s.pending, orgOf(r))
    || r in s.scheduled
    || exists m :: m in s.processing && StripToken(m) == r
  }

  lemma LiveIsCounted(orgOf: Raw -> Org, s: State, r: Raw)
    ensures Live(orgOf, s, r) <==> Count(orgOf, s, {}, r) > 0
  {
    var l := Leases(s.processing, {}, r);
    if m :| m in s.processing && StripToken(m) == r { assert m in l; }
    if |l| > 0 {
      var m :| m in l;
    }
  }

  /** A run that ends so: picked, recovered, promoted and picked again, and then buried
      by the first holder. */
  function LateBurial(o: Org, r: Raw, t1: Token, t2: Token): seq<Op> {
    [DoEnqueue(o, r), DoPick(10, t1), DoRecover(20), DoPromoteDue(20, 500), DoPick(30, t2), DoDeadLetter(Tagged(t1, r))]
  }

  lemma DueOne(k: Raw, score: int, max: int)
    requires score <= max
    ensures Due(map[k := score], max) == [k]
  {
    assert IsDue(map[k := score], max, [k]);
    DueUnique(map[k := score], max, [k]);
  }

  lemma RecoverOnly(s: State, m: Raw, r: Raw, now: int)
    requires s.processing == map[m := 10] && s.scheduled == map[] && now >= 10 && StripToken(m) == r
    ensures Recover(s, now) == s.(processing := map[], scheduled := map[r := now])
  {
    DueOne(m, 10, now);
    StripAgrees(m);
    assert [m][..0] == [];
    assert RecoverAll(s, now, [m]) == RecoverOne(RecoverAll(s, now, [m][..0]), now, m);
    assert map[m := 10] - {m} == map[];
    assert s.scheduled[r := now] == map[r := now];
  }

  lemma PromoteOnly(orgOf: Raw -> Org, s: State, r: Raw, now: int)
    requires s.scheduled == map[r := now] && s.ring == [] && s.pending == map[] && s.notify <= 1
    ensures PromoteDue(orgOf, s, now, 500)
         == s.(scheduled := map[], ring := [orgOf(r)], pending := map[orgOf(r) := [r]], notify := s.notify + 1)
  {
    DueOne(r, now, now);
    assert [r][..0] == [];
    assert PromoteAll(orgOf, s, [r]) == PromoteOne(orgOf, PromoteAll(orgOf, s, [r][..0]), r);
    assert map[r := now] - {r} == map[];
    assert ListAt(map[], orgOf(r)) + [r] == [r];
  }

  lemma PickOnly(s: State, o: Org, r: Raw, deadline: int, token: Token)
    requires s.ring == [o] && s.pending == map[o := [r]] && s.processing == map[]
    ensures FairPick(s, deadline, token).after
         == s.(ring := [], pending := map[], processing := map[Tagged(token, r) := deadline])
  {
    assert [r][1..] == [] && [o][1..] == [];
    assert map[o := [r]] - {o} == map[];
  }

  /** The states that run goes through. */
  function Stage(o: Org, r: Raw, t1: Token, t2: Token, i: nat): State {
    if i == 0 then EMPTY
    else if i == 1 then State([o], map[o := [r]], map[], map[], [], 1)
    else if i == 2 then State([], map[], map[Tagged(t1, r) := 10], map[], [], 1)
    else if i == 3 then State([], map[], map[], map[r := 20], [], 1)
    else if i == 4 then State([o], map[o := [r]], map[], map[], [], 2)
    else if i == 5 then State([], map[], map[Tagged(t2, r) := 30], map[], [], 2)
    else State([], map[], map[Tagged(t2, r) := 30], map[], [r], 2)
  }

  lemma EarlyStages(o: Org, r: Raw, t1: Token, t2: Token)
    ensures Enqueue(Stage(o, r, t1, t2, 0), o, r) == Stage(o, r, t1, t2, 1)
    ensures FairPick(Stage(o, r, t1, t2, 1), 10, t1).after == Stage(o, r, t1, t2, 2)
  {
    assert ListAt(EMPTY.pending, o) + [r] == [r];
    PickOnly(Stage(o, r, t1, t2, 1), o, r, 10, t1);
  }

  lemma Recovers(o: Org, r: Raw, t1: Token, t2: Token)
    ensures Recover(Stage(o, r, t1, t2, 2), 20) == Stage(o, r, t1, t2, 3)
  {
    var (s, m) := (Stage(o, r, t1, t2, 2), Tagged(t1, r));
    assert StripToken(m) == r by { StripUndoesTag(t1, r); }
    RecoverOnly(s, m, r, 20);
  }

  lemma Promotes(orgOf: Raw -> Org, o: Org, r: Raw, t1: Token, t2: Token)
    requires orgOf(r) == o
    ensures PromoteDue(orgOf, Stage(o, r, t1, t2, 3), 20, 500) == Stage(o, r, t1, t2, 4)
  {
    PromoteOnly(orgOf, Stage(o, r, t1, t2, 3), r, 20);
  }

  lemma BuryOther(s: State, m1: Raw, m2: Raw, r: Raw)
    requires s.processing == map[m2 := 30] && m1 != m2 && StripToken(m1) == r && s.dead == []
    ensures DeadLetter(s, m1) == s.(dead := [r])
  {
    StripAgrees(m1);
    assert map[m2 := 30] - {m1} == map[m2 := 30];
    assert [] + [r] == [r];
  }

  lemma PicksAgain(o: Org, r: Raw, t1: Token, t2: Token)
    ensures FairPick(Stage(o, r, t1, t2, 4), 30, t2).after == Stage(o, r, t1, t2, 5)
  {
    PickOnly(Stage(o, r, t1, t2, 4), o, r, 30, t2);
  }

  lemma OtherHandle(r: Raw, t1: Token, t2: Token)
    requires t1 != t2
    ensures Tagged(t1, r) != Tagged(t2, r) && StripToken(Tagged(t1, r)) == r
  {
    StripUndoesTag(t1, r);
    if Tagged(t1, r) == Tagged(t2, r) { TaggedInjective(t1, r, t2, r); }
  }

  lemma BuriesLate(o: Org, r: Raw, t1: Token, t2: Token, m1: Raw)
    requires t1 != t2 && m1 == Tagged(t1, r)
    ensures DeadLetter(Stage(o, r, t1, t2, 5), m1) == Stage(o, r, t1, t2, 6)
  {
    OtherHandle(r, t1, t2);
    BuryOther(Stage(o, r, t1, t2, 5), m1, Tagged(t2, r), r);
  }

  lemma StageStep(orgOf: Raw -> Org, o: Org, r: Raw, t1: Token, t2: Token, i: nat)
    requires orgOf(r) == o && t1 != t2 && i < 6
    ensures Apply(orgOf, Stage(o, r, t1, t2, i), LateBurial(o, r, t1, t2)[i]) == Stage(o, r, t1, t2, i + 1)
  {
    if i < 2 {
      EarlyStages(o, r, t1, t2);
    } else if i < 4 {
      Recovers(o, r, t1, t2);
      Promotes(orgOf, o, r, t1, t2);
    } else {
      PicksAgain(o, r, t1, t2);
      BuriesLate(o, r, t1, t2, Tagged(t1, r));
    }
  }

  lemma {:induction false} StagesRun(orgOf: Raw -> Org, o: Org, r: Raw, t1: Token, t2: Token, i: nat)
    requires orgOf(r) == o && t1 != t2 && i <= 6
    ensures Run(orgOf, Stage(o, r, t1, t2, i), LateBurial(o, r, t1, t2)[i..]) == Stage(o, r, t1, t2, 6)
    decreases 6 - i
  {
    var ops := LateBurial(o, r, t1, t2);
    if i < 6 {
      StageStep(orgOf, o, r, t1, t2, i);
      StagesRun(orgOf, o, r, t1, t2, i + 1);
      assert ops[i..][0] == ops[i] && ops[i..][1..] == ops[i + 1..];
    }
  }

  predicate FreshTokens(ops: seq<Op>, used: set<Raw>) {
    ops == [] ||
    (if ops[0].DoPick? then ops[0].token !in used && FreshTokens(ops[1..], used + {ops[0].token})
     else FreshTokens(ops[1..], used))
  }

  /** The books never stand in the way of a run. */
  lemma {:induction false} AllowedByTokens(orgOf: Raw -> Org, h: Log, ops: seq<Op>)
    requires AllHomed(orgOf, ops) && FreshTokens(ops, h.used)
    ensures AllAllowed(orgOf, h, ops) && After(orgOf, h, ops).s == Run(orgOf, h.s, ops)
    decreases |ops|
  {
    if ops != [] {
      assert Homed(orgOf, ops[0]);
      assert AllHomed(orgOf, ops[1..]) by {
        forall i | 0 <= i < |ops| - 1 ensures Homed(orgOf, ops[1..][i]) { assert Homed(orgOf, ops[i + 1]); }
      }
      AllowedByTokens(orgOf, Next(orgOf, h, ops[0]), ops[1..]);
    }
  }

  lemma FreshLateBurial(o: Org, r: Raw, t1: Token, t2: Token)
    requires t1 != t2
    ensures FreshTokens(LateBurial(o, r, t1, t2), {})
  {
    var ops := LateBurial(o, r, t1, t2);
    assert ops[5..] == [ops[5]];
    assert FreshTokens(ops[5..], {t1, t2});
    assert ops[4..][1..] == ops[5..] && {t1} + {t2} == {t1, t2};
    assert FreshTokens(ops[4..], {t1});
    assert ops[3..][1..] == ops[4..] && ops[2..][1..] == ops[3..] && ops[1..][1..] == ops[2..];
    assert FreshTokens(ops[3..], {t1}) && FreshTokens(ops[2..], {t1});
    assert {} + {t1} == {t1};
    assert FreshTokens(ops[1..], {});
  }

  lemma LateBurialEnd(orgOf: Raw -> Org, o: Org, r: Raw, t1: Token, t2: Token)
    requires orgOf(r) == o && t1 != t2
    ensures Run(orgOf, EMPTY, LateBurial(o, r, t1, t2)) == State([], map[], map[Tagged(t2, r) := 30], map[], [r], 2)
  {
    StagesRun(orgOf, o, r, t1, t2, 0);
    assert LateBurial(o, r, t1, t2)[0..] == LateBurial(o, r, t1, t2);
  }

  /** A late burial is no end: for any payload and any two tokens the run is allowed,
      and it ends with the payload dead and leased by its second holder. */
  lemma DeadYetLeased(orgOf: Raw -> Org, o: Org, r: Raw, t1: Token, t2: Token)
    requires orgOf(r) == o && t1 != t2
    ensures AllAllowed(orgOf, START, LateBurial(o, r, t1, t2))
    ensures var s := After(orgOf, START, LateBurial(o, r, t1, t2)).s;
            s.dead == [r] && Tagged(t2, r) in s.processing && StripToken(Tagged(t2, r)) == r
  {
    FreshLateBurial(o, r, t1, t2);
    AllowedByTokens(orgOf, START, LateBurial(o, r, t1, t2));
    LateBurialEnd(orgOf, o, r, t1, t2);
    StripUndoesTag(t2, r);
  }
}
