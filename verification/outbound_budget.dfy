/** The outbound budget: sends of one delivery over its replay cycles, each run of
    Process taken as one step that may stop after any of its effects. */
module OutboundBudget {
  import opened Lease
  import opened QueueModel
  import opened Payloads
  import opened Handlers
  import opened System

  // ---- what a list of effects does to one row --------------------------------

  function RowAfter(t: Task, r: Row, es: seq<Effect>): Row
    decreases |es|
  {
    if es == [] then r else RowAfter(t, Written(t, r, es[0]), es[1..])
  }

  function Starts(es: seq<Effect>): nat {
    if es == [] then 0 else (if es[0].Start? then 1 else 0) + Starts(es[1..])
  }

  function Sends(es: seq<Effect>): nat {
    if es == [] then 0 else (if es[0].Post? then 1 else 0) + Sends(es[1..])
  }

  lemma PerformOne(site: Site, w: World, u: Task, member: Raw, e: Effect, t: Task)
    requires t in w.rows
    ensures var w' := Perform(site, w, u, member, e);
            && t in w'.rows
            && w'.rows[t] == (if u == t then Written(t, w.rows[t], e) else w.rows[t])
            && w'.posts[t] == w.posts[t] + (if u == t && e.Post? then 1 else 0)
  {
  }

  lemma {:induction false} PerformRow(site: Site, w: World, u: Task, member: Raw, es: seq<Effect>, t: Task)
    requires t in w.rows
    ensures var w' := PerformAll(site, w, u, member, es);
            && t in w'.rows
            && w'.rows[t] == (if u == t then RowAfter(t, w.rows[t], es) else w.rows[t])
            && w'.posts[t] == w.posts[t] + (if u == t then Sends(es) else 0)
    decreases |es|
  {
    if es != [] {
      PerformFront(site, w, u, member, es);
      PerformOne(site, w, u, member, es[0], t);
      PerformRow(site, Perform(site, w, u, member, es[0]), u, member, es[1..], t);
    }
  }

  lemma {:induction false} AttemptsAre(t: Task, r: Row, es: seq<Effect>)
    ensures RowAfter(t, r, es).attempts == r.attempts + Starts(es)
    decreases |es|
  {
    if es != [] { AttemptsAre(t, Written(t, r, es[0]), es[1..]); }
  }

  /** Every send comes after the attempt that counts it. */
  predicate PaidFirst(es: seq<Effect>, credit: nat) {
    if es == [] then true
    else if es[0].Start? then PaidFirst(es[1..], credit + 1)
    else if es[0].Post? then credit > 0 && PaidFirst(es[1..], credit - 1)
    else PaidFirst(es[1..], credit)
  }

  lemma {:induction false} PrefixPaid(es: seq<Effect>, credit: nat, n: nat)
    requires PaidFirst(es, credit) && n <= |es|
    ensures Sends(es[..n]) <= credit + Starts(es[..n])
    ensures Starts(es[..n]) <= Starts(es)
    decreases |es|
  {
    if n > 0 {
      assert es[..n][1..] == es[1..][..n - 1];
      PrefixPaid(es[1..], if es[0].Start? then credit + 1 else if es[0].Post? then credit - 1 else credit, n - 1);
    }
  }

  predicate Inert(e: Effect) {
    !e.Start? && !e.Post? && !e.Mark? && !e.RetryAt? && !e.Hold?
  }

  /** The whole effect of a list on a row, and whether its sends are paid for. */
  datatype Summary = Summary(row: Row, starts: nat, sends: nat, paid: bool)

  function Sum(t: Task, r: Row, es: seq<Effect>, credit: nat): Summary {
    Summary(RowAfter(t, r, es), Starts(es), Sends(es), PaidFirst(es, credit))
  }

  lemma ConsInert(t: Task, r: Row, e: Effect, es: seq<Effect>, credit: nat)
    requires Inert(e)
    ensures Sum(t, r, [e] + es, credit) == Sum(t, r, es, credit)
  {
    assert ([e] + es)[1..] == es;
  }

  lemma {:induction false} SnocInert(t: Task, r: Row, es: seq<Effect>, e: Effect, credit: nat)
    requires Inert(e)
    ensures Sum(t, r, es + [e], credit) == Sum(t, r, es, credit)
    decreases |es|
  {
    if es == [] {
      assert es + [e] == [e] + [];
      ConsInert(t, r, e, [], credit);
    } else {
      var c := if es[0].Start? then credit + 1 else if es[0].Post? && credit > 0 then credit - 1 else credit;
      SnocInert(t, Written(t, r, es[0]), es[1..], e, c);
      assert (es + [e])[1..] == es[1..] + [e];
    }
  }

  lemma {:induction false} AllInert(t: Task, r: Row, es: seq<Effect>, credit: nat)
    requires forall i :: 0 <= i < |es| ==> Inert(es[i])
    ensures Sum(t, r, es, credit) == Summary(r, 0, 0, true)
    decreases |es|
  {
    if es != [] { AllInert(t, r, es[1..], credit); }
  }

  lemma ConsRow(t: Task, r: Row, e: Effect, es: seq<Effect>, credit: nat)
    requires e.Mark? || e.RetryAt? || e.Hold?
    ensures Sum(t, r, [e] + es, credit) == Sum(t, Written(t, r, e), es, credit)
  {
    assert ([e] + es)[1..] == es;
  }

  lemma ConsSend(t: Task, r: Row, es: seq<Effect>, credit: nat)
    ensures var rest := Sum(t, r, es, credit);
            Sum(t, r, [Post] + es, credit + 1) == rest.(sends := rest.sends + 1)
    ensures var rest := Sum(t, Written(t, r, Start), es, credit + 1);
            Sum(t, r, [Start] + es, credit) == rest.(starts := rest.starts + 1)
  {
    assert ([Post] + es)[1..] == es;
    assert ([Start] + es)[1..] == es;
  }

  // ---- one run of the message handler -----------------------------------------

  /** At most one attempt, every send paid for; after a counted attempt the delivery
      is finished or still has retries in its schedule. */
  predicate Lawful(r: Row, s: Summary) {
    && s.paid
    && s.starts <= 1
    && (s.starts == 0 || DeliveryTerminal(s.row.status) || s.row.attempts <= |RETRY_SCHEDULE|)
  }

  lemma FailSum(site: Site, t: Task, id: nat, r: Row, p: Payload, f: Fate, n: int, credit: nat)
    requires t.DeliveryTask?
    ensures var s := Sum(t, r, MessageFail(site, id, p, f, n), credit);
            && s.paid && s.starts == 0 && s.sends == 0 && s.row.attempts == r.attempts
            && (DeliveryTerminal(s.row.status) || 1 <= n <= |RETRY_SCHEDULE|)
  {
    var es := MessageFail(site, id, p, f, n);
    var rest := es[1..];
    assert es == [es[0]] + rest;
    ConsRow(t, r, es[0], rest, credit);
    AllInert(t, Written(t, r, es[0]), rest, credit);
  }

  lemma SuccessSum(site: Site, t: Task, r: Row, credit: nat)
    ensures var es := [Mark(Delivered)] + ((if site.maxFailures > 0 then [Clear] else []) + [Drop]);
            Sum(t, r, es, credit) == Summary(Written(t, r, Mark(Delivered)), 0, 0, true)
  {
    var tail := (if site.maxFailures > 0 then [Clear] else []) + [Drop];
    ConsRow(t, r, Mark(Delivered), tail, credit);
    AllInert(t, Written(t, r, Mark(Delivered)), tail, credit);
  }

  lemma PostedSum(t: Task, r: Row, n: int, after: seq<Effect>)
    ensures Sum(t, r, [Post, Record(n)] + after, 1) == var s := Sum(t, r, after, 0); s.(sends := s.sends + 1)
  {
    assert [Post, Record(n)] + after == [Post] + ([Record(n)] + after);
    ConsSend(t, r, [Record(n)] + after, 0);
    ConsInert(t, r, Record(n), after, 0);
  }

  lemma SendSum(site: Site, t: Task, id: nat, r: Row, p: Payload, f: Fate)
    requires t.DeliveryTask?
    ensures Lawful(r, Sum(t, r, MessageSend(site, id, r, p, f), 0))
  {
    var n := r.attempts + 1;
    var r' := Written(t, r, Start);
    var rest := MessageSend(site, id, r, p, f)[1..];
    assert MessageSend(site, id, r, p, f) == [Start] + rest;
    ConsSend(t, r, rest, 0);
    FailSum(site, t, id, r', p, f, n, 0);
    FailSum(site, t, id, r', p, f, n, 1);
    SuccessSum(site, t, r', 0);
    PostedSum(t, r', n, MessageFail(site, id, p, f, n));
    PostedSum(t, r', n, [Mark(Delivered)] + ((if site.maxFailures > 0 then [Clear] else []) + [Drop]));
    if f.requestOk && Success(f.reply) {
      assert rest == [Post, Record(n)] + ([Mark(Delivered)] + ((if site.maxFailures > 0 then [Clear] else []) + [Drop]));
    }
  }

  lemma QuietSum(t: Task, r: Row, es: seq<Effect>, s: Status, e: Effect)
    requires Drops(e)
    requires es == [Mark(s), e] || exists n :: es == [Record(n), Mark(s), e]
    ensures Lawful(r, Sum(t, r, es, 0))
  {
    AllInert(t, Written(t, r, Mark(s)), [e], 0);
    ConsRow(t, r, Mark(s), [e], 0);
    assert [Mark(s), e] == [Mark(s)] + [e];
    if es != [Mark(s), e] {
      assert es == [es[0]] + [Mark(s), e];
      ConsInert(t, r, es[0], [Mark(s), e], 0);
    }
  }

  lemma MessageSum(site: Site, t: Task, r: Row, p: Payload, f: Fate)
    requires t.DeliveryTask? && p.data.Some?
    ensures Lawful(r, Sum(t, r, MessageGated(site, p.data.value, r, p, f), 0))
  {
    SendSum(site, t, p.data.value, r, p, f);
    QuietSum(t, r, [Record(r.attempts + 1), Mark(Dead), Bury], Dead, Bury);
    QuietSum(t, r, [Mark(Filtered), Drop], Filtered, Drop);
    var delay := if f.rateLimited.Some? && f.rateLimited.value > 0 then f.rateLimited.value else 100;
    AllInert(t, r, Deferral(p, f, delay), 0);
  }

  /** What one complete run makes of its delivery. */
  lemma PlanLawful(site: Site, rows: map<Task, Row>, p: Payload, f: Fate)
    requires TaskOf(p).DeliveryTask? && TaskOf(p) in rows
    ensures var r := rows[TaskOf(p)];
            var s := Sum(TaskOf(p), r, Plan(site, rows, p, f), 0);
            Lawful(r, s) && (DeliveryTerminal(r.status) ==> s == Summary(r, 0, 0, true))
  {
    var (t, r) := (TaskOf(p), rows[TaskOf(p)]);
    var inner := MessageGated(site, p.data.value, r, p, f);
    MessageSum(site, t, r, p, f);
    ConsInert(t, r, Take(OrgSlot), inner, 0);
    SnocInert(t, r, [Take(OrgSlot)] + inner, Give(OrgSlot), 0);
    AllInert(t, r, [Take(OrgSlot), Give(OrgSlot)] + Deferral(p, f, 500), 0);
    AllInert(t, r, [Drop], 0);
    QuietSum(t, r, [Mark(Disabled), Drop], Disabled, Drop);
  }

  // ---- runs ---------------------------------------------------------------------

  /** A run of some handler on some payload, stopped after `upTo` effects if it gets
      that far; a replay; anything else that leaves rows and sends alone. */
  datatype Turn =
    | Handle(member: Raw, p: Payload, fate: Fate, upTo: nat)
    | Restart(id: nat)
    | Elsewhere(q: State)

  function Cut(es: seq<Effect>, n: nat): seq<Effect> { if n <= |es| then es[..n] else es }

  function TurnStep(site: Site, w: World, turn: Turn): World {
    match turn
    case Handle(member, p, f, upTo) => PerformAll(site, w, TaskOf(p), member, Cut(Plan(site, w.rows, p, f), upTo))
    case Restart(id) => w.(rows := RowsAfter(w.rows, Replay(DeliveryTask(id))))
    case Elsewhere(q) => w.(q := q)
  }

  function TurnRun(site: Site, w: World, turns: seq<Turn>): World
    decreases |turns|
  {
    if turns == [] then w else TurnRun(site, TurnStep(site, w, turns[0]), turns[1..])
  }

  function Faulted(site: Site, id: nat, w: World, turn: Turn): nat {
    if turn.Handle? && TaskOf(turn.p) == DeliveryTask(id) && turn.upTo < |Plan(site, w.rows, turn.p, turn.fate)| then 1 else 0
  }

  function Faults(site: Site, id: nat, w: World, turns: seq<Turn>): nat
    decreases |turns|
  {
    if turns == [] then 0
    else Faulted(site, id, w, turns[0]) + Faults(site, id, TurnStep(site, w, turns[0]), turns[1..])
  }

  function Replays(id: nat, turns: seq<Turn>): nat {
    if turns == [] then 0 else (if turns[0] == Restart(id) then 1 else 0) + Replays(id, turns[1..])
  }

  const SENDS: nat := |RETRY_SCHEDULE| + 1

  /** Sends left to an unfinished delivery, by its row's own counter: what remains of
      the eight, and one more each time a fault has used that up. */
  function Left(r: Row): nat {
    if DeliveryTerminal(r.status) then 0 else if r.attempts < SENDS then SENDS - r.attempts else 1
  }

  function Tab(w: World, t: Task): nat
    requires t in w.rows
  {
    w.posts[t] + Left(w.rows[t])
  }

  lemma HandleTab(site: Site, w: World, turn: Turn, id: nat)
    requires DeliveryTask(id) in w.rows && turn.Handle? && TaskOf(turn.p) == DeliveryTask(id)
    ensures var w' := TurnStep(site, w, turn);
            DeliveryTask(id) in w'.rows
            && Tab(w', DeliveryTask(id)) <= Tab(w, DeliveryTask(id)) + Faulted(site, id, w, turn)
  {
    var t := DeliveryTask(id);
    var r := w.rows[t];
    var es := Plan(site, w.rows, turn.p, turn.fate);
    var cut := Cut(es, turn.upTo);
    PlanLawful(site, w.rows, turn.p, turn.fate);
    PerformRow(site, w, t, turn.member, cut, t);
    assert es[..|es|] == es;
    PrefixPaid(es, 0, |cut|);
    AttemptsAre(t, r, cut);
    if DeliveryTerminal(r.status) { assert es == [Drop]; }
  }

  lemma TurnTab(site: Site, w: World, turn: Turn, id: nat)
    requires DeliveryTask(id) in w.rows
    ensures var w' := TurnStep(site, w, turn);
            DeliveryTask(id) in w'.rows
            && Tab(w', DeliveryTask(id))
               <= Tab(w, DeliveryTask(id)) + Faulted(site, id, w, turn) + (if turn == Restart(id) then SENDS else 0)
  {
    if turn.Handle? {
      if TaskOf(turn.p) == DeliveryTask(id) {
        HandleTab(site, w, turn, id);
      } else {
        PerformRow(site, w, TaskOf(turn.p), turn.member, Cut(Plan(site, w.rows, turn.p, turn.fate), turn.upTo), DeliveryTask(id));
      }
    }
  }

  lemma {:induction false} TabRun(site: Site, w: World, turns: seq<Turn>, id: nat)
    requires DeliveryTask(id) in w.rows
    ensures var w' := TurnRun(site, w, turns);
            DeliveryTask(id) in w'.rows
            && Tab(w', DeliveryTask(id))
               <= Tab(w, DeliveryTask(id)) + Faults(site, id, w, turns) + Replays(id, turns) * SENDS
    decreases |turns|
  {
    if turns != [] {
      TurnTab(site, w, turns[0], id);
      TabRun(site, TurnStep(site, w, turns[0]), turns[1..], id);
    }
  }

  /** The outbound budget: a fresh delivery is sent at most eight times, plus eight
      more per replay, plus one per run that stopped short, in any order of runs on
      it and on anything else. */
  lemma CycleBudget(site: Site, w: World, turns: seq<Turn>, id: nat)
    requires DeliveryTask(id) in w.rows && w.rows[DeliveryTask(id)] == Row(Queued, 0, None)
    ensures TurnRun(site, w, turns).posts[DeliveryTask(id)] - w.posts[DeliveryTask(id)]
         <= 8 + 8 * Replays(id, turns) + Faults(site, id, w, turns)
  {
    TabRun(site, w, turns, id);
  }

  /** Without faults or replays the row's own counter says how many sends are left,
      whoever holds the delivery: none once it is finished, else 8 minus the attempts
      made, else a last one. */
  lemma RemainingSends(site: Site, w: World, turns: seq<Turn>, id: nat)
    requires DeliveryTask(id) in w.rows
    requires Replays(id, turns) == 0 && Faults(site, id, w, turns) == 0
    ensures var r := w.rows[DeliveryTask(id)];
            TurnRun(site, w, turns).posts[DeliveryTask(id)] - w.posts[DeliveryTask(id)]
            <= if DeliveryTerminal(r.status) then 0 else if r.attempts < 8 then 8 - r.attempts else 1
  {
    TabRun(site, w, turns, id);
  }
}
