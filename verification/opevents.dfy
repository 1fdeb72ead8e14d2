/** Operational events: they end, and they say what happened to endpoints. */
module OpEvents {
  import opened Lease
  import opened QueueModel
  import opened Payloads
  import opened Handlers
  import opened System
  import opened Sums
  import OutboundBudget

  /** A run of some handler, stopped after `upTo` effects if it gets that far; a
      published event fanned out to a new operational delivery; a cascade; an endpoint
      created or edited; anything that leaves rows, endpoints and events alone. */
  datatype Happening =
    | Handle(member: Raw, p: Payload, fate: Fate, upTo: nat)
    | FanOut(id: nat)
    | Cascade(t: Task)
    | AddEndpoint(e: nat)
    | EditEndpoint(e: nat, disable: Option<bool>)
    | Elsewhere(q: State)

  /** UpdateEndpoint: a missing field keeps the column, and enabling starts the
      failure count over. */
  function Edited(was: Endpoint, disable: Option<bool>): Endpoint {
    match disable
    case None => was
    case Some(true) => was.(disabled := true)
    case Some(false) => Endpoint(0, false)
  }

  function Happen(site: Site, w: World, h: Happening): World {
    match h
    case Handle(member, p, f, upTo) =>
      PerformAll(site, w, TaskOf(p), member, OutboundBudget.Cut(Plan(site, w.rows, p, f), upTo))
    case FanOut(id) => w.(rows := RowsAfter(w.rows, InsertRow(DeliveryTask(id))))
    case Cascade(t) => w.(rows := RowsAfter(w.rows, DeleteRow(t)))
    case AddEndpoint(e) => if e in w.endpoints then w else w.(endpoints := w.endpoints[e := Endpoint(0, false)])
    case EditEndpoint(e, d) => if e in w.endpoints then w.(endpoints := w.endpoints[e := Edited(w.endpoints[e], d)]) else w
    case Elsewhere(q) => w.(q := q)
  }

  function HappenAll(site: Site, w: World, hs: seq<Happening>): World
    decreases |hs|
  {
    if hs == [] then w else HappenAll(site, Happen(site, w, hs[0]), hs[1..])
  }

  // ---- the threshold ---------------------------------------------------------------

  predicate BelowThreshold(site: Site, w: World) {
    forall e :: e in w.endpoints && !w.endpoints[e].disabled ==> w.endpoints[e].failures < site.maxFailures
  }

  lemma PerformBelow(site: Site, w: World, t: Task, member: Raw, e: Effect)
    requires site.maxFailures > 0 && BelowThreshold(site, w)
    ensures BelowThreshold(site, Perform(site, w, t, member, e))
  {
    assert Perform(site, w, t, member, e).endpoints == w.endpoints || e.Strike? || e.Clear?;
  }

  lemma {:induction false} AllBelow(site: Site, w: World, t: Task, member: Raw, es: seq<Effect>)
    requires site.maxFailures > 0 && BelowThreshold(site, w)
    ensures BelowThreshold(site, PerformAll(site, w, t, member, es))
    decreases |es|
  {
    if es != [] {
      AllBelow(site, w, t, member, es[..|es| - 1]);
      PerformBelow(site, PerformAll(site, w, t, member, es[..|es| - 1]), t, member, es[|es| - 1]);
    }
  }

  /** An enabled endpoint is always below the threshold, whatever fails, succeeds,
      crashes or is edited in between. */
  lemma {:induction false} EnabledBelowThreshold(site: Site, w: World, hs: seq<Happening>)
    requires site.maxFailures > 0 && BelowThreshold(site, w)
    ensures BelowThreshold(site, HappenAll(site, w, hs))
    decreases |hs|
  {
    if hs != [] {
      var h := hs[0];
      if h.Handle? {
        AllBelow(site, w, TaskOf(h.p), h.member, OutboundBudget.Cut(Plan(site, w.rows, h.p, h.fate), h.upTo));
      }
      EnabledBelowThreshold(site, Happen(site, w, h), hs[1..]);
    }
  }

  // ---- one notice per disabling -------------------------------------------------------

  function Notices(published: seq<OpEvent>, e: nat): nat { multiset(published)[EndpointDisabled(e)] }

  predicate Down(w: World, e: nat) { e in w.endpoints && w.endpoints[e].disabled }

  function Disabling(w: World, w': World, e: nat): nat { if !Down(w, e) && Down(w', e) then 1 else 0 }

  lemma PerformNotices(site: Site, w: World, t: Task, member: Raw, eff: Effect, e: nat)
    ensures var w' := Perform(site, w, t, member, eff);
            && Notices(w'.published, e) <= Notices(w.published, e) + Disabling(w, w', e)
            && (Down(w, e) ==> Down(w', e))
  {
    var w' := Perform(site, w, t, member, eff);
    assert w'.published == w.published
        || w'.published == w.published + [w'.published[|w.published|]];
  }

  lemma {:induction false} AllNotices(site: Site, w: World, t: Task, member: Raw, es: seq<Effect>, e: nat)
    ensures var w' := PerformAll(site, w, t, member, es);
            && Notices(w'.published, e) <= Notices(w.published, e) + Disabling(w, w', e)
            && (Down(w, e) ==> Down(w', e))
    decreases |es|
  {
    if es != [] {
      AllNotices(site, w, t, member, es[..|es| - 1], e);
      PerformNotices(site, PerformAll(site, w, t, member, es[..|es| - 1]), t, member, es[|es| - 1], e);
    }
  }

  function Disablings(site: Site, w: World, hs: seq<Happening>, e: nat): nat
    decreases |hs|
  {
    if hs == [] then 0
    else Disabling(w, Happen(site, w, hs[0]), e) + Disablings(site, Happen(site, w, hs[0]), hs[1..], e)
  }

  /** endpoint.disabled is published at most once for each time the endpoint goes from
      enabled to disabled. */
  lemma {:induction false} OneNoticePerDisabling(site: Site, w: World, hs: seq<Happening>, e: nat)
    ensures Notices(HappenAll(site, w, hs).published, e) <= Notices(w.published, e) + Disablings(site, w, hs, e)
    decreases |hs|
  {
    if hs != [] {
      var h := hs[0];
      if h.Handle? {
        AllNotices(site, w, TaskOf(h.p), h.member, OutboundBudget.Cut(Plan(site, w.rows, h.p, h.fate), h.upTo), e);
      }
      OneNoticePerDisabling(site, Happen(site, w, h), hs[1..], e);
    }
  }

  // ---- events about events --------------------------------------------------------------

  /** What a run may still publish, and whether it has declared its delivery dead. */
  datatype Voice = Voice(dead: bool, exhausted: nat, strikes: nat)

  function Heard(v: Voice, e: Effect): Option<Voice> {
    match e
    case Mark(s) => if v.dead then None else Some(v.(dead := s.Dead?))
    case Start | RetryAt(_) | Hold(_) => if v.dead then None else Some(v)
    case Exhausted => if v.dead && v.exhausted > 0 then Some(v.(exhausted := v.exhausted - 1)) else None
    case Strike => if v.dead && v.strikes > 0 then Some(v.(strikes := v.strikes - 1)) else None
    case _ => Some(v)
  }

  /** Events only after the delivery is declared dead, as many as allowed, and nothing
      revives the row afterwards. */
  predicate LastWords(es: seq<Effect>, v: Voice)
    decreases |es|
  {
    es == [] || (Heard(v, es[0]).Some? && LastWords(es[1..], Heard(v, es[0]).value))
  }

  lemma PerformPublishes(site: Site, w: World, t: Task, member: Raw, e: Effect)
    ensures var w' := Perform(site, w, t, member, e);
            && |w.published| <= |w'.published| <= |w.published| + (if e.Exhausted? || e.Strike? then 1 else 0)
            && w'.rows.Keys == w.rows.Keys
            && (t in w.rows ==> w'.rows[t] == Written(t, w.rows[t], e))
            && (forall u :: u in w.rows && u != t ==> w'.rows[u] == w.rows[u])
  {
  }

  lemma {:induction false} WordsSpoken(site: Site, w: World, t: Task, member: Raw, es: seq<Effect>, n: nat, v: Voice)
    requires LastWords(es, v) && n <= |es|
    requires t in w.rows && (v.dead ==> w.rows[t].status.Dead?)
    ensures var w' := PerformAll(site, w, t, member, es[..n]);
            && w'.rows.Keys == w.rows.Keys
            && (forall u :: u in w.rows && u != t ==> w'.rows[u] == w.rows[u])
            && |w.published| <= |w'.published| <= |w.published| + v.exhausted + v.strikes
            && (|w'.published| > |w.published| || v.dead ==> w'.rows[t].status.Dead?)
    decreases |es|
  {
    if n > 0 {
      assert es[..n][1..] == es[1..][..n - 1];
      PerformFront(site, w, t, member, es[..n]);
      PerformPublishes(site, w, t, member, es[0]);
      WordsSpoken(site, Perform(site, w, t, member, es[0]), t, member, es[1..], n - 1, Heard(v, es[0]).value);
    }
  }

  lemma HeardFirst(e: Effect, es: seq<Effect>, v: Voice)
    ensures LastWords([e] + es, v) <==> Heard(v, e).Some? && LastWords(es, Heard(v, e).value)
  {
    assert ([e] + es)[1..] == es;
  }

  predicate Mute(e: Effect) {
    !e.Mark? && !e.Start? && !e.RetryAt? && !e.Hold? && !e.Exhausted? && !e.Strike?
  }

  lemma {:induction false} AllMute(es: seq<Effect>, v: Voice)
    requires forall i :: 0 <= i < |es| ==> Mute(es[i])
    ensures LastWords(es, v)
    decreases |es|
  {
    if es != [] { AllMute(es[1..], v); }
  }

  lemma {:induction false} HeardLast(es: seq<Effect>, e: Effect, v: Voice)
    requires Mute(e) && LastWords(es, v)
    ensures LastWords(es + [e], v)
    decreases |es|
  {
    if es == [] {
      AllMute([e], v);
      assert es + [e] == [e];
    } else {
      assert (es + [e])[1..] == es[1..] + [e];
      HeardLast(es[1..], e, Heard(v, es[0]).value);
    }
  }

  const FRESH := Voice(false, 1, 1)

  lemma FailWords(site: Site, id: nat, p: Payload, f: Fate, n: int)
    ensures LastWords(MessageFail(site, id, p, f, n), FRESH)
  {
    var es := MessageFail(site, id, p, f, n);
    if NextDelay(n).Some? {
      assert es == [es[0]] + [es[1], Drop];
      HeardFirst(es[0], [es[1], Drop], FRESH);
      AllMute([es[1], Drop], FRESH);
    } else {
      var strike := if site.maxFailures > 0 then [Strike] + [Bury] else [Bury];
      var rest := if site.operational(id) then strike else [Exhausted] + strike;
      assert es == [Mark(Dead)] + rest;
      AllMute([Bury], Voice(true, 1, 1));
      AllMute([Bury], Voice(true, 0, 1));
      AllMute([Bury], Voice(true, 1, 0));
      AllMute([Bury], Voice(true, 0, 0));
      HeardFirst(Strike, [Bury], Voice(true, 1, 1));
      HeardFirst(Strike, [Bury], Voice(true, 0, 1));
      HeardFirst(Exhausted, strike, Voice(true, 1, 1));
      HeardFirst(Mark(Dead), rest, FRESH);
    }
  }

  lemma DoneWords(maxFailures: int)
    ensures LastWords([Mark(Delivered)] + ((if maxFailures > 0 then [Clear] else []) + [Drop]), FRESH)
  {
    var tail := (if maxFailures > 0 then [Clear] else []) + [Drop];
    AllMute(tail, FRESH);
    HeardFirst(Mark(Delivered), tail, FRESH);
  }

  /** A send and its record before the outcome. */
  lemma SentWords(n: int, outcome: seq<Effect>)
    requires LastWords(outcome, FRESH)
    ensures LastWords([Start] + outcome, FRESH)
    ensures LastWords([Start] + ([Post, Record(n)] + outcome), FRESH)
  {
    HeardFirst(Start, outcome, FRESH);
    HeardFirst(Record(n), outcome, FRESH);
    HeardFirst(Post, [Record(n)] + outcome, FRESH);
    assert [Post, Record(n)] + outcome == [Post] + ([Record(n)] + outcome);
    HeardFirst(Start, [Post, Record(n)] + outcome, FRESH);
  }

  lemma SendWords(site: Site, id: nat, row: Row, p: Payload, f: Fate)
    ensures LastWords(MessageSend(site, id, row, p, f), FRESH)
  {
    var n := row.attempts + 1;
    var fail := MessageFail(site, id, p, f, n);
    var done := [Mark(Delivered)] + ((if site.maxFailures > 0 then [Clear] else []) + [Drop]);
    FailWords(site, id, p, f, n);
    DoneWords(site.maxFailures);
    SentWords(n, fail);
    SentWords(n, done);
    if f.requestOk && Success(f.reply) {
      assert MessageSend(site, id, row, p, f) == [Start] + ([Post, Record(n)] + done);
    }
  }

  lemma EndWords(es: seq<Effect>, s: Status, e: Effect)
    requires Drops(e)
    requires es == [Mark(s), e] || exists n :: es == [Record(n), Mark(s), e]
    ensures LastWords(es, FRESH)
  {
    AllMute([e], FRESH.(dead := s.Dead?));
    HeardFirst(Mark(s), [e], FRESH);
    assert [Mark(s), e] == [Mark(s)] + [e];
    if es != [Mark(s), e] {
      assert es == [es[0]] + [Mark(s), e];
      HeardFirst(es[0], [Mark(s), e], FRESH);
    }
  }

  lemma GatedWords(site: Site, id: nat, row: Row, p: Payload, f: Fate)
    ensures LastWords(MessageGated(site, id, row, p, f), FRESH)
  {
    SendWords(site, id, row, p, f);
    EndWords([Record(row.attempts + 1), Mark(Dead), Bury], Dead, Bury);
    EndWords([Mark(Filtered), Drop], Filtered, Drop);
    AllMute(Deferral(p, f, if f.rateLimited.Some? && f.rateLimited.value > 0 then f.rateLimited.value else 100), FRESH);
  }

  lemma PlanWords(site: Site, rows: map<Task, Row>, p: Payload, f: Fate)
    requires TaskOf(p).DeliveryTask? && TaskOf(p) in rows
    ensures LastWords(Plan(site, rows, p, f), FRESH)
  {
    var inner := MessageGated(site, p.data.value, rows[TaskOf(p)], p, f);
    GatedWords(site, p.data.value, rows[TaskOf(p)], p, f);
    HeardFirst(Take(OrgSlot), inner, FRESH);
    HeardLast([Take(OrgSlot)] + inner, Give(OrgSlot), FRESH);
    AllMute([Take(OrgSlot), Give(OrgSlot)] + Deferral(p, f, 500), FRESH);
    AllMute([Drop], FRESH);
    EndWords([Mark(Disabled), Drop], Disabled, Drop);
  }

  // ---- operational deliveries say nothing ------------------------------------------------

  predicate NoExhausted(es: seq<Effect>) { forall i :: 0 <= i < |es| ==> !es[i].Exhausted? }

  predicate NoStrike(es: seq<Effect>) { forall i :: 0 <= i < |es| ==> !es[i].Strike? }

  lemma OneUnspoken(site: Site, w: World, t: Task, member: Raw, e: Effect)
    requires !e.Exhausted? && (!e.Strike? || !t.DeliveryTask? || site.operational(t.id))
    ensures var w' := Perform(site, w, t, member, e);
            w'.published == w.published && w'.rows.Keys == w.rows.Keys && forall u :: u in w.rows && u != t ==> w'.rows[u] == w.rows[u]
  {
  }

  lemma {:induction false} Unspoken(site: Site, w: World, t: Task, member: Raw, es: seq<Effect>)
    requires NoExhausted(es)
    requires NoStrike(es) || !t.DeliveryTask? || site.operational(t.id)
    ensures var w' := PerformAll(site, w, t, member, es);
            w'.published == w.published && w'.rows.Keys == w.rows.Keys && forall u :: u in w.rows && u != t ==> w'.rows[u] == w.rows[u]
    decreases |es|
  {
    if es != [] {
      Unspoken(site, w, t, member, es[..|es| - 1]);
      OneUnspoken(site, PerformAll(site, w, t, member, es[..|es| - 1]), t, member, es[|es| - 1]);
    }
  }

  lemma EventSilent(site: Site, row: Row, p: Payload, f: Fate)
    ensures NoExhausted(EventGated(site, row, p, f))
  {
    assert NoExhausted(EventSend(site, row, p, f));
  }

  lemma MessageSilent(site: Site, id: nat, row: Row, p: Payload, f: Fate)
    requires site.operational(id)
    ensures NoExhausted(MessageGated(site, id, row, p, f))
  {
    assert NoExhausted(MessageFail(site, id, p, f, row.attempts + 1));
    assert NoExhausted(MessageSend(site, id, row, p, f));
  }

  lemma GateSilent(site: Site, p: Payload, f: Fate, inner: seq<Effect>)
    requires NoExhausted(inner)
    ensures NoExhausted(OrgGate(site, p, f, inner))
  {
  }

  /** Runs on anything but an ordinary delivery publish no exhaustion. */
  lemma SilentPlans(site: Site, rows: map<Task, Row>, p: Payload, f: Fate)
    requires !TaskOf(p).DeliveryTask? || site.operational(TaskOf(p).id)
    ensures NoExhausted(Plan(site, rows, p, f))
  {
    var t := TaskOf(p);
    if p.kind.Delivery? && t in rows {
      EventSilent(site, rows[t], p, f);
      GateSilent(site, p, f, EventGated(site, rows[t], p, f));
    } else if p.kind.Message? && p.data.Some? && t in rows {
      MessageSilent(site, p.data.value, rows[t], p, f);
      GateSilent(site, p, f, MessageGated(site, p.data.value, rows[t], p, f));
    }
  }

  lemma FinishedPlan(site: Site, rows: map<Task, Row>, p: Payload, f: Fate)
    requires TaskOf(p).DeliveryTask? && (TaskOf(p) !in rows || DeliveryTerminal(rows[TaskOf(p)].status))
    ensures Plan(site, rows, p, f) == [Drop]
  {
  }

  /** The unfinished deliveries that are not themselves operational. */
  function Open(site: Site, w: World): set<Task> {
    set t | t in w.rows && t.DeliveryTask? && !site.operational(t.id) && !DeliveryTerminal(w.rows[t].status)
  }

  /** Publishing creates deliveries in the operational app only. */
  predicate Proper(site: Site, h: Happening) { h.FanOut? ==> site.operational(h.id) }

  /** An unfinished ordinary delivery may speak twice, and is finished when it has. */
  lemma HandleOpen(site: Site, w: World, h: Happening)
    requires h.Handle? && TaskOf(h.p) in Open(site, w)
    ensures var w' := Happen(site, w, h);
            && Open(site, w') <= Open(site, w)
            && |w'.published| <= |w.published| + 2
            && (|w'.published| > |w.published| ==> TaskOf(h.p) !in Open(site, w'))
  {
    var es := Plan(site, w.rows, h.p, h.fate);
    PlanWords(site, w.rows, h.p, h.fate);
    assert es[..|es|] == es;
    WordsSpoken(site, w, TaskOf(h.p), h.member, es, if h.upTo <= |es| then h.upTo else |es|, FRESH);
  }

  lemma HandleShut(site: Site, w: World, h: Happening)
    requires h.Handle? && TaskOf(h.p) !in Open(site, w)
    ensures var w' := Happen(site, w, h);
            Open(site, w') <= Open(site, w) && w'.published == w.published
  {
    var (t, es) := (TaskOf(h.p), Plan(site, w.rows, h.p, h.fate));
    var cut := OutboundBudget.Cut(es, h.upTo);
    if t.DeliveryTask? && !site.operational(t.id) {
      FinishedPlan(site, w.rows, h.p, h.fate);
    } else {
      SilentPlans(site, w.rows, h.p, h.fate);
    }
    assert NoExhausted(cut) && (es == [Drop] ==> NoStrike(cut));
    Unspoken(site, w, t, h.member, cut);
    if t.DeliveryTask? && !site.operational(t.id) && t in w.rows {
      OutboundBudget.PerformRow(site, w, t, h.member, cut, t);
      assert cut == [] || cut == [Drop];
    }
  }

  lemma Loudness(site: Site, w: World, h: Happening)
    requires Proper(site, h)
    ensures var w' := Happen(site, w, h);
            |w'.published| + 2 * |Open(site, w')| <= |w.published| + 2 * |Open(site, w)|
  {
    var w' := Happen(site, w, h);
    if h.Handle? {
      if TaskOf(h.p) in Open(site, w) {
        HandleOpen(site, w, h);
        if |w'.published| > |w.published| {
          SubsetSize(Open(site, w'), Open(site, w) - {TaskOf(h.p)});
        }
      } else {
        HandleShut(site, w, h);
      }
    }
    assert Open(site, w') <= Open(site, w);
    SubsetSize(Open(site, w'), Open(site, w));
  }

  /** Operational events cannot feed themselves: k unfinished ordinary deliveries lead
      to at most 2k published events, however many operational deliveries those set
      off and however these fail. */
  lemma {:induction false} EventsEnd(site: Site, w: World, hs: seq<Happening>)
    requires forall i :: 0 <= i < |hs| ==> Proper(site, hs[i])
    ensures |HappenAll(site, w, hs).published| <= |w.published| + 2 * |Open(site, w)|
    decreases |hs|
  {
    if hs != [] {
      Loudness(site, w, hs[0]);
      EventsEnd(site, Happen(site, w, hs[0]), hs[1..]);
    }
  }
}
