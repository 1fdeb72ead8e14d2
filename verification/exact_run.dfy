/** The exact life of an event or a delivery nobody accepts: one copy, an HTTP
    destination, every send failing, no faults. */
module ExactRun {
  import opened Lease
  import opened QueueModel
  import opened Payloads
  import opened Handlers
  import opened System
  import opened Views
  import opened Outcomes
  import opened DeliveryOutcomes
  import Backoff
  import opened History
  import opened SingleCopy

  // ---- one run ------------------------------------------------------------------

  /** Everything about the event or delivery is in order and the receiver refuses it:
      no answer, or one outside 200 to 299. */
  predicate Refused(t: Task, f: Fate) {
    && f.urlOk && f.requestOk && Passes(f)
    && !(f.reply.Some? && 200 <= f.reply.value <= 299)
    && (if t.EventTask? then f.hasUrl && f.bodyFound else !f.disabled && !f.expunged && f.signOk)
  }

  /** Failed attempts that still leave a retry. */
  function Budget(site: Site, t: Task): nat {
    match t
    case EventTask(id) => if site.maxRetries(id) > 0 then site.maxRetries(id) else 0
    case _ => 7
  }

  /** The payload a run leaves scheduled, if it does not end the task; the row made n
      attempts before. An event's payload counts along, a delivery's does not. */
  function Successor(site: Site, p: Payload, n: nat, f: Fate): Option<Payload> {
    if !Executes(site, TaskOf(p), f) then Some(p.(enqueuedAt := f.now))
    else if p.kind.Delivery?
    then if p.attempt + 1 > site.maxRetries(p.eventId) then None else Some(p.(attempt := p.attempt + 1))
    else if n + 1 >= 8 then None else Some(p)
  }

  /** And when that is due. */
  function DueAt(site: Site, p: Payload, n: nat, f: Fate): int {
    f.now +
      if !Executes(site, TaskOf(p), f) then GatePause(site, f)
      else if p.kind.Delivery? then Backoff.Delay(f.policy, p.attempt + 1, f.draw) / 1_000_000
      else Pause(n + 1)
  }

  function Tried(v: View): View {
    View(v.row.(status := InFlight, attempts := v.row.attempts + 1),
         if v.row.attempts + 1 in v.records then v.records else v.records + [v.row.attempts + 1],
         v.posts + 1, v.q)
  }

  /** A row whose retry is due at a time: a delivery's says so, an event's stays in flight. */
  function Waiting(t: Task, r: Row, at: int): Row {
    if t.EventTask? then r else r.(status := Queued, nextRetry := Some(at))
  }

  function Closed(t: Task, r: Row): Row {
    if t.EventTask? then r.(status := Failed, nextRetry := None) else r.(status := Dead)
  }

  /** What one run makes of a refused task. Not past the gates: nothing but the pause.
      Past them: one more attempt, one more record, one more send, then a successor at
      its time (the delivery's row saying so) or the end. */
  ghost predicate Outcome(site: Site, member: Raw, v: View, v': View, p: Payload, f: Fate) {
    var (t, at) := (TaskOf(p), DueAt(site, p, v.row.attempts, f));
    match Successor(site, p, v.row.attempts, f)
    case Some(p') =>
      v' == (if Executes(site, t, f) then Tried(v).(row := Waiting(t, Tried(v).row, at)) else v)
            .(q := Ack(Schedule(v.q, site.codec.enc(p'), at), member))
    case None => v' == Tried(v).(row := Closed(t, Tried(v).row), q := DeadLetter(v.q, member))
  }

  lemma RefusedEvent(site: Site, member: Raw, v: View, v': View, p: Payload, f: Fate)
    requires p.kind.Delivery? && !EventTerminal(v.row.status) && Refused(TaskOf(p), f)
    requires EventAnswer(site, member, v, v', p, f)
    ensures Outcome(site, member, v, v', p, f)
  {
    BuriedSeen(v.q, member);
  }

  lemma RefusedDelivery(site: Site, member: Raw, v: View, v': View, p: Payload, f: Fate)
    requires p.kind.Message? && p.data.Some? && !DeliveryTerminal(v.row.status) && Refused(TaskOf(p), f)
    requires DeliveryAnswer(site, member, v, v', p, f)
    ensures Outcome(site, member, v, v', p, f)
  {
    BuriedSeen(v.q, member);
  }

  /** What can be sent over HTTP at all. */
  predicate Sendable(site: Site, p: Payload) {
    (p.kind.Delivery? && site.destKind(p.eventId).Http?) || (p.kind.Message? && p.data.Some?)
  }

  predicate Finished(t: Task, s: Status) {
    if t.EventTask? then EventTerminal(s) else DeliveryTerminal(s)
  }

  lemma OneRun(site: Site, w: World, member: Raw, p: Payload, f: Fate)
    requires Sendable(site, p) && Refused(TaskOf(p), f)
    requires TaskOf(p) in w.rows && !Finished(TaskOf(p), w.rows[TaskOf(p)].status)
    ensures var w' := PerformAll(site, w, TaskOf(p), member, Plan(site, w.rows, p, f));
            TaskOf(p) in w'.rows && Outcome(site, member, ViewOf(w, TaskOf(p)), ViewOf(w', TaskOf(p)), p, f)
  {
    var w' := PerformAll(site, w, TaskOf(p), member, Plan(site, w.rows, p, f));
    if p.kind.Delivery? {
      EventOutcome(site, w, member, p, f);
      RefusedEvent(site, member, ViewOf(w, TaskOf(p)), ViewOf(w', TaskOf(p)), p, f);
    } else {
      DeliveryOutcome(site, w, member, p, f);
      RefusedDelivery(site, member, ViewOf(w, TaskOf(p)), ViewOf(w', TaskOf(p)), p, f);
    }
  }

  // ---- the whole life --------------------------------------------------------------

  /** What happens in the queue after the last run, the lease of t it then gives some
      worker, and that worker's fate. */
  datatype Round = Round(ops: seq<Op>, member: Raw, fate: Fate)

  /** The world, and the tokens handed out so far. */
  datatype Life = Life(w: World, used: set<Raw>)

  function LogOf(x: Life): Log { Log(x.w.q, x.used, START.books) }

  ghost function Handed(site: Site, x: Life, round: Round): Log { After(site.codec.OrgOf, LogOf(x), round.ops) }

  /** A fault-free round on t: the queue does what it does, bringing in no other copy of
      t and settling no lease of t, until it leases something of t; the receiver
      refuses it. */
  ghost predicate Fits(site: Site, t: Task, x: Life, round: Round) {
    && AllAllowed(site.codec.OrgOf, LogOf(x), round.ops) && AllApart(site, t, round.ops)
    && round.member in Handed(site, x, round).s.processing && TaskAt(site, round.member) == t
    && Refused(t, round.fate)
  }

  /** The worker decodes what it was handed and runs. */
  ghost function Ran(site: Site, t: Task, x: Life, round: Round): Life {
    var h := Handed(site, x, round);
    var w := x.w.(q := h.s);
    match site.codec.dec(StripToken(round.member))
    case None => Life(w, h.used)
    case Some(p) => Life(PerformAll(site, w, t, round.member, Plan(site, w.rows, p, round.fate)), h.used)
  }

  ghost predicate Lives(site: Site, t: Task, x: Life, rounds: seq<Round>)
    decreases |rounds|
  {
    rounds == [] || (Fits(site, t, x, rounds[0]) && Lives(site, t, Ran(site, t, x, rounds[0]), rounds[1..]))
  }

  ghost function Lived(site: Site, t: Task, x: Life, rounds: seq<Round>): Life
    decreases |rounds|
  {
    if rounds == [] then x else Lived(site, t, Ran(site, t, x, rounds[0]), rounds[1..])
  }

  function Executions(site: Site, t: Task, rounds: seq<Round>): nat {
    if rounds == [] then 0 else (if Executes(site, t, rounds[0].fate) then 1 else 0) + Executions(site, t, rounds[1..])
  }

  function UpTo(n: nat): (r: seq<int>)
    ensures |r| == n && forall i :: 0 <= i < n ==> r[i] == i + 1
  {
    seq(n, i => i + 1)
  }

  /** n executions behind it, still going: row, records and sends agree, with an
      event's payload too, and the one copy in the queue is p. */
  ghost predicate Standing(site: Site, x: Life, p: Payload, n: nat) {
    var t := TaskOf(p);
    && Sendable(site, p) && (p.kind.Delivery? ==> p.attempt == n)
    && t in x.w.rows && !Finished(t, x.w.rows[t].status)
    && x.w.rows[t].attempts == n <= Budget(site, t)
    && RecordsOf(x.w, t) == UpTo(n) && x.w.posts[t] == n
    && Settled(site, LogOf(x), t, site.codec.enc(p), 1) && Graves(site, t, x.w.q.dead) == 0
  }

  /** n executions and over: failed, or dead for a delivery, one entry on the dead list,
      no copy anywhere. */
  ghost predicate Over(site: Site, x: Life, t: Task, n: nat) {
    && t in x.w.rows && x.w.rows[t].status == (if t.EventTask? then Failed else Dead) && x.w.rows[t].attempts == n
    && RecordsOf(x.w, t) == UpTo(n) && x.w.posts[t] == n
    && Graves(site, t, x.w.q.dead) == 1
    && exists r :: Settled(site, LogOf(x), t, r, 0)
  }

  lemma NextRecord(v: View, n: nat)
    requires v.records == UpTo(n) && v.row.attempts == n
    ensures Tried(v).records == UpTo(n + 1)
  {
    assert n + 1 !in UpTo(n);
    assert UpTo(n) + [n + 1] == UpTo(n + 1);
  }

  /** The round hands over the one copy there is. */
  lemma HandedIsSuccessor(site: Site, x: Life, p: Payload, round: Round, n: nat)
    requires site.codec.Valid() && Standing(site, x, p, n) && Fits(site, TaskOf(p), x, round)
    ensures StripToken(round.member) == site.codec.enc(p)
    ensures Settled(site, Handed(site, x, round), TaskOf(p), site.codec.enc(p), 1)
    ensures Graves(site, TaskOf(p), Handed(site, x, round).s.dead) == 0
  {
    var t := TaskOf(p);
    SettledRun(site, LogOf(x), round.ops, t, site.codec.enc(p), 1);
    TheCopy(site, Handed(site, x, round).s, t, site.codec.enc(p), 1, round.member);
  }

  lemma RoundSeen(site: Site, x: Life, p: Payload, round: Round, n: nat)
    requires site.codec.Valid() && Standing(site, x, p, n) && Fits(site, TaskOf(p), x, round)
    ensures var (t, x') := (TaskOf(p), Ran(site, TaskOf(p), x, round));
            && t in x'.w.rows && x'.used == Handed(site, x, round).used
            && Outcome(site, round.member, ViewOf(x.w.(q := Handed(site, x, round).s), t), ViewOf(x'.w, t), p, round.fate)
  {
    var (t, w) := (TaskOf(p), x.w.(q := Handed(site, x, round).s));
    HandedIsSuccessor(site, x, p, round, n);
    assert site.codec.dec(StripToken(round.member)) == Some(p);
    OneRun(site, w, round.member, p, round.fate);
  }

  /** The queue after a run that goes on. */
  lemma SettledOn(site: Site, h: Log, q': State, t: Task, member: Raw, r': Raw, at: int)
    requires Settled(site, h, t, StripToken(member), 1) && member in h.s.processing && TaskAt(site, member) == t && TaskOfRaw(site, r') == t
    requires q' == Ack(Schedule(h.s, r', at), member)
    ensures Settled(site, Log(q', h.used, START.books), t, r', 1)
  {
    Succeeded(site, h.s, t, member, r', at);
  }

  lemma ViewGoesOn(site: Site, member: Raw, v: View, v': View, p: Payload, f: Fate, n: nat)
    requires Outcome(site, member, v, v', p, f) && Successor(site, p, n, f).Some?
    requires v.records == UpTo(n) && v.row.attempts == n && v.posts == n && !Finished(TaskOf(p), v.row.status)
    ensures var (p', n') := (Successor(site, p, n, f).value, if Executes(site, TaskOf(p), f) then n + 1 else n);
            && v'.records == UpTo(n') && v'.row.attempts == n' && v'.posts == n' && !Finished(TaskOf(p), v'.row.status)
            && v'.q == Ack(Schedule(v.q, site.codec.enc(p'), DueAt(site, p, n, f)), member)
  {
    NextRecord(v, n);
  }

  lemma SuccessorFits(site: Site, p: Payload, f: Fate, n: nat)
    requires Sendable(site, p) && (p.kind.Delivery? ==> p.attempt == n) && n <= Budget(site, TaskOf(p))
    requires Successor(site, p, n, f).Some?
    ensures var (p', n') := (Successor(site, p, n, f).value, if Executes(site, TaskOf(p), f) then n + 1 else n);
            && TaskOf(p') == TaskOf(p) && Sendable(site, p')
            && (p'.kind.Delivery? ==> p'.attempt == n') && n' <= Budget(site, TaskOf(p))
  {
  }

  /** After a round that goes on, from what it made of the row and of the queue. */
  lemma StandsAgain(site: Site, h: Log, v: View, x': Life, p: Payload, member: Raw, f: Fate, n: nat)
    requires Sendable(site, p) && (p.kind.Delivery? ==> p.attempt == n) && n <= Budget(site, TaskOf(p))
    requires v.records == UpTo(n) && v.row.attempts == n && v.posts == n && !Finished(TaskOf(p), v.row.status) && v.q == h.s
    requires site.codec.Valid() && Successor(site, p, n, f).Some?
    requires TaskOf(p) in x'.w.rows && x'.used == h.used && Outcome(site, member, v, ViewOf(x'.w, TaskOf(p)), p, f)
    requires Settled(site, h, TaskOf(p), StripToken(member), 1) && Graves(site, TaskOf(p), h.s.dead) == 0
    requires member in h.s.processing && TaskAt(site, member) == TaskOf(p)
    ensures TaskOf(Successor(site, p, n, f).value) == TaskOf(p)
    ensures Standing(site, x', Successor(site, p, n, f).value, if Executes(site, TaskOf(p), f) then n + 1 else n)
  {
    var p' := Successor(site, p, n, f).value;
    SuccessorFits(site, p, f, n);
    ViewGoesOn(site, member, v, ViewOf(x'.w, TaskOf(p)), p, f, n);
    SettledOn(site, h, x'.w.q, TaskOf(p), member, site.codec.enc(p'), DueAt(site, p, n, f));
  }

  /** One round keeps the count: everything agrees on how many executions there were. */
  lemma RoundGoesOn(site: Site, x: Life, p: Payload, round: Round, n: nat)
    requires site.codec.Valid() && Standing(site, x, p, n) && Fits(site, TaskOf(p), x, round)
    requires Successor(site, p, n, round.fate).Some?
    ensures var p' := Successor(site, p, n, round.fate).value;
            && TaskOf(p') == TaskOf(p)
            && Standing(site, Ran(site, TaskOf(p), x, round), p', if Executes(site, TaskOf(p), round.fate) then n + 1 else n)
  {
    var t := TaskOf(p);
    var h := Handed(site, x, round);
    RoundSeen(site, x, p, round, n);
    HandedIsSuccessor(site, x, p, round, n);
    StandsAgain(site, h, ViewOf(x.w.(q := h.s), t), Ran(site, t, x, round), p, round.member, round.fate, n);
  }

  lemma RoundEnds(site: Site, x: Life, p: Payload, round: Round, n: nat)
    requires site.codec.Valid() && Standing(site, x, p, n) && Fits(site, TaskOf(p), x, round)
    requires Successor(site, p, n, round.fate).None?
    ensures Over(site, Ran(site, TaskOf(p), x, round), TaskOf(p), n + 1)
    ensures Executes(site, TaskOf(p), round.fate) && n == Budget(site, TaskOf(p))
  {
    var t := TaskOf(p);
    var h := Handed(site, x, round);
    RoundSeen(site, x, p, round, n);
    HandedIsSuccessor(site, x, p, round, n);
    NextRecord(ViewOf(x.w.(q := h.s), t), n);
    Buried(site, t, h.s, round.member);
    SettledEnd(site, h, t, round.member);
    assert LogOf(Ran(site, t, x, round)) == Log(DeadLetter(h.s, round.member), h.used, START.books);
  }

  lemma SettledEnd(site: Site, h: Log, t: Task, member: Raw)
    requires Settled(site, h, t, StripToken(member), 1) && member in h.s.processing && TaskAt(site, member) == t
    ensures Settled(site, Log(DeadLetter(h.s, member), h.used, START.books), t, StripToken(member), 0)
  {
    Ended(site, h.s, t, member);
  }

  /** Once over, the queue has nothing of t to hand out any more. */
  lemma NoMore(site: Site, x: Life, t: Task, n: nat, round: Round)
    requires Over(site, x, t, n)
    ensures !Fits(site, t, x, round)
  {
    if Fits(site, t, x, round) {
      var r :| Settled(site, LogOf(x), t, r, 0);
      SettledRun(site, LogOf(x), round.ops, t, r, 0);
      TheCopy(site, Handed(site, x, round).s, t, r, 0, round.member);
      assert false;
    }
  }

  /** Where n executions have brought t: over just past the budget, standing within it. */
  ghost predicate Reached(site: Site, x: Life, t: Task, n: nat) {
    if n > Budget(site, t) then Over(site, x, t, n) && n == Budget(site, t) + 1
    else exists p' :: TaskOf(p') == t && Standing(site, x, p', n)
  }

  lemma StandsReached(site: Site, x: Life, p: Payload, n: nat)
    requires Standing(site, x, p, n)
    ensures Reached(site, x, TaskOf(p), n)
  {
  }

  lemma LastRound(site: Site, x: Life, p: Payload, rounds: seq<Round>, n: nat)
    requires site.codec.Valid() && Standing(site, x, p, n) && Lives(site, TaskOf(p), x, rounds) && rounds != []
    requires Successor(site, p, n, rounds[0].fate).None?
    ensures rounds == [rounds[0]] && Executes(site, TaskOf(p), rounds[0].fate)
    ensures Reached(site, Ran(site, TaskOf(p), x, rounds[0]), TaskOf(p), n + 1)
  {
    RoundEnds(site, x, p, rounds[0], n);
    if |rounds| > 1 {
      NoMore(site, Ran(site, TaskOf(p), x, rounds[0]), TaskOf(p), n + 1, rounds[1..][0]);
    }
  }

  lemma {:induction false} LifeCounts(site: Site, x: Life, p: Payload, rounds: seq<Round>, n: nat, total: nat)
    requires site.codec.Valid() && Standing(site, x, p, n) && Lives(site, TaskOf(p), x, rounds)
    requires total == n + Executions(site, TaskOf(p), rounds)
    ensures Reached(site, Lived(site, TaskOf(p), x, rounds), TaskOf(p), total)
    decreases |rounds|
  {
    if rounds == [] {
      StandsReached(site, x, p, n);
    } else if Successor(site, p, n, rounds[0].fate).Some? {
      RoundGoesOn(site, x, p, rounds[0], n);
      LifeCounts(site, Ran(site, TaskOf(p), x, rounds[0]), Successor(site, p, n, rounds[0].fate).value, rounds[1..],
                 if Executes(site, TaskOf(p), rounds[0].fate) then n + 1 else n, total);
    } else {
      LastRound(site, x, p, rounds, n);
      assert rounds[1..] == [];
    }
  }

  /** The exact fault-free life. A fresh event or delivery with one copy in the queue, no
      other brought in, refused every time: at its budget plus one executions,
      max_retries+1 for an event and eight for a delivery, it is over, with one entry on
      the dead list and no copy left to lease; until then the queue holds exactly one
      copy, and row, records and sends (and an event's payload) all say the number of
      executions. Runs the gates turned back change none of it. */
  lemma ExactLife(site: Site, x: Life, p: Payload, rounds: seq<Round>)
    requires site.codec.Valid() && Lives(site, TaskOf(p), x, rounds)
    requires Sendable(site, p) && (p.kind.Delivery? ==> p.attempt == 0)
    requires var t := TaskOf(p);
             t in x.w.rows && x.w.rows[t] == Row(Queued, 0, None) && RecordsOf(x.w, t) == [] && x.w.posts[t] == 0
    requires Settled(site, LogOf(x), TaskOf(p), site.codec.enc(p), 1) && Graves(site, TaskOf(p), x.w.q.dead) == 0
    ensures Reached(site, Lived(site, TaskOf(p), x, rounds), TaskOf(p), Executions(site, TaskOf(p), rounds))
  {
    assert UpTo(0) == [];
    LifeCounts(site, x, p, rounds, 0, Executions(site, TaskOf(p), rounds));
  }
}
