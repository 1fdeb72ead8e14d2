/** The three handlers as what they do to the outside: each run of Process is the
    list of its effects, in order, on the queue, the rows, the counters and the
    wire. Everything a run reads or draws is one Fate. */
module Handlers {
  import opened Lease
  import opened QueueModel
  import opened Payloads
  import Backoff

  // ---- what the handlers work on -------------------------------------------

  /** The row a payload is about. Emails have no row in the database: theirs is a
      model-side note, Queued while the mail is owed. */
  datatype Task = EventTask(id: nat) | DeliveryTask(id: nat) | EmailTask(id: nat) | NoTask

  function TaskOf(p: Payload): Task {
    match p.kind
    case Delivery => EventTask(p.eventId)
    case Message => if p.data.Some? then DeliveryTask(p.data.value) else NoTask
    case Email => if p.data.Some? then EmailTask(p.data.value) else NoTask
  }

  datatype Status = Queued | InFlight | Delivered | Failed | Discarded | Filtered | Dead | Disabled

  datatype Row = Row(status: Status, attempts: nat, nextRetry: Option<int>)

  datatype DestKind = Http | Cli | OtherKind

  datatype Endpoint = Endpoint(failures: nat, disabled: bool)

  datatype OpEvent = AttemptExhausted(delivery: nat) | EndpointDisabled(endpoint: nat)

  /** Deployment configuration and the columns that never change under a task. */
  datatype Site = Site(
    codec: Codec,
    perOrgMax: int,
    maxFailures: nat,
    destKind: nat -> DestKind,
    maxRetries: nat -> int,
    destOf: nat -> nat,
    destCap: nat -> int,
    endpointOf: nat -> nat,
    operational: nat -> bool)

  datatype Slot = OrgSlot | DestSlot

  datatype Verdict = NoFilter | Pass | Reject | FilterError

  /** One run's readings and draws: the clock, Redis replies (None is a Redis error,
      which fails open), row columns that may change, sandbox results, the reply on
      the wire (None is a transport error). */
  datatype Fate = Fate(
    now: int,
    orgReply: Option<int>,
    rateLimited: Option<int>,
    destMax: int,
    destReply: Option<int>,
    hasUrl: bool,
    urlOk: bool,
    bodyFound: bool,
    filter: Verdict,
    transformFails: bool,
    requestOk: bool,
    reply: Option<int>,
    policy: Backoff.Policy,
    draw: real,
    cliConnected: bool,
    cliExpired: bool,
    disabled: bool,
    expunged: bool,
    signOk: bool,
    rendered: bool,
    hasSender: bool)

  datatype Effect =
    | Drop                        // Ack
    | Bury                        // DeadLetter
    | Defer(p: Payload, at: int)  // Schedule
    | Mark(status: Status)        // MarkEvent*, MarkDelivery*: an end state
    | Start                       // MarkEventInFlight, MarkDeliveryInFlight
    | RetryAt(at: int)            // MarkDeliveryForRetry
    | Hold(at: int)               // ResetEventForRetry
    | Record(num: int)            // CreateAttempt, CreateMessageDeliveryAttempt
    | Post                        // the HTTP or SMTP send
    | Take(slot: Slot)            // INCR of an in-flight counter
    | Give(slot: Slot)            // DECR
    | HandOff                     // RPUSH to the tunnel's dispatch list
    | Exhausted                   // publish message.attempt.exhausted
    | Strike                      // IncrEndpointFailures and what follows from it
    | Clear                       // ResetEndpointFailures

  // ---- internal/deliver ----------------------------------------------------

  predicate EventTerminal(s: Status) {
    s.Delivered? || s.Failed? || s.Discarded? || s.Filtered? || s.Dead?
  }

  function Deferral(p: Payload, f: Fate, delay: int): seq<Effect> {
    [Defer(p.(enqueuedAt := f.now), f.now + delay), Drop]
  }

  function Success(reply: Option<int>): bool { reply.Some? && 200 <= reply.value < 300 }

  /** The shared retry/terminate tail of the delivery handler. */
  function EventFail(site: Site, p: Payload, f: Fate): seq<Effect> {
    var p' := p.(attempt := p.attempt + 1);
    if p'.attempt > site.maxRetries(p.eventId)
    then [Mark(Failed), Bury]
    else [Defer(p', f.now + Backoff.Delay(f.policy, p'.attempt, f.draw) / Backoff.MS), Drop]
  }

  function EventSend(site: Site, row: Row, p: Payload, f: Fate): seq<Effect> {
    var record := Record(row.attempts + 1);
    var rest :=
      if !f.bodyFound then [record] + EventFail(site, p, f)
      else if f.filter.FilterError? then [record, Mark(Failed), Bury]
      else if f.filter.Reject? then [Mark(Filtered), Drop]
      else if f.transformFails then [record, Mark(Failed), Bury]
      else if !f.requestOk then [record] + EventFail(site, p, f)
      else if Success(f.reply) then [Post, record, Mark(Delivered), Drop]
      else [Post, record] + EventFail(site, p, f);
    [Start] + rest
  }

  function EventGated(site: Site, row: Row, p: Payload, f: Fate): seq<Effect> {
    if f.rateLimited.Some? then
      Deferral(p, f, if f.rateLimited.value <= 0 then 100 else f.rateLimited.value)
    else if f.destMax > 0 && f.destReply.Some? then
      if f.destReply.value > f.destMax
      then [Take(DestSlot), Give(DestSlot)] + Deferral(p, f, 250)
      else [Take(DestSlot)] + EventSend(site, row, p, f) + [Give(DestSlot)]
    else EventSend(site, row, p, f)
  }

  function EventCli(p: Payload, f: Fate): seq<Effect> {
    if f.cliConnected then [HandOff, Drop]
    else if p.manual || f.cliExpired then [Mark(Discarded), Drop]
    else [Hold(f.now + 15_000)] + Deferral(p, f, 15_000)
  }

  /** The per-org gate both delivering handlers share: over the cap the slot goes
      straight back, under it the slot is held to the end of the run. */
  function OrgGate(site: Site, p: Payload, f: Fate, inner: seq<Effect>): seq<Effect> {
    if site.perOrgMax > 0 && f.orgReply.Some? then
      if f.orgReply.value > site.perOrgMax
      then [Take(OrgSlot), Give(OrgSlot)] + Deferral(p, f, 500)
      else [Take(OrgSlot)] + inner + [Give(OrgSlot)]
    else inner
  }

  function EventPlan(site: Site, row: Option<Row>, p: Payload, f: Fate): seq<Effect> {
    if row.None? || EventTerminal(row.value.status) then [Drop]
    else if site.destKind(p.eventId).Cli? then EventCli(p, f)
    else if !site.destKind(p.eventId).Http? || !f.hasUrl || !f.urlOk
    then [Record(row.value.attempts + 1), Mark(Failed), Bury]
    else OrgGate(site, p, f, EventGated(site, row.value, p, f))
  }

  // ---- internal/webhook ----------------------------------------------------

  const RETRY_SCHEDULE: seq<int> := [5_000, 300_000, 1_800_000, 7_200_000, 18_000_000, 36_000_000, 36_000_000]

  function NextDelay(attemptCount: int): Option<int> {
    if attemptCount < 1 || attemptCount > |RETRY_SCHEDULE| then None
    else Some(RETRY_SCHEDULE[attemptCount - 1])
  }

  predicate DeliveryTerminal(s: Status) {
    s.Delivered? || s.Dead? || s.Disabled? || s.Filtered?
  }

  function MessageFail(site: Site, id: nat, p: Payload, f: Fate, attemptNum: int): seq<Effect> {
    match NextDelay(attemptNum)
    case None =>
      [Mark(Dead)]
      + (if site.operational(id) then [] else [Exhausted])
      + (if site.maxFailures > 0 then [Strike] else [])
      + [Bury]
    case Some(delay) => [RetryAt(f.now + delay), Defer(p, f.now + delay), Drop]
  }

  function MessageSend(site: Site, id: nat, row: Row, p: Payload, f: Fate): seq<Effect> {
    var n := row.attempts + 1;
    var rest :=
      if !f.requestOk then MessageFail(site, id, p, f, n)
      else if Success(f.reply)
      then [Post, Record(n), Mark(Delivered)] + (if site.maxFailures > 0 then [Clear] else []) + [Drop]
      else [Post, Record(n)] + MessageFail(site, id, p, f, n);
    [Start] + rest
  }

  function MessageGated(site: Site, id: nat, row: Row, p: Payload, f: Fate): seq<Effect> {
    var hopeless := [Record(row.attempts + 1), Mark(Dead), Bury];
    if f.expunged || f.filter.FilterError? then hopeless
    else if f.filter.Reject? then [Mark(Filtered), Drop]
    else if f.transformFails then hopeless
    else if f.rateLimited.Some? then
      Deferral(p, f, if f.rateLimited.value <= 0 then 100 else f.rateLimited.value)
    else if !f.urlOk || !f.signOk then hopeless
    else MessageSend(site, id, row, p, f)
  }

  function MessagePlan(site: Site, row: Option<Row>, p: Payload, f: Fate): seq<Effect> {
    if p.data.None? then [Bury]
    else if row.None? || DeliveryTerminal(row.value.status) then [Drop]
    else if f.disabled then [Mark(Disabled), Drop]
    else OrgGate(site, p, f, MessageGated(site, p.data.value, row.value, p, f))
  }

  // ---- internal/mailer -----------------------------------------------------

  const EMAIL_BACKOFF: seq<int> := [60_000, 300_000]

  /** The Mark effects only settle the model's note; the mailer writes no row. */
  function EmailPlan(p: Payload, f: Fate): seq<Effect> {
    if p.data.None? then [Bury]
    else if !f.rendered then [Mark(Failed), Bury]
    else if !f.hasSender then [Mark(Discarded), Drop]
    else if Success(f.reply) then [Post, Mark(Delivered), Drop]
    else if p.attempt < |EMAIL_BACKOFF|
    then [Post, Defer(p.(attempt := p.attempt + 1), f.now + EMAIL_BACKOFF[p.attempt]), Drop]
    else [Post, Mark(Failed), Bury]
  }

  /** The worker's dispatch on Kind. */
  function Plan(site: Site, rows: map<Task, Row>, p: Payload, f: Fate): seq<Effect> {
    var t := TaskOf(p);
    var row := if t in rows then Some(rows[t]) else None;
    match p.kind
    case Delivery => EventPlan(site, row, p, f)
    case Message => MessagePlan(site, row, p, f)
    case Email => EmailPlan(p, f)
  }

  // ---- what the effects do -------------------------------------------------

  datatype World = World(
    q: State,
    rows: map<Task, Row>,
    records: map<Task, seq<int>>,
    posts: multiset<Task>,
    endpoints: map<nat, Endpoint>,
    published: seq<OpEvent>,
    dispatched: seq<Task>)

  /** An UPDATE of one row: no row, no effect. */
  function Update(rows: map<Task, Row>, t: Task, row: Row -> Row): map<Task, Row> {
    if t in rows then rows[t := row(rows[t])] else rows
  }

  function RecordsOf(w: World, t: Task): seq<int> { if t in w.records then w.records[t] else [] }

  /** One failed delivery counted against its endpoint; at the threshold the endpoint
      is disabled and, unless it is an operational one, that is published. */
  function Struck(site: Site, w: World, id: nat): World {
    var e := site.endpointOf(id);
    if e !in w.endpoints then w else
      var was := w.endpoints[e];
      var now := Endpoint(was.failures + 1, was.failures + 1 >= site.maxFailures || was.disabled);
      w.(endpoints := w.endpoints[e := now],
         published := if !was.disabled && now.disabled && !site.operational(id)
                      then w.published + [EndpointDisabled(e)] else w.published)
  }

  function Cleared(site: Site, w: World, id: nat): World {
    var e := site.endpointOf(id);
    if e !in w.endpoints then w
    else w.(endpoints := w.endpoints[e := w.endpoints[e].(failures := 0)])
  }

  /** The UPDATE statements, one row each. */
  function Written(t: Task, r: Row, e: Effect): Row {
    match e
    case Mark(s) => r.(status := s, nextRetry := if t.EventTask? && !s.Filtered? then None else r.nextRetry)
    case Start => r.(status := InFlight, attempts := r.attempts + 1)
    case RetryAt(at) => r.(status := Queued, nextRetry := Some(at))
    case Hold(at) => r.(status := Queued, nextRetry := Some(at))
    case _ => r
  }

  function Perform(site: Site, w: World, t: Task, member: Raw, e: Effect): World {
    match e
    case Drop => w.(q := Ack(w.q, member))
    case Bury => w.(q := DeadLetter(w.q, member))
    case Defer(p, at) => w.(q := Schedule(w.q, site.codec.enc(p), at))
    case Mark(_) | Start | RetryAt(_) | Hold(_) => w.(rows := Update(w.rows, t, (r: Row) => Written(t, r, e)))
    case Record(n) =>
      // UNIQUE (event_id, attempt_num): a repeated number inserts nothing
      if n in RecordsOf(w, t) then w else w.(records := w.records[t := RecordsOf(w, t) + [n]])
    case Post => w.(posts := w.posts + multiset{t})
    case Exhausted => if t.DeliveryTask? then w.(published := w.published + [AttemptExhausted(t.id)]) else w
    case Strike => if t.DeliveryTask? then Struck(site, w, t.id) else w
    case Clear => if t.DeliveryTask? then Cleared(site, w, t.id) else w
    case HandOff => w.(dispatched := w.dispatched + [t])
    case Take(_) => w
    case Give(_) => w
  }

  function PerformAll(site: Site, w: World, t: Task, member: Raw, es: seq<Effect>): World
    decreases |es|
  {
    if es == [] then w
    else Perform(site, PerformAll(site, w, t, member, es[..|es| - 1]), t, member, es[|es| - 1])
  }

  /** Doing a list of effects starts with its first one. */
  lemma {:induction false} PerformFront(site: Site, w: World, t: Task, member: Raw, es: seq<Effect>)
    requires es != []
    ensures PerformAll(site, w, t, member, es) == PerformAll(site, Perform(site, w, t, member, es[0]), t, member, es[1..])
    decreases |es|
  {
    var n := |es| - 1;
    if n > 0 {
      PerformFront(site, w, t, member, es[..n]);
      assert es[..n][1..] == es[1..][..n - 1];
    } else {
      assert es[..n] == [] && es[1..] == [];
    }
  }
}
