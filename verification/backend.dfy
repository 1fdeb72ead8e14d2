/** What a worker writes to: the queue and the tables, changed in place, one method
    per call the handlers make. */
module Backends {
  import opened Lease
  import opened QueueModel
  import opened Payloads
  import opened Handlers
  import opened FairQueue

  /** One run of a handler: the world it began in, the row and lease it is about. */
  datatype Run = Run(base: World, task: Task, member: Raw)

  /** A trace with a held slot around it, and one that bounced off a gate. */
  lemma Around(a: seq<Effect>, slot: Slot, inner: seq<Effect>)
    ensures a + [Take(slot)] + inner + [Give(slot)] == a + ([Take(slot)] + inner + [Give(slot)])
    ensures a + [Take(slot)] + [Give(slot)] + inner == a + ([Take(slot), Give(slot)] + inner)
  {
    assert [Take(slot)] + [Give(slot)] == [Take(slot), Give(slot)];
  }

  /** The stores one worker writes to. `run` is the run in progress and `trace` what it
      has done so far. */
  class Backend {
    const site: Site
    const queue: Queue
    var rows: map<Task, Row>
    var records: map<Task, seq<int>>
    var posts: multiset<Task>
    var endpoints: map<nat, Endpoint>
    var published: seq<OpEvent>
    var dispatched: seq<Task>

    ghost var run: Run
    ghost var trace: seq<Effect>

    ghost function Now(): World
      reads this, queue
    {
      World(queue.Now(), rows, records, posts, endpoints, published, dispatched)
    }

    /** The trace accounts for every change since the run began: Now() is what doing
        the trace makes of the base. Said of every list equal to the trace, so that
        the definition of PerformAll is unrolled only where a proof names such a
        list (Log and Summed), and not at each call of a handler. */
    ghost predicate Traced()
      reads this, queue
    {
      && queue.codec == site.codec
      && forall es :: es == trace ==> Now() == PerformAll(site, run.base, run.task, run.member, es)
    }

    ghost predicate Running(t: Task, raw: Raw)
      reads this, queue
    {
      Traced() && run.task == t && run.member == raw
    }

    /** This run, having done exactly these effects. */
    ghost predicate Reached(r: Run, es: seq<Effect>)
      reads this, queue
    {
      Traced() && run == r && trace == es
    }

    constructor (site: Site, queue: Queue)
      requires queue.codec == site.codec
      ensures this.site == site && this.queue == queue
      ensures Now() == World(queue.Now(), map[], map[], multiset{}, map[], [], [])
    {
      this.site, this.queue := site, queue;
      rows, records, posts, endpoints, published, dispatched := map[], map[], multiset{}, map[], [], [];
    }

    ghost method Begin(t: Task, raw: Raw)
      requires queue.codec == site.codec
      modifies this`run, this`trace
      ensures Reached(Run(old(Now()), t, raw), []) && Now() == old(Now())
    {
      run, trace := Run(Now(), t, raw), [];
    }

    /** The world a finished trace has made. */
    lemma Summed()
      requires Traced()
      ensures Now() == PerformAll(site, run.base, run.task, run.member, trace)
    {
    }

    /** Books one more effect of the current run. */
    ghost method Log(e: Effect)
      requires queue.codec == site.codec
      requires Now() == Perform(site, PerformAll(site, run.base, run.task, run.member, trace), run.task, run.member, e)
      modifies this`trace
      ensures Reached(old(run), old(trace) + [e]) && Now() == old(Now())
    {
      trace := trace + [e];
      assert trace[..|trace| - 1] == old(trace);
    }

    // ---- the queue -----------------------------------------------------------------

    method Ack(raw: Raw)
      requires Traced() && raw == run.member
      modifies this, queue
      ensures Reached(old(run), old(trace) + [Drop])
    {
      queue.Ack(raw);
      Log(Drop);
    }

    method DeadLetter(raw: Raw)
      requires Traced() && raw == run.member
      modifies this, queue
      ensures Reached(old(run), old(trace) + [Bury])
    {
      queue.DeadLetter(raw);
      Log(Bury);
    }

    method Schedule(p: Payload, at: int)
      requires Traced()
      modifies this, queue
      ensures Reached(old(run), old(trace) + [Defer(p, at)])
    {
      queue.Schedule(p, at);
      Log(Defer(p, at));
    }

    // ---- the tables ----------------------------------------------------------------

    /** The one-row UPDATEs: MarkEvent*, ResetEventForRetry, MarkDelivery*. */
    method Write(t: Task, e: Effect)
      requires Traced() && t == run.task
      requires e.Mark? || e.Start? || e.RetryAt? || e.Hold?
      modifies this
      ensures Reached(old(run), old(trace) + [e])
      ensures queue.Now() == old(queue.Now())
    {
      if t in rows { rows := rows[t := Written(t, rows[t], e)]; }
      Log(e);
    }

    method RecordAttempt(t: Task, num: int)
      requires Traced() && t == run.task
      modifies this
      ensures Reached(old(run), old(trace) + [Record(num)])
    {
      var known := if t in records then records[t] else [];
      if num !in known { records := records[t := known + [num]]; }
      Log(Record(num));
    }

    /** Counts a failed delivery against its endpoint; true when that disables it. */
    method IncrEndpointFailures(id: nat) returns (justDisabled: bool)
      requires Traced() && run.task == DeliveryTask(id)
      modifies this
      ensures Reached(old(run), old(trace) + [Strike])
    {
      var e := site.endpointOf(id);
      if e !in endpoints {
        Log(Strike);
        return false;
      }
      var was := endpoints[e];
      var failures := was.failures + 1;
      justDisabled := !was.disabled && failures >= site.maxFailures;
      endpoints := endpoints[e := Endpoint(failures, was.disabled || failures >= site.maxFailures)];
      if justDisabled && !site.operational(id) { published := published + [EndpointDisabled(e)]; }
      Log(Strike);
    }

    method ResetEndpointFailures(id: nat)
      requires Traced() && run.task == DeliveryTask(id)
      modifies this
      ensures Reached(old(run), old(trace) + [Clear])
    {
      var e := site.endpointOf(id);
      if e in endpoints { endpoints := endpoints[e := Endpoint(0, endpoints[e].disabled)]; }
      Log(Clear);
    }

    method PublishExhausted(id: nat)
      requires Traced() && run.task == DeliveryTask(id)
      modifies this
      ensures Reached(old(run), old(trace) + [Exhausted])
    {
      published := published + [AttemptExhausted(id)];
      Log(Exhausted);
    }

    // ---- the wire and the slots ------------------------------------------------------

    method Send(t: Task)
      requires Traced() && t == run.task
      modifies this
      ensures Reached(old(run), old(trace) + [Post])
    {
      posts := posts + multiset{t};
      Log(Post);
    }

    /** RPUSH to the dispatch list of the event's source, for the tunnel to take over. */
    method PushDispatch(t: Task)
      requires Traced() && t == run.task
      modifies this
      ensures Reached(old(run), old(trace) + [HandOff])
    {
      dispatched := dispatched + [t];
      Log(HandOff);
    }

    /** INCR or DECR of an in-flight counter; the counters themselves are modelled
        apart. */
    method Count(slot: Slot, up: bool)
      requires Traced()
      modifies this
      ensures Reached(old(run), old(trace) + [if up then Take(slot) else Give(slot)])
    {
      Log(if up then Take(slot) else Give(slot));
    }
  }
}
