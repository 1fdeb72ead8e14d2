# dstream: the delivery protocol, proved

dstream receives webhooks, and sends its own, through one queue in Redis that many
workers share. This project models that queue, the three handlers that drive it
(inbound delivery, outbound webhooks, mail), and the smaller engines around them, and
proves what they promise: nothing accepted is lost, orgs are served fairly, a status
that claims an owner has one, retries are bounded, slots come back, operational events
end.

`dafny verify dfyconfig.toml` checks everything.

## How it is built

| file | what it holds |
|---|---|
| `ordering.dfy` | sorting by a strict total order: every ordered read has one answer |
| `lease.dfy`, `payload.dfy` | the bytes: fencing tokens, and the wire form of a payload |
| `queue_model.dfy` | the queue as values, one function per atomic step, and its ring invariant |
| `queue.dfy` | the queue as the object it is, each method tied to its step |
| `copies.dfy`, `history.dfy` | counting copies; whole runs with their books; fencing |
| `timing.dfy`, `dead_list.dfy` | nothing handed out before its time; leases; the dead list and the wakeups |
| `fairness.dfy`, `promotion.dfy` | bounded wait, FIFO, turns; sweeps and recovery |
| `backoff.dfy` | inbound retry delays |
| `handlers.dfy` | each run of a handler as the list of its effects, and what effects do |
| `backend.dfy`, `deliver.dfy`, `webhook.dfy`, `mailer.dfy`, `worker.dfy` | the handlers and the consumer loop branch by branch, changing queue and tables in place, proved to do exactly those lists |
| `system.dfy` | many workers interleaved effect by effect, crashes anywhere |
| `custody.dfy`, `ownership.dfy` | the rule all three handlers keep, and ownership over whole runs |
| `sums.dfy`, `retry_bound.dfy` | the retry budget over whole runs |
| `outbound_budget.dfy`, `delivery_bound.dfy` | the outbound budget, a run as one step and then over whole runs of the system |
| `views.dfy`, `outcomes.dfy`, `delivery_outcomes.dfy` | how a complete run ends, branch by branch, read off the world it leaves |
| `successors.dfy` | what a run leaves behind |
| `single_copy.dfy`, `exact_run.dfy`, `timeline.dfy` | one copy stays one copy; the exact life of a refused event or delivery, and its clock |
| `semaphore.dfy`, `shared_slots.dfy` | the in-flight slots; the slots of an org or a destination among all the workers of the system |
| `opevents.dfy`, `endpoints.dfy` | operational events; endpoint auto-disable |
| `pagination.dfy`, `quota.dfy`, `rollup.dfy`, `membership.dfy` | keyset pagination, the quota gate, the usage sweep, org ownership and login |

Everything a run reads or draws (clock, Redis replies, row columns, sandbox results, the
reply on the wire) is one `Fate`, so every theorem about plans is for all of them. An
effect is one call to the outside; a crash is stopping between two. Where a number
matters (which replies deliver, a pause, a limit) the theorem writes it out.

What the whole-system theorems assume, all of it in `System.Enabled`: fencing tokens do
not repeat; `Recover` meets only leases whose worker is gone (a live run ends before its
lease does); payloads are enqueued under the org they name; a destination's type does not
change. A payload names the org of the row it is about: the handlers key the org's
counter by the row's `org_id`, `shared_slots.dfy` by the payload's. Writes whose error the
code discards take effect.

Two notes on the code against its words. `DeadLetter` "terminates an event", but it lists
the payload as dead also for a member that is no longer leased, and only the leases are
fenced: `History.DeadYetLeased` is a run that ends with a payload dead and leased, and
`History.DeadAndLive` says exactly when that happens, after any run: when the queue held
a copy besides the lease buried. A cursor built from a nil uuid goes out as NULL, which is not what the cursor
says, but `Pagination.BindSelects` shows that the page after it is still the right one.

## Model

| member | source | states |
|---|---|---|
| Lease.StripAgrees | internal/dqueue/dqueue.go:126-136 | the Lua split and the Go split of a member agree on every byte string |
| Lease.StripUndoesTag | internal/dqueue/dqueue.go:200-213 | stripping undoes tagging for every payload, and is the identity on an untagged one |
| Lease.TaggedInjective | internal/dqueue/dqueue.go:97-114 | a lease handle names one token and one payload |
| Lease.FirstByteDecides | internal/dqueue/dqueue.go:140-142 | members of one score are in byte order: the first byte to differ decides, and a prefix comes first |
| QueueModel.EntryOrder | internal/dqueue/dqueue.go:140-142 | score then bytes is a strict total order on the members of a sorted set |
| QueueModel.DueUnique | internal/dqueue/dqueue.go:142-158 | an ordered range read has exactly one answer |
| QueueModel.StepKeepsRing | internal/dqueue/dqueue.go:83-167 | every operation keeps the ring: no org twice, exactly the orgs with pending work, each payload under its own org |
| QueueModel.RingAlwaysOk | internal/dqueue/dqueue.go:83-114 | the ring invariant in every state of every run |
| QueueModel.PickEmptyIff | internal/dqueue/dqueue.go:103-114 | after every run a pick answers "nothing" exactly when nothing is pending anywhere, and the empty-list exit is never taken |
| FairQueue.RangeByScore | internal/dqueue/dqueue.go:142-158 | reads the due members in (score, bytes) order, up to the limit; a negative limit is none |
| FairQueue.Queue.constructor | internal/dqueue/dqueue.go:61-70 | starts empty |
| FairQueue.Queue.Enqueue | internal/dqueue/dqueue.go:83-94 | appends to the org's list, joins the ring on the first payload, wakes one waiter, leaves the rest |
| FairQueue.Queue.Schedule | internal/dqueue/dqueue.go:190-198 | a scheduled entry with the same bytes has its time replaced |
| FairQueue.Queue.FairPick | internal/dqueue/dqueue.go:103-114 | the front org's first payload becomes a lease under a new token and the org goes to the back iff it has more; a payload that does not decode is leased all the same |
| FairQueue.Queue.WaitNotify | internal/dqueue/dqueue.go:274-282 | takes one wakeup if there is one |
| FairQueue.Queue.Ack | internal/dqueue/dqueue.go:244-247 | removes exactly that lease |
| FairQueue.Queue.DeadLetter | internal/dqueue/dqueue.go:126-136 | the bare payload joins the capped dead list and exactly that lease goes |
| FairQueue.Queue.PromoteDue | internal/dqueue/dqueue.go:140-152 | the loop moves the due entries, up to the limit, in order, and counts them |
| FairQueue.Queue.Recover | internal/dqueue/dqueue.go:156-167 | the loop moves every expired lease to scheduled at now, and counts them |
| FairQueue.Queue.RequeueDead | internal/dqueue/dqueue.go:451-503 | first match off the dead list, attempt reset, back to pending; no match or no payload, no change |
| FairQueue.Queue.PromoteScheduled | internal/dqueue/dqueue.go:466-520 | a scheduled entry becomes pending now, or nothing happens |
| FairQueue.Queue.DrainDead | internal/dqueue/dqueue.go:479-486 | empties the dead list and says how many it held |
| Copies.PickCount | internal/dqueue/dqueue.go:103-114 | a pick keeps the number of copies of every payload |
| Copies.PromoteDueCount | internal/dqueue/dqueue.go:140-152 | a promotion sweep keeps the number of copies of every payload |
| Copies.RecoverCount | internal/dqueue/dqueue.go:156-167 | recovery drops exactly the copies it merges into an identical entry, and never the last one |
| History.Conservation | internal/dqueue/dqueue.go:83-167 | over every run, per payload: accepted = pending + scheduled + leased + effective acks + effective dead-letters + merged |
| History.NothingLost | internal/dqueue/dqueue.go:8-16 | an accepted payload never acked nor dead-lettered is still in the queue |
| History.MoversConserve | internal/dqueue/dqueue.go:103-167 | after any run, pick, promotion and recovery create no copy and lose no payload; only recovery merges |
| History.StaysGone | internal/dqueue/dqueue.go:97-114 | a lease that is gone never comes back |
| History.StaleHolderHarmless | internal/dqueue/dqueue.go:97-136 | the old holder of a lease that is gone removes no lease, however much later it acks or dead-letters |
| History.BurialEndsPayload | internal/dqueue/dqueue.go:121-136 | a dead-letter always lists its payload as dead, and leaves it live exactly when the queue held a copy besides that lease |
| History.DeadAndLive | internal/dqueue/dqueue.go:249-252 | after every run: a payload just buried is pending, scheduled or leased as well exactly on that condition; with the lease already gone, exactly when it was live before |
| History.DeadYetLeased | internal/dqueue/dqueue.go:126-167 | a run that does it: picked, recovered, promoted, picked again, and buried by the first holder |
| History.LeasesByToken | internal/dqueue/dqueue.go:97-102 | in every run two leases never share a token |
| Timing.AsleepStep | internal/dqueue/dqueue.go:83-198 | no operation but a sweep at or after its time, a promotion by hand, or one about the same payload wakes a scheduled entry, changes its time, or leases it |
| Timing.NotBeforeItsTime | internal/dqueue/dqueue.go:190-198 | what Schedule stores for a time stays there with that time, is made pending by no sweep and leased by no pick before it, through any other operations; once it has come, enough sweeps make it pending |
| Timing.LeaseRun | internal/dqueue/dqueue.go:154-167 | a lease stays, with its deadline, until its own ack or dead-letter or a recovery at or past that deadline |
| DeadList.DeadTrail | internal/dqueue/dqueue.go:126-136 | between requeues and drains the dead list is the newest 10,000 of what it held and what was buried, in order |
| DeadList.DeadSinceDrain | internal/dqueue/dqueue.go:479-486 | a drain empties the dead list and nothing else; after it the list is what was buried since |
| DeadList.RequeueTakesOldest | internal/dqueue/dqueue.go:451-503 | a requeue takes the oldest listing, leaves the others in place and order, and puts the reset payload behind its org's others; an unlisted one changes nothing |
| DeadList.Wakeups | internal/dqueue/dqueue.go:83-94 | wakeups waiting and taken together cover every payload made pending, up to 1025; never more than either |
| Fairness.FirstInFirstOut | internal/dqueue/dqueue.go:83-114 | per org, what waited plus what arrived is what left plus what waits, in order |
| Fairness.BoundedWait | internal/dqueue/dqueue.go:3-6 | with at most m orgs pending, position j of the org at ring index k is served within k+1+j·m picks, whatever interleaves |
| Fairness.NoOneTwice | internal/dqueue/dqueue.go:3-6 | while a pending org waits for its turn no other org gets two |
| Promotion.SweepMoves | internal/dqueue/dqueue.go:140-152 | a sweep moves exactly the min(limit, due) least entries, in order, per org, none before its time |
| Promotion.SweepsDrain | internal/dqueue/dqueue.go:254-262 | n sweeps leave what lies beyond the first n*limit due entries, so they drain it exactly when n*limit reaches their number |
| Promotion.RecoveredIsPending | internal/dqueue/dqueue.go:154-167 | every lease expired at an instant is pending again after recovery and enough sweeps |
| Promotion.RecoveredIsLeased | internal/dqueue/dqueue.go:97-167 | and is leased again, under a new token, within m picks for each payload its org then has pending, m being the most orgs pending at a time, whatever is interleaved |
| Backoff.DelayBounds | internal/deliver/policy.go:14-111 | for every storable policy, attempt and draw the delay lies in [0, cap] and no intermediate, the products by a millisecond included, overflows 64 bits |
| Backoff.JitterBounds | internal/deliver/policy.go:101-111 | jitter moves a delay by at most itself |
| Backoff.JitterShare | internal/deliver/policy.go:101-111 | jitter moves a delay by at most its share (percent of the delay, 100 at most), by all of it downwards at the lowest draw and by nothing at the middle one, and more for a higher draw |
| Backoff.ClosedForms | internal/deliver/policy.go:14-62 | from the columns themselves: without jitter fixed waits min(cap, base) at every attempt, linear min(cap, base*n), exponential min(cap, base*2^(n-1)) |
| Backoff.GrowsToCap | internal/deliver/policy.go:14-71 | both growing strategies never shrink, and stay at the cap once there |
| Backoff.ReachesCap | internal/deliver/policy.go:14-71 | the cap is reached exactly when base*n, or base*2^(n-1), has caught up with it: linear from attempt cap/base rounded up, exponential by attempt 32 for every storable policy |
| Backoff.RetryDelay | internal/deliver/policy.go:14-61 | the sequence of clamps computes that delay |
| Backoff.CustomSchedule | internal/deliver/policy.go:73-99 | an attempt reads its own entry, later ones the last, earlier ones the first; an entry between nothing and a year is granted exactly, any other the nearer end; an empty schedule gives the fallback |
| Backoff.CustomWaits | internal/deliver/policy.go:14-61 | that is what the attempt waits, under the cap |
| Backends.Backend.Write | internal/store/events.sql.go:850-960 | a status update changes that one row, if it exists, as the effect says |
| Backends.Backend.RecordAttempt | internal/store/attempts.sql.go:14-30 | an attempt number is recorded once |
| Backends.Backend.IncrEndpointFailures | internal/store/endpoints.sql.go:145-187 | counts the failure, disables at the threshold, publishes the transition unless operational |
| Backends.Backend.ResetEndpointFailures | internal/store/endpoints.sql.go:277-285 | the count starts over |
| Deliver.FailAttempt | internal/deliver/handler.go:305-332 | one attempt more, then failed and buried, or scheduled with backoff and acked |
| Deliver.Postpone | internal/deliver/handler.go:441-451 | the same payload later, then the ack |
| Deliver.Attempt | internal/deliver/handler.go:289-439 | from in-flight to the outcome, every branch |
| Deliver.Gated | internal/deliver/handler.go:244-287 | rate limit, then the destination's slot |
| Deliver.Admit | internal/deliver/handler.go:220-242 | the per-org slot, bounced or held to the end |
| Deliver.DispatchToCli | internal/deliver/handler.go:499-540 | hand-off, discard, or wait for a tunnel |
| Deliver.Process | internal/deliver/handler.go:145-439 | one run changes queue, rows, records, sends and counters exactly as its list of effects, in order |
| Webhook.FailAttempt | internal/webhook/handler.go:308-350 | next retry in row and queue, or dead with the events it sets off |
| Webhook.Admit | internal/webhook/handler.go:134-149 | the same per-org slot |
| Webhook.Gated | internal/webhook/handler.go:151-239 | every terminal check and the rate limit, in the code's order |
| Webhook.Process | internal/webhook/handler.go:108-284 | one run changes the world exactly as its list of effects |
| Mailer.Process | internal/mailer/handler.go:25-72 | one run changes the world exactly as its list of effects |
| Workers.Consume | cmd/dstream/worker.go:196-277 | one turn of the loop: nothing, an undecodable lease left for the recoverer, or a whole run of the handler for its kind |
| Workers.TurnIsARun | cmd/dstream/worker.go:196-277 | taken effect by effect among any other workers at rest, such a turn is a run of the whole system and leaves exactly what the turn says |
| Workers.HeldForTheLease | cmd/dstream/worker.go:179-182 | the lease of a turn lasts 150 s: no recovery before that takes it, whatever else the queue does |
| System.LeasesStep | cmd/dstream/worker.go:179-182 | every move keeps leases distinct, their tokens known, and every worker that has not dropped its lease still in possession |
| System.PlanDropsLast | internal/deliver/handler.go:145-149 | every run drops its lease once and does nothing of consequence after |
| Outcomes.EventOutcome | internal/deliver/handler.go:145-451 | a complete run on an unfinished HTTP event: delivered exactly by a send answered 200 to 299, filtered exactly by its filter, failed exactly when filter or transform break or the attempt fails past max_retries; else the payload is scheduled, one attempt on at the backoff, or as it was after 500 ms, the limiter's wait or 250 ms; attempts, record, send, lease and dead list in each case |
| Outcomes.HopelessEvent | internal/deliver/handler.go:187-218 | no HTTP destination or no proper URL: failed, recorded, buried, unsent |
| Outcomes.TunnelEvent | internal/deliver/handler.go:499-540 | a CLI event is handed over, discarded, or back in 15 s, in row and queue |
| Outcomes.FinishedRun | internal/deliver/handler.go:166-176 | a finished or deleted row: the lease is dropped and nothing else happens |
| DeliveryOutcomes.DeliveryOutcome | internal/webhook/handler.go:134-350 | a complete run on an unfinished delivery: delivered exactly by a send answered 200 to 299, filtered exactly by its filter, dead exactly when doomed or at its eighth failed attempt; before that row and queue agree on the next time, 5 s to 10 h on by the attempt's number; a run turned back changes nothing but the queue |
| DeliveryOutcomes.DisabledDelivery | internal/webhook/handler.go:128-132 | a disabled endpoint closes the delivery, unsent |
| DeliveryOutcomes.WhatIsHeard | internal/webhook/handler.go:272-350 | only the eighth failed attempt is published and held against the endpoint, only a send answered 200 to 299 clears it, and nothing else is heard |
| DeliveryOutcomes.MailOutcome | internal/mailer/handler.go:25-72 | a mail accepted is over, refused it comes back after 1 min and then 5 min, and the third refusal, or a mail that does not render, is the end |
| Custody.HandlersCustodial | internal/webhook/handler.go:344-349 | the one rule of all three handlers: whenever the row promises a live copy, a successor is scheduled or the row settled before the lease is dropped |
| Ownership.InvStep | internal/deliver/handler.go:150-451 | every single effect, crash, pick, recovery, admin or row move keeps every promise |
| Ownership.PromisesAlwaysKept | internal/store/events.sql.go:105-114 | in every reachable state an HTTP event in flight, a delivery in flight or with a retry time, and an unsettled email have a live copy in the queue |
| Ownership.ReaperMissesNothing | internal/store/events.sql.go:67-118 | of the HTTP events the reaper may claim exactly the queued ones, and any other is finished or still in the queue |
| Ownership.DeliveryReaperMissesNothing | internal/store/message_deliveries.sql.go:14-23 | a delivery the reaper may not claim is finished or still in the queue |
| RetryBound.PlanCost | internal/deliver/handler.go:297-332 | what a run may send, itself and through its successor, fits in what its copy was worth |
| RetryBound.StepBooks | internal/deliver/handler.go:297-332 | sends made plus sends possible grow only when a copy enters or a run ends with its lease in place |
| RetryBound.SendsBounded | internal/deliver/handler.go:297-304 | over every run of the system, sends of an event (an email) are at most max(1, max_retries+1) (three) for each copy that entered and each run that ended without dropping its lease |
| OutboundBudget.PlanLawful | internal/webhook/handler.go:241-284 | a run counts at most one attempt, before any send, and then the delivery is finished or within its schedule |
| OutboundBudget.CycleBudget | internal/webhook/policy.go:5-25 | a delivery is sent at most 8 times, plus 8 per replay, plus one per faulted run, in any order of runs |
| OutboundBudget.RemainingSends | internal/webhook/handler.go:241-244 | without faults the row's counter says how many sends are left |
| DeliveryBound.PlanAhead | internal/webhook/handler.go:241-350 | a run attempts and leaves behind no more than its copy was worth, and sends nothing its own attempt does not come before |
| DeliveryBound.DeliverySends | internal/webhook/policy.go:5-25 | over every run of the system, effects of any workers interleaved, crashes anywhere, k cycles of a delivery's row (insertion, replays) and c copies entered or runs abandoned allow 6k + (k+1)c sends: never replayed, 6 + 2c, so eight for the one copy published |
| ExactRun.OneRun | internal/deliver/handler.go:289-332 | a refused run (no answer, or one outside 200 to 299) of an event or a delivery past the gates adds one attempt, one record, one send, and a successor at its exact time or the end; a run turned back adds nothing |
| SingleCopy.SettledRun | internal/dqueue/dqueue.go:83-167 | a task with one copy (or none) keeps it through any queue operations that bring in or settle no other |
| SingleCopy.TheCopy | internal/dqueue/dqueue.go:103-114 | what the queue then leases of the task is that copy, and there is no other lease of it |
| ExactRun.HandedIsSuccessor | internal/deliver/handler.go:320-331 | after any such operations the next lease of a live event or delivery carries exactly the payload the last run scheduled |
| ExactRun.NoMore | internal/deliver/handler.go:305-319 | once it is over, nothing of the event or delivery is ever leased again |
| ExactRun.ExactLife | internal/webhook/policy.go:5-25 | a single-copy event refused every time is executed exactly max_retries+1 times, a delivery exactly eight, records 1..n, row, sends, the one copy in the queue and an event's payload agreeing throughout, then failed (dead) with one dead entry and no copy |
| Timeline.DeferredUntilDue | internal/deliver/handler.go:320-331 | a payload any run deferred is due when its row says, not before now, and is neither pending nor leased again before that |
| Timeline.SendsSpaced | internal/webhook/policy.go:5-25 | in such a life each send comes no earlier than its pause after the one before: the event's backoff, or 5 s, 5 min, 30 min, 2 h, 5 h, 10 h, 10 h; the eighth at least 27 h 35 min 5 s after the first |
| Successors.OneSuccessor | internal/deliver/handler.go:441-451 | a run schedules at most one successor, the same payload at most one attempt on, due when the row says and never before now |
| Semaphore.Slots.IncrWithin | internal/deliver/handler.go:57-70 | the INCR script: lifetime refreshed only within the cap |
| Semaphore.Slots.DecrOne | internal/deliver/handler.go:237-240 | DECR of a key that may have vanished |
| Semaphore.NeverOverCap | internal/webhook/handler.go:134-149 | the counter is live holders plus crashed ones, live holders never exceed the cap, and a request is turned away exactly when the two fill it |
| Semaphore.PhantomsReclaimed | internal/deliver/handler.go:57-63 | after 150 s of only rejected requests every crashed slot is back |
| Semaphore.SlotsReturned | internal/deliver/handler.go:225-332 | every return of every handler, after any number of its effects, runs the deferred DECRs and so releases exactly what it acquired, never holding two of a kind; a crash keeps at most one |
| Semaphore.SendsUnderSlot | internal/webhook/handler.go:138-149 | with the per-org gate on nothing is sent outside a granted slot |
| SharedSlots.OneBudgetPerOrg | internal/webhook/handler.go:134-149 | in every reachable state of the whole system, error returns and crashes anywhere, the runs of one org between a granted INCR and its DECR, inbound and outbound together, never exceed the cap, its counter is those and the crashed ones, and every run about to send is among them |
| SharedSlots.OneBudgetPerDestination | internal/deliver/handler.go:267-287 | the same for every destination with a cap and the events it receives |
| OpEvents.EnabledBelowThreshold | internal/store/endpoints.sql.go:145-157 | in every run an enabled endpoint is below the threshold |
| OpEvents.OneNoticePerDisabling | internal/webhook/handler.go:323-334 | endpoint.disabled is published at most once per enabled-to-disabled transition |
| Endpoints.DisabledAtThreshold | internal/store/endpoints.sql.go:145-157 | over any run that does not edit it, an endpoint's count is the strikes since its last clear on top of where it started, and it is disabled exactly when some strike has brought that to the threshold |
| Endpoints.NoticePerDisabling | internal/webhook/handler.go:323-334 | endpoint.disabled is published exactly as often as ordinary deliveries disable the endpoint |
| OpEvents.EventsEnd | internal/webhook/handler.go:297-306 | k unfinished ordinary deliveries publish at most 2k operational events in all, whatever those set off |
| Pagination.ListMessagesByApp | internal/store/messages.sql.go:121-128 | the newest rows strictly below the cursor, up to the limit |
| Pagination.ListMessages | internal/api/outbound/reads.go:73-105 | one page, and a next cursor exactly when it is full |
| Pagination.BindSelects | internal/store/pool.go:57-62 | asking below a row selects exactly what comes after it, nil id included |
| Pagination.WalkVisitsAll | internal/api/outbound/reads.go:21-50 | following next_cursor visits every row of the app created before the end of the year 9999, and no other app's, once, newest first, in n/50+1 pages |
| Quota.Gate.Reload | internal/usage/gate.go:254-278 | the loop builds the table without the all-zero orgs |
| Quota.Gate.CheckRequest | internal/usage/gate.go:99-205 | one request: lookup, counter, decision, latch |
| Quota.SnapshotFaithful | internal/usage/gate.go:259-275 | the table without the all-zero orgs gives every request the same decision, counters and alerts as the rows themselves |
| Quota.Ladder | internal/usage/usage.go:65-73 | n requests on a fresh counter, among any others: soft-1 allowed, up to hard-1 warned, the rest refused |
| Quota.AlertsOnce | internal/usage/gate.go:178-194 | each tier of each counter alerts at most once |
| Quota.AnyLadder | internal/usage/usage.go:60-73 | with one limit, or a soft one not below the hard: no hard limit never refuses, no soft limit below the hard never warns |
| Quota.AlertsExactly | internal/usage/gate.go:178-194 | of n requests the soft tier alerts once iff n reaches a soft limit below the hard one, the hard tier once iff n reaches the hard limit |
| Quota.CountersExact | internal/usage/gate.go:99-205 | each counter is the requests of its org, on its metric, in its org's own period |
| Rollup.Usage.GroupByPeriod | cmd/dstream/maintenance.go:122-132 | the "day" orgs in one group and all others in the month's |
| Rollup.Usage.RollupMetric | cmd/dstream/maintenance.go:205-232 | the loop writes the current bucket of this period's orgs and nothing else |
| Rollup.Usage.RollupUsage | cmd/dstream/maintenance.go:116-137 | one sweep replaces exactly those counts, in the table and in Redis; org by org, the true count under the period its column names |
| Rollup.QueryIsTrue | internal/store/usage.sql.go:229-236 | counting from the period's start misses nothing of the period |
| Rollup.SweepExact | cmd/dstream/maintenance.go:141-152 | a sweep writes a bucket iff it is its org's own current one with something in it, and writes the true count |
| Rollup.SweptOrg | cmd/dstream/maintenance.go:116-137 | an org whose column is "day" has its true counts under the day's start, any other under the month's; no other bucket of it changes, and nothing of an unknown org |
| Rollup.SweepsConverge | cmd/dstream/maintenance.go:97-112 | the upserts and the counter writes, two calls each, of any sweeps on any replicas with or without Redis, in any order and number, leave what one sweep leaves |
| Rollup.OthersKept | cmd/dstream/maintenance.go:191-199 | closed periods, other periods and empty buckets keep their row |
| Membership.Login.BootstrapSession | internal/auth/magiclink.go:137-248 | fails exactly for a user without org or invite when the default org is unknown, and then changes nothing |
| Membership.Login.ApplyInvites | internal/auth/magiclink.go:175-192 | the loop seats the user in every org invited to, keeps every seat there was, spends the invites |
| Membership.LoginSettles | internal/auth/magiclink.go:121-136 | after a login the user is in some org, no invite is pending, no existing role changed, nobody else gained a seat |
| Membership.LoginRoles | internal/auth/magiclink.go:175-248 | a new seat has the role its invite names, or the deployment's, or owns the new workspace |
| Membership.Patched | internal/api/identity/members.go:89-222 | exactly who may change whose role to what; then the seat has it, and else nothing changes |
| Membership.Removed | internal/api/identity/members.go:225-292 | exactly who may remove whom; then the seat is gone, and else nothing changes |
| Membership.Transferred | internal/api/identity/orgs.go:313-380 | exactly from an owner to another member, who becomes owner and the old owner admin |
| Membership.OwnerKept | internal/api/identity/members.go:143-292 | no act takes an org's last owner, short of deleting the org |
| Membership.EveryOrgOwned | cmd/dstream/admin.go:341-371 | whatever members, owners, invitees, logins and operators do, an org has no owner exactly while it waits for its first: from the operator's first statement to the first act that gives one; an org no operator made always has one |
| Membership.GivesOwner | cmd/dstream/admin.go:341-371 | an ownerless org gets an owner exactly when an operator adds a user not yet in it as owner, or a user with no org and no invite logs in and the default seat is owner there; no act deletes it |
| Membership.BareOrg | cmd/dstream/admin.go:350-361 | the operator's first statement alone leaves an org nobody owns; its second ends that |
| Membership.OnlyOwnersTouchOwners | internal/api/identity/members.go:133-180 | nobody but an owner of the org makes or unmakes one through the API |

## Left out

- Redis and Postgres clients, HTTP, SMTP, WebSockets, tracing, metrics, logging, configuration: plumbing; a send is an outcome, time and tokens are inputs.
- CEL filters and the JS sandbox: their results are arbitrary.
- JSON and base64: a payload codec is any pair of functions that round-trips and writes no unit separator; cursors likewise. A stored text the Lua side cannot decode is outside the model.
- `Attempt` below zero: modelled as a natural number, which is all any producer writes.
- Error returns of Redis and Postgres calls in the middle of a run: for queue and rows such a run ended with its lease in place, like a crash; for the slots it is told apart, since its deferred DECRs run.
- The worker's panic branches: they dead-letter before they mark the row.
- The CLI tunnel's side: its writes to its own rows are arbitrary moves; ownership is stated for HTTP destinations.
- The reapers' staleness windows, order and batch size: a claim is any claimable row at any time, and the enqueue that follows is any enqueue.
- Publishing's fan-out: rows inserted and payloads enqueued by separate moves.
- The email row: mail has none, so the model keeps a note per mail that is queued while the mail is owed.
- Terminal statuses under duplicate workers interleaved statement by statement: the updates are unconditional, so absorbing is claimed only with a run as one step.
- Redis failures at the gates: they fail open; the semaphore and quota theorems are about counters that answer.
- Floating point: delays are over reals before truncation.
- Milliseconds of a retry delay are rounded down once from nanoseconds; the clock read twice in one run is one reading.
- The expiry of quota latches and counters: both outlive two of the longest periods.
- Owner guards under concurrent statements: each handler is one step.
- OutboundBudget.CycleBudget: takes a run as one step that may stop anywhere; two workers on one delivery at once may each send, and DeliveryBound.DeliverySends bounds that.
- OpEvents.EventsEnd: takes a run as one step that may stop anywhere, and no replay.
- Semaphore.NeverOverCap: takes a rejected INCR and its DECR as one step, and holds shorter than the lifetime.
- SharedSlots.OneBudgetPerOrg: the same, and a counter that answers; the slot's org is the payload's.
- SharedSlots.OneBudgetPerDestination: the same, and a destination's cap that does not change.
- Backends.Backend.Write: leaves out `last_attempt_at` and `updated_at`, which no decision modelled here reads but the reapers' staleness windows.
- Quota.Ladder: takes fixed limits and no reconciliation in between.
- Token, slug, header and address validators, percentiles, the admin listings: true but easy.
