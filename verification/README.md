# Verified model of the OpenDSS Designer gateway

The gateway stands in front of single-engine workers. It decides which waiting request
gets the next free worker, meters engine time against a budget, and keeps each user's plan
in step with their Stripe subscription. This project models those three parts and proves
what they promise over every interleaving of requests.

## How the model is built

**The scheduler** (`src/opendss_gateway/scheduler.py`). asyncio runs one task at a time, so
a step is the code between two awaits: enqueue, a timeout or cancellation reaching a
suspended `acquire`, a task waking up, a release, the start of a drain.

- `Jobs.dfy`, `SchedulerState.dfy`: jobs, waiters, futures, counters, and the scheduler as
  a state machine. The waiting list is kept in (priority, arrival) order, with its
  abandoned entries, because the queue limit counts them. A suspended `acquire` is a
  `Task`: its job, its future and the point it has reached. `held` and `log` are history:
  the outstanding grants and all grants, in the order they were made.
- `SchedulerInvariant.dfy`: every step keeps the invariant, so every run does.
- `SchedulerDispatch.dfy`: one dispatch refines a greedy pass; blocked waiters are
  transparent; nobody with room is overtaken.
- `SchedulerOrder.dfy`: priority, the rotation of workers, giving up.
- `SchedulerFairness.dfy`, `SchedulerWaiting.dfy`: grant order and bounded wait over runs.
- `SchedulerGuarantees.dfy`: what the invariant means to callers.
- `HeapQueue.dfy`, `Scheduler.dfy`: the `Scheduler` and `Lease` objects, updated in place.
  Each method is proved to make exactly its step of the state machine. `heapq` is its
  contract: a method leaves *some* heap with the right contents, so the proofs cover every
  layout a heap can have.

**Admission and metering** (`app.py`, `ledger.py`). `Ledger.dfy` is the two tables and the
transaction; `Gateway.dfy` runs many requests over the scheduler machine and the ledger at
once; `Budget.dfy` bounds the overshoot; `EngineCall.dfy` is the settlement of one call on
the objects; `StreamWait.dfy` is the waiting phase of a streamed call, whose `acquire` is a
task of its own; `Meter.dfy` is the stream loop after it, the byte pattern and the charge;
`RateWindow.dfy` is the sign-in limiter. `Gateway.Finish` stands for the end of any metered
call: for `_engine_call` this is `EngineCall.SettleIsFinish`, and a stream's charge is the
one `Meter` reads. A stream whose last number `float` rejects (`Meter.Unreadable`) gives its
worker back and leaves no row, like a `Finish` whose ledger write fails; one whose response
cannot be closed never gets as far (`StreamWait.FailedCloseStrands`).

**Billing** (`billing.py`, `store.py`). `Text.dfy` and `Signature.dfy` are the webhook
signature with the keyed hash as a parameter; `Billing.dfy` is the user, subscription and
event tables under every interleaving of webhooks, success pages and pending fetches.

Seconds and clock readings are real numbers, so rounding is not modelled. Time, the worker's
answers, Stripe's answers and database faults are parameters of the steps.

## Where the code does not keep a promise

- The project README says a member "always finds a slot" once one worker is reserved. The
  queue limit is checked before dispatch (`scheduler.py:104`), so a queue filled by blocked
  guests turns a member away while a worker is free: `SchedulerGuarantees.MemberTurnedAway`.
  `SchedulerGuarantees.GrantedAtOnce` gives the exact condition for any arrival.
- A comment at `app.py:517` says a failed webhook event is undone before the retry. No code
  does it: `Billing.FailedEventIsLost` shows a paid user left on Free, and
  `Billing.RedeliveryIgnored` that no redelivery of a recorded event ever has an effect.
- A lease is to be released exactly once (`scheduler.py:57`). A browser that leaves a stream
  still in the queue can keep that from happening: the handler catches only
  `CancelledError`, and cancelling an `acquire` that has finished does nothing
  (`app.py:661-681`). Nor does a release follow if closing the worker's response raises or
  is cancelled (`app.py:714-716`). `StreamWait.OneVisitorStopsAll` is a run that loses the
  only worker for ever; `StreamWait.LeavingTheWait`, `StreamWait.LeavingAtYield`,
  `StreamWait.FailedCloseStrands` and `StreamWait.WorkersLost` state exactly when a worker is
  lost, and how many are.
- An abandoned run is to be charged wall time (`app.py:721-723`). A browser that goes away
  while a chunk is being sent closes the generator at its `yield`, where no handler sets the
  status: `Meter.AbandonedForFree` is such a run, charged nothing; `Meter.AbandonedCharge`
  states exactly when an abandoned run is charged wall time.
- An extra `v1` element before the right one makes `verify_signature` raise `TypeError`
  instead of accepting when it is not ASCII: `Signature.NonAsciiRaises` is an input,
  `Signature.SignedAmongExtras` states exactly when.
- The deletion of a subscription is meant to end Pro. One that arrives while the checkout's
  fetch is still under way finds no row and is ignored, and the fetch then puts the user on
  Pro: `Billing.LateFetchRevives`. An older event of the same customer that is delivered
  after the deletion undoes it, because events are not ordered: `Billing.LateEventRevives`.
  `Billing.PlanStep` states exactly which steps set a plan, and `Billing.DeletionFinal` through
  which runs a deleted subscription leaves its user on Free.
- The plan is derived from the subscription's status (`store.py:234-235`), but row and plan
  are two statements: `Billing.PaidButNotSet` is a run after which they disagree, and
  `Billing.SetPlanFails` states exactly when a failure of the second one leaves that.

## Model

| member | source | states |
|---|---|---|
| `SchedulerInvariant.NextKeeps` | src/opendss_gateway/scheduler.py:101-171 | Every step (enqueue, timeout or cancel, wake with collect or give-up and hand-back, release, drain start) keeps conservation, counters, ranks, caps, queue order, futures and work conservation. |
| `SchedulerInvariant.RunKeeps` | src/opendss_gateway/scheduler.py:101-171 | The same over every run of steps. |
| `SchedulerInvariant.ScanBusy` | src/opendss_gateway/scheduler.py:130-146 | When the dispatch loop ends, no worker is free or every live waiter left is ineligible. |
| `SchedulerDispatch.DispatchIsGreedy` | src/opendss_gateway/scheduler.py:130-146 | Dispatch makes exactly the grants, worker assignments, counters and remaining live waiters of one greedy pass over the live waiters in order, whatever abandoned entries the queue holds. |
| `SchedulerDispatch.GreedyTakesFront` | src/opendss_gateway/scheduler.py:141-144 | The k-th grant of a pass goes to a queued waiter and takes the k-th free worker. |
| `SchedulerDispatch.BlockedWaiterTransparent` | src/opendss_gateway/scheduler.py:11-13 | A waiter ineligible when a dispatch starts changes neither who else is granted nor which worker anyone gets. |
| `SchedulerDispatch.GrantsAreFair` | src/opendss_gateway/scheduler.py:134-144 | At the moment of each grant, every better-ranked live waiter still queued is ineligible. |
| `SchedulerDispatch.MomentsAreGrants` | src/opendss_gateway/scheduler.py:134-144 | Those moments are exactly the grants the dispatch makes, in order. |
| `SchedulerOrder.PriorityServed` | src/opendss_gateway/scheduler.py:47-53 | Whenever a step serves a waiter although one with a lower priority number, or the same and an earlier arrival, is left waiting, then beside the grants outstanding until that one the latter's pool is at its cap or its client at the job's concurrency. |
| `SchedulerOrder.WorkersInTurn` | src/opendss_gateway/scheduler.py:141-149 | Workers are used in turn: over every run the workers sent out, in order, followed by the free ones are the configured ones followed by those handed back, in order. |
| `SchedulerOrder.GivesUpQueued` | src/opendss_gateway/scheduler.py:110-121 | A waiter that times out or is cancelled before it is granted ends with `QueueTimeout`, is off the queue, and nothing else changes. |
| `SchedulerOrder.GivesUpGranted` | src/opendss_gateway/scheduler.py:113-121 | A waiter that gives up in the tick in which it was granted ends with `QueueTimeout` too and hands its worker straight back. |
| `SchedulerOrder.ScanClears` | src/opendss_gateway/scheduler.py:134-137 | A dispatch that does not run out of workers leaves no abandoned entry in the queue. |
| `SchedulerFairness.NoOvertaking` | src/opendss_gateway/scheduler.py:47-53 | Over any run, two waiters live together with equal pool, client and concurrency are granted in (priority, arrival) order. |
| `SchedulerFairness.NextSettled` | src/opendss_gateway/scheduler.py:110-144 | A future that is done keeps its result, exception or cancellation through every later step, and a task keeps its job. |
| `SchedulerWaiting.DispatchProgress` | src/opendss_gateway/scheduler.py:130-152 | A live waiter with room when a dispatch starts with a free worker is granted or has strictly fewer live waiters ahead afterwards. |
| `SchedulerWaiting.InsertAhead` | src/opendss_gateway/scheduler.py:107-108 | An arrival ranked behind a waiter never raises the number ahead of it. |
| `SchedulerWaiting.ScanSure` | src/opendss_gateway/scheduler.py:130-146 | Through a dispatch such a waiter is granted or keeps that room: nobody behind it is granted before it. |
| `SchedulerWaiting.BoundedWait` | src/opendss_gateway/scheduler.py:101-152 | A waiter whose limits leave room for it beside every job of its client, and of its pool if that is capped, that is out or ahead of it, is granted within (live waiters ahead + 1) returned workers, unless it gives up, a drain starts or a better-priority job arrives; later jobs of its own client do not matter. |
| `SchedulerWaiting.FirstOfClient` | src/opendss_gateway/scheduler.py:124-128 | The first waiter of a client with nothing out, in an uncapped pool, is such a waiter. |
| `SchedulerGuarantees.WorkersConserved` | src/opendss_gateway/scheduler.py:56-152 | In every reachable state the workers are the free ones plus one per uncollected grant or unreleased lease, and both counters count those grants. |
| `SchedulerGuarantees.WorkConserved` | src/opendss_gateway/scheduler.py:109-152 | While a worker is free, every live waiter is blocked by its pool's cap or its client's limit, counted on the outstanding grants. |
| `SchedulerGuarantees.ConcurrencyRank` | src/opendss_gateway/scheduler.py:124-151 | The k-th oldest outstanding grant of a client has concurrency at least k. |
| `SchedulerGuarantees.ClientLimit` | src/opendss_gateway/scheduler.py:124-128 | A client never holds more workers than the largest concurrency among its outstanding jobs. |
| `SchedulerGuarantees.QueueIntegrity` | src/opendss_gateway/scheduler.py:104-159 | The queue stays within its limit with distinct keys, and removal by key removes exactly the waiter meant or nothing. |
| `SchedulerGuarantees.GuestWorkers` | src/opendss_gateway/config.py:94-97 | The guest cap is the configured number between one and the number of workers, all workers if it is unset, zero or larger, and one if it is negative. |
| `SchedulerGuarantees.MemberReservation` | src/opendss_gateway/scheduler.py:7-8 | The guest pool never exceeds its cap; while a live member waits below its limit all workers are busy and at least workers minus cap of them are held outside the guest pool. |
| `SchedulerGuarantees.GrantedAtOnce` | src/opendss_gateway/scheduler.py:101-109 | An arrival leaves no trace if the scheduler drains or the queue is at its limit, and is a task with its job otherwise; it gets a worker in its own step if and only if, besides, a worker is free, the grants of its pool are below the cap and those of its client below its concurrency; it is the first free worker. |
| `SchedulerGuarantees.MemberTurnedAway` | src/opendss_gateway/scheduler.py:104-105 | A concrete run in which a member is refused by the queue limit while the reserved worker is free. |
| `SchedulerGuarantees.DrainSafety` | src/opendss_gateway/scheduler.py:110-171 | From drain start on the queue stays empty, nothing is granted and the number in flight never grows; every waiter that was live has ended in `Draining` or does so at its next wake-up, whatever timeouts or cancellations reach it. |
| `SchedulerGuarantees.DrainedExactly` | src/opendss_gateway/scheduler.py:172-175 | The number `drain` returns is zero exactly when the free list is a permutation of the workers and no grant is outstanding. |
| `HeapQueue.RootIsLeast` | src/opendss_gateway/scheduler.py:135 | The root of a heap is its least waiter. |
| `HeapQueue.PopFirst` | src/opendss_gateway/scheduler.py:135 | Popping any heap that lays out an ordered queue yields the queue's first waiter and a heap of the rest. |
| `Scheduler.NewScheduler` | src/opendss_gateway/scheduler.py:74-87 | No scheduler without workers; otherwise an idle one with all workers free. |
| `Scheduler.Scheduler.DispatchAll` | src/opendss_gateway/scheduler.py:130-146 | The heap loop with its skipped list makes exactly the ordered dispatch pass and leaves a valid heap of the same queue. |
| `Scheduler.Scheduler.Enqueue` | src/opendss_gateway/scheduler.py:101-109 | The draining and queue-full refusals and the push with its dispatch are exactly the enqueue step. |
| `Scheduler.Scheduler.Fire` | src/opendss_gateway/scheduler.py:111-113 | A timeout or cancellation cancels a pending future and leaves a finished one as it is. |
| `Scheduler.Scheduler.ForgetWaiter` | src/opendss_gateway/scheduler.py:154-159 | Removing the first entry equal by key and restoring the heap removes exactly the given waiter. |
| `Scheduler.Scheduler.ReleaseWorker` | src/opendss_gateway/scheduler.py:148-152 | The worker goes to the back of the free list, both counters drop, and a dispatch follows. |
| `Scheduler.Scheduler.Resume` | src/opendss_gateway/scheduler.py:110-122 | Waking collects the lease, or gives up and hands a worker granted in the same tick straight back; the caller sees a lease, `QueueTimeout` or `Draining` accordingly. |
| `Scheduler.Scheduler.StartDrain` | src/opendss_gateway/scheduler.py:167-171 | Every pending future on the queue fails, the queue empties, nothing else changes. |
| `Scheduler.Lease.Release` | src/opendss_gateway/scheduler.py:67-70 | The first release gives the worker back; a second one changes nothing. |
| `Ledger.Ledger.Record` | src/opendss_gateway/ledger.py:24-45 | One transaction: the run row and the upsert both happen, or after a failure at any statement neither does. |
| `Ledger.Ledger.UpsertUsage` | src/opendss_gateway/ledger.py:36-41 | The row of the client and period is added to, or appended if new. |
| `Ledger.Ledger.UsedBy` | src/opendss_gateway/ledger.py:17-22 | The stored total of a client and period, zero without a row. |
| `Ledger.UpsertUsed` | src/opendss_gateway/ledger.py:36-41 | A record adds its seconds to its own client and period and changes no other total. |
| `Ledger.RecordMoves` | src/opendss_gateway/ledger.py:24-45 | A successful record appends its row and moves its own client's and period's total by its seconds; a failed one changes nothing. |
| `Ledger.RecordsConserve` | src/opendss_gateway/ledger.py:24-45 | After any sequence of successful or rolled-back records, each client's usage over all periods equals the sum and count of its runs. |
| `Gateway.RunWorldKeeps` | src/opendss_gateway/app.py:600-638 | Over all interleavings of requests, the tasks still going or served and the requests waiting, running or settled stay in one-to-one relation, each client's rows are those of its settled requests, and the books balance. |
| `Gateway.TasksOf` | src/opendss_gateway/app.py:613-634 | The tasks holding a lease are exactly those of the running requests, and the tasks that were served exactly those of the settled ones. |
| `Gateway.Settlement` | src/opendss_gateway/app.py:613-638 | The leases the scheduler has out number the running requests, those given back after service the settled ones, and every client's calls in `usage`, rows in `runs` and settled requests with a successful write are equally many, with equal seconds in both tables. |
| `Gateway.SettledOnce` | src/opendss_gateway/app.py:632-634 | Settling a running request releases its lease effectively, ends its task as served, and appends the row of its client, plan and path with the reported time, status and worker, moving its client's and period's total by that time; a failed write changes nothing, and settling again does nothing. |
| `Gateway.NoLeak` | src/opendss_gateway/app.py:613-638 | Once no request is waiting or running, all workers are free again, whatever timeouts, cancellations, failed writes and drains came in between. |
| `Gateway.AdmittedExactly` | src/opendss_gateway/app.py:602-607 | A request is admitted if and only if its plan is unmetered or the recorded usage of its client and period is below the budget; one that is not leaves no trace. |
| `Gateway.AcquireDecides` | src/opendss_gateway/app.py:607-620 | A request whose body was too large is turned away; one whose body was read is turned away if and only if the scheduler drains or the queue is full, and otherwise waits. |
| `Gateway.TasksCarryPlans` | src/opendss_gateway/app.py:611-612 | Over all interleavings the task of every request is queued under its own client with the id, priority, pool and concurrency of its plan. |
| `Gateway.WakeDecides` | src/opendss_gateway/app.py:613-620 | A waiting request that wakes runs if and only if it was granted a worker and neither timed out nor was cancelled; otherwise it is turned away. |
| `Gateway.TimedOutIsBusy` | src/opendss_gateway/app.py:613-620 | A waiting request that times out is turned away when it wakes, granted meanwhile or not. |
| `Gateway.DrainTurnsAway` | src/opendss_gateway/app.py:619-620 | From the start of a drain on, a request that has read its body is turned away, and one waiting without a worker is as soon as it wakes. |
| `Budget.ChargeAtAdmissionPeriod` | src/opendss_gateway/app.py:603-634 | A charge goes to the client and period read at admission and moves no other total. |
| `Budget.OnlyOutstandingCharged` | src/opendss_gateway/app.py:604-606 | Once the budget is reached nothing of that client and period is admitted, the outstanding requests only shrink, and each later charge settles a different one of them. |
| `Budget.Overshoot` | src/opendss_gateway/app.py:602-634 | Final usage is below the budget, or one charge crosses it from below and everything after is the charges of requests outstanding at the crossing, each at most once. |
| `EngineCall.Settle` | src/opendss_gateway/app.py:622-638 | On every exit path after the lease there is one effective release and one record attempt; the account's total rises by exactly the readable reported time if the write goes through; and the reply is the worker's answer, the busy page or the exception, whatever the ledger does. |
| `EngineCall.ReportedCharge` | src/opendss_gateway/app.py:622-634 | A readable reported time is charged in full to the client and period of admission, anything else is charged nothing, and the row names caller, plan, path, worker, request, wait and outcome: `upstream-error`, `http-` and the code from 400 on, or `ok`. |
| `EngineCall.SettleIsFinish` | src/opendss_gateway/app.py:632-634 | The scheduler and ledger effects of settling one call are those of `Finish` in the machine of all requests, for the client, plan, period and path of admission. |
| `StreamWait.HappenKeeps` | src/opendss_gateway/app.py:657-716 | Every event of waiting streams (opening, timeout, wake-up, line out, going on, leaving, finish, failed close, drain) keeps each generator and the phase of its `acquire` task in agreement, with the scheduler's invariant. |
| `StreamWait.LineGoesOut` | src/opendss_gateway/app.py:662-669 | A queued stream's line that is sent leaves everything as it was; only the browser leaving meanwhile goes unnoticed. |
| `StreamWait.StreamDecides` | src/opendss_gateway/app.py:664-680 | A queued stream starts if and only if its `acquire` wakes with a worker and was neither timed out nor cancelled; otherwise it is over. |
| `StreamWait.QueuedStreamEnds` | src/opendss_gateway/app.py:671-678 | A stream still queued when it times out or a drain starts ends without a worker. |
| `StreamWait.StreamReleases` | src/opendss_gateway/app.py:713-716 | A stream that has run gives its worker back. |
| `StreamWait.LeavingTheWait` | src/opendss_gateway/app.py:661-681 | A browser leaving while `acquire` is awaited costs a worker for good if and only if `acquire` had already finished with a lease. |
| `StreamWait.LeftStrands` | src/opendss_gateway/app.py:661-681 | Once the generator is gone, a run ends with the worker lost if and only if `acquire` held its lease already or collects one in the run. |
| `StreamWait.LeavingAtYield` | src/opendss_gateway/app.py:661-681 | A browser leaving while a line is sent changes nothing in the scheduler, and its worker is lost if and only if `acquire` holds a lease by then or a later wake-up collects one. |
| `StreamWait.LateGrantStrands` | src/opendss_gateway/app.py:661-681 | After the browser has left, an `acquire` that wakes costs a worker for good if and only if it was granted one and neither timed out nor was cancelled. |
| `StreamWait.FailedCloseStrands` | src/opendss_gateway/app.py:714-716 | A run whose response cannot be closed keeps its worker out through every continuation. |
| `StreamWait.WorkersLost` | src/opendss_gateway/app.py:657-716 | When every stream has ended or been left and every `acquire` is done, the workers missing number the leases of streams left too late, left unnoticed or not closed; all are back if and only if there is none. |
| `StreamWait.OneVisitorStopsAll` | src/opendss_gateway/app.py:661-681 | A concrete run in which one browser leaving takes the only worker out of service through every continuation. |
| `Meter.Stream` | src/opendss_gateway/app.py:683-725 | The loop's rolling tail is the last 65536 bytes of everything received, and for each of the five ways the stream can end the charge is read off it as the `finally` does, including a number that `float` rejects. |
| `Meter.RolledIsTail` | src/opendss_gateway/app.py:701-703 | Cutting the tail back to 65536 bytes after every chunk leaves exactly the last 65536 bytes of all chunks together. |
| `Meter.ChunkIndependent` | src/opendss_gateway/app.py:701-703 | Two chunkings of the same stream are charged alike. |
| `Meter.HereReads` | src/opendss_gateway/app.py:60 | The pattern matches the literal key, any white space and the longest run of digits and dots. |
| `Meter.HereOnly` | src/opendss_gateway/app.py:60 | It matches nothing else. |
| `Meter.ReadExactly` | src/opendss_gateway/app.py:717-719 | A matched text is a number if and only if it has a digit and no second dot. |
| `Meter.LastFound` | src/opendss_gateway/app.py:717-719 | The last element `findall` returns is the match that starts last, because matches cannot overlap. |
| `Meter.ChargedIsLastOfStream` | src/opendss_gateway/app.py:717-724 | What is read is the last match of the whole stream exactly when a match starts within its last 65536 bytes; otherwise it is wall time for a run that was cancelled or failed at the worker, and nothing for any other. |
| `Meter.FinalEventCharged` | src/opendss_gateway/app.py:701-719 | A stream that ends, however it was cut into chunks, in the key, white space, a run of digits and dots and at most 65536 bytes from there without another key is charged that whole number, or loses its record if the text is none. |
| `Meter.AbandonedCharge` | src/opendss_gateway/app.py:705-724 | A run the browser abandoned is charged wall time if and only if no match is in reach and it was left while the worker was awaited, and nothing if and only if no match is in reach and it was left while a chunk was sent. |
| `Meter.AbandonedForFree` | src/opendss_gateway/app.py:701-724 | A concrete run, abandoned while its chunk is sent, that is charged nothing. |
| `RateWindow.RateWindow.Allow` | src/opendss_gateway/app.py:88-96 | The pruned deque equals the accepted hits of the key in the window before now, and a call is refused exactly when that full-history count has reached the limit. |
| `RateWindow.RefusedExactly` | src/opendss_gateway/app.py:88-96 | A call is refused if and only if the window up to it already holds the limit of accepted hits of its key; an accepted one is the only new hit. |
| `RateWindow.NeverOverLimit` | src/opendss_gateway/app.py:81-96 | No closed window of the configured length ever contains more than the limit of accepted hits of a key. |
| `Text.DecimalRoundTrip` | src/opendss_gateway/billing.py:125-138 | Printing a timestamp and parsing it gives it back. |
| `Text.DecimalIs` | src/opendss_gateway/billing.py:130 | `str` of an integer is its decimal notation. |
| `Text.ParseIntReads` | src/opendss_gateway/billing.py:125 | `int` of white space, an optional sign, digits with single underscores between them and white space is the number written. |
| `Text.ParseIntOnly` | src/opendss_gateway/billing.py:125-127 | `int` raises on everything else. |
| `Text.SplitJoin` | src/opendss_gateway/billing.py:123 | Splitting comma-joined elements gives the elements back. |
| `Signature.AcceptedExactly` | src/opendss_gateway/billing.py:118-133 | A header is accepted if and only if its last timestamp is within 300 seconds and some `v1` is the hash of that timestamp, a dot and the payload with only ASCII ones before it; missing, malformed and outdated headers are told apart. |
| `Signature.ElementReads` | src/opendss_gateway/billing.py:123 | An element is read as the pair around its first `=`, or not at all without one. |
| `Signature.LastCounts` | src/opendss_gateway/billing.py:123-125 | Of several elements with the same key the last one counts, and a missing one reads as empty. |
| `Signature.SignatureRoundTrip` | src/opendss_gateway/billing.py:118-140 | The printed header, written out, is accepted exactly within the tolerance for its own payload and secret, and is a mismatch for any other unless the hashes of timestamp, dot and payload collide. |
| `Signature.MessageInjective` | src/opendss_gateway/billing.py:130 | Different timestamps or payloads are different texts to hash. |
| `Signature.ForgeryRefused` | src/opendss_gateway/billing.py:118-140 | With a collision-free hash a header signed for one payload and secret is accepted for these and for no other. |
| `Signature.SignedAmongExtras` | src/opendss_gateway/billing.py:123-133 | It is still accepted among any extra elements other than timestamps, unless a non-ASCII `v1` is read before a match. |
| `Signature.NonAsciiRaises` | src/opendss_gateway/billing.py:131-132 | A concrete header with a genuine signature that raises instead of being accepted, because of one non-ASCII `v1` before it. |
| `Billing.PlanFollowsStatus` | src/opendss_gateway/billing.py:162-225 | Over every interleaving each user is on pro if their subscription's status is active, trialing or past due and on free otherwise, unless setting the plan failed when the row was last written; no two users share a customer, and no event id reaches `apply_event` twice. |
| `Billing.StatusDecides` | src/opendss_gateway/billing.py:31-163 | Active, trialing and past due give pro; every other status, an empty or missing one and a missing subscription give free. |
| `Billing.RowRecords` | src/opendss_gateway/billing.py:145-178 | The row written records id, status, date and scheduled cancellation of the subscription; a cancellation date comes before the period's end, and that before the item's. |
| `Billing.AcceptsExactly` | src/opendss_gateway/store.py:258-269 | The row is taken if and only if the upsert does not fail, the user exists and no other user's row has the customer. |
| `Billing.CheckoutTakenUp` | src/opendss_gateway/billing.py:185-203 | A session is taken up for a user if and only if its mode fits, it has a customer and its reference, or without one its metadata, names that existing user; at once, or by a fetch when it carries an id. |
| `Billing.EventTakenUp` | src/opendss_gateway/billing.py:206-224 | An event does something for a user if and only if it is a checkout that is paid or needs no payment and is taken up for them, or a subscription event of the customer on their row; a deletion counts as canceled. |
| `Billing.OpenedExactly` | src/opendss_gateway/app.py:451-521 | A webhook acts once per event id and never without one; a success page acts only on a paid session of the signed-in user. |
| `Billing.NextKeeps` | src/opendss_gateway/app.py:451-521 | Each sign-up, webhook, success page, finished or failed fetch keeps that invariant. |
| `Billing.PlanStep` | src/opendss_gateway/billing.py:166-224 | A step sets a user's plan exactly if it applies a subscription to them, the row is accepted and no statement fails; the plan is then pro for an active, trialing or past due subscription and free for any other. |
| `Billing.QuietKeeps` | src/opendss_gateway/app.py:451-521 | Through every run that neither opens anything for a user nor ends a fetch made for them, the user's row, plan and fetches under way stay as they are. |
| `Billing.SetPlanFails` | src/opendss_gateway/billing.py:175-180 | If setting the plan fails after the row was written, the plan agrees with the row exactly when it need not have changed. |
| `Billing.PaidButNotSet` | src/opendss_gateway/billing.py:175-180 | A concrete run in which a paid subscription is recorded as active while the user stays on Free. |
| `Billing.UpgradeThenCancel` | src/opendss_gateway/billing.py:181-224 | With any steps about other users in between, a paid checkout puts the user on the plan of the subscription's status, at once or when the fetch for its id ends; they stay on it until the deletion event of that customer takes them back to Free. |
| `Billing.LateFetchRevives` | src/opendss_gateway/billing.py:201-219 | A concrete run in which a deletion overtakes the checkout's fetch and the user ends on Pro. |
| `Billing.LateEventRevives` | src/opendss_gateway/billing.py:215-224 | In every state, an older active event of the same customer delivered after the deletion puts the user back on Pro. |
| `Billing.DeletionFinal` | src/opendss_gateway/billing.py:201-224 | After the deletion of the subscription on a user's row, the user stays on Free through a run if and only if no step of it applies, with success, a Pro status to them; with nothing more opened for them that is every run if and only if no fetch for them was under way. |
| `Billing.RedeliveryIgnored` | src/opendss_gateway/app.py:511-513 | Delivering a recorded event id again, at any later time, changes nothing. |
| `Billing.FailedEventIsLost` | src/opendss_gateway/app.py:514-519 | A concrete run in which a paid checkout whose fetch fails is never applied, although Stripe retries. |
| `Billing.Store.ApplySubscription` | src/opendss_gateway/billing.py:166-182 | The row is written and the plan set from it, pro for an active, trialing or past due subscription and free for any other; after a refused upsert both stay as they were, and after a failed `set_plan` only the row has changed. |
| `Billing.Store.Upsert` | src/opendss_gateway/store.py:258-269 | The user's row is inserted or replaced unless the customer id belongs to another user or the database refuses. |
| `Billing.Store.RecordEvent` | src/opendss_gateway/store.py:271-277 | True the first time an event id is seen. |

## Left out

- Streams and one-piece calls in one machine: `Gateway` runs calls whose `acquire` is awaited directly, `StreamWait` the queueing of streams; the scheduler's own results hold for both together.
- Floating-point rounding, overflow of a huge header timestamp to float, and Python's limit on the length of integer literals: seconds and clocks are reals, integers unbounded.
- RateWindow.RateWindow.constructor: takes a non-negative window; the program only makes windows of 3600 seconds.
- Text that is not Latin-1: header characters are those an HTTP header can carry.
- The internals of `heapq`, asyncio, SQLite and HMAC: contracts, atomic steps, commit or rollback, and a function parameter.
- The wait of `drain` in real time: its result is stated of the state it reads.
- HTTP forwarding, header filtering, pages, mail, OAuth, sessions, magic links and plan texts: no hard property.
