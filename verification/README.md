# Proofs about the wakuwaku event consumer and its Redis structures

This project models the parts of the repository whose correctness rests on an
argument rather than on a type, in Dafny 4.11, and proves what they are for.
`dafny verify dfyconfig.toml` checks all of it.

## The event consumer

A topic partition is an append-only log. The consumer polls a batch, plans it,
executes the plan with handlers that may fail, writes what failed to a retry
partition, and plans and executes that again later. Three questions decide
whether this is right: is every order that the types and fences of the log
require kept, from the first handling to the last retry; is nothing lost; and
is nothing handled twice.

| file | what it holds |
|---|---|
| `Events.dfy` | headers, and the order they require |
| `Segmentation.dfy` | cutting a key's log at its fences: `assign_segments`, as a loop and as a function |
| `PlanOrder.dfy` | the order a plan enforces, and that it contains what is required |
| `Fences.dfy` | where segments begin and what their heads and tails are, from the records alone: nothing is cut without a fence |
| `Planner.dfy`, `PlanBuilder.dfy`, `PlanNew.dfy` | the plan, its builder, and `Plan::new`: sort, scan, build |
| `Commuting.dfy`, `Algebra.dfy`, `Meaning.dfy` | reorderings and reductions that keep the effect of a batch |
| `Work.dfy`, `Handler.dfy`, `Execute.dfy` | decoding, chunks, stages, and what a key reports |
| `Encode.dfy`, `Conservation.dfy` | writing out what is unfinished, and that nothing gets lost between |
| `Execution.dfy`, `Replan.dfy` | executions record by record, and that planning their encodings again keeps the order |
| `Retry.dfy` | the retry schedule, its commits and its termination |
| `Task.dfy` | the consumer of a partition as a state machine with durable and volatile state and crashes |
| `TaskDelivery.dfy`, `TaskOnce.dfy`, `TaskOrder.dfy` | what every step keeps: nothing is lost; nothing is handled twice; the order of the log |
| `TaskLimits.dfy` | the backlog limit, exactly what is dropped, and how far apart attempts are |
| `TaskPromises.dfy` | what follows for all runs |
| `TaskExamples.dfy` | one run, for any two delays, that refutes two promises taken literally |
| `TaskRuns.dfy`, `Runtime.dfy`, `Consumer.dfy` | the loop of the consumer and its restarts, built from the planner, the executor and the encoder: all it does is a run of the state machine |

A plan is seen as a list of stages: stage `3 * q + r` of a key holds the runs of
rank `r` (head, body, tail) of its segment `q`. `Planner.KeyOk` says what the
plan of a key is, `Planner.Canonical` that `order` and `runs` tile the batch, and
`PlanNew.New` proves both of the builder's result. A body stage allows any
interleaving of its runs everywhere an order is claimed: an execution of a key is any
sequence the plan's order doesn't forbid.

The state machine (`Task.NextStep`) reads retry records, attempts due keys,
commits, polls, diverts or executes one key of a batch at a time, sends, and
moves on; a crash may strike between any two steps and after any part of the
work in progress that respects the plans being executed. `Consumer.PartitionTask`
is the loop with its fields and the retry schedule as objects, and its `Restart`
is a crash between two of its methods, after part of what the interrupted one
was to handle. Each of its methods carries the run of the machine along, so that
every theorem about runs holds of it.

Two promises are not kept as they are written, and the model follows the code:

- `config.rs:19-20` says `NoDoubleConsume` processes no event twice. A failed
  retry run keeps all of its records and its remainder is ignored
  (`runtime.rs:396-408`), so the chunks ahead of the failing one are handled
  again: `TaskExamples.ProcessedTwice` is such a run. `TaskOnce.StaysPending` says
  exactly when an event that was just handled stays pending: a later chunk of
  its run failed and the key didn't give up. `TaskPromises.AtMostOnce` says that
  this is the only way an event is ever handled again, whatever crashes. And a
  configuration keeps the promise, over every log and every run, if and only if
  `retry_delays` has a single entry, because then the first failing run gives
  up (`retry.rs:135-152`): `TaskPromises.SingleExactly`.
- An event that must stay before another may succeed after it, if both are in
  one retry run, the first is reported unrecoverable and a later chunk fails:
  `TaskExamples.SucceedsLate`. `TaskPromises.RequiredOrderKept` gives what always
  holds: of two events of different types the first is never handled again once
  the second was handled at all, and of two events of one type the first is
  handled before the second. So an event that succeeds the first time succeeds
  first (`TaskPromises.SucceedsFirst`). Once the second was handled, the first is
  still to be handled exactly when it was handled ahead of it in the same attempt,
  its run failed and the key didn't give up (`TaskOrder.AttemptLeaves`), and never
  if the second was handled directly (`TaskOrder.ExecuteLeaves`); what isn't is
  gone for good (`TaskOrder.GoneForever`). A configuration
  makes all successes come in order, over every log and every run that rereads
  nothing, if and only if it has a single delay: `TaskPromises.SuccessesExactly`.

A run rereads nothing as long as it didn't crash, and in `NoDoubleConsume` even
if it did (`TaskOnce.Once`).

## The Redis structures

Every Lua script is one atomic step, as a function on what Redis holds and as a
method that runs it command by command.

| file | what it holds |
|---|---|
| `LiveView.dfy` | a body with a squashed history of diffs, and subscriptions that read it in batches |
| `TokenBucket.dfy` | the token bucket, in exact arithmetic, with a key that expires once it is full |
| `RwLock.dfy` | the leased reader-writer lock, with two layers of expiry |
| `Filter.dfy` | the filter printer, and a reader of what it prints |

The bucket and the lock assume that the server clock never goes back; tokens of
the lock are assumed fresh. Both take a key to be gone at the earliest moment
Redis may drop it.

## Model

| member | source | states |
|---|---|---|
| `Segmentation.AssignSegments` | wakuwaku-iggy/src/partition/plan.rs:206-269 | the walk over the log computes the keys, segments and segment of every record of the step function `Assign`, which `Fences` characterises by the records alone |
| `Segmentation.AbsorbRecord` | wakuwaku-iggy/src/partition/plan.rs:251-264 | how a record changes head, tail and mixedness of the segment it joins |
| `Segmentation.AssignInv` | wakuwaku-iggy/src/partition/plan.rs:16-23 | in any log an acquiring record is first and heads its segment, a releasing one is last and its tail or alone with the head's type, segments of a key grow in log order, every key is listed once |
| `PlanOrder.RequiredPrecedes` | wakuwaku-iggy/src/partition/plan.rs:384-398 | for every batch of any length, two records whose log order is required are in that order in every execution of the plan |
| `PlanOrder.CutPrecedes` | wakuwaku-iggy/src/partition/plan.rs:18-19 | an acquiring record orders everything before it against itself and everything after it |
| `Fences.SegmentsExactly` | wakuwaku-iggy/src/partition/plan.rs:16-23 | in every log two records of a key are in different segments if and only if, after the first and up to the second, a record of the key acquires, follows a release, or releases what its own type acquired after other types joined |
| `Fences.RanksExactly` | wakuwaku-iggy/src/partition/plan.rs:18-20 | a record is in the head exactly if a record of its type acquired its segment, and else in the tail exactly if one of its type released it |
| `Fences.KeysInOrder` | wakuwaku-iggy/src/partition/plan.rs:206-224 | keys are planned in the order of their first records |
| `PlanOrder.ChainPrecedes` | wakuwaku-iggy/src/partition/plan.rs:384-398 | the plan's order contains the transitive closure of what is required |
| `PlanOrder.PrecedesIrreflexive` | wakuwaku-iggy/src/partition/plan.rs:384-389 | the plan's order is irreflexive and asymmetric |
| `PlanOrder.PrecedesTransitive` | wakuwaku-iggy/src/partition/plan.rs:384-389 | the plan's order is transitive |
| `Planner.PlannedOnce` | wakuwaku-iggy/src/partition/plan.rs:145-174 | a record of a planned key is in only one run of one stage |
| `Planner.PrecedesAt` | wakuwaku-iggy/src/partition/plan.rs:384-389 | a record precedes another exactly when its stage is earlier or it is earlier in the same run |
| `PlanBuilder.SortIndices` | wakuwaku-iggy/src/partition/plan.rs:104-110 | every index once, strictly sorted by key, segment, rank, type and index |
| `PlanBuilder.Builder.PushRun` | wakuwaku-iggy/src/partition/plan.rs:280-310 | a run that arrives in order extends or closes the open segment and keeps the builder's invariant |
| `PlanBuilder.Builder.ExtendSegment` | wakuwaku-iggy/src/partition/plan.rs:292-309 | the run becomes head, body or tail of the open segment according to its rank |
| `PlanBuilder.Builder.FinishSegment` | wakuwaku-iggy/src/partition/plan.rs:312-324 | the open segment joins the contiguous range of its key |
| `PlanNew.ScanRecord` | wakuwaku-iggy/src/partition/plan.rs:120-131 | a run ends exactly where segment, rank or type changes |
| `PlanNew.BuildRuns` | wakuwaku-iggy/src/partition/plan.rs:112-135 | the runs cut the sorted order into its groups without gap or overlap |
| `PlanNew.New` | wakuwaku-iggy/src/partition/plan.rs:97-143 | the result is the plan: every record once, in a run of its own key, type, segment and rank, in log order, segments in log order, at most one head and one tail |
| `Algebra.Dedup` | wakuwaku-iggy/src/partition/algebra.rs:99-104 | the in-place dedup leaves the array's prefix as the run with adjacent equal events collapsed |
| `Algebra.Sort` | wakuwaku-iggy/src/partition/algebra.rs:108-110 | the run is sorted by insertion |
| `Algebra.Fold` | wakuwaku-iggy/src/partition/algebra.rs:115-121 | the whole run becomes one event, folded from the left |
| `Algebra.Reduce` | wakuwaku-iggy/src/partition/algebra.rs:46-50 | each marker runs its own reduction |
| `Algebra.ReducedEffect` | wakuwaku-iggy/src/partition/algebra.rs:46-50 | under the law of its marker, applying a reduced run of any length has the effect of the run |
| `Algebra.ReducedOwn` | wakuwaku-iggy/src/partition/algebra.rs:5-8 | a reduced run holds events of the run's own type and key only |
| `Algebra.ReducedCommutes` | wakuwaku-iggy/src/partition/algebra.rs:15-23 | an event that commutes with every event of a run commutes with every event of its reduction |
| `Algebra.ReducedTwice` | wakuwaku-iggy/src/partition/algebra.rs:17-27 | reducing is idempotent |
| `Algebra.ReducedLeast` | wakuwaku-iggy/src/partition/algebra.rs:17-27 | no marker leaves more than it may: no equal neighbours for idempotent events, each event once and sorted if they also commute, one event if they combine; no event is lost, and the other markers change nothing |
| `Algebra.RetryEffect` | wakuwaku-iggy/src/consumer/handler.rs:196-227 | applying any prefix of a reduced run, and later the reduction of its remainder with any later records, has the effect of all the records in order |
| `Meaning.CanonicalEffect` | wakuwaku-iggy/src/partition/plan.rs:3-14 | if records whose order isn't required commute, the plan's own order has the effect of the log |
| `Meaning.PlanPreservesMeaning` | wakuwaku-iggy/src/partition/plan.rs:3-14 | then so has every execution of the plan, keys and body runs interleaved freely and every run replaced by its reduction |
| `Handler.DecodeRun` | wakuwaku-iggy/src/consumer/handler.rs:141-166 | the events of a run are those that decode, in order, reduced |
| `Handler.EncodeRun` | wakuwaku-iggy/src/consumer/handler.rs:168-184 | the payloads of the events that serialize, in order |
| `Handler.HandleEvents` | wakuwaku-iggy/src/consumer/handler.rs:186-228 | either every chunk was answered, or handling stopped at the first retryable chunk and the remainder is the serialized suffix from there on |
| `Handler.CallsAreEvents` | wakuwaku-iggy/src/consumer/handler.rs:199-226 | the chunks passed to the handler are the events before the failing chunk, each once, in order, at most a batch each |
| `Handler.CallsExactly` | wakuwaku-iggy/src/consumer/handler.rs:199-226 | the `k`-th chunk is the `k`-th batch, full unless it is the last, and counts as applied exactly if its handler succeeded |
| `Execute.RunStage` | wakuwaku-iggy/src/consumer/execute.rs:64-103 | every run of a stage is run and settled: completed records, failed runs with their remainders, and the events handled |
| `Execute.ExecuteKey` | wakuwaku-iggy/src/consumer/execute.rs:105-154 | stages run in order up to the first one with a failed run, and the report is that of this outcome |
| `Encode.FailedInIs` | wakuwaku-iggy/src/consumer/execute.rs:89-99 | the failed runs are exactly those of the failed stage, each with its place, records and remainder |
| `Encode.TakeFailed` | wakuwaku-iggy/src/consumer/encode.rs:88-91 | taking a failed run by swap removal takes that run and no other |
| `Encode.ReduceRun` | wakuwaku-iggy/src/consumer/encode.rs:101-116 | an unfinished run is written reduced |
| `Encode.PushRun` | wakuwaku-iggy/src/consumer/encode.rs:118-152 | the entries of a run with the fences of its stage; nothing of a run of unknown type |
| `Encode.EncodeStage` | wakuwaku-iggy/src/consumer/encode.rs:83-96 | skipped, remaindered or reduced, run by run |
| `Encode.EncodeSegment` | wakuwaku-iggy/src/consumer/encode.rs:74-97 | head, body and tail of a segment in turn |
| `Encode.EncodeKey` | wakuwaku-iggy/src/consumer/encode.rs:50-99 | the entries are those of what is left of every run, in plan order, for a diverted key and for every failure |
| `Conservation.WorkConserved` | wakuwaku-iggy/src/consumer/execute.rs:105-154 | the events handled and the events left are together the reductions of all runs, each event once |
| `Conservation.EntriesConserve` | wakuwaku-iggy/src/consumer/encode.rs:50-55 | whatever serializes or not, the entries of every run are the payloads of exactly the events of its unhandled suffix that serialize, in order, and they decode to these events if their payloads do |
| `Execution.BeforeHandled` | wakuwaku-iggy/src/consumer/execute.rs:105-148 | what the plan puts before a handled record was handled too, and its run completed if its type differs |
| `Execution.DoneInOrder` | wakuwaku-iggy/src/consumer/execute.rs:105-148 | what the plan puts before a handled record was handled earlier |
| `Replan.AcquireWritten` | wakuwaku-iggy/src/consumer/encode.rs:32-42 | a record that acquired is written first of its run and acquires again |
| `Replan.ReleaseWritten` | wakuwaku-iggy/src/consumer/encode.rs:195-197 | a record that released releases when it is written, or, inside a head run, follows an acquiring entry of that run |
| `Replan.EncodingKeeps` | wakuwaku-iggy/src/consumer/encode.rs:3-6 | every unhandled record is written once, with what fences its pairs, whatever was handled before |
| `Replan.EncodingAddsNoOrder` | wakuwaku-iggy/src/consumer/encode.rs:32-42 | whatever order the fences and types of the entries require, the plan of their records required already |
| `Replan.ReplanKeepsOrder` | wakuwaku-iggy/src/consumer/encode.rs:188-209 | planning the encoding of a diverted or stopped key of any batch again orders every pair its records required |
| `Retry.RetryState.constructor` | wakuwaku-iggy/src/consumer/retry.rs:51-57 | an empty schedule |
| `Retry.RetryState.Enqueue` | wakuwaku-iggy/src/consumer/retry.rs:59-77 | the record goes last in its key's queue, and a key without one waits the first delay, counted from the failure |
| `Retry.RetryState.IsQuarantined` | wakuwaku-iggy/src/consumer/retry.rs:79-81 | a key is quarantined exactly while records of it are pending |
| `Retry.RetryState.RemoveOffsets` | wakuwaku-iggy/src/consumer/retry.rs:177-185 | what is kept, in order, and how many were removed |
| `Retry.RetryState.Settle` | wakuwaku-iggy/src/consumer/retry.rs:123-153 | what becomes of a key that was attempted, and how many records it lost |
| `Retry.RetryState.Finish` | wakuwaku-iggy/src/consumer/retry.rs:113-162 | the schedule after an attempt, and what happened to the key, with the delays that `Backoff` and `AttemptsApart` fix |
| `Retry.RetryState.Committable` | wakuwaku-iggy/src/consumer/retry.rs:164-174 | the greatest offset up to which nothing is pending |
| `Retry.AttemptedIs` | wakuwaku-iggy/src/consumer/retry.rs:113-153 | after an attempt exactly the records neither completed nor given up are pending, in order |
| `Retry.FinishedIs` | wakuwaku-iggy/src/consumer/retry.rs:155-161 | a key stays scheduled exactly while it has records, and no other key changes |
| `Retry.EnqueueValid` | wakuwaku-iggy/src/consumer/retry.rs:59-77 | no queue is empty, queues are in offset order, no record is pending twice and `pending` counts them, after every read |
| `Retry.FinishValid` | wakuwaku-iggy/src/consumer/retry.rs:113-162 | and after every attempt, which makes nothing pending and leaves other keys alone |
| `Retry.CommittableUnique` | wakuwaku-iggy/src/consumer/retry.rs:164-174 | what is committable is determined by what is pending |
| `Retry.CommittableMonotone` | wakuwaku-iggy/src/consumer/runtime.rs:252-258 | reading on and finishing attempts never moves the commit back |
| `Retry.AttemptDecreases` | wakuwaku-iggy/src/consumer/retry.rs:113-162 | every attempt drains the key or leaves fewer records, or as many with fewer delays before giving up |
| `Retry.KeyDrains` | wakuwaku-iggy/src/consumer/retry.rs:113-162 | with no new arrivals a key drains within (records + 1) times the number of delays attempts, whatever the handlers answer |
| `Retry.FailedRunDropped` | wakuwaku-iggy/src/consumer/retry.rs:135-152 | a record whose run fails as often in a row as there are delays is dropped |
| `Retry.Backoff` | wakuwaku-iggy/src/consumer/retry.rs:135-152 | after `n` failing attempts in a row since it was scheduled or gave up, a key is due `delays[n]` after the last and the reply names this attempt and delay; without a delay left, it starts over and the reply counts exactly the records given up |
| `Retry.FirstDue` | wakuwaku-iggy/src/consumer/retry.rs:59-77 | a new key waits `delays[0]`, counted from the writing of its record, and no longer if that has passed; more records change nothing |
| `Task.InvReached` | wakuwaku-iggy/src/consumer/runtime.rs:236-284 | in every reachable state every retry record stands for a decodable main record and is scheduled under its key, and batches are processed only with the retry partition read to its end |
| `TaskDelivery.RemovedSettled` | wakuwaku-iggy/src/consumer/runtime.rs:393-424 | a retry record leaves the schedule only when its event was handled or is dropped with an error |
| `TaskDelivery.StoredGrows` | wakuwaku-iggy/src/consumer/runtime.rs:252-282 | stored offsets never move back, over restarts too |
| `TaskDelivery.Delivered` | wakuwaku-iggy/src/consumer/runtime.rs:247-283 | what every step of every run with crashes keeps |
| `TaskLimits.BacklogExactly` | wakuwaku-iggy/src/consumer/runtime.rs:484-503 | what an executed key leaves unhandled is collected as a whole if pending and collected records stay within the limit with it, and dropped as a whole if not; besides, exactly its undecodable records are dropped |
| `TaskLimits.BacklogBounded` | wakuwaku-iggy/src/consumer/config.rs:54-56 | whenever an executed key adds retry records, pending and collected records are within the limit |
| `TaskLimits.DropsExactly` | wakuwaku-iggy/src/consumer/runtime.rs:393-503 | every step drops exactly the events that don't parse or decode, don't fit the backlog, or fail in the last attempt their key has |
| `TaskLimits.DropsReached` | wakuwaku-iggy/src/consumer/runtime.rs:236-284 | in every run with crashes, an event was dropped only by a step that had such a reason |
| `TaskLimits.FailuresAre` | wakuwaku-iggy/src/consumer/retry.rs:135-152 | in every run the attempt number of a key is the number of its failing attempts in a row since it was scheduled or gave up |
| `TaskLimits.AttemptsApart` | wakuwaku-iggy/src/consumer/retry.rs:135-143 | in every run the `n`-th failing attempt in a row reports the delay `delays[n]`, and the next attempt waits that long |
| `TaskLimits.FirstAttempt` | wakuwaku-iggy/src/consumer/retry.rs:61-72 | in every run the first attempt on a key waits `delays[0]` from the writing of its record |
| `TaskPromises.NothingLost` | wakuwaku-iggy/src/consumer/config.rs:22-30 | in `NoEventLose`, whatever crashed, every main record below the stored offset was handled, was dropped with an error, or is held by a retry record at or past the stored retry offset, and every retry record below that was handled or dropped |
| `TaskOnce.StaysPending` | wakuwaku-iggy/src/consumer/runtime.rs:393-424 | an event just handled in an attempt is still pending exactly when a later chunk of its run failed and the key didn't give up |
| `TaskOnce.NoneKeptReached` | wakuwaku-iggy/src/consumer/retry.rs:135-152 | with a single delay no attempt of any run leaves an event it handled pending |
| `TaskOnce.AttemptReports` | wakuwaku-iggy/src/consumer/runtime.rs:429-439 | an attempt completes every pending record, or some run fails whose records are pending and not completed |
| `TaskPromises.AtMostOnce` | wakuwaku-iggy/src/consumer/config.rs:16-20 | in `NoDoubleConsume`, whatever crashed, no main record is planned twice, no retry record is read twice, and an event is handled again only if its record stayed pending |
| `TaskPromises.NeverTwice` | wakuwaku-iggy/src/consumer/config.rs:19-20 | with a single delay no event is handled twice, whatever fails, in `NoDoubleConsume` whatever crashes and in `NoEventLose` until a crash |
| `TaskPromises.SingleExactly` | wakuwaku-iggy/src/consumer/config.rs:19-20 | the configurations that never handle an event twice in `NoDoubleConsume`, over all logs and all runs, are exactly those with a single delay |
| `TaskOrder.NoneLive` | wakuwaku-iggy/src/consumer/retry.rs:3-4 | no main record of a key runs directly while an earlier record of the key is in the retry partition or about to be sent there |
| `TaskOrder.FenceStays` | wakuwaku-iggy/src/consumer/encode.rs:32-42 | an acquiring retry record is only removed together with everything before it |
| `TaskOrder.AttemptLeaves` | wakuwaku-iggy/src/consumer/runtime.rs:393-424 | once an event was handled in an attempt, one required before it is still to be handled exactly when it was handled ahead of it in this attempt, its run failed and the key didn't give up |
| `TaskOrder.ExecuteLeaves` | wakuwaku-iggy/src/consumer/runtime.rs:462-505 | once an event of a batch was handled, nothing required before it is still to be handled |
| `TaskOrder.GoneForever` | wakuwaku-iggy/src/consumer/runtime.rs:236-284 | what was processed and isn't pending is never handled again in any run that rereads nothing |
| `TaskPromises.RequiredOrderKept` | wakuwaku-iggy/src/consumer/runtime.rs:236-284 | with any failures, diversions, retries, give-ups and drops, in `NoDoubleConsume` with any crashes and in `NoEventLose` until the first, an event is handled only after every event required before it that is ever handled; of different types, all handlings of the first come before any of the second |
| `TaskPromises.SucceedsFirst` | wakuwaku-iggy/src/consumer/runtime.rs:441-507 | an event succeeds before any that must come after it is handled, if their types differ or it succeeds the first time |
| `TaskPromises.SuccessesExactly` | wakuwaku-iggy/src/consumer/runtime.rs:393-424 | the configurations under which every event that succeeds does so before anything that must come after it is handled, over all logs and all runs that reread nothing, are exactly those with a single delay |
| `TaskPromises.ReplansInOrder` | wakuwaku-iggy/src/consumer/runtime.rs:429-439 | planning what is pending of a key, from any number of batches and after any runs completed or were given up, keeps every order the main log required |
| `TaskExamples.ProcessedTwice` | wakuwaku-iggy/src/consumer/config.rs:19-20 | whatever the delays, if there are two, a run without a crash in which an event is applied twice |
| `TaskExamples.SucceedsLate` | wakuwaku-iggy/src/consumer/runtime.rs:393-424 | in it, an event succeeds before another that must stay before it first does |
| `TaskRuns.HandledExecutes` | wakuwaku-iggy/src/consumer/execute.rs:105-154 | the executor handles records in an order the machine allows |
| `TaskRuns.EncodePlain` | wakuwaku-iggy/src/consumer/encode.rs:56-99 | the encoder writes what the machine writes |
| `Runtime.RunKey` | wakuwaku-iggy/src/consumer/execute.rs:107-154 | executing a key is an execution of the machine, and its report names the records of its completed and failed runs |
| `Runtime.AttemptKey` | wakuwaku-iggy/src/consumer/runtime.rs:381-439 | planning, executing and finishing a due key is an attempt of the machine |
| `Runtime.ParseBatch` | wakuwaku-iggy/src/consumer/runtime.rs:444-455 | the records of a batch whose headers parse, in order |
| `Runtime.DivertKey` | wakuwaku-iggy/src/consumer/runtime.rs:473-477 | a quarantined key is written out whole |
| `Runtime.ExecuteMainKey` | wakuwaku-iggy/src/consumer/runtime.rs:462-505 | a free key is executed, and what failed is collected unless the backlog is full, as `BacklogExactly` says |
| `Runtime.ProcessMain` | wakuwaku-iggy/src/consumer/runtime.rs:441-507 | processing a batch takes the machine to the state in which exactly the collected entries are to be sent |
| `Runtime.Continues` | wakuwaku-iggy/src/consumer/runtime.rs:247-283 | these steps continue a run |
| `Consumer.PartitionTask.constructor` | wakuwaku-iggy/src/consumer/runtime.rs:236-246 | a task that starts for the first time, in a run of the machine that just began |
| `Consumer.PartitionTask.ReadNext` | wakuwaku-iggy/src/consumer/runtime.rs:340-379 | schedules one retry record, whose offset is stored first in `NoDoubleConsume` |
| `Consumer.PartitionTask.DrainRetry` | wakuwaku-iggy/src/consumer/runtime.rs:340-379 | schedules every retry record left to read; in `NoDoubleConsume` all of them are stored as consumed before any is attempted |
| `Consumer.PartitionTask.RunDue` | wakuwaku-iggy/src/consumer/runtime.rs:381-427 | every due key is attempted |
| `Consumer.PartitionTask.Store` | wakuwaku-iggy/src/consumer/runtime.rs:252-258 | what is committable is stored, and never less than before |
| `Consumer.PartitionTask.Polled` | wakuwaku-iggy/src/consumer/runtime.rs:260-277 | the batch to process, stored first in `NoDoubleConsume` |
| `Consumer.PartitionTask.Process` | wakuwaku-iggy/src/consumer/runtime.rs:278-278 | the batch is processed key by key |
| `Consumer.PartitionTask.SendEntries` | wakuwaku-iggy/src/consumer/runtime.rs:507-548 | all entries of the batch are appended to the retry partition at once |
| `Consumer.PartitionTask.MoveOn` | wakuwaku-iggy/src/consumer/runtime.rs:279-282 | the batch is stored last in `NoEventLose` |
| `Consumer.PartitionTask.Consume` | wakuwaku-iggy/src/consumer/runtime.rs:275-282 | a polled batch is stored, processed, sent and stored in the order of its mode |
| `Consumer.PartitionTask.Restart` | wakuwaku-iggy/src/consumer/runtime.rs:236-246 | whatever the phase and whatever part of the work in progress was handled, a new task starts from the stored offsets with an empty schedule, and the run of the machine goes on |
| `Consumer.PartitionTask.Turn` | wakuwaku-iggy/src/consumer/runtime.rs:247-283 | a turn of the loop extends a run of the machine |
| `LiveView.View.RunCreate` | wakuwaku-entity/src/redis/dynamic/live_view.rs:114-126 | creates version 1 unless the view exists |
| `LiveView.View.RunCommit` | wakuwaku-entity/src/redis/dynamic/live_view.rs:128-152 | moves the head on exactly if it is at the parent, records body and diff, and keeps the history exactly what `HistoryIs` says |
| `LiveView.CreateOk` | wakuwaku-entity/src/redis/dynamic/live_view.rs:114-126 | a created view has a history of one base |
| `LiveView.CommitOk` | wakuwaku-entity/src/redis/dynamic/live_view.rs:128-152 | head and history stay in agreement: one true base, contiguous true diffs, at most `max_diffs`, up to the head |
| `LiveView.CreateHistory` | wakuwaku-entity/src/redis/dynamic/live_view.rs:114-126 | a created view has the history of version 1 |
| `LiveView.CommitHistory` | wakuwaku-entity/src/redis/dynamic/live_view.rs:128-152 | the history holds the entry of each of the last `(versions - 1) % (max_diffs + 1) + 1` versions with the very diff committed: it starts over only when it was full |
| `LiveView.View.ReadHistory` | wakuwaku-entity/src/redis/dynamic/live_view.rs:546-580 | the history is never corrupted, is the base it should start with and every diff committed since, no more than `max_diffs`, and replays to the head |
| `LiveView.ReplayIs` | wakuwaku-entity/src/redis/dynamic/live_view.rs:350-370 | replaying any prefix of a true history gives the true body there |
| `LiveView.IntoLatest` | wakuwaku-entity/src/redis/dynamic/live_view.rs:361-369 | applies the diffs in order |
| `LiveView.EntriesAre` | wakuwaku-entity/src/redis/dynamic/mod.rs:178-193 | what a batched read after a version returns of a contiguous log |
| `LiveView.StreamCursor.Next` | wakuwaku-entity/src/redis/dynamic/mod.rs:178-202 | hands out buffered entries first, then reads the next batch after the last entry read |
| `LiveView.SubGrows` | wakuwaku-entity/src/redis/dynamic/live_view.rs:263-267 | what a subscription buffered stays usable whatever is committed or squashed meanwhile |
| `LiveView.ReceiveOk` | wakuwaku-entity/src/redis/dynamic/live_view.rs:401-420 | a subscription never meets an entry it can't use, its version grows, and the event turns the true body into the true body |
| `LiveView.ReceiveExactly` | wakuwaku-entity/src/redis/dynamic/live_view.rs:401-420 | a subscription receives the diff committed for its next version as long as this is buffered or in the history, the squashing entry included, and otherwise the body of the first entry |
| `LiveView.ResumeOk` | wakuwaku-entity/src/redis/dynamic/live_view.rs:263-274 | a subscription may start at any version the view had |
| `LiveView.Subscription.constructor` | wakuwaku-entity/src/redis/dynamic/live_view.rs:699-713 | starts right after the version of the body it is given |
| `LiveView.Subscription.Recv` | wakuwaku-entity/src/redis/dynamic/live_view.rs:320-331 | after each event the body is the true one at the new version, no event comes exactly when it is the head's, and the event is the committed diff unless it was squashed before it was read |
| `LiveView.RunsOk` | wakuwaku-entity/src/redis/dynamic/live_view.rs:723-737 | however creates, commits and squashes interleave with batched reads, all of this holds, history and buffers hold what was committed, and every version above 1 came from exactly one commit |
| `LiveView.Drains` | wakuwaku-entity/src/redis/dynamic/mod.rs:34-37 | a subscription reaches the head after at most as many events as it is behind |
| `TokenBucket.PeriodMicros` | wakuwaku-entity/src/redis/collection/token_bucket_limiter.rs:122-126 | the period in microseconds, never zero, saturating |
| `TokenBucket.BucketKey.RunAcquire` | wakuwaku-entity/src/redis/collection/token_bucket_limiter.rs:41-78 | the script computes the reply and the stored bucket, and writes nothing for a request larger than the bucket |
| `TokenBucket.AcquireOk` | wakuwaku-entity/src/redis/collection/token_bucket_limiter.rs:72-74 | the key expires only once the bucket is full again |
| `TokenBucket.ReplyExactly` | wakuwaku-entity/src/redis/collection/token_bucket_limiter.rs:61-77 | `remaining` is what the bucket holds afterwards, rounded down; the key expires at the first moment the bucket is full again; a request larger than the bucket changes nothing |
| `TokenBucket.RefillPerPeriod` | wakuwaku-entity/src/redis/collection/token_bucket_limiter.rs:80-90 | in whole periods as many times the refill is added |
| `TokenBucket.ExpiryUnobservable` | wakuwaku-entity/src/redis/collection/token_bucket_limiter.rs:129-131 | at any time an expired key holds what it would have held |
| `TokenBucket.ExpiryNeverMatters` | wakuwaku-entity/src/redis/collection/token_bucket_limiter.rs:129-131 | every run of requests gets the replies of a bucket that never expires |
| `TokenBucket.TokensConserved` | wakuwaku-entity/src/redis/collection/token_bucket_limiter.rs:61-71 | every admitted token was in the bucket or was refilled since |
| `TokenBucket.WindowBound` | wakuwaku-entity/src/redis/collection/token_bucket_limiter.rs:3-6 | in any window of any run at most the capacity and the refill of the window are admitted |
| `TokenBucket.RetryAfterIsLeast` | wakuwaku-entity/src/redis/collection/token_bucket_limiter.rs:220-225 | an undisturbed retry is allowed exactly from `retry_after` on, and never for more than the capacity |
| `RwLock.LockKeys.RunReadAcquire` | wakuwaku-entity/src/redis/collection/lock.rs:66-80 | refuses while the writer key exists, else drops ended leases, adds the reader and keeps the key's expiry at least as late |
| `RwLock.LockKeys.RunReadRelease` | wakuwaku-entity/src/redis/collection/lock.rs:82-95 | removes the reader and says whether its lease was running |
| `RwLock.LockKeys.RunReadExtend` | wakuwaku-entity/src/redis/collection/lock.rs:97-111 | renews a running lease only |
| `RwLock.LockKeys.RunWriteAcquire` | wakuwaku-entity/src/redis/collection/lock.rs:113-125 | refuses while a reader's lease runs or the writer key exists |
| `RwLock.LockKeys.RunExtend` | wakuwaku-entity/src/redis/collection/lock.rs:54-64 | renews the writer key of this token only |
| `RwLock.LockKeys.RunRelease` | wakuwaku-entity/src/redis/collection/lock.rs:44-52 | deletes the writer key of this token only |
| `RwLock.StepOk` | wakuwaku-entity/src/redis/collection/lock.rs:4-8 | a read lease is granted exactly when no write lease is live, a write lease exactly when no lease is, and a lease is renewed or released exactly while it is live; exclusion is kept |
| `RwLock.KeysHoldLeases` | wakuwaku-entity/src/redis/collection/lock.rs:4-8 | over every interleaving and any waiting, the unexpired keys hold exactly the live leases: the writer key the live write lease, the running scores the live read leases |
| `RwLock.AcquireSweeps` | wakuwaku-entity/src/redis/collection/lock.rs:66-80 | after a granted read lease or an attempt at a write lease the readers' key holds exactly the live read leases |
| `RwLock.ReadersExpire` | wakuwaku-entity/src/redis/collection/lock.rs:66-111 | the readers' key expires no later than the latest end of a read lease ever asked for |
| `RwLock.MutualExclusion` | wakuwaku-entity/src/redis/collection/lock.rs:4-8 | over every interleaving and any waiting, two leases live at once are both read leases, and nobody holds the writer key |
| `Filter.Output.Quote` | wakuwaku-entity/src/meilisearch/filter.rs:281-296 | appends the text in quotes, escaped |
| `Filter.Output.QuoteDisplay` | wakuwaku-entity/src/meilisearch/filter.rs:275-279 | a number needs no escaping |
| `Filter.Output.WriteValue` | wakuwaku-entity/src/meilisearch/filter.rs:261-273 | appends the quoted text of a value, which `ValueReads` reads back as the value, or fails for a float that isn't finite |
| `Filter.Output.WriteValues` | wakuwaku-entity/src/meilisearch/filter.rs:190-195 | appends the values separated by commas, up to the first error |
| `Filter.Output.WriteCompare` | wakuwaku-entity/src/meilisearch/filter.rs:242-253 | appends field, operator and value |
| `Filter.Output.WriteBetween` | wakuwaku-entity/src/meilisearch/filter.rs:180-186 | appends field and both ends |
| `Filter.Output.WriteIn` | wakuwaku-entity/src/meilisearch/filter.rs:187-198 | appends field and list |
| `Filter.Output.Postfix` | wakuwaku-entity/src/meilisearch/filter.rs:255-259 | appends field and operator |
| `Filter.Output.Write` | wakuwaku-entity/src/meilisearch/filter.rs:169-213 | appends the printed filter, or fails with the first error met |
| `Filter.Output.WriteGrouped` | wakuwaku-entity/src/meilisearch/filter.rs:215-221 | the operand between parentheses, printed at the next depth |
| `Filter.Output.WriteGroup` | wakuwaku-entity/src/meilisearch/filter.rs:224-240 | members in parentheses with the operator between, and an error if there are none |
| `Filter.PrintsWhen` | wakuwaku-entity/src/meilisearch/filter.rs:159-162 | a filter prints exactly when no group is empty, every float is finite and it nests at most `MAX_DEPTH` levels |
| `Filter.QuotedReads` | wakuwaku-entity/src/meilisearch/filter.rs:281-285 | any text is read back from its quotes, whatever follows |
| `Filter.ValueReads` | wakuwaku-entity/src/meilisearch/filter.rs:261-273 | the text of a value says the value: truth values by name, numbers in decimal by the place of their digits, a minus sign exactly for negative ones, no needless zeros |
| `Filter.PrintSays` | wakuwaku-entity/src/meilisearch/filter.rs:153-157 | a filter that prints reads as an expression that says what it asks: fields, operators, ranges, lists, nesting and the value of every text |
| `Filter.ErrorsMean` | wakuwaku-entity/src/meilisearch/filter.rs:159-162 | each error is reported only of a filter that has its fault |
| `Filter.Reads` | wakuwaku-entity/src/meilisearch/filter.rs:153-157 | whatever its texts contain, reading a printed filter gives the filter back, up to value types and the operator of groups of one |
| `Filter.PrintedInjective` | wakuwaku-entity/src/meilisearch/filter.rs:155-157 | two filters that print alike differ at most in that |
| `Filter.Render` | wakuwaku-entity/src/meilisearch/filter.rs:163-167 | the expression, which reads back as what the filter asks, or the first error, which is its fault |

## Left out

- PlanPreservesMeaning: is stated of batches whose records all decode; a record that doesn't is dropped by every execution alike.
- Sort: insertion where the code calls an unstable library sort; equal events are indistinguishable, so the result is the same sequence.
- SortIndices: insertion where the code calls an unstable library sort; the sort keys are all different.
- HandleEvents: a chunk that fails transiently is passed again until it is answered otherwise, as one answer; the waits between are not modelled.
- ExecuteKey: runs the runs of a body stage one after another; that they may interleave is part of `Task` and `Meaning`, where any order the plan allows is covered.
- ProcessMain: takes the keys of a batch one after another where the code runs them concurrently and encodes them afterwards; a crash in the middle may leave any part of any of them handled.
- RunDue: attempts and finishes the due keys one after another where the code attempts them concurrently and finishes them afterwards; attempts on different keys touch different queues.
- DrainRetry: reads retry records one at a time; a poll of several is as many reads, and a crash inside it is a crash before it.
- In the state machine runs are not reduced, so that every retry record stands for one event; what reductions keep is in `Algebra`, `Meaning` and `Conservation`.
- Retry records that this consumer didn't write (without a retry header or with bad headers), and messages that fail to assemble, are not modelled.
- Offsets start at 0 and nothing expires from a partition: reading from the first retained record is reading from 0.
- Iggy, Redis and Meilisearch clients, header and reply encodings, logging, error texts and resending until a call succeeds: an operation happens or the process crashes.
- `later` saturates a due time that overflows; times are unbounded integers here, as are offsets, versions and counts.
- Shutdown and abort, topic validation in `start`, and the registries of handlers and services: plumbing and types.
- Lua's rounding of floats and versions above 2^53; removing and recreating a live view; resetting a bucket, which fills it.
- `Filter::DangerouslyRaw`, which is trusted text; how floats are formatted, beyond needing no escaping; deserializing filters and sorts.
- `Lock`, `Cache`, `HashedCache`, `Pipe`, `StreamBuffer`, `Indexer`, transactions and cron: simpler than what is here, or dominated by foreign behaviour.
