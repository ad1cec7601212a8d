# Verified model of a durable workflow runtime

This project models the durable execution runtime of a workflow service, and nine smaller
components around it, in Dafny 4.11, and proves what they promise. `dafny verify
dfyconfig.toml` checks all of it.

## What is modelled

**The durable runtime** is the core. One execution owns a run row, logical steps, attempts,
queue jobs and approval snapshots. Workers claim queue jobs under a lease and a fresh token,
dispatch them, execute outside any transaction and commit; a watchdog, lease recovery,
durable timers, human reviewers and cancellation act on the same rows. Every transaction holds
the run lock, so it is one step of a transition system; a worker that crashes is one that
takes no further step, and a step may come after any delay.

| file | content |
|---|---|
| `Records.dfy` | rows and the pinned workflow version |
| `Runtime.dfy` | what each transaction does to the rows, as functions; events and traces |
| `Invariant.dfy` | the inductive invariant |
| `Tables.dfy`, `Preserve*.dfy` | every event keeps the invariant |
| `History.dfy` | the database trigger and the ORM guards as predicates over old and new rows, and that every event meets them |
| `Guards.dfy` | the guards on writes, and what they keep whoever writes through them |
| `Theorems.dfy`, `Fencing.dfy`, `Approvals.dfy`, `Deadlines.dfy`, `Retries.dfy`, `Results.dfy` | the results about every trace |
| `Outcomes.dfy`, `DispatchOutcomes.dfy` | what each transaction does to a reachable state, field by field, and when |
| `StoreFacts.dfy`, `RunStore.dfy` | the services as they update rows in place, through the guards, each proved to do what its function in `Runtime` says |
| `Routing.dfy`, `RoutedRuns.dfy` | the choice of the next node, that it is what `Runtime` expects of a plan, and the edge decisions of a run's checkpoint along every trace |
| `BranchPaths.dfy` | the recursive walk that labels nodes with their fork branches |
| `Reconcile.dfy`, `Accounts.dfy` | the end-state checker of the benchmark, and what its verdict says about the rows |
| `NextFire.dfy` | the next firing of a cron schedule under clock changes |
| `Projection.dfy`, `ReadRows.dfy` | the read model that is synchronised with every commit, and what its rows show |
| `Scoring.dfy`, `ScoreMeaning.dfy` | deterministic evaluation scores, and what they are shares of |
| `RateLimiter.dfy`, `AbortSignal.dfy`, `WorkerLoop.dfy` | the sliding-window limiter, the abort signal under interleaving, the worker loop |

## How it is modelled

- The functions of `Runtime` are the specification, the class `Store.RunStore` is the code's own
  form: fields that hold the tables, loops over rows, writes that go through the trigger, the
  transition table and the immutability guards, and a rollback where an exception leaves a
  transaction. Each service method ensures that the new rows are exactly its function of the old
  ones; inside, every guarded write is asserted to succeed, so no guard ever refuses a service.
- `Outcomes` and `DispatchOutcomes` say what the functions of `Runtime` amount to, without naming
  them or the decisions inside them: for every transaction of a reachable run the condition on
  rows, clock and request under which it takes effect, and then every field that it changes.
- Row identities are positions in their tables, a SHA-256 digest is the tuple that is digested,
  a JSON value is its canonical text, and claim tokens come from a counter.
- A transaction reads the database clock once; time passes between transactions.
- Graph routing and data binding enter a dispatch as a `Plan`: the nodes settled as skipped, the
  node that is ready, and the bound input or its error. `Routing` models the routing itself and
  proves that it yields such a plan. The rows do not hold the checkpoint's edge decisions, so
  `RoutedRuns` accompanies a trace with them: none at the start, those of skipped nodes when a
  dispatch routes, those of a step's node when the step completes with an output. The jitter of a
  retry delay is a parameter of its event.
- `prepare_next` gives up early, without its checkpoint callback, when an unfinished step is in
  the way or its retry is not due. `Dispatch` has these branches; `DispatchFindsWork` proves that
  a live claim never meets them, so a queue job is never failed while its run stays live.
- An event `DoChangeInput` lets an unknown writer change the governed input of a waiting step.
  No service does so; approvals are bound to their input against exactly this.
- In `NextFire` the zone is its wall clock and the fold-0 reading of a civil time, and the cron
  library is a match predicate and its successor. In `Scoring` rounding is any monotone function
  that keeps 0 and 1. Amounts in `Projection` are reals.

## Where a promise needs a condition

- A cron schedule passes over no time exactly in zones whose clock never returns to a civil time
  it has jumped over (`NextFire.SkipsNothingIff`; `ReturningSkips` shows a clock that does, and
  `SummerIsZone` that a clock with summer time never does).
- A schedule fires exactly when some match that exists and is not over has fewer than 2000 matches
  before it and is reached without a gap of five years (`NextFire.NextFire`). Whole-minute
  schedules therefore fire across every yearly gap (`FiresUnlessInGap`, `EveryMinuteFires`).
- The receipt check of `reconcile` accounts for every accepted run exactly when no two accepted
  runs share a start key (`Reconcile.ReceiptsCoverDistinctKeys`; `SharedStartKeyPasses` shows
  complete data of two runs for which the whole report passes with one receipt).
- Cost events equal current usage after every synchronisation exactly when attempts that were
  billed stay billed the same (`Projection.CostEventsAreExact`): an event is never revised.
  `StaleEvent` shows two states of an execution after which the run costs two dollars and its
  events one.
- A callback of the abort signal runs at least once for each registration that was kept, in every
  order of calls, exactly when none was kept or no handle of that callback was used twice
  (`AbortSignal.KeptRunIff`; `HandleUsedTwice` is a concrete order that silences one).

## Model

| member | source | states |
|---|---|---|
| Theorems.NoStrandedRun | apps/api/src/services/durable_queue.py:317-351 | in every reachable state a run that is not terminal has a queued or running job, or a waiting step with a wake time or a pending snapshot; it waits exactly when no job is active |
| Theorems.CanAlwaysEnd | apps/api/src/services/worker_leases.py:121-255 | from every reachable state the run can end within 2 * maxRecoveries + 3 claims, recoveries, timers and rejections, though every worker crashes and nobody cancels |
| Theorems.DispatchFindsWork | apps/api/src/services/graph_interpreter.py:137-161 | a live, undispatched claim never meets the early exits of checkpoint preparation |
| Theorems.ReachableOk | apps/api/src/services/workflow_transactions.py:32-91 | every state reached by any interleaving of the eleven transactions satisfies the inductive invariant |
| Fencing.StaleClaimChangesNothing | apps/api/src/services/durable_queue.py:169-190 | a claim whose token the job does not carry dispatches, commits, renews and recovers nothing |
| Fencing.LateOwnerChangesNothing | apps/api/src/services/durable_queue.py:169-190 | once the lease of an issued claim has run out, its holder can never dispatch, commit or renew again, after any further trace and whether or not anybody recovers the job |
| Fencing.FencedForever | apps/api/src/services/worker_leases.py:121-255 | once a claim is superseded, nothing its holder does has effect at any later time |
| Fencing.RecoverySupersedes | apps/api/src/services/worker_leases.py:220-236 | recovery of an expired lease replaces the token or settles the job |
| Fencing.TokensAreUnique | apps/api/src/services/durable_queue.py:130-146 | no token is ever carried by two jobs |
| Fencing.SettledJobIsFrozen | apps/api/alembic/versions/f081_parallel_jobs.py:34-44 | a job leaves queued/running at most once: its row never changes again |
| Fencing.CommitNeedsOwnership | apps/api/src/services/durable_queue.py:317-351 | a commit that has any effect was made by the live owner of the dispatched job and settles it |
| Fencing.TerminalForever | apps/api/src/models/workflow_execution.py:193-198 | once a run is terminal no transaction changes any of its records |
| Fencing.CancelIsFinal | apps/api/src/services/execution_cancellation.py:22-108 | cancelling makes every step, attempt, job and snapshot terminal for good, open ones cancelled, settled ones as they were |
| Fencing.SequencesAreLinear | apps/api/src/models/durable_job.py:32-52 | jobs carry 0..n without gap, at most one is active and it is the last, and all enqueue sites agree on the next number |
| Fencing.ClaimsAreBounded | apps/api/src/services/worker_leases.py:159-163 | a job is claimed at most recoveries + 1 times, and recovered at most the configured number of times |
| Fencing.TriggerNeverRejects | apps/api/alembic/versions/f081_parallel_jobs.py:28-57 | every job update of every reachable transaction satisfies the trigger's predicate over the old and new row |
| History.StepMoves | apps/api/src/models/workflow_execution.py:146-198 | every transaction keeps row identities, freezes terminal rows and resolved snapshots, only adds queued jobs, and changes the lease of a claim only while it is live |
| Guards.AnyWriter | apps/api/src/models/durable_job.py:32-52 | whatever anybody writes through the guards, in any order, from an accepted start on: sequences are distinct, no two active jobs share a lane, attempts are numbered 1..k within the pinned limit, terminal steps have only terminal attempts and terminal runs only terminal steps |
| Guards.GuardsKeepOrder | apps/api/src/services/workflow_state.py:152-216 | the same from any orderly state on, and no writer changes what identifies a row, a settled job, step or attempt, or any record of a finished run |
| Guards.TakenWithinRecoveries | apps/api/alembic/versions/f081_parallel_jobs.py:28-57 | under any writes the trigger accepts a job is taken, and given a token, at most once more often than it is recovered |
| Guards.ClaimsEndByExpiry | apps/api/alembic/versions/f081_parallel_jobs.py:28-57 | under any writes the trigger accepts, a worker's token and its marks on a job stay until a write at which the lease has run out and the job is recovered |
| Approvals.OnePendingSnapshot | apps/api/src/models/execution_approval.py:35-46 | a step waiting for approval has exactly one pending snapshot, and it is the newest |
| Approvals.ChainIsLinear | apps/api/src/services/approval_runtime.py:69-95 | snapshots of a step stand together in revision order, share their expiry, and all but the last gave way |
| Approvals.RevisionsCountUp | apps/api/src/services/approval_runtime.py:69-95 | revisions of a step are exactly 1, 2, ..., n with one shared expiry |
| Approvals.LinksGoForward | apps/api/src/services/approval_runtime.py:284-312 | a replacement link exists exactly on superseded snapshots and leads to the next revision of the same step |
| Approvals.ResolvedIsFrozen | apps/api/src/models/execution_approval.py:70-105 | no snapshot changes what it shows, and a resolved one never changes at all |
| Approvals.OneDecisionTakesEffect | apps/api/src/services/approval_runtime.py:238-242 | after a decision took effect every later request on that snapshot, an exact replay included, changes nothing |
| Approvals.DecisionsAreInformed | apps/api/src/services/approval_runtime.py:249-254 | every decision named the hash of what was shown and was made before the expiry and the run deadline |
| Approvals.OutputIsWhatWasApproved | apps/api/src/services/approval_runtime.py:313-334 | a completed gate was settled by exactly one decision; its output is the approved payload, whose hash the request named together with the review, the revision and the step's input |
| Ledger.NumberIsCount | apps/api/src/services/execution_records.py:91-98 | an attempt's number is how many attempts its step has had |
| Ledger.AttemptLedger | apps/api/src/services/execution_records.py:68-125 | attempts of a step are numbered 1..k with k within the pinned limit, carry the step's key, never outlast the run deadline, and only the last may be unfinished |
| Ledger.DoneStepHasNoLiveAttempt | apps/api/src/services/workflow_state.py:200-205 | a terminal step has only terminal attempts |
| Ledger.ReviewsAreBounded | apps/api/src/services/approval_runtime.py:276-283 | a gate's iteration never exceeds its review retries, so it has at most (retries + 1) times the attempt limit of attempts |
| Ledger.KeysAreUnique | apps/api/src/services/execution_records.py:42-44 | no two steps of a run share an idempotency key |
| Ledger.CompletionIsTotal | apps/api/src/services/workflow_state.py:206-215 | a run completes only when every node has a row and every row succeeded or was skipped |
| Deadlines.NothingStartsLate | apps/api/src/services/retry_runtime.py:120-146 | at or after the run deadline no transaction starts an attempt, resumes or completes the run: it can only fail or be cancelled |
| Deadlines.ResultsAreInTime | apps/api/src/services/graph_interpreter.py:388-393 | a running attempt never completes at or after its own deadline |
| Deadlines.RetriesAreNotEarly | apps/api/src/services/graph_interpreter.py:154-161 | a retry starts no earlier than its due time |
| Deadlines.DelaysAreNotEarly | apps/api/src/services/delay_runtime.py:60-124 | in every reachable state, whatever transaction comes next, a waiting delay completes only by its timer and never before its wake time |
| Retries.RetriesAreLicensed | apps/api/src/services/retry_runtime.py:61-87 | in every reachable state an attempt numbered above 1 follows the previous attempt of its step, which failed with a non-permanent error that the pinned policy lists, or because its worker was lost |
| Results.OutputIsAResult | apps/api/src/services/graph_interpreter.py:394-399 | every completed work step has the output of an attempt of its own that completed with exactly that result |
| Outcomes.AcceptedStart | apps/api/src/services/execution_starts.py:71-95 | an accepted start is a pending run without steps, attempts or snapshots, whose one job at sequence 0 is due at once |
| Outcomes.ClaimTakes | apps/api/src/services/durable_queue.py:65-166 | a claim takes a job exactly when it is queued and due, under a token no job has carried, with a lease of the pinned length, and changes nothing else |
| Outcomes.RenewalExtends | apps/api/src/services/worker_leases.py:34-54 | the lease is moved to the pinned time from now exactly while token and lease are live, and nothing else changes |
| Outcomes.RecoveryOutcome | apps/api/src/services/worker_leases.py:121-255 | a lapsed claim's job returns to the queue, unowned and counted, exactly when recoveries are left, the run deadline is ahead, and an open step has attempts left and would retry in time; then the step retries at that time and its attempt is given up; otherwise run, step and job fail with the code of what forbade it |
| Outcomes.NothingToRecover | apps/api/src/services/worker_leases.py:132-136 | without a lapsed lease under the claim's own token and sequence, recovery changes nothing |
| Outcomes.CommitOutcome | apps/api/src/services/durable_queue.py:317-351 | a commit acts exactly for the live owner, revision and work item of an executing job; a result is stored, or the step retries exactly when the error is listed and not permanent, attempts are left and the later of backoff and requested pause ends before the run deadline; otherwise step and run fail with the code of the reason |
| Outcomes.WatchdogOutcome | apps/api/src/services/execution_deadlines.py:27-93 | the watchdog ends an overdue run, fails an overdue attempt of a dispatched job as timed out, retrying it where the policy allows, and otherwise changes nothing |
| Outcomes.TimerOutcome | apps/api/src/services/delay_runtime.py:60-124 | a waiting delay completes with an empty object exactly at or after its wake time and before the run deadline, its run goes on with one job due now; at the deadline the run expires |
| Outcomes.DecisionOutcome | apps/api/src/services/approval_runtime.py:207-397 | the whole effect of a request on a snapshot: refused without the role or the digest shown, expired when late, shown anew when the input changed, else approved with its payload, rejected with the run, sent to the next round with payload and feedback, or replaced by the next revision |
| Outcomes.DecidersAreAuthorised | apps/api/src/services/approval_runtime.py:264-269 | a decided snapshot was decided by a request of that very user, whose role the gate admits, and a severe one was approved only with the right to override |
| Outcomes.AcceptedTakesEffect | apps/api/src/services/approval_runtime.py:207-397 | a request on a pending snapshot is answered as accepted exactly when it is recorded as its decision |
| Outcomes.ReviewScanOutcome | apps/api/src/services/approval_runtime.py:426-442 | the scan expires exactly the pending snapshots that are late, ending the wait as the gate says or the run at its deadline |
| Outcomes.CancelOutcome | apps/api/src/services/execution_cancellation.py:22-108 | every field after a cancellation: open jobs, steps, attempts and snapshots are cancelled with the run, the others stay, and a finished run stays as it is |
| DispatchOutcomes.DispatchOutcome | apps/api/src/services/graph_interpreter.py:124-278 | the whole effect of a dispatch: the live owner's undispatched job resumes a retrying step, begins a requested round, or skips nodes and starts the ready one, which then executes, waits for its timer, shows its payload or fails the run; or the route ends the run |
| DispatchOutcomes.CompletionStoresOutput | apps/api/src/services/graph_interpreter.py:192-194 | a run completes only by a dispatch whose route is finished with an output, and stores exactly that output |
| DispatchOutcomes.CompletedRunHasOutput | apps/api/src/services/graph_interpreter.py:192-194 | along every trace a completed run has the output of one of its dispatches, for good |
| Store.RunStore.constructor | apps/api/src/services/execution_starts.py:71-95 | an accepted start is a pending run with one queued job at sequence 0 |
| Store.RunStore.ClaimJobs | apps/api/src/services/durable_queue.py:65-166 | claims exactly the run's due job, under a fresh token that then owns it, keeps the invariant, and refuses an illegal capacity |
| Store.RunStore.SettleLocalCheckpoint | apps/api/src/services/durable_queue.py:197-236 | closes every active job unless one is dispatched, and then changes nothing |
| Store.RunStore.TerminateJobs | apps/api/src/services/durable_queue.py:239-277 | closes every queued or running job and no other |
| Store.RunStore.FinishJob | apps/api/src/services/durable_queue.py:280-314 | closes the job exactly when the claim owns it and the status is terminal |
| Store.RunStore.FailQueuedJob | apps/api/src/services/durable_queue.py:354-378 | fails the job exactly when it is still queued |
| Store.RunStore.CommitResult | apps/api/src/services/durable_queue.py:317-351 | does exactly what the specified commit does: settle step and attempt, finish the job, queue the next checkpoint, or nothing for a stale revision, claim or work item |
| Store.RunStore.CompleteWork | apps/api/src/services/graph_interpreter.py:332-425 | records the result, or the deadline error that overrides it, on exactly one step and attempt |
| Store.RunStore.FailAttempt | apps/api/src/services/retry_runtime.py:90-117 | keeps the failed attempt and makes its step retry, or fail with the run |
| Store.RunStore.ProcessClaim | apps/api/src/services/durable_queue.py:381-456 | does exactly the specified dispatch, and returns work that is bound to the dispatched job |
| Store.RunStore.PrepareNext | apps/api/src/services/graph_interpreter.py:124-278 | prepares exactly when the run is ready, and then leaves the rows the specified preparation leaves |
| Store.RunStore.AddAttempt | apps/api/src/services/execution_records.py:68-125 | adds an attempt numbered after the greatest so far, with the step's key and a deadline within the run's, exactly when the step is ready, has no unfinished attempt and has attempts left |
| Store.RunStore.ScheduleDelay | apps/api/src/services/delay_runtime.py:18-53 | registers the wake time and parks step and run, or refuses and changes nothing |
| Store.RunStore.WakeDelay | apps/api/src/services/delay_runtime.py:60-124 | does exactly the specified wake: expire, ignore, or complete the delay and queue the next checkpoint |
| Store.RunStore.RenewLease | apps/api/src/services/worker_leases.py:34-54 | extends the lease exactly while the token is current and live |
| Store.RunStore.RecoverClaim | apps/api/src/services/worker_leases.py:121-255 | does exactly the specified recovery: requeue within the budgets, or fail the run and all its rows |
| Store.RunStore.EnforceJobDeadline | apps/api/src/services/execution_deadlines.py:27-93 | does exactly the specified watchdog step, under an expired lease as well |
| Store.RunStore.ExpireExecution | apps/api/src/services/retry_runtime.py:120-146 | fails the run and every unfinished step and attempt and closes pending snapshots |
| Store.RunStore.CancelExecution | apps/api/src/services/execution_cancellation.py:22-108 | does exactly the specified cancellation |
| Store.RunStore.NewApproval | apps/api/src/services/approval_runtime.py:57-95 | shows a validated payload as the next revision, or refuses and changes nothing |
| Store.RunStore.RegisterApproval | apps/api/src/services/approval_runtime.py:98-128 | shows the payload, parks step and run, and consumes a pending review retry |
| Store.RunStore.Expired | apps/api/src/services/approval_runtime.py:190-204 | acts exactly when the run deadline or the snapshot's expiry has passed |
| Store.RunStore.DecideApproval | apps/api/src/services/approval_runtime.py:207-397 | does exactly the specified decision and answers it: not found, forbidden, conflict, invalid payload, accepted, or replayed, which changes nothing |
| Store.RunStore.ExpireApprovalWait | apps/api/src/services/approval_runtime.py:426-442 | does exactly the specified expiry of one due snapshot |
| Routing.NextNode | apps/api/src/services/graph_interpreter.py:96-121 | skips nodes in an order in which each has lost every route, then returns a ready node before which, in the graph's order, every node that is left had an open edge from the start, or finds all settled, or reports that every remaining node has an open edge |
| Routing.NeverStalls | apps/api/src/services/graph_interpreter.py:117-120 | on a graph without cycles a call on decisions that cover the finished nodes never reports the stall |
| RoutedRuns.RunsNeverStall | apps/api/src/services/graph_interpreter.py:168-194 | over every trace of a run, from the empty checkpoint on, no dispatch that routes a graph without cycles ends in the routing error |
| Routing.RoutingIsAPlan | apps/api/src/services/graph_interpreter.py:181-194 | what routing settles is a plan as the runtime model assumes it |
| BranchPaths.LabelBranches | apps/api/src/services/parallel_graph.py:4-29 | terminates on every graph; succeeds exactly when every visit the graph calls for fits and no node is called for under two labels, and then holds exactly those labels; an error names a fault the graph has |
| BranchPaths.Walk.Visit | apps/api/src/services/parallel_graph.py:9-26 | one visit labels a closed part of the graph or finds a fault; it leaves earlier labels alone |
| BranchPaths.RenderIsInjective | apps/api/src/schemas/workflow_graph.py:20 | a label decodes in one way, since identifiers hold no separator |
| BranchPaths.SuccessorsStayInBranch | apps/api/src/services/parallel_graph.py:24-26 | a successor has its predecessor's label or is the join of the innermost fork |
| BranchPaths.ForkOpensRegions | apps/api/src/services/parallel_graph.py:20-23 | each branch opens its own region and the join takes the fork's label unless it is the enclosing region's join |
| BranchPaths.BranchesShareNoNode | apps/api/src/services/parallel_graph.py:14-17 | two branches of one fork share no node, nested regions included |
| BranchPaths.ReachableIsLabelled | apps/api/src/services/parallel_graph.py:4-29 | every node reachable from the entry has a label |
| Reconcile.Reconcile | apps/api/src/benchmarks/evidence.py:187-282 | reports exactly the checks that fail on the rows, passes exactly when all hold, and raises exactly on unknown kinds and malformed inputs |
| Reconcile.PassingReport | apps/api/src/benchmarks/evidence.py:187-282 | a passing report means, row by row: every accepted run has its one completed run with pinned version and input, the expected number of completed jobs, one attempt per completed step and no other, one effect per sink run and nothing else in the sink, and receipts exactly when start keys are distinct |
| Accounts.PassesIffAccounted | apps/api/src/benchmarks/evidence.py:187-282 | the checks all hold if and only if the rows account for every accepted run: one completed run each with pinned version, input and output, a receipt by start key, the jobs of its kind, one attempt per completed step, one applied effect per sink run, the branch its value calls for, and nothing else |
| Reconcile.RunsMatchOneToOne | apps/api/src/benchmarks/evidence.py:198-210 | accepted runs and run rows are in bijection and all completed |
| Reconcile.JobTotal | apps/api/src/benchmarks/evidence.py:211-221 | there are exactly 3, 4 and 3 jobs per condition, parallel and sink run |
| Reconcile.AttemptsMatchOneToOne | apps/api/src/benchmarks/evidence.py:222-230 | attempts and completed steps are in bijection |
| Reconcile.EffectsMatchOneToOne | apps/api/src/benchmarks/evidence.py:231-245 | each sink run has exactly one effect, booked through its own step, and the sink holds the intended body under its key |
| Reconcile.NoForeignEffect | apps/api/src/benchmarks/evidence.py:231-245 | every effect belongs to an accepted sink run and the sink holds nothing else |
| Reconcile.ReceiptsCoverDistinctKeys | apps/api/src/benchmarks/evidence.py:204-208 | a passing receipt check covers every accepted run exactly when start keys are distinct |
| Reconcile.SharedStartKeyPasses | apps/api/src/benchmarks/evidence.py:204-208 | complete rows of two accepted runs with one start key: the whole report passes and the first run has no receipt |
| NextFire.NextFire | apps/api/src/services/cron_schedule.py:27-45 | fires exactly when a match that exists and is not over is within the search, and then at the one instant that is the first of the first such match |
| NextFire.SearchIsLongEnough | apps/api/src/services/cron_schedule.py:34-42 | a whole-minute schedule fires whenever one of its times within 2000 minutes exists and is not over, however the clock jumps before or after |
| NextFire.FiresUnlessInGap | apps/api/src/services/cron_schedule.py:34-42 | with a gap and a repeated stretch every year, any match outside the gap and more than one jump ahead is found |
| NextFire.EveryMinuteFires | apps/api/src/services/cron_schedule.py:34-42 | with a jump of up to a whole day every year, a schedule of every minute always fires within the jump and two minutes |
| NextFire.SummerIsZone | apps/api/src/services/cron_schedule.py:36-42 | a clock with summer time is a zone and never returns to a civil time it jumped over, so it passes over nothing |
| NextFire.FiringsIncrease | apps/api/src/services/cron_schedule.py:36-42 | iterated firings are strictly later in instant and civil time, exist, and are first occurrences, so gaps never fire and repeated hours fire once |
| NextFire.NothingSkipped | apps/api/src/services/cron_schedule.py:36-42 | in a zone that never returns to a civil time it jumped over, no matching time is passed over |
| NextFire.SkipsNothingIff | apps/api/src/services/cron_schedule.py:36-42 | nothing is ever passed over exactly in such zones |
| NextFire.ReturningSkips | apps/api/src/services/cron_schedule.py:36-42 | a zone that returns to a skipped time makes a schedule miss a firing |
| Projection.ReadModel.Sync | apps/api/src/services/business_projection.py:28-179 | brings every projected row up to date by id, keeps first-seen names and order, and adds cost events only for ended, priced attempts without one |
| ReadRows.RowsShowExecution | apps/api/src/services/business_projection.py:28-179 | after a synchronisation the run, every step that calls a model, every approval, every new event and every new bill show the execution: each usage under its own name, summed over the attempts that have it, unknown without one |
| ReadRows.ShownInOrder | apps/api/src/services/business_projection.py:42-53 | the steps that call a model are numbered in the order of the execution |
| Projection.SyncIsIdempotent | apps/api/src/services/business_projection.py:28-179 | a second synchronisation with an unchanged execution changes nothing |
| Projection.RunTotalsAreStepTotals | apps/api/src/services/business_projection.py:82-143 | run token and latency totals are the sums over projected steps, unknown exactly when all are |
| Projection.CostEventsAreExact | apps/api/src/services/business_projection.py:88-112 | after every synchronisation of a history there is one cost event per ended, priced attempt, with its amounts, exactly when billed attempts stay billed the same |
| Projection.ExactIffKept | apps/api/src/services/business_projection.py:88-97 | one synchronisation leaves the events exact exactly when every attempt billed before is still billed with the same amounts |
| Projection.StaleEvent | apps/api/src/services/business_projection.py:88-97 | when the usage of an ended attempt changes from one dollar to two, the run shows two and the events add up to one |
| Projection.CostIsConserved | apps/api/src/services/business_projection.py:182-185 | once all attempts have ended the run cost equals the step costs and, in every history in which bills stay, the sum of the whole table of cost events; it is unknown exactly when usage is missing or unpriced |
| ScoreMeaning.CapturedIsCaught | apps/api/src/services/evaluation_metrics.py:111-121 | an item is captured exactly when its normalised text stands in the report, or three of its distinct words of substance are words of the report, or all of them if it has fewer |
| ScoreMeaning.TwoWordsAreNotEnough | apps/api/src/services/evaluation_metrics.py:111-121 | a report that does not contain an item of three words of substance or more and shares at most two of them does not capture it |
| ScoreMeaning.AccuracyIsShareCaught | apps/api/src/services/evaluation_metrics.py:33-61 | accuracy and completeness are the rounded shares of the expected facts and of all expected items that the report captures in that sense; a missing report scores as an empty one |
| ScoreMeaning.ExpectedAre | apps/api/src/services/evaluation_metrics.py:184-197 | what is expected: facts, risks and recommendations as they stand, themes with blanks for underscores, and the parts of the timeline that are not blank |
| ScoreMeaning.SupportedIsBacked | apps/api/src/services/evaluation_metrics.py:132-147 | a claim is supported exactly when it has no word of substance, or its numbers are all expected and some item stands in it or shares two words of substance with it |
| ScoreMeaning.OneWordIsNotEnough | apps/api/src/services/evaluation_metrics.py:132-147 | a claim of substance that contains no item and shares fewer than two words of substance with each is unsupported |
| ScoreMeaning.RateIsShareUnbacked | apps/api/src/services/evaluation_metrics.py:124-129 | the unsupported rate is the rounded share of the claims that are not supported in that sense |
| ScoreMeaning.ClaimsEnd | apps/api/src/services/evaluation_metrics.py:150-156 | a line break, a semicolon and a point that no digit touches end a claim |
| ScoreMeaning.OneClaim | apps/api/src/services/evaluation_metrics.py:150-173 | a text without a separator is one claim, trimmed, or none when it is a heading |
| Scoring.AppendingNeverLowers | apps/api/src/services/evaluation_metrics.py:106-121 | appending a line never lowers accuracy or completeness |
| Scoring.ExpectingMoreNeverRaises | apps/api/src/services/evaluation_metrics.py:124-147 | expecting more items never raises the unsupported-claim rate |
| Scoring.ScoresAreProportions | apps/api/src/services/evaluation_metrics.py:33-61 | all three scores lie between 0 and 1 |
| Scoring.JoinedRateIsBetween | apps/api/src/services/evaluation_metrics.py:150-173 | the unsupported rate of two reports put together lies between theirs |
| Scoring.VerbatimReportScoresFull | apps/api/src/services/evaluation_metrics.py:33-61 | a report that states every expected fact on its own line has accuracy 1, and one that states every expected item has completeness 1 |
| Scoring.ListingScoresFull | apps/api/src/services/evaluation_metrics.py:33-61 | the report that lists exactly the expected items, one below the other, has accuracy and completeness 1 |
| Scoring.UnexpectedNumberIsUnsupported | apps/api/src/services/evaluation_metrics.py:132-140 | a claim of substance with a number that no expected item states is never supported |
| Scoring.TokensConcat | apps/api/src/services/evaluation_metrics.py:204-205 | tokens of two lines are those of the first, then those of the second |
| Scoring.NormalizedWords | apps/api/src/services/evaluation_metrics.py:176-181 | splitting a normalised text gives back its tokens |
| Scoring.NumbersConcat | apps/api/src/services/evaluation_metrics.py:200-201 | numbers never run across a blank |
| Scoring.ClaimsConcat | apps/api/src/services/evaluation_metrics.py:150-156 | claims of two lines are those of the first, then those of the second |
| RateLimiter.Limiter.Enforce | apps/api/src/security.py:83-98 | a call is refused exactly when `limit` accepted calls of its key lie in the closed minute that ends now |
| RateLimiter.NeverOverLimit | apps/api/src/security.py:83-98 | at any moment no closed minute, wherever it starts, holds more than `limit` accepted calls; the memory is sorted and no longer than `limit` |
| RateLimiter.WindowHoldsAtMostLimit | apps/api/src/security.py:92-98 | spread calls never exceed the limit in any closed minute |
| RateLimiter.KeysAreSeparate | apps/api/src/security.py:88-90 | calls share a limit exactly when host and path agree, all webhooks being one path |
| AbortSignal.RegistrationsAreConserved | apps/api/src/services/execution_control.py:14-44 | under every interleaving each registration is listed, about to run, run or removed, counted per callback, and nothing runs before an abort |
| AbortSignal.EachRunsAtMostOnce | apps/api/src/services/execution_control.py:14-44 | with distinct callbacks each registration runs at most once, and after an abort, once quiet, exactly once unless removed before |
| AbortSignal.AbortIsFinal | apps/api/src/services/execution_control.py:37-44 | after an abort nothing is removed any more |
| AbortSignal.KeptRunIff | apps/api/src/services/execution_control.py:14-44 | given registrations and uses of their handles, every order of calls runs a callback at least once for each kept registration exactly when none was kept or no handle of that callback was used twice |
| AbortSignal.UnregisteredOnceIsEnough | apps/api/src/services/execution_control.py:22-25 | if no handle of a callback is used twice, it runs at least once for every registration of it that was kept |
| AbortSignal.HandleUsedTwice | apps/api/src/services/execution_control.py:22-25 | a handle used twice silences another registration of the same callback |
| WorkerLoop.RunWorker | apps/api/src/worker.py:26-79 | refuses illegal settings, otherwise leaves the state that the turns of the schedule lead to, and returns exactly when they end |
| WorkerLoop.WorkerIsSteady | apps/api/src/worker.py:40-78 | outstanding work stays within capacity, dispatched within the limit and equal to active plus collected, and nothing is left running on return |
| WorkerLoop.ClaimsAreLegal | apps/api/src/worker.py:54-75 | a turn that saw the stop flag claims nothing, and every claim request is for 1 to 32 jobs |
| WorkerLoop.TurnOutcome | apps/api/src/worker.py:40-78 | a turn collects what is done, takes as many due jobs as places and limit allow unless it is closing, and returns exactly when no work is left and it is closing, or it is to drain and the queue holds nothing |
| WorkerLoop.StaysUp | apps/api/src/worker.py:54-78 | a worker that is neither stopped, nor limited, nor to drain, never returns |
| WorkerLoop.StopDrains | apps/api/src/worker.py:54-58 | once the stop flag is set nothing more is dispatched, each outstanding future leaves when a turn finds it done, and the worker returns in the turn in which the last one has left |

## Left out

- Parallel mode of the runtime: sibling jobs, branch targets and scheduling; the runtime model is one linear run, so the theorems about it are about linear runs.
- Quality revisions, linked recovery, tool and LLM execution, webhooks and schedules: their callees change further tables.
- Store.RunStore.ClaimJobs: `claim_jobs` takes due jobs of all runs in order of due time; the model claims for one run, which has one due job, so neither the order nor the batch over runs is modelled.
- The local deterministic runner (`advance_checkpoint` and `run_deterministic_execution`, apps/api/src/services/graph_interpreter.py:428-455), which prepares and completes checkpoints without a queue job: no event of the model does so. It is why a timer waits while a job is active and why `settle_local_checkpoint` refuses a dispatched job; the model has both guards and never meets them.
- SQL null logic of the trigger: a running job always has a lease (a check constraint), so the comparison with a null lease does not arise.
- Descriptive fields: worker identity, heartbeat and claim times, error messages and classifications, audit rows and execution events.
- The output that an attempt of a waiting step stores (an empty object, or the snapshot's id and hash) is not modelled; nothing reads it.
- A step that retries and a requested review retry never coexist (part of the invariant); the model looks for the retrying step first, the code for the review retry.
- The backoff formula of a retry (exponential growth, cap and jitter) is a parameter of the event; only that it is a delay of zero or more is used.
- The routes that decided edges take: `RoutedRuns` tracks which edges are decided; which ones a condition selects is free.
- Writes of approval snapshots by any writer: `Guards` covers runs, steps, attempts and jobs; that resolved snapshots are frozen is a result about the services (`Approvals.ResolvedIsFrozen`).
- RateLimiter.Limiter.Enforce: calls are assumed not to interleave; the code takes no lock between the length check and the append, so calls that run at once may together exceed the limit.
- Store.RunStore.DecideApproval: the HTTP codes of refusals are modelled, their texts are not; identity and permission lookups are the `Reviewer` parameter.
- Store.RunStore.ProcessClaim: lease maintenance and execution between dispatch and commit are outside the transactions; `RenewLease` is the renewal, and a result or error is a parameter of the commit.
- NextFire.NextFire: croniter and the time-zone database are parameters; validation of the cron text and of the zone name is not modelled.
- Scoring.AppendingNeverLowers: scores are exact rationals and rounding is any monotone function; binary floating point is not modelled.
- Projection.CostIsConserved: amounts are reals; quality scores, prompt versions and the evaluation side effect of a synchronisation are not modelled.
- WorkerLoop.RunWorker: the periodic calls between collecting and claiming are separate transactions with their own models or none, and waiting is not timed.
- `percentiles`, `latencies` and `summarize_evaluation_results`: straightforward arithmetic over lists.
