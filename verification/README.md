# A model of the lease-based task orchestrator

The repository keeps runs, tasks, attempts, leases, completion tokens and an append-only event log in a store
that any number of workers share. A worker claims a task under a lease, keeps the lease alive with heartbeats,
and writes one outcome; a sweep takes back the leases that ran out. Each public method of the store is one
atomic step. This project models those steps, proves what they keep, and proves that both implementations of
the store, over maps and over SQL tables, take them.

## How it is built

- `Records`, `StateMachine`, `Writes`: the rows, the transition table and the derived run status, and the
  writes a transaction consists of (rows, event, recomputed run status).
- `Invariant`, `Preservation`: one invariant that links tasks, leases, attempts, tokens, run status and log,
  and the proof that every write keeps it.
- `Transactions`: each public method as a plan, that is an error or a list of writes. What a caller cannot
  determine (fresh ids, the order of rows, ties between equally ranked tasks) is a parameter of the operation
  and restricted by `ChoiceOk`. `Next` is one atomic step and `Behaviour` a run of the system from the empty
  store, by any callers in any interleaving.
- `Effects`, `Sweeping`, `Claiming`, `Tokens`, `Pruning`, `Outcomes`: what each call answers and writes, stated by
  columns and independently of the functions the calls are made of.
- `EventLog`, `Lifecycle`, `Guarantees`, `Budget`, `Ledger`, `Tally`, `Backoff`, `Liveness`, `Paging`: the results
  about behaviours.
- `Worker`: processes that go round the worker loop, interleaved with crashes, time-outs, heartbeats of
  abandoned handlers and all other callers. Handlers and observers are shown the lease of their worker and may
  write under it themselves, at any time.
- `Refinement`, `Sorting`, `MemoryStore`, `SqliteStore`: the two stores as classes whose methods update maps,
  or tables, step by step and in loops, each proved to take the abstract step and to leave the state alone when
  it throws. `Abs()` is the abstract state of a store and `Valid()` its invariant, in the memory store together
  with the index from claim tokens to leases.
- `Choices`: the choices left to the store can always be made, so every request is served.
- `Reuse`: exactly when the memory store may overwrite a row whose id is used again, for the invariant alone and
  for the attempt ledger and the replay with it.
- `Terminal`: exactly when a step takes a run out of completed, failed or cancelled.
- `Divergences`, `Witnesses`: where code and documentation disagree, what the code does, exactly when the
  documented behaviour can be relied on, and behaviours from the empty store in which it fails.

Ids are natural numbers, times integers in milliseconds. A lease or attempt id drawn at random is a parameter
that was never drawn before. The sort and filter of the language, and the query engine of SQL, are written out
as functions and loops with the result the source relies on.

## Where code and documentation disagree

The model follows the code.

- `releaseTask` is said to requeue without consuming an attempt (README.md:122). The attempt is counted at the
  claim and never given back, so a released task can have no budget left and be out of reach for good:
  `Divergences.ReleasedClaimable`. The advice to pause a task for human input and resume it
  (docs/failure-modes.md:38) runs into the same trap on the last attempt: `Divergences.ResumedClaimable`.
- A handler that exceeds its time limit is said to be retried (README.md:144). The worker fails the task, which
  is final, unless the lease had already run out: `Worker.TimeoutIsTerminal`, `Worker.TimeoutRetried`.
- `failed` is said to be a status that nothing leaves (docs/lifecycle.md:39). A dead task is requeued without the
  transition table, even into a cancelled run, where it stays queued: `Divergences.RequeuedClaimable`.
- Completed, failed and cancelled runs are called terminal (src/types.ts:11-12), and writes to them are said to be
  refused (docs/failure-modes.md:18). Only `enqueueTask` refuses. `cancelRun` turns completed and failed runs into
  cancelled ones, and `requeueDeadTask` on a dead task of a failed run makes it active again
  (src/sqlite-store.ts:1300-1338). There is no third way: `Terminal.TerminalStep`, and over behaviours
  `Terminal.TerminalForLife` and `Terminal.CompletedForLife`. Both happen: `Witnesses.CompletedThenCancelled`,
  `Witnesses.ReopenedRun`.
- The holder of a cancelled task is said to get an InvalidTransitionError (docs/failure-modes.md:39). It gets a
  LeaseConflictError: `Divergences.CancelledHolderGetsConflict`.
- `not_before` is said to be set by `releaseTask` or by an expiry when a retry policy is configured
  (docs/lifecycle.md:44). `releaseTask` never sets it (`Divergences.ReleasedIsReady`), and `requeueDeadTask` does,
  when its caller asks for one. `Divergences.NotBeforeSet` says exactly which steps set it.
- The documented event types `task.paused` and `task.heartbeat` (docs/lifecycle.md:73-75) are
  `task.blocked`, `task.waiting_input` and `task.lease_heartbeat` in the code.
- A cancelled run is said to keep its status only until its running tasks are done (docs/lifecycle.md:62-64).
  `cancelRun` cancels those tasks itself, and the run stays cancelled: `Guarantees.CancelledForLife`.

## Where the two stores differ

- A dependency list with a repeated id is accepted by the memory store and refused by SQL:
  `Refinement.EnqueueAgreement` says exactly when they agree.
- A reused run or task id is refused by the primary key in SQL and overwrites the row in the memory store:
  `Reuse.RunReused` and `Reuse.TaskReused` say exactly when the invariant, the attempt ledger and the replay
  survive that, and for a run also the promise that a cancelled one stays cancelled. For the invariant alone less
  is needed: `Reuse.CreatedKeepsInv`, `Reuse.EnqueuedKeepsInv`.
- A negative prune limit means no limit in SQL and drops rows from the end in the memory store:
  `Refinement.PruneLimitsAgree`.

## Model

| member | source | states |
|---|---|---|
| StateMachine.DeriveByPresence | src/state-machine.ts:24-44 | the derived run status depends only on which task statuses occur, not on their order or number |
| StateMachine.LastReturnUnreachable | src/state-machine.ts:43 | the last `return` is never reached: whatever it returned, the result would be the same |
| StateMachine.DerivePermutationInvariant | src/state-machine.ts:24-44 | reordering the task statuses does not change the derived status |
| StateMachine.DeriveIdempotent | src/state-machine.ts:24-44 | deriving again from the derived status changes nothing |
| StateMachine.DeriveIsTable | docs/lifecycle.md:53-60 | for a run that was not cancelled and has no cancelled task the result is the documented table, and never `cancelled` |
| StateMachine.DeriveDeclared | docs/lifecycle.md:53-60 | each derived status iff the documented condition on the task statuses holds, cancelled tasks included |
| StateMachine.TableDeclared | docs/lifecycle.md:12-35 | the transition table has exactly the arrows of the documented diagram |
| Lifecycle.DoFollowsTable | src/state-machine.ts:18-22 | whatever a write does to a task's status the table allows; only a dead task is requeued past it |
| Invariant.RecomputeStatus | src/sqlite-store.ts:1468-1496 | recomputing never takes a run into or out of cancellation, and otherwise yields the documented table |
| Invariant.RecomputeInv | src/sqlite-store.ts:1468-1496 | recomputing one run restores the agreement of its status with its tasks and breaks no other run's |
| Preservation.RawCore | src/sqlite-store.ts:303-1064 | the row updates of every write keep the lease bijection, budgets, dependency order, one outcome per task and the uniqueness of tokens, keys and event ids |
| Preservation.DoInv | src/sqlite-store.ts:303-1064 | every write, with its event and the recomputed run status, keeps the whole invariant |
| Preservation.DoAllInv | src/sqlite-store.ts:303-1064 | so does every transaction |
| Transactions.PlanEnabled | src/sqlite-store.ts:303-1338 | whenever a public method does not throw, all of its writes find the rows they update; none can fail half way |
| Transactions.SweepEffect | src/sqlite-store.ts:974-1064 | a sweep can be carried out in any order and does to each lapsed task, its lease and its attempt exactly what expiring that task alone does, and nothing to the others |
| Transactions.DependencyRowsCount | src/sqlite-store.ts:373-381 | comparing the number of dependency rows with the length of the list accepts it exactly when it has no duplicates and every task in it belongs to the run |
| Transactions.CheckedLease | src/sqlite-store.ts:1531-1549 | a call that passes `assertActiveLease` holds the very lease on the task's row, and that lease is not lapsed |
| Transactions.PurgesEnabled | src/sqlite-store.ts:1239-1249 | the chosen runs can be deleted one after the other, and exactly they are gone |
| Transactions.NextInv | src/sqlite-store.ts:303-1338 | every atomic step, by any caller, keeps the invariant |
| Effects.LeaseCallReply | src/sqlite-store.ts:1498-1549 | what each call under a lease answers in every reachable state, error by error: retried, reused or contradicted token, no task, not the holder, run out, marked already, or done; no other error is ever met |
| Effects.OtherReply | src/sqlite-store.ts:925-936 | when creating, resuming, requeueing and cancelling are refused and with which error; claims, sweeps and prunes never are |
| Effects.EnqueueReply | src/sqlite-store.ts:349-381 | when a task is refused and with which error: no run, run over, key taken, itself a dependency, a dependency listed twice or not in the run, id in use |
| Effects.CreateRunEffect | src/sqlite-store.ts:303-326 | the new run is pending, stamped and told by one event |
| Effects.EnqueueEffect | src/sqlite-store.ts:384-429 | the new row has the kind, priority, limit, retry policy, key and dependencies given, is queued and untouched, and its run is active, stamped and told |
| Effects.ResumeEffect | src/sqlite-store.ts:673-692 | a paused task is queued, with its other columns as they were |
| Effects.RequeueEffect | src/sqlite-store.ts:1300-1338 | a dead task is queued, alive, without error, with the not-before asked for and its count reset if asked for |
| Effects.HeartbeatEffect | src/sqlite-store.ts:566-600 | a heartbeat moves the expiry of task, lease and attempt to now + leaseMs and changes nothing else |
| Effects.MarkEffect | src/sqlite-store.ts:602-628 | a leased task and its attempt are running |
| Effects.CompleteEffect | src/sqlite-store.ts:694-772 | the task is completed and let go, its lease released, its attempt completed, the token recorded with the outcome |
| Effects.FailEffect | src/sqlite-store.ts:774-839 | the same for failing, with the caller's error |
| Effects.PauseEffect | src/sqlite-store.ts:630-671 | the task waits for input or is blocked, as asked, and is let go; lease and attempt are released |
| Effects.ReleaseEffect | src/sqlite-store.ts:841-877 | the task is queued and let go, with its attempt still counted; lease and attempt are released |
| Effects.CancelRunEffect | src/sqlite-store.ts:925-972 | exactly the queued, held and paused tasks of the run become cancelled and are let go, with their live attempts and active leases; all other rows are as before |
| Transactions.ReachableInv | src/sqlite-store.ts:303-1338 | the invariant holds in every state of every behaviour |
| Choices.RequestServed | src/sqlite-store.ts:303-1338 | in every reachable state every request is served: a sweep order, a best pick, fresh ids and a prune choice exist, and with them the operation throws and changes nothing or performs all its writes |
| Choices.ChoiceExists | src/sqlite-store.ts:449-479 | the choices that an operation leaves to the store can always be made |
| EventLog.RawFaithful | src/sqlite-store.ts:303-1064 | the events of every write, read back, give exactly the new columns of the rows of its run |
| EventLog.DeadLetterFaithful | src/sqlite-store.ts:1005-1032 | the two events of a dead-lettered task together rebuild its row |
| EventLog.DoReplayed | src/sqlite-store.ts:303-1064 | after every write the log of each run still rebuilds that run |
| EventLog.ReachableReplayed | src/sqlite-store.ts:303-1064 | in every reachable state, folding a run's events rebuilds each task's status, lease id, holder, expiry, attempt count, not-before, error and dead flag, and the run's status |
| EventLog.ReplayRunEvents | src/sqlite-store.ts:1094-1102 | the run's own events suffice: events of other runs do not matter |
| EventLog.ReplayDropRun | src/sqlite-store.ts:1247 | deleting another run's events does not change what a run's log rebuilds |
| Lifecycle.DoOnward | src/sqlite-store.ts:303-1064 | no write that keeps a run touches its finished tasks, ended attempts, ended leases or recorded tokens, or revives a cancelled run |
| Lifecycle.KeptOnward | src/sqlite-store.ts:303-1338 | the same over any stretch of a behaviour in which the run is not pruned |
| Lifecycle.SpentForever | src/sqlite-store.ts:1531-1549 | a lease id that has stopped being active never becomes active again, even after pruning |
| Lifecycle.PlanSpares | src/sqlite-store.ts:1214-1263 | only a prune removes a run, and only the runs it chose |
| Guarantees.LeaseBijection | docs/lifecycle.md:41-43 | in every reachable state a task is leased or running iff its lease columns are set, iff there is exactly one active lease and exactly one live attempt for it, in the task's own status; worker, run and expiry agree in all three records |
| Guarantees.ClaimUpdatesOneRow | src/sqlite-store.ts:485-507 | the conditional update of a claim always hits its row: the branch for zero rows is dead |
| Guarantees.DependencySafety | src/sqlite-store.ts:460-466 | a task that ever had an attempt has all its dependencies completed in every later state, until pruned |
| Guarantees.FinalForLife | src/state-machine.ts:10-12 | a completed, cancelled or worker-failed task never changes again in any column, until pruned |
| Guarantees.CancelledForLife | src/sqlite-store.ts:925-972 | a cancelled run stays cancelled and none of its tasks is ever leased or running again |
| Guarantees.CompletionTokenForLife | src/sqlite-store.ts:1498-1529 | a recorded completion token names a task in the recorded status for as long as the run is kept: retrying the call is a no-op, the other outcome or another task is an error |
| Tokens.CompletionTokenStands | src/sqlite-store.ts:694-839 | from the call on: after completing or failing with a token went through, the token stands for that outcome of that task, the same call again is a no-op, the other outcome a mismatch and another task a reuse |
| Tokens.ClaimTokenStands | src/sqlite-store.ts:434-447 | from the call on: after a claim with a new token took a task, the token stands for that one lease, and claiming again with it changes nothing |
| Guarantees.ClaimTokenForLife | src/sqlite-store.ts:440-447 | a used claim token stands for exactly one lease for as long as the run is kept, and a retried claim changes nothing |
| Guarantees.WritesUnderActive | src/sqlite-store.ts:1531-1549 | every write under a lease passed the lease check, so its lease was active |
| Guarantees.CommitSpends | src/sqlite-store.ts:630-877 | an outcome (completed, failed, paused, released) ends the lease it was written under |
| Guarantees.SpentRefused | src/sqlite-store.ts:1531-1549 | a lease that is over authorises no write in any later step |
| Guarantees.AtMostOneOutcomePerLease | src/sqlite-store.ts:694-877 | over any interleaving at most one outcome is written under a lease |
| Guarantees.AtMostOneDecidedAttempt | src/sqlite-store.ts:694-839 | each task gets at most one completed or failed attempt, and then the task is over |
| Guarantees.RunStatusDeclared | docs/lifecycle.md:53-60 | in every reachable state the status of a run that was not cancelled is characterised, in both directions, by the documented conditions on its tasks, and it has no cancelled task |
| Budget.RawPaid | src/sqlite-store.ts:434-1064 | every write other than a dead-letter requeue of the task changes its status in the log at most as often as the measure drops |
| Budget.BoundedChanges | src/sqlite-store.ts:434-1064 | status changes reported in the log plus the measure that is left never exceed the measure at the start, over any stretch without a dead-letter requeue |
| Budget.FreshPotential | src/sqlite-store.ts:384-413 | for a task just enqueued the measure is 4 * maxAttempts + 1 |
| Budget.BoundedTotal | src/sqlite-store.ts:434-1064 | summed over any set of tasks with attempt limits, status changes are bounded by the sum of their measures: without new work the system comes to rest |
| Ledger.RawAttemptRows | src/sqlite-store.ts:509-521 | a claim adds one attempt row to its task; no other write adds or removes any, except deleting the run |
| Ledger.ReachableLedger | src/sqlite-store.ts:485-521 | a task's attempt rows number its attempt count plus the previous counts of its resetting requeues |
| Ledger.AttemptsWithinBudget | src/sqlite-store.ts:1004-1032 | with a limit of at least 0 the count never exceeds it, with a negative one the task is never attempted, and a dead task is failed with the count equal to the limit |
| Tally.ReachableTallied | src/sqlite-store.ts:1436-1466 | in every reachable state a task's events, counted by type name, and its attempt rows, counted by status, agree: enqueued once, one claim per attempt, one ending told per ended attempt, dead as often as requeued or still dead |
| Ledger.AttemptedDeps | src/sqlite-store.ts:460-466 | in every reachable state a task that has been attempted has all its dependencies completed |
| Backoff.ReachableWaited | src/sqlite-store.ts:1034-1044 | in every reachable state under a clock that does not go back, a task whose attempts all ended by expiry is due no earlier than its first claim plus the delays of its retries |
| Backoff.ReclaimedNoEarlier | src/sqlite-store.ts:458 | such a task was last claimed no earlier than its first claim plus the delays of all its retries |
| Backoff.ExponentialTotal | src/sqlite-store.ts:154-166 | uncapped exponential delays add up to d * (2^k - 1) |
| Backoff.CappedTotal | src/sqlite-store.ts:162-164 | capped exponential delays add up to the sum of min(d * 2^i, cap) |
| Backoff.FixedTotal | src/sqlite-store.ts:158 | fixed delays add up to d * k |
| Backoff.ExponentialBackoff | src/sqlite-store.ts:154-166 | after k expired attempts with uncapped exponential retries the next claim comes at least d * (2^k - 1) after the first |
| Backoff.CappedBackoff | src/sqlite-store.ts:154-166 | with a cap the bound is the sum of the capped delays |
| Liveness.SweepExact | src/sqlite-store.ts:974-1064 | a sweep expires precisely the lapsed leases, changes no other task and leaves no lapsed lease behind |
| Sweeping.SweepRow | src/sqlite-store.ts:974-1044 | the new row of each task: a lapsed one with an attempt left is queued, due at now plus the fixed delay or delay * 2^(attempts - 1), at most the cap, or at once without a delay; a lapsed one without is failed and dead; others are as before |
| Sweeping.SweepHolds | src/sqlite-store.ts:992-1003 | exactly the active leases and live attempts of lapsed tasks become expired |
| Sweeping.SweepLog | src/sqlite-store.ts:1005-1055 | each lapsed task is told by one event, or two if it died, and exactly the runs with one are stamped |
| Sweeping.RetryDue | src/sqlite-store.ts:458 | a retried task can be claimed from its due time on, and not before, in every later state in which its row is unchanged and its run neither cancelled nor pruned |
| Liveness.SweepIdempotent | adapters/memory/src/store.ts:718-786 | a second sweep at the same time changes nothing at all |
| Liveness.SweepOrderIrrelevant | adapters/memory/src/store.ts:718-786 | the order of the sweep makes no difference to any task, lease, attempt or run status |
| Liveness.AcceptedOrSwept | src/sqlite-store.ts:1538 | at any time the holder of a task either passes the lease check or is swept, never both |
| Liveness.ClaimableAfterSweep | src/sqlite-store.ts:450 | the sweep inside a claim takes nothing away from what could be claimed |
| Liveness.ClaimOptimal | src/sqlite-store.ts:452-479 | a claim returns nothing only if nothing is eligible; otherwise an eligible task of maximal priority and, within it, minimal creation time |
| Claiming.ClaimExact | src/sqlite-store.ts:452-479 | by columns, over behaviours: a task that may be claimed has no higher priority than the one picked and, at the same priority, was not created earlier; nothing is picked only if none may be; and the one picked may be |
| Claiming.ClaimWrites | src/sqlite-store.ts:481-546 | a claim is a sweep and then the rows of the hand-over: task, attempt, and a lease that carries the claim token |
| Claiming.ClaimHolds | src/sqlite-store.ts:434-437 | undisturbed, the calls of the worker are let through until now + leaseMs and not after |
| Claiming.HeartbeatHolds | src/sqlite-store.ts:566-600 | a heartbeat gives the same from its own time on |
| Liveness.ClaimHandsOver | src/sqlite-store.ts:485-541 | the picked task is leased to the worker under the new lease until now + leaseMs, with one more attempt counted and its dependencies completed |
| Liveness.LiveHolderKeepsTask | src/sqlite-store.ts:566-600 | until its lease runs out a holder keeps its task, untouched, unless it writes itself or the run is cancelled or pruned |
| Liveness.FindReady | src/sqlite-store.ts:460-466 | going back through unfinished dependencies from a queued task ends in one that is ready |
| Liveness.NoDependencyDeadlock | src/sqlite-store.ts:449-479 | in every reachable state, a run that is not over, has tasks, none failed and every queued one with budget left, has a task that is held or paused, or a ready queued task past whose not-before every unfiltered claim returns a task |
| Liveness.ReadyIsClaimed | src/sqlite-store.ts:449-482 | an unfiltered claim returns a task whenever one is claimable, whatever its sweep takes back first |
| Liveness.NoDependencyCycle | src/sqlite-store.ts:369-382 | dependencies point to tasks enqueued earlier, so no chain of them comes back to its start |
| Pruning.PurgesWithout | src/sqlite-store.ts:1239-1249 | deleting the chosen runs one by one leaves the store without exactly those runs |
| Pruning.PruneExact | src/sqlite-store.ts:1214-1263 | a prune removes the chosen runs with all their rows and events; every other record and each other run's event sequence is as before, and the invariant (no dangling reference) still holds |
| Pruning.PruneColumns | src/sqlite-store.ts:1214-1231 | by columns: a run that is gone was last updated before the cutoff and had a status asked for, by default a terminal one; at most the limit are gone; a due run is kept only if the limit is reached by runs that are no younger; a kept one is as it was, with its events |
| Pruning.PruneRows | src/sqlite-store.ts:1236-1249 | exactly the tasks, attempts, leases and tokens of the kept runs are left |
| Paging.PageContinues | src/sqlite-store.ts:1179-1212 | one page continues what has been read, without gap or repeat, and is empty only at the end |
| Paging.PageColumns | src/sqlite-store.ts:1179-1212 | by columns: the first events after the cursor, of the run and types asked for, in the order of their ids, up to the limit, which is at least 1; the cursor is the id of the last |
| Paging.TypeNames | src/sqlite-store.ts:1436-1466 | which type name stands for which event |
| Paging.PollExact | src/sqlite-store.ts:1179-1212 | however the log grows between calls, the pages together are exactly the matching events between the first and the last cursor, in order |
| Paging.PollReachesEnd | src/sqlite-store.ts:1179-1212 | on a log that stands still, as many calls as there are matching events return all of them |
| Paging.LogGrows | src/sqlite-store.ts:1436-1466 | between prunes the log only grows at its end |
| Paging.PollBehaviour | src/sqlite-store.ts:1179-1212 | the same for a reader polling at any moments of a behaviour without prunes in between |
| Paging.PollPruned | src/sqlite-store.ts:1179-1212 | with prunes between the calls no event is read twice, and every matching event up to the cursor that is still in the log has been read |
| Paging.PollBehaviourPruned | src/sqlite-store.ts:1179-1212 | the same for a reader polling at any moments of any behaviour |
| Worker.NextKept | src/sqlite-store.ts:1531-1549 | one step of the store keeps a lease id's task and worker, never makes it active again, and changes its task's status only if it marks it running under this very lease |
| Worker.SysNextInv | src/worker.ts:236-578 | every step of any worker, crash or other caller, handlers that write under their worker's lease included, keeps the invariant of the whole system |
| Worker.ReachableSys | src/worker.ts:219-510 | it holds in every state of every run of the whole system |
| Worker.OneOutcomePerClaim | src/worker.ts:475-497 | each claim gets at most one outcome, whoever writes it: the worker, even when `applyResult` throws and `failTask` is tried, its handler, or an abandoned one; and then its lease is over |
| Worker.MutualExclusion | src/worker.ts:219-264 | two processes never have the same lease, and of two that believe they have the same task at most one can write to it |
| Worker.HandlerHasTask | src/worker.ts:336-345 | while a handler runs on a good lease, its task is running |
| Worker.FinalCallCommits | src/worker.ts:528-578 | a call that ends the work on a claim writes an outcome whenever the lease check lets it through (which one: `Outcomes.CallLeaves`) |
| Outcomes.HandlerDecides | src/worker.ts:425-578 | how a handler ends decides what its task becomes, by columns: completed, failed with its error, waiting or blocked, queued when released or drained, failed when it threw, returned nonsense or overran its limit |
| Outcomes.CallLeaves | src/worker.ts:528-578 | the same for the single call, in each phase, under a good lease |
| Outcomes.RefusedRecovers | src/worker.ts:481-497 | a result that is refused is followed by an attempt to fail the task |
| Outcomes.MarkedThenHandled | src/worker.ts:336-345 | a claimed task is handled iff its lease is good and nobody marked it before, and then it is running |
| Outcomes.PollTakes | src/worker.ts:236-263 | what a poll claims, for its own worker, is what the worker marks next |
| Outcomes.OutcomesCounted | src/worker.ts:528-578 | the count of outcomes of a lease is 1 iff its row says released |
| Worker.ClaimResolved | src/worker.ts:319-510 | a worker that goes back to polling, other than by crashing, leaves its lease spent, or lapsed and due for the next sweep, iff it was not preempted: somebody else had marked its task running under its good lease before it did; then nothing is written |
| Worker.TimeoutIsTerminal | src/worker.ts:450-473 | the call after a handler timeout goes through iff the lease is still good, and then the task has failed for good; otherwise nothing is written and the lease is spent or has run out |
| Worker.TimeoutRetried | README.md:144 | the documented retry: while the lease is the worker's, the next sweep queues the task again iff the lease had run out before the call and an attempt is left |
| Refinement.FollowsNext | src/sqlite-store.ts:303-1338 | for an operation that leaves the store no choice (all but claim, sweep and prune) following its plan is the same as taking its atomic step |
| Refinement.EnqueueAgreement | adapters/memory/src/store.ts:208-218 | for a fresh id the two stores decide alike iff no dependency is listed twice, or the run is missing or over, the key is taken, the task depends on itself, or a dependency is not in the run |
| Refinement.EnqueueEachIsEnqueue | adapters/memory/src/store.ts:208-258 | what the memory store does with a list is what the transaction does with the list without duplicates |
| Refinement.ReusedIdBreaks | adapters/memory/src/store.ts:247 | overwriting a held task breaks the invariant |
| Reuse.CreatedKeepsInv | adapters/memory/src/store.ts:146-156 | creating a run under an id in use keeps the invariant iff that run has no task |
| Reuse.RunReused | adapters/memory/src/store.ts:146-156 | creating a run under an id in use keeps invariant, attempt ledger and replay iff that run has no task, and the lifetime promises about the run iff it was not cancelled |
| Reuse.EnqueuedKeepsInv | adapters/memory/src/store.ts:220-250 | enqueueing under an id in use keeps the invariant iff the old row is replaceable: no task waits for it, no token names it, its leases and attempts are over and undecided and of the same run, and its old run can do without it |
| Reuse.TaskReused | adapters/memory/src/store.ts:220-250 | enqueueing under an id in use keeps invariant, attempt ledger and replay iff the old row is of the same run, has no attempt on its count and no dependent, and, if it was attempted before a reset, the new dependencies are completed |
| Refinement.OutcomeDone | src/sqlite-store.ts:694-839 | the row updates of completing or failing, token recorded before the status is recomputed, are the step of the plan |
| Refinement.SweepRound | adapters/memory/src/store.ts:720-783 | one round of the sweep loop extends the sweep by one task |
| Refinement.SweepNeverSkips | adapters/memory/src/store.ts:723-728 | no guard of the sweep for a missing lease id, lease or attempt ever fires |
| Refinement.ClaimDone | adapters/memory/src/store.ts:301-361 | sweep, pick and hand-over together are the step of the claim |
| Refinement.DependenciesByQuery | src/sqlite-store.ts:460-466 | asking for a dependency that is there and unfinished, as SQL does, is the same as asking that each be there and completed, as the memory store does |
| Refinement.FirstDue | adapters/memory/src/store.ts:911-914 | filter, sort by age and take the first is what the prune query asks for |
| Refinement.PruneLimitsAgree | adapters/memory/src/store.ts:909-914 | `slice(0, limit)` and `LIMIT` select the same number of runs exactly when the limit is not negative or nothing is due |
| MemoryStore.MemoryStore.constructor | adapters/memory/src/store.ts:107-117 | a new store is empty and valid |
| MemoryStore.MemoryStore.EmitEvent | adapters/memory/src/store.ts:1024-1042 | appends one event with the next id |
| MemoryStore.MemoryStore.RecomputeRunStatus | adapters/memory/src/store.ts:1056-1073 | the loop over the task rows computes the abstract recomputation, event included |
| MemoryStore.MemoryStore.AssertActiveLease | adapters/memory/src/store.ts:1105-1122 | throws exactly what the abstract lease check throws, and otherwise returns the active lease and its attempt |
| MemoryStore.MemoryStore.CreateRun | adapters/memory/src/store.ts:141-185 | the new state for any id; for a fresh one the step of the plan, for one in use valid iff that run has no task |
| MemoryStore.MemoryStore.HasKey | adapters/memory/src/store.ts:196-202 | finds the key iff a task of the run has it |
| MemoryStore.MemoryStore.Admit | adapters/memory/src/store.ts:187-218 | the checks in order: throws exactly what the plan throws |
| MemoryStore.MemoryStore.EnqueueTask | adapters/memory/src/store.ts:187-257 | the new state for any id, unchanged when it throws; for a fresh id the step of the plan, for one in use valid iff the old row is replaceable |
| MemoryStore.MemoryStore.ResumeTask | adapters/memory/src/store.ts:460-475 | the step of the plan; unchanged when it throws |
| MemoryStore.MemoryStore.RequeueDeadTask | adapters/memory/src/store.ts:959-994 | the step of the plan; unchanged when it throws |
| MemoryStore.MemoryStore.HeartbeatLease | adapters/memory/src/store.ts:374-393 | the step of the plan; unchanged when it throws |
| MemoryStore.MemoryStore.MarkTaskRunning | adapters/memory/src/store.ts:395-421 | the step of the plan; unchanged when it throws |
| MemoryStore.MemoryStore.PauseTask | adapters/memory/src/store.ts:423-458 | the step of the plan; unchanged when it throws |
| MemoryStore.MemoryStore.ReleaseTask | adapters/memory/src/store.ts:590-624 | the step of the plan; unchanged when it throws |
| MemoryStore.MemoryStore.CompleteTask | adapters/memory/src/store.ts:477-538 | the step of the plan; unchanged when it throws or the outcome is already on record; a call with a token that returns has its outcome on record |
| MemoryStore.MemoryStore.FailTask | adapters/memory/src/store.ts:540-588 | the step of the plan; unchanged when it throws or the outcome is already on record; a call with a token that returns has its outcome on record |
| MemoryStore.MemoryStore.CancelRun | adapters/memory/src/store.ts:663-709 | the three loops together are the step of the plan |
| MemoryStore.MemoryStore.ExpireLeasesSync | adapters/memory/src/store.ts:718-786 | the loop expires exactly the lapsed tasks, each once, and is the abstract sweep |
| MemoryStore.MemoryStore.PickTask | adapters/memory/src/store.ts:273-299 | scan, sort and take-first choose the task the claim query orders first |
| MemoryStore.MemoryStore.ClaimNextTask | adapters/memory/src/store.ts:259-362 | one atomic claim, or the lease of a replayed token with nothing changed; returns the stored rows |
| MemoryStore.MemoryStore.ListEventsSince | adapters/memory/src/store.ts:881-899 | successive filters and a slice give exactly the abstract page |
| MemoryStore.MemoryStore.PruneRuns | adapters/memory/src/store.ts:901-943 | the nested loops remove exactly the runs returned, as many as `slice(0, limit)` takes, and keep the token index a scan of the leases |
| MemoryStore.IndexScan | adapters/memory/src/store.ts:266-271 | the token index answers exactly as a scan of the leases would |
| MemoryStore.FilterChain | adapters/memory/src/store.ts:883-893 | filtering in stages selects the same events as one query with all conditions |
| SqliteStore.SelectStatuses | src/sqlite-store.ts:1470-1474 | returns exactly the statuses that occur in the run |
| SqliteStore.SelectLapsed | src/sqlite-store.ts:977-983 | returns exactly the lapsed tasks, each once |
| SqliteStore.SelectClaim | src/sqlite-store.ts:452-479 | returns a row that meets the WHERE clause, of the highest priority and, of these, created first, or none if none meets it |
| SqliteStore.SelectPrunable | src/sqlite-store.ts:1224-1231 | returns the oldest due runs, in order, up to the limit, without limit if it is negative; each was last updated before the cutoff and has a status asked for, by default a terminal one |
| SqliteStore.SelectEvents | src/sqlite-store.ts:1197-1211 | returns exactly the abstract page |
| SqliteStore.ClaimWhereIsCandidate | src/sqlite-store.ts:452-477 | in a reachable state the WHERE clause selects exactly the claimable tasks |
| SqliteStore.SqliteStore.constructor | src/sqlite-store.ts:268-275 | a new store is empty and valid |
| SqliteStore.SqliteStore.InsertEvent | src/sqlite-store.ts:1436-1466 | appends one event with the next id |
| SqliteStore.SqliteStore.RecomputeRunStatus | src/sqlite-store.ts:1468-1496 | the abstract recomputation, event included |
| SqliteStore.SqliteStore.RequireActive | src/sqlite-store.ts:1531-1549 | throws exactly what the abstract lease check throws, and otherwise returns the task, the active lease and its attempt |
| SqliteStore.SqliteStore.CreateRun | src/sqlite-store.ts:303-347 | the step of the plan; a reused id is refused |
| SqliteStore.SqliteStore.EnqueueTask | src/sqlite-store.ts:349-432 | the step of the plan; unchanged when it throws |
| SqliteStore.SqliteStore.ResumeTask | src/sqlite-store.ts:673-692 | the step of the plan; unchanged when it throws |
| SqliteStore.SqliteStore.RequeueDeadTask | src/sqlite-store.ts:1300-1338 | the step of the plan; unchanged when it throws |
| SqliteStore.SqliteStore.HeartbeatLease | src/sqlite-store.ts:566-600 | the step of the plan; unchanged when it throws |
| SqliteStore.SqliteStore.MarkTaskRunning | src/sqlite-store.ts:602-628 | the step of the plan; unchanged when it throws |
| SqliteStore.SqliteStore.PauseTask | src/sqlite-store.ts:630-671 | the step of the plan; unchanged when it throws |
| SqliteStore.SqliteStore.ReleaseTask | src/sqlite-store.ts:841-877 | the step of the plan; unchanged when it throws |
| SqliteStore.SqliteStore.CompleteTask | src/sqlite-store.ts:694-772 | the step of the plan; unchanged when it throws or the outcome is already on record; a call with a token that returns has its outcome on record |
| SqliteStore.SqliteStore.FailTask | src/sqlite-store.ts:774-839 | the step of the plan; unchanged when it throws or the outcome is already on record; a call with a token that returns has its outcome on record |
| SqliteStore.SqliteStore.CancelRun | src/sqlite-store.ts:925-972 | the four UPDATE statements together are the step of the plan |
| SqliteStore.SqliteStore.Sweep | src/sqlite-store.ts:974-1064 | the loop over the selected rows is the abstract sweep |
| SqliteStore.SqliteStore.ClaimNextTask | src/sqlite-store.ts:434-554 | one atomic claim, or the lease of a replayed token with nothing changed; returns the stored rows |
| SqliteStore.SqliteStore.ListEventsSince | src/sqlite-store.ts:1179-1212 | exactly the abstract page |
| SqliteStore.SqliteStore.PruneRuns | src/sqlite-store.ts:1214-1263 | the DELETE statements remove exactly the runs returned, as many as LIMIT takes |
| Divergences.StuckForever | src/sqlite-store.ts:449-460 | a queued task with no attempt left stays as it is until its run is cancelled or pruned, and can not be claimed in any later state |
| Divergences.ReleasedClaimable | src/sqlite-store.ts:841-877 | releasing keeps the attempt count (the README says it consumes no attempt): if the attempt was not the last of its budget the task can be claimed again at once, otherwise in no later state |
| Divergences.ResumedClaimable | docs/failure-modes.md:38 | the same of a task that was paused and is resumed |
| Divergences.RequeuedClaimable | src/sqlite-store.ts:1300-1338 | a dead task leaves `failed` although the transition table forbids it, and can be claimed afterwards iff its attempts were reset, its run was not cancelled and its not-before has passed |
| Divergences.RequeuedInVain | src/sqlite-store.ts:1300-1338 | requeued without a reset, or in a cancelled run, it can not be claimed in any later state |
| Terminal.TerminalStep | src/types.ts:11-12 | a completed, failed or cancelled run keeps its status in a step iff the step neither cancels it (not being cancelled yet) nor requeues one of its dead tasks while it is failed; the first makes it cancelled, the second active |
| Terminal.OverTasks | docs/lifecycle.md:53-60 | all tasks of a completed run are completed, those of a failed one completed or failed |
| Terminal.TerminalForLife | src/types.ts:11-12 | such a run keeps its status until it is cancelled, reopened in this way or pruned |
| Terminal.CompletedForLife | src/types.ts:11-12 | a completed run stays completed until it is cancelled or pruned |
| Terminal.TerminalLeft | src/sqlite-store.ts:1300-1338 | if its status is a different one later, one of the two exceptions came in between |
| Divergences.CancelOverwrites | src/sqlite-store.ts:925-972 | cancelling takes any run to cancelled, completed and failed ones included, and leaves finished tasks as they were |
| Divergences.ReleasedIsReady | src/sqlite-store.ts:841-877 | a released task is queued with its other columns, the not-before included, as they were |
| Divergences.NotBeforeSet | docs/lifecycle.md:44-46 | a step sets the not-before of a task that had none iff a sweep expires its lease, an attempt is left and the retry policy has a delay, or it is requeued from the dead letters with one |
| Divergences.SpentIsConflict | docs/failure-modes.md:33 | a duplicate call under a lease that is over is refused with a lease conflict |
| Divergences.CancelledHolderGetsConflict | docs/failure-modes.md:39 | the holder of a cancelled task gets a lease conflict from every call, not the documented invalid transition; only a token on record for another task is refused as reused |
| Witnesses.ReleasedStuck | README.md:122 | a behaviour from the empty store in which a task is released in time and can never be claimed again |
| Witnesses.ResumedStuck | docs/failure-modes.md:38 | one in which a task waits for human input, is resumed and can never be claimed |
| Witnesses.RequeuedStuck | docs/lifecycle.md:39 | one in which a dead task is requeued without a reset and can never be claimed |
| Witnesses.RequeuedIntoCancelled | docs/lifecycle.md:39 | one in which a dead task is queued in a cancelled run |
| Witnesses.CompletedThenCancelled | src/sqlite-store.ts:925-936 | one in which a completed run becomes a cancelled one |
| Witnesses.ReopenedRun | src/sqlite-store.ts:1300-1338 | one in which a failed run becomes active because its dead task is requeued |
| Witnesses.PreemptedWorker | src/worker.ts:336-345 | one of the whole system in which somebody marks the task running before its worker does, and the worker goes back to polling with the lease still good |
| Witnesses.CancelledHolder | docs/failure-modes.md:39 | one in which a good holder's run is cancelled and its next write gets a lease conflict |
| Witnesses.TimedOutForGood | README.md:144 | one of the whole system in which a task with an attempt left times out and has failed for good |
| Witnesses.EnqueueDiffers | adapters/memory/src/store.ts:208-218 | one after which a list that names a task twice is accepted by the memory store and refused by SQL |

## Left out

- The Postgres adapter: the same transitions, but its guarantees rest on isolation levels and row locks that
  its code does not fix.
- Context snapshots, `nextContext` and the snapshot ids of runs and tasks: data given by the caller. A call of
  `appendContextSnapshot` on its own also appends an event and, for the run's scope, sets the run's `updated_at`
  (src/sqlite-store.ts:879-923), by which a prune chooses. The behaviours here have no such call, so a prune choice
  that one would change is not modelled, nor its event in a page.
- Task input, output and metadata, run namespaces, external ids and labels, and the JSON encoding of payloads.
- The columns `started_at`, `completed_at`, `acquired_at`, `heartbeat_at`, `released_at` and `leased_at`, and a
  task's `updated_at`, which no transition reads.
- Event payload fields that merely repeat a row or a caller's text, such as `reason`, and the attempt counts in
  the `task.failed` event of a dead-lettered task.
- The order of the dependencies in a task and its enqueued event: they are kept as a set, and the rows of
  `task_dependencies` with them.
- ISO timestamp strings and the overflow of `2 ** n` in floating point: times are unbounded integers.
- Iteration order of the maps of the memory store: its loops take the rows in any order, and the results hold
  for every one.
- Interleaving at the `await` points of the memory store, its `transaction`, which does not roll back, and the
  `closed` flag: each method is atomic, as the store's own documentation says.
- SQL text, pragmas, migrations and the roll-back of a transaction that throws after its first write: no
  transaction of the model throws after a write, which `Transactions.PlanEnabled` and the methods' contracts
  show.
- The worker loop as an object: timers, abort signals, observers, the event watcher for cancelled runs and the
  idle back-off. Its steps are a state machine, because their interleaving is what matters, and the timers
  appear as steps that may happen at any time.
- `scheduleExpireLeases`, `listRuns`, `listPendingTasks`, `listDeadTasks`, `listRunTasks`, the getters, the
  orchestrator facades and the server: filters and forwarding that would only add easy members.
