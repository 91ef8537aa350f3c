/** The SQLite store (src/sqlite-store.ts): every method a transaction of INSERT, UPDATE, DELETE and SELECT
    statements over tables.  Every method is shown to take the step that the transactions prescribe. */
module SqliteStore {
  import opened Records
  import opened StateMachine
  import opened Writes
  import opened Invariant
  import opened Preservation
  import opened Transactions
  import opened Refinement
  import opened Paging
  import opened Tokens
  import opened Sorting
  import opened Guarantees

  // ---- Statements ----

  /** UPDATE ... SET ... WHERE id = ? */
  function UpdateById<K, V>(table: map<K, V>, id: K, change: V -> V): (r: map<K, V>)
    ensures r == if id in table then table[id := change(table[id])] else table
  {
    map k | k in table :: if k == id then change(table[k]) else table[k]
  }

  /** UPDATE ... SET ... WHERE ... */
  function UpdateWhere<K, V>(table: map<K, V>, cond: V -> bool, change: V -> V): map<K, V> {
    map k | k in table :: if cond(table[k]) then change(table[k]) else table[k]
  }

  /** DELETE FROM ... WHERE ... */
  function DeleteWhere<K, V>(table: map<K, V>, cond: V -> bool): map<K, V> {
    map k | k in table && !cond(table[k]) :: table[k]
  }

  // ---- Queries ----

  /** SELECT status FROM tasks WHERE run_id = ? */
  method SelectStatuses(tasks: map<TaskId, Task>, rid: RunId) returns (rows: seq<TaskStatus>)
    ensures Present(rows) == set tid | tid in tasks && tasks[tid].spec.runId == rid :: tasks[tid].status
  {
    rows := [];
    var todo := tasks.Keys;
    while todo != {}
      invariant todo <= tasks.Keys
      invariant Present(rows) == set tid | tid in tasks && tid !in todo && tasks[tid].spec.runId == rid :: tasks[tid].status
      decreases |todo|
    {
      var tid :| tid in todo;
      todo := todo - {tid};
      if tasks[tid].spec.runId == rid {
        assert Present(rows + [tasks[tid].status]) == Present(rows) + {tasks[tid].status};
        rows := rows + [tasks[tid].status];
      }
    }
  }

  /** SELECT id FROM tasks WHERE run_id = ? AND task_key = ? */
  method SelectKey(tasks: map<TaskId, Task>, rid: RunId, key: Key) returns (row: Option<TaskId>)
    ensures row.Some? ==> row.value in tasks && tasks[row.value].spec.runId == rid && tasks[row.value].spec.key == Some(key)
    ensures row.None? ==> forall x | x in tasks :: tasks[x].spec.runId != rid || tasks[x].spec.key != Some(key)
  {
    var todo := tasks.Keys;
    while todo != {}
      invariant todo <= tasks.Keys
      invariant forall x | x in tasks && x !in todo :: tasks[x].spec.runId != rid || tasks[x].spec.key != Some(key)
      decreases |todo|
    {
      var x :| x in todo;
      if tasks[x].spec.runId == rid && tasks[x].spec.key == Some(key) { return Some(x); }
      todo := todo - {x};
    }
    return None;
  }

  /** SELECT id FROM tasks WHERE status IN ('leased', 'running') AND lease_expires_at IS NOT NULL AND lease_expires_at < ? */
  method SelectLapsed(tasks: map<TaskId, Task>, now: Time) returns (rows: seq<TaskId>)
    ensures NoDuplicates(rows)
    ensures forall x :: x in rows <==>
              x in tasks && Held(tasks[x]) && tasks[x].leaseExpiresAt.Some? && tasks[x].leaseExpiresAt.value < now
  {
    rows := [];
    var todo := tasks.Keys;
    while todo != {}
      invariant todo <= tasks.Keys && NoDuplicates(rows)
      invariant forall x :: x in rows <==>
                  x in tasks && x !in todo && Held(tasks[x]) && tasks[x].leaseExpiresAt.Some? && tasks[x].leaseExpiresAt.value < now
      decreases |todo|
    {
      var x :| x in todo;
      todo := todo - {x};
      var t := tasks[x];
      if (t.status == Leased || t.status == Running) && t.leaseExpiresAt.Some? && t.leaseExpiresAt.value < now {
        rows := rows + [x];
      }
    }
  }

  /** The WHERE clause of the claim query: a dependency holds a task back only if its row is there and unfinished. */
  predicate ClaimWhere(runs: map<RunId, Run>, tasks: map<TaskId, Task>, t: Task, kinds: seq<Kind>, now: Time) {
    && t.status == Queued
    && t.spec.runId in runs && !TerminalRun(runs[t.spec.runId].status)
    && (t.notBefore.None? || t.notBefore.value <= now)
    && (t.spec.maxAttempts.None? || t.attemptCount < t.spec.maxAttempts.value)
    && !(exists d | d in t.spec.deps :: d in tasks && tasks[d].status != Completed)
    && (|kinds| == 0 || t.spec.kind in kinds)
  }

  /** SELECT t.* ... ORDER BY t.priority DESC, t.created_at ASC LIMIT 1 */
  method SelectClaim(runs: map<RunId, Run>, tasks: map<TaskId, Task>, kinds: seq<Kind>, now: Time) returns (row: Option<TaskId>)
    ensures row.None? ==> forall x | x in tasks :: !ClaimWhere(runs, tasks, tasks[x], kinds, now)
    ensures row.Some? ==> row.value in tasks && ClaimWhere(runs, tasks, tasks[row.value], kinds, now)
                          && forall x | x in tasks && ClaimWhere(runs, tasks, tasks[x], kinds, now) :: Ranks(tasks[row.value], tasks[x])
    ensures row.Some? ==> forall x | x in tasks && ClaimWhere(runs, tasks, tasks[x], kinds, now) ::
                            var t, first := tasks[x], tasks[row.value];
                            t.spec.priority <= first.spec.priority && (t.spec.priority == first.spec.priority ==> first.createdAt <= t.createdAt)
  {
    hide ClaimWhere;
    row := None;
    var todo := tasks.Keys;
    while todo != {}
      invariant todo <= tasks.Keys
      invariant row.None? ==> forall x | x in tasks && x !in todo :: !ClaimWhere(runs, tasks, tasks[x], kinds, now)
      invariant row.Some? ==> row.value in tasks && ClaimWhere(runs, tasks, tasks[row.value], kinds, now)
      invariant row.Some? ==> forall x | x in tasks && x !in todo && ClaimWhere(runs, tasks, tasks[x], kinds, now) ::
                                Ranks(tasks[row.value], tasks[x])
      decreases |todo|
    {
      var x :| x in todo;
      todo := todo - {x};
      var meets := ClaimWhere(runs, tasks, tasks[x], kinds, now);
      if meets && (row.None? || !Ranks(tasks[row.value], tasks[x])) { row := Some(x); }
    }
  }

  /** SELECT id FROM runs WHERE status IN (...) AND updated_at < ? ORDER BY updated_at ASC LIMIT ? */
  method SelectPrunable(runs: map<RunId, Run>, statuses: seq<RunStatus>, cutoff: Time, limit: int) returns (ids: seq<RunId>)
    ensures forall s: State | s.runs == runs ::
              PruneChoice(s, statuses, cutoff, LimitTake(limit, |PruneCandidates(s, statuses, cutoff)|), ids)
    ensures forall r | r in ids ::
              && r in runs && runs[r].updatedAt < cutoff
              && if |statuses| == 0 then runs[r].status in {RunCompleted, RunFailed, RunCancelled} else runs[r].status in statuses
  {
    var wanted := PruneStatuses(statuses);
    var due: seq<(RunId, Run)> := [];
    var todo := runs.Keys;
    while todo != {}
      invariant todo <= runs.Keys && NoDuplicates(due)
      invariant forall e | e in due :: e.0 in runs && e.0 !in todo && e.1 == runs[e.0] && e.1.status in wanted && e.1.updatedAt < cutoff
      invariant forall r | r in runs && r !in todo && runs[r].status in wanted && runs[r].updatedAt < cutoff :: (r, runs[r]) in due
      decreases |todo|
    {
      var rid :| rid in todo;
      todo := todo - {rid};
      if runs[rid].status in wanted && runs[rid].updatedAt < cutoff {
        assert (rid, runs[rid]) !in due;
        due := due + [(rid, runs[rid])];
      }
    }
    ids := Ids(Sort(due, OlderFirst)[..LimitTake(limit, |Sort(due, OlderFirst)|)]);
    forall s: State | s.runs == runs
      ensures PruneChoice(s, statuses, cutoff, LimitTake(limit, |PruneCandidates(s, statuses, cutoff)|), ids)
    {
      assert DueRuns(s, statuses, cutoff, due);
      hide DueRuns, PruneChoice, PruneCandidates, Sort, NoDuplicates;
      DueCount(s, statuses, cutoff, due);
      FirstDue(s, statuses, cutoff, due, LimitTake(limit, |due|));
    }
    ghost var alone := EMPTY.(runs := runs);
    TakenDue(alone, statuses, cutoff, LimitTake(limit, |PruneCandidates(alone, statuses, cutoff)|), ids);
  }

  lemma {:induction false} SelectPrefix(log: seq<Event>, i: nat, after: Option<int>, q: Query)
    requires i <= |log|
    ensures |Select(log[..i], after, q)| <= |Select(log, after, q)|
    ensures Select(log, after, q)[..|Select(log[..i], after, q)|] == Select(log[..i], after, q)
    decreases |log|
  {
    if i == |log| {
      assert log[..i] == log;
    } else {
      SelectPrefix(log[..|log| - 1], i, after, q);
      assert log[..|log| - 1][..i] == log[..i];
    }
  }

  /** SELECT * FROM events WHERE ... ORDER BY id ASC LIMIT ? */
  method SelectEvents(events: seq<Event>, after: Option<int>, q: Query) returns (page: seq<Event>, nextCursor: Option<int>)
    ensures (page, nextCursor) == Page(events, after, q)
  {
    var limit := if q.limit < 1 then 1 else q.limit;
    page := [];
    var i := 0;
    while i < |events| && |page| < limit
      invariant i <= |events| && |page| <= limit
      invariant page == Select(events[..i], after, q)
    {
      assert events[..i + 1][..i] == events[..i];
      var e := events[i];
      if (after.None? || e.id > after.value) && Matches(e, q) { page := page + [e]; }
      i := i + 1;
    }
    SelectPrefix(events, i, after, q);
    assert i == |events| ==> events[..i] == events;
    nextCursor := if |page| > 0 then Some(page[|page| - 1].id) else after;
  }

  /** Under the invariant the claim query asks for exactly the claimable tasks of the kinds wanted. */
  lemma ClaimWhereIsCandidate(s: State, x: TaskId, kinds: seq<Kind>, now: Time)
    requires Inv(s) && x in s.tasks
    ensures ClaimWhere(s.runs, s.tasks, s.tasks[x], kinds, now) <==> Candidate(s, x, kinds, now)
  {
    DependenciesByQuery(s, x);
    hide Inv, DepsCompleted;
  }

  lemma SelectedIsBest(s: State, kinds: seq<Kind>, now: Time, row: Option<TaskId>)
    requires Inv(s)
    requires row.None? ==> forall x | x in s.tasks :: !ClaimWhere(s.runs, s.tasks, s.tasks[x], kinds, now)
    requires row.Some? ==> row.value in s.tasks && ClaimWhere(s.runs, s.tasks, s.tasks[row.value], kinds, now)
    requires row.Some? ==> forall x | x in s.tasks && ClaimWhere(s.runs, s.tasks, s.tasks[x], kinds, now) ::
                             Ranks(s.tasks[row.value], s.tasks[x])
    ensures BestPick(s, kinds, now, row)
  {
    hide Inv, ClaimWhere, Candidate, Ranks;
    forall x | x in s.tasks ensures ClaimWhere(s.runs, s.tasks, s.tasks[x], kinds, now) <==> Candidate(s, x, kinds, now) {
      ClaimWhereIsCandidate(s, x, kinds, now);
    }
    if row.Some? {
      assert Candidate(s, row.value, kinds, now);
    }
  }

  class SqliteStore {
    var runs: map<RunId, Run>
    var tasks: map<TaskId, Task>
    var attempts: map<Uuid, Attempt>
    var leases: map<Uuid, Lease>
    var completions: map<Token, Completion>
    var events: seq<Event>
    var lastEventId: nat
    ghost var used: set<Uuid>

    ghost function Abs(): State
      reads this
    {
      State(runs, tasks, attempts, leases, completions, events, lastEventId, used)
    }

    ghost predicate Valid()
      reads this
    {
      Inv(Abs())
    }

    constructor ()
      ensures Valid() && Abs() == EMPTY
    {
      runs, tasks, attempts, leases, completions := map[], map[], map[], map[], map[];
      events, lastEventId, used := [], 0, {};
      new;
      EmptyInv();
    }

    // ---- Private methods ----

    method InsertEvent(rid: RunId, tid: Option<TaskId>, aid: Option<Uuid>, payload: Payload, now: Time)
      modifies this`events, this`lastEventId
      ensures Abs() == Emit(old(Abs()), rid, tid, aid, payload, now)
    {
      lastEventId := lastEventId + 1;
      events := events + [Event(lastEventId, rid, tid, aid, payload, now)];
    }

    method RequireTask(tid: TaskId) returns (r: Result<Task>)
      ensures r == if tid in tasks then Ok(tasks[tid]) else Err(NotFound)
    {
      if tid !in tasks { return Err(NotFound); }
      return Ok(tasks[tid]);
    }

    method RequireRun(rid: RunId) returns (r: Result<Run>)
      ensures r == if rid in runs then Ok(runs[rid]) else Err(NotFound)
    {
      if rid !in runs { return Err(NotFound); }
      return Ok(runs[rid]);
    }

    method RecomputeRunStatus(rid: RunId, now: Time)
      requires rid in runs
      modifies this`runs, this`events, this`lastEventId
      ensures Abs() == Recompute(old(Abs()), rid, now)
    {
      var current := runs[rid];
      var rows := SelectStatuses(tasks, rid);
      assert Present(rows) == StatusesOf(Abs(), rid);
      DeriveByPresence(current.status, rows, current.status);
      var next := DeriveRunStatus(current.status, rows);
      hide DeriveRunStatus, DeriveFrom, DeriveOr, Present, StatusesOf;
      if next != current.status {
        runs := UpdateById(runs, rid, (r: Run) => r.(status := next, updatedAt := now));
        InsertEvent(rid, None, None, RunStatusChanged(current.status, next), now);
      } else {
        runs := UpdateById(runs, rid, (r: Run) => r.(updatedAt := now));
      }
    }

    method RequireActive(tid: TaskId, lid: Uuid, worker: WorkerId, now: Time) returns (r: Result<(Task, Lease, Attempt)>)
      ensures r.Err? ==> CheckLease(Abs(), tid, lid, worker, now) == Some(r.error)
      ensures r.Ok? ==>
                && CheckLease(Abs(), tid, lid, worker, now).None?
                && tid in tasks && r.value.0 == tasks[tid] && lid in leases && r.value.1 == leases[lid]
                && r.value.1.attemptId in attempts && r.value.2 == attempts[r.value.1.attemptId]
    {
      var task :- RequireTask(tid);
      if task.leaseId.None? || task.leaseId.value != lid || task.leasedBy != Some(worker) { return Err(LeaseConflict); }
      if task.leaseExpiresAt.None? || task.leaseExpiresAt.value < now { return Err(LeaseLapsed); }
      if lid !in leases { return Err(NotFound); }
      var lease := leases[lid];
      if lease.status != LeaseActive || lease.worker != worker { return Err(LeaseConflict); }
      if lease.attemptId !in attempts { return Err(NotFound); }
      return Ok((task, lease, attempts[lease.attemptId]));
    }

    // ---- Runs and tasks ----

    method CreateRun(rid: RunId, now: Time) returns (r: Result<Run>)
      requires Valid()
      modifies this
      ensures Valid()
      ensures var plan := Plan(old(Abs()), Op.CreateRun(rid), now); Replies(r, plan) && Follows(old(Abs()), Abs(), plan, now)
      ensures r.Ok? ==> rid in runs && r.value == runs[rid]
    {
      hide Inv, EnabledAll, DoAll;
      if rid in runs { return Err(IdTaken); }
      CreateRunDone(Abs(), rid, now);
      runs := runs[rid := Run(RunPending, now)];
      InsertEvent(rid, None, None, RunCreated, now);
      r := RequireRun(rid);
    }

    method EnqueueTask(tid: TaskId, options: EnqueueOptions, now: Time) returns (r: Result<Task>)
      requires Valid()
      modifies this
      ensures Valid()
      ensures var plan := Plan(old(Abs()), Enqueue(tid, options), now); Replies(r, plan) && Follows(old(Abs()), Abs(), plan, now)
      ensures r.Ok? ==> tid in tasks && r.value == tasks[tid]
    {
      hide Inv, EnabledAll, DoAll, Recompute, Do, Enabled;
      var run :- RequireRun(options.runId);
      if run.status == RunCompleted || run.status == RunFailed || run.status == RunCancelled { return Err(RunTerminal); }
      if options.key.Some? {
        var existing := SelectKey(tasks, options.runId, options.key.value);
        if existing.Some? { return Err(DuplicateTaskKey); }
      }
      if |options.deps| > 0 {
        if tid in options.deps { return Err(DependencyCycle); }
        var rows := set d | d in options.deps && d in tasks && tasks[d].spec.runId == options.runId;
        assert rows == DependencyRows(Abs(), options.runId, options.deps);
        if |rows| != |options.deps| { return Err(ForeignDependency); }
      } else {
        assert DependencyRows(Abs(), options.runId, options.deps) == {};
      }
      if tid in tasks { return Err(IdTaken); }
      PlanEnqueueEnabled(Abs(), tid, options, now);
      EnqueuePlanned(Abs(), tid, options, now);
      tasks := tasks[tid := Task(SpecOf(options), now, lastEventId, Queued, 0, None, None, None, None, None, false)];
      InsertEvent(options.runId, Some(tid), None, TaskEnqueued(options.kind, options.priority, Elements(options.deps)), now);
      RecomputeRunStatus(options.runId, now);
      r := RequireTask(tid);
    }

    method ResumeTask(tid: TaskId, now: Time) returns (r: Result<Task>)
      requires Valid()
      modifies this
      ensures Valid()
      ensures var plan := Plan(old(Abs()), Resume(tid), now); Replies(r, plan) && Follows(old(Abs()), Abs(), plan, now)
      ensures r.Ok? ==> tid in tasks && r.value == tasks[tid]
    {
      hide Inv, EnabledAll, DoAll, Recompute;
      var task :- RequireTask(tid);
      if task.status != Blocked && task.status != WaitingInput { return Err(InvalidTransition); }
      ReviveDone(Abs(), tid, now);
      tasks := UpdateById(tasks, tid, (t: Task) => t.(status := Queued));
      InsertEvent(task.spec.runId, Some(tid), None, TaskResumed, now);
      RecomputeRunStatus(task.spec.runId, now);
      r := RequireTask(tid);
    }

    method RequeueDeadTask(tid: TaskId, resetAttempts: bool, notBefore: Option<Time>, now: Time) returns (r: Result<Task>)
      requires Valid()
      modifies this
      ensures Valid()
      ensures var plan := Plan(old(Abs()), RequeueDead(tid, resetAttempts, notBefore), now);
              Replies(r, plan) && Follows(old(Abs()), Abs(), plan, now)
      ensures r.Ok? ==> tid in tasks && r.value == tasks[tid]
    {
      hide Inv, EnabledAll, DoAll, Recompute;
      var task :- RequireTask(tid);
      if !task.dead { return Err(InvalidTransition); }
      RedriveDone(Abs(), tid, resetAttempts, notBefore, now);
      tasks := UpdateById(tasks, tid, (t: Task) =>
        t.(status := Queued, dead := false, error := None, leaseId := None, leasedBy := None, leaseExpiresAt := None,
           notBefore := notBefore, attemptCount := if resetAttempts then 0 else t.attemptCount));
      InsertEvent(task.spec.runId, Some(tid), None, TaskRequeued(resetAttempts, notBefore, task.attemptCount), now);
      RecomputeRunStatus(task.spec.runId, now);
      r := RequireTask(tid);
    }

    // ---- Writes under a lease ----

    method HeartbeatLease(tid: TaskId, lid: Uuid, worker: WorkerId, leaseMs: int, now: Time) returns (r: Result<Lease>)
      requires Valid()
      modifies this
      ensures Valid()
      ensures var plan := Plan(old(Abs()), Heartbeat(tid, lid, worker, leaseMs), now);
              Replies(r, plan) && Follows(old(Abs()), Abs(), plan, now)
      ensures r.Ok? ==> lid in leases && r.value == leases[lid]
    {
      hide Inv, EnabledAll, DoAll, CheckLease, Plan;
      var expiresAt := now + leaseMs;
      HeartbeatReply(Abs(), tid, lid, worker, leaseMs, now);
      var active :- RequireActive(tid, lid, worker, now);
      var task, aid := active.0, active.1.attemptId;
      ExtendDone(Abs(), tid, lid, worker, leaseMs, now);
      tasks := UpdateById(tasks, tid, (t: Task) => t.(leaseExpiresAt := Some(expiresAt)));
      attempts := UpdateById(attempts, aid, (a: Attempt) => a.(expiresAt := expiresAt));
      leases := UpdateById(leases, lid, (l: Lease) => l.(expiresAt := expiresAt));
      InsertEvent(task.spec.runId, Some(tid), Some(aid), TaskHeartbeat(worker, lid, expiresAt), now);
      r := Ok(leases[lid]);
    }

    method MarkTaskRunning(tid: TaskId, lid: Uuid, worker: WorkerId, now: Time) returns (r: Result<Task>)
      requires Valid()
      modifies this
      ensures Valid()
      ensures var plan := Plan(old(Abs()), MarkRunning(tid, lid, worker), now);
              Replies(r, plan) && Follows(old(Abs()), Abs(), plan, now)
      ensures r.Ok? ==> tid in tasks && r.value == tasks[tid]
    {
      hide Inv, EnabledAll, DoAll, CheckLease, Recompute, Plan, UnderLease, CanMove;
      RefusedPlan(Abs(), Op.MarkRunning(tid, lid, worker), now);
      var active :- RequireActive(tid, lid, worker, now);
      var task, aid := active.0, active.1.attemptId;
      if !CanMove(task.status, Running) { return Err(InvalidTransition); }
      BeginPlan(Abs(), tid, lid, worker, now);
      BeginDone(Abs(), tid, lid, worker, now);
      tasks := UpdateById(tasks, tid, (t: Task) => t.(status := Running));
      attempts := UpdateById(attempts, aid, (a: Attempt) => a.(status := AttemptRunning));
      InsertEvent(task.spec.runId, Some(tid), Some(aid), TaskRunning(worker, lid), now);
      RecomputeRunStatus(task.spec.runId, now);
      r := RequireTask(tid);
    }

    /** The three UPDATE statements and the event of a task whose holder lets go of it. */
    method LetGo(tid: TaskId, lid: Uuid, aid: Uuid, change: Task -> Task, status: AttemptStatus, payload: Payload, now: Time)
      requires tid in tasks && aid in attempts && lid in leases
      modifies this`tasks, this`attempts, this`leases, this`events, this`lastEventId
      ensures Abs() == Emit(old(Abs()).(tasks := old(tasks)[tid := change(old(tasks)[tid])],
                                        attempts := old(attempts)[aid := old(attempts)[aid].(status := status)],
                                        leases := old(leases)[lid := old(leases)[lid].(status := LeaseReleased)]),
                            old(tasks)[tid].spec.runId, Some(tid), Some(aid), payload, now)
      ensures tasks == old(tasks)[tid := change(old(tasks)[tid])]
    {
      var rid := tasks[tid].spec.runId;
      tasks := UpdateById(tasks, tid, change);
      attempts := UpdateById(attempts, aid, (a: Attempt) => a.(status := status));
      leases := UpdateById(leases, lid, (l: Lease) => l.(status := LeaseReleased));
      InsertEvent(rid, Some(tid), Some(aid), payload, now);
    }

    method PauseTask(tid: TaskId, lid: Uuid, worker: WorkerId, needsInput: bool, now: Time) returns (r: Result<Task>)
      requires Valid()
      modifies this
      ensures Valid()
      ensures var plan := Plan(old(Abs()), Pause(tid, lid, worker, needsInput), now);
              Replies(r, plan) && Follows(old(Abs()), Abs(), plan, now)
      ensures r.Ok? ==> tid in tasks && r.value == tasks[tid]
    {
      hide Inv, EnabledAll, DoAll, CheckLease, Recompute, Enabled, Plan, UnderLease, SettledBy, HasLease, CanMove, Emit;
      ghost var s, op := Abs(), Op.Pause(tid, lid, worker, needsInput);
      RefusedPlan(s, op, now);
      var active :- RequireActive(tid, lid, worker, now);
      var task, lease := active.0, active.1;
      var status := if needsInput then WaitingInput else Blocked;
      if !CanMove(task.status, status) { return Err(InvalidTransition); }
      SettleDone(s, tid, lid, worker, Park(status), status, now);
      SettlePlan(s, op, now);
      SettledRows(s, tid, Park(status), now, task, lease, active.2);
      LetGo(tid, lid, lease.attemptId, (t: Task) => t.(status := status, leaseId := None, leasedBy := None, leaseExpiresAt := None),
            AttemptReleased, TaskPaused(status, worker), now);
      RecomputeRunStatus(task.spec.runId, now);
      r := RequireTask(tid);
    }

    method ReleaseTask(tid: TaskId, lid: Uuid, worker: WorkerId, now: Time) returns (r: Result<Task>)
      requires Valid()
      modifies this
      ensures Valid()
      ensures var plan := Plan(old(Abs()), Release(tid, lid, worker), now);
              Replies(r, plan) && Follows(old(Abs()), Abs(), plan, now)
      ensures r.Ok? ==> tid in tasks && r.value == tasks[tid]
    {
      hide Inv, EnabledAll, DoAll, CheckLease, Recompute, Enabled, Plan, UnderLease, SettledBy, HasLease, CanMove, Emit;
      ghost var s, op := Abs(), Op.Release(tid, lid, worker);
      RefusedPlan(s, op, now);
      var active :- RequireActive(tid, lid, worker, now);
      var task, lease := active.0, active.1;
      if !CanMove(task.status, Queued) { return Err(InvalidTransition); }
      SettleDone(s, tid, lid, worker, HandBack, Queued, now);
      SettlePlan(s, op, now);
      SettledRows(s, tid, HandBack, now, task, lease, active.2);
      LetGo(tid, lid, lease.attemptId, (t: Task) => t.(status := Queued, leaseId := None, leasedBy := None, leaseExpiresAt := None),
            AttemptReleased, TaskReleased(worker), now);
      RecomputeRunStatus(task.spec.runId, now);
      r := RequireTask(tid);
    }

    /** The task of an outcome that is already on record; there is none if the caller gave no token. */
    method FindCompletion(clientToken: Option<Token>, tid: TaskId, outcome: Outcome) returns (r: Result<Option<Task>>)
      ensures match Known(Abs(), clientToken, tid, outcome)
              case Err(e) => r == Err(e)
              case Ok(known) => if known then tid in tasks && r == Ok(Some(tasks[tid])) else r == Ok(None)
    {
      if clientToken.None? || clientToken.value !in completions { return Ok(None); }
      var record := completions[clientToken.value];
      if record.taskId != tid { return Err(TokenReused); }
      if record.outcome != outcome { return Err(OutcomeMismatch); }
      var task :- RequireTask(tid);
      return Ok(Some(task));
    }

    method RecordCompletion(clientToken: Option<Token>, tid: TaskId, rid: RunId, outcome: Outcome)
      requires tid in tasks && tasks[tid].spec.runId == rid
      modifies this`completions
      ensures Abs() == RecordedBy(old(Abs()), tid, clientToken, outcome)
    {
      if clientToken.Some? {
        completions := completions[clientToken.value := Completion(tid, rid, outcome)];
      }
    }

    method CompleteTask(tid: TaskId, lid: Uuid, worker: WorkerId, clientToken: Option<Token>, now: Time) returns (r: Result<Task>)
      requires Valid()
      modifies this
      ensures Valid()
      ensures var plan := Plan(old(Abs()), Complete(tid, lid, worker, clientToken), now);
              Replies(r, plan) && Follows(old(Abs()), Abs(), plan, now)
      ensures r.Ok? ==> tid in tasks && r.value == tasks[tid]
      ensures r.Ok? && clientToken.Some? ==>
                && clientToken.value in completions && tid in tasks
                && completions[clientToken.value] == Completion(tid, tasks[tid].spec.runId, OutcomeCompleted)
    {
      hide Inv, EnabledAll, DoAll, CheckLease, Recompute, Enabled, Plan, PlanOutcome, Known, SettledBy, RecordedBy, HasLease, CanMove, Emit;
      ghost var s, op := Abs(), Op.Complete(tid, lid, worker, clientToken);
      SettlePlan(s, op, now);
      RefusedOutcome(s, op, now);
      var prior :- FindCompletion(clientToken, tid, OutcomeCompleted);
      if prior.Some? {
        FollowsNothing(s, now);
        if clientToken.Some? { RecordedOnceDone(s, op, now, Abs()); }
        return Ok(prior.value);
      }
      var active :- RequireActive(tid, lid, worker, now);
      var task, lease := active.0, active.1;
      if !CanMove(task.status, Completed) { return Err(InvalidTransition); }
      OutcomeDone(s, tid, lid, worker, Finish, clientToken, OutcomeCompleted, now);
      SettledRows(s, tid, Finish, now, task, lease, active.2);
      LetGo(tid, lid, lease.attemptId, (t: Task) => t.(status := Completed, leaseId := None, leasedBy := None, leaseExpiresAt := None),
            AttemptCompleted, TaskCompleted(worker), now);
      RecordCompletion(clientToken, tid, task.spec.runId, OutcomeCompleted);
      RecomputeRunStatus(task.spec.runId, now);
      r := RequireTask(tid);
      if clientToken.Some? { RecordedOnceDone(s, op, now, Abs()); }
    }

    method FailTask(tid: TaskId, lid: Uuid, worker: WorkerId, error: string, clientToken: Option<Token>, now: Time)
      returns (r: Result<Task>)
      requires Valid()
      modifies this
      ensures Valid()
      ensures var plan := Plan(old(Abs()), Fail(tid, lid, worker, error, clientToken), now);
              Replies(r, plan) && Follows(old(Abs()), Abs(), plan, now)
      ensures r.Ok? ==> tid in tasks && r.value == tasks[tid]
      ensures r.Ok? && clientToken.Some? ==>
                && clientToken.value in completions && tid in tasks
                && completions[clientToken.value] == Completion(tid, tasks[tid].spec.runId, OutcomeFailed)
    {
      hide Inv, EnabledAll, DoAll, CheckLease, Recompute, Enabled, Plan, PlanOutcome, Known, SettledBy, RecordedBy, HasLease, CanMove, Emit;
      ghost var s, op := Abs(), Op.Fail(tid, lid, worker, error, clientToken);
      SettlePlan(s, op, now);
      RefusedOutcome(s, op, now);
      var prior :- FindCompletion(clientToken, tid, OutcomeFailed);
      if prior.Some? {
        FollowsNothing(s, now);
        if clientToken.Some? { RecordedOnceDone(s, op, now, Abs()); }
        return Ok(prior.value);
      }
      var active :- RequireActive(tid, lid, worker, now);
      var task, lease := active.0, active.1;
      if !CanMove(task.status, Failed) { return Err(InvalidTransition); }
      OutcomeDone(s, tid, lid, worker, GiveUp(error), clientToken, OutcomeFailed, now);
      SettledRows(s, tid, GiveUp(error), now, task, lease, active.2);
      LetGo(tid, lid, lease.attemptId,
            (t: Task) => t.(status := Failed, error := Some(error), leaseId := None, leasedBy := None, leaseExpiresAt := None),
            AttemptFailed, TaskFailed(worker, error), now);
      RecordCompletion(clientToken, tid, task.spec.runId, OutcomeFailed);
      RecomputeRunStatus(task.spec.runId, now);
      r := RequireTask(tid);
      if clientToken.Some? { RecordedOnceDone(s, op, now, Abs()); }
    }

    // ---- Cancel ----

    method CancelTables(rid: RunId)
      modifies this`tasks, this`attempts, this`leases
      ensures tasks == map x | x in old(tasks) :: if old(tasks)[x].spec.runId == rid then CancelTask(old(tasks)[x]) else old(tasks)[x]
      ensures attempts == map x | x in old(attempts) ::
                            if old(attempts)[x].runId == rid then CancelAttempt(old(attempts)[x]) else old(attempts)[x]
      ensures leases == map x | x in old(leases) :: if old(leases)[x].runId == rid then CancelLease(old(leases)[x]) else old(leases)[x]
    {
      tasks := UpdateWhere(tasks, (t: Task) => t.spec.runId == rid && t.status != Completed && t.status != Failed && t.status != Cancelled,
                           (t: Task) => t.(status := Cancelled, leaseId := None, leasedBy := None, leaseExpiresAt := None));
      attempts := UpdateWhere(attempts, (a: Attempt) => a.runId == rid && (a.status == AttemptLeased || a.status == AttemptRunning),
                              (a: Attempt) => a.(status := AttemptCancelled));
      leases := UpdateWhere(leases, (l: Lease) => l.runId == rid && l.status == LeaseActive,
                            (l: Lease) => l.(status := LeaseCancelled));
    }

    method CancelRun(rid: RunId, now: Time) returns (r: Result<Run>)
      requires Valid()
      modifies this
      ensures Valid()
      ensures var plan := Plan(old(Abs()), Op.CancelRun(rid), now); Replies(r, plan) && Follows(old(Abs()), Abs(), plan, now)
      ensures r.Ok? ==> rid in runs && r.value == runs[rid] && r.value.status == RunCancelled
    {
      hide Inv, EnabledAll, DoAll, CancelRows;
      var run :- RequireRun(rid);
      if run.status == RunCancelled {
        FollowsNothing(Abs(), now);
        return Ok(run);
      }
      ghost var s := Abs();
      CancelDone(s, rid, now);
      hide Follows;
      runs := UpdateById(runs, rid, (r: Run) => r.(status := RunCancelled, updatedAt := now));
      CancelTables(rid);
      hide CancelTask, CancelAttempt, CancelLease;
      CancelRowsAre(s, rid, now, Abs());
      InsertEvent(rid, None, None, RunCancelledByCaller, now);
      r := RequireRun(rid);
    }

    // ---- Sweep and claim ----

    method ExpireOne(tid: TaskId, task: Task, now: Time)
      requires HasLease(Abs(), tid) && tasks[tid] == task && task.spec.runId in runs
      modifies this`runs, this`tasks, this`attempts, this`leases, this`events, this`lastEventId
      ensures Abs() == Recompute(ExpiredBy(old(Abs()), tid, now), task.spec.runId, now)
    {
      hide Recompute, ExpiredBy, Emit, ComputeNotBefore;
      var rid, lid, worker := task.spec.runId, task.leaseId.value, task.leasedBy.value;
      var aid := leases[lid].attemptId;
      ExpiredRows(Abs(), tid, now, task, leases[lid], attempts[aid]);
      attempts := UpdateById(attempts, aid, (a: Attempt) => a.(status := AttemptExpired));
      leases := UpdateById(leases, lid, (l: Lease) => l.(status := LeaseExpired));
      var exhausted := task.spec.maxAttempts.Some? && task.attemptCount >= task.spec.maxAttempts.value;
      if exhausted {
        tasks := UpdateById(tasks, tid, (t: Task) =>
          t.(status := Failed, error := Some(MAX_ATTEMPTS_EXCEEDED), leaseId := None, leasedBy := None, leaseExpiresAt := None,
             notBefore := None, dead := true));
        InsertEvent(rid, Some(tid), Some(aid), TaskFailed(worker, MAX_ATTEMPTS_EXCEEDED), now);
        InsertEvent(rid, Some(tid), Some(aid), TaskDeadLettered(worker, task.attemptCount, task.spec.maxAttempts.value), now);
      } else {
        var notBefore := ComputeNotBefore(task, now);
        tasks := UpdateById(tasks, tid, (t: Task) =>
          t.(status := Queued, leaseId := None, leasedBy := None, leaseExpiresAt := None, notBefore := notBefore));
        InsertEvent(rid, Some(tid), Some(aid), TaskLeaseExpired(worker, task.status, lid, notBefore), now);
      }
      assert Abs() == ExpiredBy(old(Abs()), tid, now);
      RecomputeRunStatus(rid, now);
    }

    method Sweep(now: Time) returns (rows: seq<TaskId>)
      requires Valid()
      modifies this
      ensures Valid() && used == old(used)
      ensures IsSweepOrder(old(Abs()), now, rows) && SweptSoFar(old(Abs()), Abs(), rows, now)
    {
      hide Inv, EnabledAll, DoAll, Recompute, Swept, ExpiredBy, HasLease;
      ghost var s := Abs();
      SweepStart(s, now);
      rows := SelectLapsed(tasks, now);
      assert IsSweepOrder(s, now, rows);
      assert rows[..0] == [];
      for i := 0 to |rows|
        invariant SweptSoFar(s, Abs(), rows[..i], now) && used == old(used)
      {
        assert rows[i] in rows && rows[i] !in rows[..i];
        SweepRoundReady(s, Abs(), rows[..i], rows[i], now);
        var task := tasks[rows[i]];
        SweepNeverSkips(Abs(), rows[i]);
        if task.leaseId.None? { assert false; continue; }
        if task.leaseId.value !in leases || leases[task.leaseId.value].attemptId !in attempts { assert false; }
        SweepRound(s, Abs(), rows[..i], rows[i], now);
        ExpireOne(rows[i], task, now);
        assert rows[..i] + [rows[i]] == rows[..i + 1];
      }
      assert rows[..|rows|] == rows;
    }

    method ExpireLeases(now: Time) returns (rows: seq<TaskId>)
      requires Valid()
      modifies this
      ensures Valid()
      ensures Next(old(Abs()), Step(Op.Sweep(rows), now), Abs())
    {
      hide Inv, EnabledAll, DoAll, Swept;
      rows := Sweep(now);
    }

    method RehydrateLease(lid: Uuid) returns (r: Claimed)
      requires Valid() && lid in leases
      ensures ClaimedRows(Abs(), r) && r.leaseId == lid
    {
      LeaseRows(Abs(), lid);
      hide Inv;
      var lease := leases[lid];
      return Claimed(lid, runs[lease.runId], tasks[lease.taskId], attempts[lease.attemptId], lease);
    }

    method Take(tid: TaskId, lid: Uuid, aid: Uuid, worker: WorkerId, expiresAt: Time, clientToken: Option<Token>, now: Time)
      requires tid in tasks && tasks[tid].spec.runId in runs && tasks[tid].status == Queued && tasks[tid].leaseId.None?
      modifies this
      ensures Abs() == Recompute(GrantedBy(old(Abs()), tid, lid, aid, worker, expiresAt, clientToken, now),
                                 old(tasks)[tid].spec.runId, now)
      ensures leases == old(leases)[lid := Lease(old(tasks)[tid].spec.runId, tid, aid, worker, LeaseActive, expiresAt, clientToken)]
    {
      hide Recompute;
      var row := tasks[tid];
      var takenRows := if tid in tasks && tasks[tid].status == Queued && tasks[tid].leaseId.None? then 1 else 0;
      assert takenRows == 1;
      tasks := UpdateById(tasks, tid, (t: Task) =>
        t.(status := Leased, attemptCount := t.attemptCount + 1, leaseId := Some(lid), leasedBy := Some(worker),
           leaseExpiresAt := Some(expiresAt), notBefore := None));
      attempts := attempts[aid := Attempt(row.spec.runId, tid, worker, AttemptLeased, expiresAt)];
      leases := leases[lid := Lease(row.spec.runId, tid, aid, worker, LeaseActive, expiresAt, clientToken)];
      used := used + {lid, aid};
      InsertEvent(row.spec.runId, Some(tid), Some(aid), TaskClaimed(worker, lid, expiresAt), now);
      RecomputeRunStatus(row.spec.runId, now);
    }

    /** SELECT id FROM task_leases WHERE client_token = ? */
    method SelectToken(token: Token) returns (row: Option<Uuid>)
      ensures row.Some? ==> row.value in leases && leases[row.value].clientToken == Some(token)
      ensures row.Some? <==> TokenUsed(Abs(), token)
    {
      var todo := leases.Keys;
      while todo != {}
        invariant todo <= leases.Keys
        invariant forall x | x in leases && x !in todo :: leases[x].clientToken != Some(token)
        decreases |todo|
      {
        var x :| x in todo;
        if leases[x].clientToken == Some(token) { return Some(x); }
        todo := todo - {x};
      }
      return None;
    }

    /** `newLease` and `newAttempt` stand for the two ids drawn with `randomUUID`; `op` records the choices made. */
    method ClaimNextTask(worker: WorkerId, leaseMs: int, kinds: seq<Kind>, clientToken: Option<Token>, now: Time,
                         newLease: Uuid, newAttempt: Uuid)
      returns (r: Option<Claimed>, ghost op: Op)
      requires Valid() && newLease !in used && newAttempt !in used && newLease != newAttempt
      modifies this
      ensures Valid()
      ensures op.Claim? && op.(order := [], pick := None) == Claim(worker, leaseMs, kinds, clientToken, [], None, newLease, newAttempt)
      ensures Next(old(Abs()), Step(op, now), Abs())
      ensures r.Some? ==> ClaimedRows(Abs(), r.value) && r.value.lease.clientToken == clientToken
      ensures if clientToken.Some? && TokenUsed(old(Abs()), clientToken.value) then Abs() == old(Abs()) && r.Some?
              else r.Some? == op.pick.Some? && (r.Some? ==> r.value.leaseId == newLease && r.value.lease.taskId == op.pick.value)
    {
      hide Inv, EnabledAll, DoAll, Recompute, GrantedBy, Swept, IsSweepOrder, Next, TokenUsed, ClaimWhere, Ranks, Claimable;
      ghost var s := Abs();
      if clientToken.Some? {
        var existing := SelectToken(clientToken.value);
        if existing.Some? {
          op := Claim(worker, leaseMs, kinds, clientToken, [], None, newLease, newAttempt);
          ClaimReplayed(s, op, now);
          var replayed := RehydrateLease(existing.value);
          return Some(replayed), op;
        }
      }
      ghost var order := Sweep(now);
      var row := SelectClaim(runs, tasks, kinds, now);
      SelectedIsBest(Abs(), kinds, now, row);
      op := Claim(worker, leaseMs, kinds, clientToken, order, row, newLease, newAttempt);
      if row.None? {
        ClaimNothing(s, Abs(), op, now);
        return None, op;
      }
      ClaimDone(s, Abs(), op, now);
      ClaimUpdatesOneRow(Abs(), row.value, now);
      hide BestPick;
      Take(row.value, newLease, newAttempt, worker, now + leaseMs, clientToken, now);
      var claimed := RehydrateLease(newLease);
      return Some(claimed), op;
    }

    // ---- Events and pruning ----

    method ListEventsSince(after: Option<int>, q: Query) returns (page: seq<Event>, nextCursor: Option<int>)
      ensures (page, nextCursor) == Page(events, after, q)
    {
      page, nextCursor := SelectEvents(events, after, q);
    }

    method DeleteHolds(rid: RunId)
      modifies this`completions, this`leases, this`attempts
      ensures completions == map x | x in old(completions) && old(completions)[x].runId != rid :: old(completions)[x]
      ensures leases == map x | x in old(leases) && old(leases)[x].runId != rid :: old(leases)[x]
      ensures attempts == map x | x in old(attempts) && old(attempts)[x].runId != rid :: old(attempts)[x]
    {
      completions := DeleteWhere(completions, (c: Completion) => c.runId == rid);
      leases := DeleteWhere(leases, (l: Lease) => l.runId == rid);
      attempts := DeleteWhere(attempts, (a: Attempt) => a.runId == rid);
    }

    method DeleteRun(rid: RunId)
      modifies this
      ensures Abs() == PurgeRows(old(Abs()), rid)
    {
      hide Filter, DropRun, PurgeRows;
      ghost var s := Abs();
      DeleteHolds(rid);
      DropRunIsFilter(events, rid, (e: Event) => e.runId != rid);
      events := Filter(events, (e: Event) => e.runId != rid);
      tasks := DeleteWhere(tasks, (t: Task) => t.spec.runId == rid);
      runs := runs - {rid};
      assert tasks == map x | x in s.tasks && s.tasks[x].spec.runId != rid :: s.tasks[x];
      hide DeleteWhere;
      PurgeRowsAre(s, rid, Abs());
    }

    method PruneRuns(statuses: seq<RunStatus>, cutoff: Time, limit: int) returns (ids: seq<RunId>)
      requires Valid()
      modifies this
      ensures Valid()
      ensures var available := |PruneCandidates(old(Abs()), statuses, cutoff)|;
              && Next(old(Abs()), Step(Prune(statuses, cutoff, LimitTake(limit, available), ids), 0), Abs())
              && |ids| == if limit < 0 || available < limit then available else limit
      ensures forall r :: r in ids <==> r in old(runs) && r !in runs
      ensures forall r | r in ids ::
                && old(runs)[r].updatedAt < cutoff
                && if |statuses| == 0 then old(runs)[r].status in {RunCompleted, RunFailed, RunCancelled}
                   else old(runs)[r].status in statuses
    {
      hide Inv, EnabledAll, DoAll, PurgeRows, PruneChoice, PruneCandidates, NoDuplicates;
      ghost var s := Abs();
      ids := SelectPrunable(runs, statuses, cutoff, limit);
      ghost var take := LimitTake(limit, |PruneCandidates(s, statuses, cutoff)|);
      assert PruneChoice(s, statuses, cutoff, take, ids);
      ChoiceKnown(s, statuses, cutoff, take, ids);
      PruneStart(s, 0);
      assert ids[..0] == [];
      for i := 0 to |ids|
        invariant PurgedSoFar(s, Abs(), ids[..i], 0)
      {
        PurgesLeave(s, ids, i, 0);
        PurgeRound(s, Abs(), ids[..i], ids[i], 0);
        DeleteRun(ids[i]);
        assert ids[..i] + [ids[i]] == ids[..i + 1];
      }
      assert ids[..|ids|] == ids;
      TakenRuns(s, statuses, cutoff, take, ids, 0);
      TakenDue(s, statuses, cutoff, take, ids);
    }
  }
}
