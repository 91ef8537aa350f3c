/** The in-memory store (adapters/memory/src/store.ts): an object over maps and an event array, updated row by
    row.  Every method is shown to take the step that the transactions prescribe. */
module MemoryStore {
  import opened Records
  import opened StateMachine
  import opened Writes
  import opened Invariant
  import opened Preservation
  import opened Transactions
  import opened Refinement
  import opened Reuse
  import opened Paging
  import opened Tokens
  import opened Sorting

  /** The index from claim tokens to leases is exactly a scan of the leases. */
  ghost predicate IndexOk(leases: map<Uuid, Lease>, index: map<Token, Uuid>) {
    && (forall token | token in index :: index[token] in leases && leases[index[token]].clientToken == Some(token))
    && (forall lid | lid in leases :: leases[lid].clientToken.Some? ==> leases[lid].clientToken.value in index)
  }

  predicate RanksFirst(a: (TaskId, Task), b: (TaskId, Task)) {
    Ranks(a.1, b.1)
  }

  lemma FreshLease(s: State, lid: Uuid)
    requires Inv(s) && lid !in s.used
    ensures lid !in s.leases
  {
    hide Inv;
    InvTables(s);
    FreshIds(s, lid);
  }

  lemma IndexAdd(leases: map<Uuid, Lease>, index: map<Token, Uuid>, lid: Uuid, l: Lease)
    requires IndexOk(leases, index) && lid !in leases && (l.clientToken.Some? ==> l.clientToken.value !in index)
    ensures IndexOk(leases[lid := l], if l.clientToken.Some? then index[l.clientToken.value := lid] else index)
  {}

  lemma IndexUpdate(leases: map<Uuid, Lease>, index: map<Token, Uuid>, lid: Uuid, l: Lease)
    requires IndexOk(leases, index) && lid in leases && l.clientToken == leases[lid].clientToken
    ensures IndexOk(leases[lid := l], index)
  {}

  lemma IndexScan(s: State, index: map<Token, Uuid>, token: Token)
    requires IndexOk(s.leases, index)
    ensures token in index <==> TokenUsed(s, token)
    ensures token in index ==> index[token] in s.leases && s.leases[index[token]].clientToken == Some(token)
  {}

  ghost predicate DistinctTokens(leases: map<Uuid, Lease>) {
    forall l, m | l in leases && m in leases ::
      leases[l].clientToken.Some? && leases[l].clientToken == leases[m].clientToken ==> l == m
  }

  lemma UniqueTokens(s: State)
    requires Inv(s)
    ensures DistinctTokens(s.leases)
  {
    hide Inv;
    InvTables(s);
  }

  lemma IndexRemove(leases: map<Uuid, Lease>, index: map<Token, Uuid>, lid: Uuid)
    requires IndexOk(leases, index) && DistinctTokens(leases) && lid in leases
    ensures DistinctTokens(leases - {lid})
    ensures IndexOk(leases - {lid}, if leases[lid].clientToken.Some? then index - {leases[lid].clientToken.value} else index)
  {}

  function AfterId(rows: seq<Event>, after: Option<int>): seq<Event> {
    if after.Some? then Filter(rows, (e: Event) => e.id > after.value) else rows
  }

  function OfRun(rows: seq<Event>, runId: Option<RunId>): seq<Event> {
    if runId.Some? then Filter(rows, (e: Event) => e.runId == runId.value) else rows
  }

  function OfTypes(rows: seq<Event>, types: seq<string>): seq<Event> {
    if |types| > 0 then Filter(rows, (e: Event) => TypeOf(e.payload) in types) else rows
  }

  lemma FilterSnoc<T>(xs: seq<T>, x: T, keep: T -> bool)
    ensures Filter(xs + [x], keep) == Filter(xs, keep) + if keep(x) then [x] else []
  {
    assert (xs + [x])[..|xs + [x]| - 1] == xs;
  }

  lemma StagesSnoc(rows: seq<Event>, e: Event, after: Option<int>, q: Query)
    ensures AfterId(rows + [e], after) == AfterId(rows, after) + if Above(e.id, after) then [e] else []
    ensures OfRun(rows + [e], q.runId) == OfRun(rows, q.runId) + if q.runId.None? || e.runId == q.runId.value then [e] else []
    ensures OfTypes(rows + [e], q.types) == OfTypes(rows, q.types) + if |q.types| == 0 || TypeOf(e.payload) in q.types then [e] else []
  {
    if after.Some? { FilterSnoc(rows, e, (e: Event) => e.id > after.value); }
    if q.runId.Some? { FilterSnoc(rows, e, (e: Event) => e.runId == q.runId.value); }
    if |q.types| > 0 { FilterSnoc(rows, e, (e: Event) => TypeOf(e.payload) in q.types); }
  }

  /** The filters, one after the other, select the same events as one query with all the conditions. */
  lemma {:induction false} FilterChain(log: seq<Event>, after: Option<int>, q: Query)
    ensures OfTypes(OfRun(AfterId(log, after), q.runId), q.types) == Select(log, after, q)
  {
    if |log| == 0 {
      assert AfterId(log, after) == [] && OfRun([], q.runId) == [] && OfTypes([], q.types) == [];
    } else {
      hide AfterId, OfRun, OfTypes;
      var init, e := log[..|log| - 1], log[|log| - 1];
      assert log == init + [e];
      FilterChain(init, after, q);
      var a := AfterId(init, after);
      var b := OfRun(a, q.runId);
      StagesSnoc(init, e, after, q);
      StagesSnoc(a, e, after, q);
      StagesSnoc(b, e, after, q);
    }
  }

  class MemoryStore {
    var runs: map<RunId, Run>
    var tasks: map<TaskId, Task>
    var attempts: map<Uuid, Attempt>
    var leases: map<Uuid, Lease>
    var leaseByClientToken: map<Token, Uuid>
    var completions: map<Token, Completion>
    var events: seq<Event>
    var eventSeq: nat
    ghost var used: set<Uuid>

    ghost function Abs(): State
      reads this
    {
      State(runs, tasks, attempts, leases, completions, events, eventSeq, used)
    }

    ghost predicate Valid()
      reads this
    {
      Inv(Abs()) && IndexOk(leases, leaseByClientToken)
    }

    constructor ()
      ensures Valid() && Abs() == EMPTY
    {
      runs, tasks, attempts, leases, leaseByClientToken, completions := map[], map[], map[], map[], map[], map[];
      events, eventSeq, used := [], 0, {};
      new;
      EmptyInv();
    }

    // ---- Private methods ----

    method EmitEvent(rid: RunId, tid: Option<TaskId>, aid: Option<Uuid>, payload: Payload, now: Time)
      modifies this`events, this`eventSeq
      ensures Abs() == Emit(old(Abs()), rid, tid, aid, payload, now)
    {
      eventSeq := eventSeq + 1;
      events := events + [Event(eventSeq, rid, tid, aid, payload, now)];
    }

    method RequireTask(tid: TaskId) returns (r: Result<Task>)
      ensures r == if tid in tasks then Ok(tasks[tid]) else Err(NotFound)
    {
      if tid !in tasks { return Err(NotFound); }
      return Ok(tasks[tid]);
    }

    method RequireRun(rid: RunId) returns (r: Result<Run>)
      ensures r == if rid in runs then Ok(runs[rid]) else Err(NotFound)
    {
      if rid !in runs { return Err(NotFound); }
      return Ok(runs[rid]);
    }

    method RecomputeRunStatus(rid: RunId, now: Time)
      modifies this`runs, this`events, this`eventSeq
      ensures rid in old(runs) ==> Abs() == Recompute(old(Abs()), rid, now)
      ensures rid !in old(runs) ==> Abs() == old(Abs())
    {
      if rid !in runs { return; }
      var current := runs[rid];
      var statuses: seq<TaskStatus> := [];
      var todo := tasks.Keys;
      while todo != {}
        invariant todo <= tasks.Keys
        invariant Present(statuses) == set tid | tid in tasks && tid !in todo && InRun(Abs(), tid, rid) :: tasks[tid].status
        decreases |todo|
      {
        var tid :| tid in todo;
        todo := todo - {tid};
        if tasks[tid].spec.runId == rid {
          assert Present(statuses + [tasks[tid].status]) == Present(statuses) + {tasks[tid].status};
          statuses := statuses + [tasks[tid].status];
        }
      }
      assert Present(statuses) == StatusesOf(Abs(), rid);
      DeriveByPresence(current.status, statuses, current.status);
      var next := DeriveRunStatus(current.status, statuses);
      hide DeriveRunStatus, DeriveFrom, DeriveOr, Present, StatusesOf;
      if next != current.status {
        runs := runs[rid := current.(status := next, updatedAt := now)];
        EmitEvent(rid, None, None, RunStatusChanged(current.status, next), now);
      } else {
        runs := runs[rid := current.(updatedAt := now)];
      }
    }

    method AssertActiveLease(tid: TaskId, task: Task, lid: Uuid, worker: WorkerId, now: Time)
      returns (r: Result<(Lease, Attempt)>)
      requires tid in tasks && tasks[tid] == task
      ensures r.Err? ==> CheckLease(Abs(), tid, lid, worker, now) == Some(r.error)
      ensures r.Ok? ==>
                && CheckLease(Abs(), tid, lid, worker, now).None?
                && lid in leases && r.value.0 == leases[lid]
                && r.value.0.attemptId in attempts && r.value.1 == attempts[r.value.0.attemptId]
    {
      if task.leaseId.None? || task.leaseId.value != lid || task.leasedBy != Some(worker) { return Err(LeaseConflict); }
      if task.leaseExpiresAt.None? || task.leaseExpiresAt.value < now { return Err(LeaseLapsed); }
      if lid !in leases { return Err(NotFound); }
      var lease := leases[lid];
      if lease.status != LeaseActive || lease.worker != worker { return Err(LeaseConflict); }
      if lease.attemptId !in attempts { return Err(NotFound); }
      return Ok((lease, attempts[lease.attemptId]));
    }

    /** The beginning of every call under a lease. */
    method RequireActive(tid: TaskId, lid: Uuid, worker: WorkerId, now: Time) returns (r: Result<(Task, Lease, Attempt)>)
      ensures r.Err? ==> CheckLease(Abs(), tid, lid, worker, now) == Some(r.error)
      ensures r.Ok? ==>
                && CheckLease(Abs(), tid, lid, worker, now).None?
                && tid in tasks && r.value.0 == tasks[tid] && lid in leases && r.value.1 == leases[lid]
                && r.value.1.attemptId in attempts && r.value.2 == attempts[r.value.1.attemptId]
                && r.value.0.leaseId == Some(lid) && r.value.0.leasedBy == Some(worker)
    {
      var task :- RequireTask(tid);
      var active :- AssertActiveLease(tid, task, lid, worker, now);
      return Ok((task, active.0, active.1));
    }

    // ---- Runs and tasks ----

    /** A run id that is in use has its row overwritten. */
    method CreateRun(rid: RunId, now: Time) returns (run: Run)
      requires Valid()
      modifies this
      ensures Abs() == CreatedOver(old(Abs()), rid, now)
      ensures rid !in old(runs) ==> Follows(old(Abs()), Abs(), Plan(old(Abs()), Op.CreateRun(rid), now), now)
      ensures Valid() <==> NoTaskIn(old(Abs()), rid)
      ensures rid !in old(runs) ==> Valid()
      ensures rid in runs && run == runs[rid]
    {
      hide Inv, EnabledAll, DoAll, IndexOk, NoTaskIn;
      CreatedKeepsInv(Abs(), rid, now);
      if rid !in runs {
        FreshRun(Abs(), rid);
        CreateRunDone(Abs(), rid, now);
      }
      run := Run(RunPending, now);
      runs := runs[rid := run];
      EmitEvent(rid, None, None, RunCreated, now);
    }

    method HasKey(rid: RunId, key: Key) returns (found: bool)
      ensures found == KeyTaken(Abs(), rid, key)
    {
      var todo := tasks.Keys;
      while todo != {}
        invariant todo <= tasks.Keys
        invariant forall x | x in tasks && x !in todo :: tasks[x].spec.runId != rid || tasks[x].spec.key != Some(key)
        decreases |todo|
      {
        var x :| x in todo;
        if tasks[x].spec.runId == rid && tasks[x].spec.key == Some(key) { return true; }
        todo := todo - {x};
      }
      return false;
    }

    /** The checks of `enqueueTask`. */
    method Admit(tid: TaskId, options: EnqueueOptions) returns (r: Result<Run>)
      ensures r.Err? ==> PlanEnqueueEach(Abs(), tid, options) == Err(r.error)
      ensures r.Ok? ==> PlanEnqueueEach(Abs(), tid, options).Ok? && options.runId in runs && r.value == runs[options.runId]
    {
      hide KeyTaken;
      var run :- RequireRun(options.runId);
      if run.status == RunCompleted || run.status == RunFailed || run.status == RunCancelled { return Err(RunTerminal); }
      if options.key.Some? {
        var taken := HasKey(options.runId, options.key.value);
        if taken { return Err(DuplicateTaskKey); }
      }
      if tid in options.deps { return Err(DependencyCycle); }
      for i := 0 to |options.deps|
        invariant forall d | d in options.deps[..i] :: InRun(Abs(), d, options.runId)
      {
        var dep := options.deps[i];
        if dep !in tasks || tasks[dep].spec.runId != options.runId {
          assert dep in options.deps && !InRun(Abs(), dep, options.runId);
          return Err(ForeignDependency);
        }
      }
      assert options.deps[..|options.deps|] == options.deps;
      return Ok(run);
    }

    /** A task id that is in use has its row overwritten. */
    method EnqueueTask(tid: TaskId, options: EnqueueOptions, now: Time) returns (r: Result<Task>)
      requires Valid()
      modifies this
      ensures var plan := PlanEnqueueEach(old(Abs()), tid, options);
              && Replies(r, plan)
              && (plan.Err? ==> Abs() == old(Abs()))
              && (plan.Ok? ==> Abs() == Recompute(EnqueuedOver(old(Abs()), tid, SpecOf(options), now), options.runId, now))
              && (tid !in old(tasks) ==> Follows(old(Abs()), Abs(), plan, now))
      ensures Valid() <==> r.Err? || Replaceable(old(Abs()), tid, SpecOf(options))
      ensures tid !in old(tasks) ==> Valid()
      ensures r.Ok? ==> tid in tasks && r.value == tasks[tid]
    {
      hide Inv, EnabledAll, DoAll, Recompute, IndexOk, Do, Replaceable, Admitted, KeyTaken;
      ghost var s := Abs();
      var run :- Admit(tid, options);
      hide PlanEnqueueEach, Follows;
      AdmittedByPlan(s, tid, options);
      EnqueuedKeepsInv(s, tid, SpecOf(options), now);
      if tid !in tasks { FreshTask(s, tid, options, now); }
      var task := Task(SpecOf(options), now, eventSeq, Queued, 0, None, None, None, None, None, false);
      tasks := tasks[tid := task];
      EmitEvent(options.runId, Some(tid), None, TaskEnqueued(options.kind, options.priority, Elements(options.deps)), now);
      RecomputeRunStatus(options.runId, now);
      r := Ok(task);
    }

    method ResumeTask(tid: TaskId, now: Time) returns (r: Result<Task>)
      requires Valid()
      modifies this
      ensures Valid()
      ensures var plan := Plan(old(Abs()), Resume(tid), now); Replies(r, plan) && Follows(old(Abs()), Abs(), plan, now)
      ensures r.Ok? ==> tid in tasks && r.value == tasks[tid]
    {
      hide Inv, EnabledAll, DoAll, Recompute, IndexOk;
      var task :- RequireTask(tid);
      if task.status != Blocked && task.status != WaitingInput { return Err(InvalidTransition); }
      ReviveDone(Abs(), tid, now);
      var updated := task.(status := Queued);
      tasks := tasks[tid := updated];
      EmitEvent(task.spec.runId, Some(tid), None, TaskResumed, now);
      RecomputeRunStatus(task.spec.runId, now);
      r := Ok(updated);
    }

    method RequeueDeadTask(tid: TaskId, resetAttempts: bool, notBefore: Option<Time>, now: Time) returns (r: Result<Task>)
      requires Valid()
      modifies this
      ensures Valid()
      ensures var plan := Plan(old(Abs()), RequeueDead(tid, resetAttempts, notBefore), now);
              Replies(r, plan) && Follows(old(Abs()), Abs(), plan, now)
      ensures r.Ok? ==> tid in tasks && r.value == tasks[tid]
    {
      hide Inv, EnabledAll, DoAll, Recompute, IndexOk;
      var task :- RequireTask(tid);
      if !task.dead { return Err(InvalidTransition); }
      RedriveDone(Abs(), tid, resetAttempts, notBefore, now);
      var updated := task.(status := Queued, dead := false, error := None, leaseId := None, leasedBy := None,
                           leaseExpiresAt := None, notBefore := notBefore,
                           attemptCount := if resetAttempts then 0 else task.attemptCount);
      tasks := tasks[tid := updated];
      EmitEvent(task.spec.runId, Some(tid), None, TaskRequeued(resetAttempts, notBefore, task.attemptCount), now);
      RecomputeRunStatus(task.spec.runId, now);
      r := Ok(updated);
    }

    // ---- Writes under a lease ----

    method HeartbeatLease(tid: TaskId, lid: Uuid, worker: WorkerId, leaseMs: int, now: Time) returns (r: Result<Lease>)
      requires Valid()
      modifies this
      ensures Valid()
      ensures var plan := Plan(old(Abs()), Heartbeat(tid, lid, worker, leaseMs), now);
              Replies(r, plan) && Follows(old(Abs()), Abs(), plan, now)
      ensures r.Ok? ==> lid in leases && r.value == leases[lid]
    {
      hide Inv, EnabledAll, DoAll, CheckLease, Plan, IndexOk;
      var expiresAt := now + leaseMs;
      HeartbeatReply(Abs(), tid, lid, worker, leaseMs, now);
      var active :- RequireActive(tid, lid, worker, now);
      var task, lease, attempt := active.0, active.1, active.2;
      ExtendDone(Abs(), tid, lid, worker, leaseMs, now);
      tasks := tasks[tid := task.(leaseExpiresAt := Some(expiresAt))];
      attempts := attempts[lease.attemptId := attempt.(expiresAt := expiresAt)];
      var updated := lease.(expiresAt := expiresAt);
      IndexUpdate(leases, leaseByClientToken, lid, updated);
      leases := leases[lid := updated];
      EmitEvent(task.spec.runId, Some(tid), Some(lease.attemptId), TaskHeartbeat(worker, lid, expiresAt), now);
      r := Ok(updated);
    }

    /** The rows and the event of a task whose holder lets go of it. */
    method LetGo(tid: TaskId, lid: Uuid, task: Task, lease: Lease, attempt: Attempt, payload: Payload, now: Time)
      requires lid in leases && leases[lid] == lease
      modifies this`tasks, this`attempts, this`leases, this`events, this`eventSeq
      ensures Abs() == Emit(old(Abs()).(tasks := old(tasks)[tid := task],
                                        attempts := old(attempts)[lease.attemptId := attempt],
                                        leases := old(leases)[lid := lease.(status := LeaseReleased)]),
                            task.spec.runId, Some(tid), Some(lease.attemptId), payload, now)
      ensures tasks == old(tasks)[tid := task]
      ensures IndexOk(old(leases), leaseByClientToken) ==> IndexOk(leases, leaseByClientToken)
    {
      tasks := tasks[tid := task];
      attempts := attempts[lease.attemptId := attempt];
      leases := leases[lid := lease.(status := LeaseReleased)];
      EmitEvent(task.spec.runId, Some(tid), Some(lease.attemptId), payload, now);
    }

    method MarkTaskRunning(tid: TaskId, lid: Uuid, worker: WorkerId, now: Time) returns (r: Result<Task>)
      requires Valid()
      modifies this
      ensures Valid()
      ensures var plan := Plan(old(Abs()), MarkRunning(tid, lid, worker), now);
              Replies(r, plan) && Follows(old(Abs()), Abs(), plan, now)
      ensures r.Ok? ==> tid in tasks && r.value == tasks[tid]
    {
      hide Inv, EnabledAll, DoAll, CheckLease, Recompute, Plan, CanMove, IndexOk;
      RefusedPlan(Abs(), Op.MarkRunning(tid, lid, worker), now);
      var active :- RequireActive(tid, lid, worker, now);
      var task, lease, attempt := active.0, active.1, active.2;
      if !CanMove(task.status, Running) { return Err(InvalidTransition); }
      BeginPlan(Abs(), tid, lid, worker, now);
      BeginDone(Abs(), tid, lid, worker, now);
      var updated := task.(status := Running);
      tasks := tasks[tid := updated];
      attempts := attempts[lease.attemptId := attempt.(status := AttemptRunning)];
      EmitEvent(task.spec.runId, Some(tid), Some(lease.attemptId), TaskRunning(worker, lid), now);
      RecomputeRunStatus(task.spec.runId, now);
      r := Ok(updated);
    }

    method PauseTask(tid: TaskId, lid: Uuid, worker: WorkerId, needsInput: bool, now: Time) returns (r: Result<Task>)
      requires Valid()
      modifies this
      ensures Valid()
      ensures var plan := Plan(old(Abs()), Pause(tid, lid, worker, needsInput), now);
              Replies(r, plan) && Follows(old(Abs()), Abs(), plan, now)
      ensures r.Ok? ==> tid in tasks && r.value == tasks[tid]
    {
      hide Inv, EnabledAll, DoAll, CheckLease, Recompute, Enabled, Plan, UnderLease, SettledBy, HasLease, CanMove, IndexOk, Emit;
      ghost var s, op := Abs(), Op.Pause(tid, lid, worker, needsInput);
      RefusedPlan(s, op, now);
      var active :- RequireActive(tid, lid, worker, now);
      var task, lease, attempt := active.0, active.1, active.2;
      var status := if needsInput then WaitingInput else Blocked;
      if !CanMove(task.status, status) { return Err(InvalidTransition); }
      SettleDone(Abs(), tid, lid, worker, Park(status), status, now);
      SettlePlan(s, op, now);
      SettledRows(s, tid, Park(status), now, task, lease, attempt);
      var updated := task.(status := status, leaseId := None, leasedBy := None, leaseExpiresAt := None);
      LetGo(tid, lid, updated, lease, attempt.(status := AttemptReleased), TaskPaused(status, worker), now);
      RecomputeRunStatus(task.spec.runId, now);
      r := Ok(updated);
    }

    method ReleaseTask(tid: TaskId, lid: Uuid, worker: WorkerId, now: Time) returns (r: Result<Task>)
      requires Valid()
      modifies this
      ensures Valid()
      ensures var plan := Plan(old(Abs()), Release(tid, lid, worker), now);
              Replies(r, plan) && Follows(old(Abs()), Abs(), plan, now)
      ensures r.Ok? ==> tid in tasks && r.value == tasks[tid]
    {
      hide Inv, EnabledAll, DoAll, CheckLease, Recompute, Enabled, Plan, UnderLease, SettledBy, HasLease, CanMove, IndexOk, Emit;
      ghost var s, op := Abs(), Op.Release(tid, lid, worker);
      RefusedPlan(s, op, now);
      var active :- RequireActive(tid, lid, worker, now);
      var task, lease, attempt := active.0, active.1, active.2;
      if !CanMove(task.status, Queued) { return Err(InvalidTransition); }
      SettleDone(Abs(), tid, lid, worker, HandBack, Queued, now);
      SettlePlan(s, op, now);
      SettledRows(s, tid, HandBack, now, task, lease, attempt);
      var updated := task.(status := Queued, leaseId := None, leasedBy := None, leaseExpiresAt := None);
      LetGo(tid, lid, updated, lease, attempt.(status := AttemptReleased), TaskReleased(worker), now);
      RecomputeRunStatus(task.spec.runId, now);
      r := Ok(updated);
    }

    /** The task of an outcome that is already on record; there is none if the caller gave no token. */
    method FindCompletion(clientToken: Option<Token>, tid: TaskId, outcome: Outcome) returns (r: Result<Option<Task>>)
      ensures match Known(Abs(), clientToken, tid, outcome)
              case Err(e) => r == Err(e)
              case Ok(known) => if known then tid in tasks && r == Ok(Some(tasks[tid])) else r == Ok(None)
    {
      if clientToken.None? || clientToken.value !in completions { return Ok(None); }
      var record := completions[clientToken.value];
      if record.taskId != tid { return Err(TokenReused); }
      if record.outcome != outcome { return Err(OutcomeMismatch); }
      var task :- RequireTask(tid);
      return Ok(Some(task));
    }

    /** Nothing to record if the caller gave no token. */
    method RecordCompletion(clientToken: Option<Token>, tid: TaskId, rid: RunId, outcome: Outcome)
      requires tid in tasks && tasks[tid].spec.runId == rid
      modifies this`completions
      ensures Abs() == RecordedBy(old(Abs()), tid, clientToken, outcome)
    {
      if clientToken.Some? {
        completions := completions[clientToken.value := Completion(tid, rid, outcome)];
      }
    }

    /** The rows, event, token and run status of an outcome. */
    method WriteOutcome(tid: TaskId, lid: Uuid, updated: Task, ghost task: Task, lease: Lease, attempt: Attempt,
                        ghost how: Settlement, status: AttemptStatus, payload: Payload,
                        clientToken: Option<Token>, outcome: Outcome, now: Time)
      requires HasLease(Abs(), tid) && LeaseIdOf(Abs(), tid) == lid && tasks[tid] == task && leases[lid] == lease
      requires attempts[lease.attemptId] == attempt && task.spec.runId in runs
      requires updated == Settled(task, how, now) && status == SettledAttempt(how) && !how.Expire?
      requires payload == SettledPayload(task, how, now)
      modifies this
      ensures Abs() == Recompute(RecordedBy(SettledBy(old(Abs()), tid, how, now), tid, clientToken, outcome), task.spec.runId, now)
      ensures tasks == old(tasks)[tid := updated]
      ensures IndexOk(old(leases), old(leaseByClientToken)) ==> IndexOk(leases, leaseByClientToken)
    {
      SettledRows(Abs(), tid, how, now, task, lease, attempt);
      SettledSpec(task, how, now);
      hide SettledBy, RecordedBy, Recompute, Settled, SettledPayload, SettledAttempt, IndexOk, Emit;
      LetGo(tid, lid, updated, lease, attempt.(status := status), payload, now);
      RecordCompletion(clientToken, tid, updated.spec.runId, outcome);
      RecomputeRunStatus(updated.spec.runId, now);
    }

    method CompleteTask(tid: TaskId, lid: Uuid, worker: WorkerId, clientToken: Option<Token>, now: Time) returns (r: Result<Task>)
      requires Valid()
      modifies this
      ensures Valid()
      ensures var plan := Plan(old(Abs()), Complete(tid, lid, worker, clientToken), now);
              Replies(r, plan) && Follows(old(Abs()), Abs(), plan, now)
      ensures r.Ok? ==> tid in tasks && r.value == tasks[tid]
      ensures r.Ok? && clientToken.Some? ==>
                && clientToken.value in completions && tid in tasks
                && completions[clientToken.value] == Completion(tid, tasks[tid].spec.runId, OutcomeCompleted)
    {
      hide Inv, EnabledAll, DoAll, CheckLease, Recompute, Enabled, Plan, PlanOutcome, Known, SettledBy, RecordedBy, HasLease, CanMove, IndexOk, Emit;
      ghost var s, op := Abs(), Op.Complete(tid, lid, worker, clientToken);
      SettlePlan(s, op, now);
      RefusedOutcome(s, op, now);
      var prior :- FindCompletion(clientToken, tid, OutcomeCompleted);
      if prior.Some? {
        FollowsNothing(Abs(), now);
        if clientToken.Some? { RecordedOnceDone(s, op, now, Abs()); }
        return Ok(prior.value);
      }
      var active :- RequireActive(tid, lid, worker, now);
      var task, lease, attempt := active.0, active.1, active.2;
      if !CanMove(task.status, Completed) { return Err(InvalidTransition); }
      var updated := task.(status := Completed, leaseId := None, leasedBy := None, leaseExpiresAt := None);
      OutcomeDone(s, tid, lid, worker, Finish, clientToken, OutcomeCompleted, now);
      assert updated == Settled(task, Finish, now) && TaskCompleted(worker) == SettledPayload(task, Finish, now);
      hide Settled, Unleased, SettledPayload, Follows;
      WriteOutcome(tid, lid, updated, task, lease, attempt, Finish, AttemptCompleted, TaskCompleted(worker), clientToken, OutcomeCompleted, now);
      r := Ok(updated);
      if clientToken.Some? { RecordedOnceDone(s, op, now, Abs()); }
    }

    method FailTask(tid: TaskId, lid: Uuid, worker: WorkerId, error: string, clientToken: Option<Token>, now: Time)
      returns (r: Result<Task>)
      requires Valid()
      modifies this
      ensures Valid()
      ensures var plan := Plan(old(Abs()), Fail(tid, lid, worker, error, clientToken), now);
              Replies(r, plan) && Follows(old(Abs()), Abs(), plan, now)
      ensures r.Ok? ==> tid in tasks && r.value == tasks[tid]
      ensures r.Ok? && clientToken.Some? ==>
                && clientToken.value in completions && tid in tasks
                && completions[clientToken.value] == Completion(tid, tasks[tid].spec.runId, OutcomeFailed)
    {
      hide Inv, EnabledAll, DoAll, CheckLease, Recompute, Enabled, Plan, PlanOutcome, Known, SettledBy, RecordedBy, HasLease, CanMove, IndexOk, Emit;
      ghost var s, op := Abs(), Op.Fail(tid, lid, worker, error, clientToken);
      SettlePlan(s, op, now);
      RefusedOutcome(s, op, now);
      var prior :- FindCompletion(clientToken, tid, OutcomeFailed);
      if prior.Some? {
        FollowsNothing(Abs(), now);
        if clientToken.Some? { RecordedOnceDone(s, op, now, Abs()); }
        return Ok(prior.value);
      }
      var active :- RequireActive(tid, lid, worker, now);
      var task, lease, attempt := active.0, active.1, active.2;
      if !CanMove(task.status, Failed) { return Err(InvalidTransition); }
      var updated := task.(status := Failed, error := Some(error), leaseId := None, leasedBy := None, leaseExpiresAt := None);
      OutcomeDone(s, tid, lid, worker, GiveUp(error), clientToken, OutcomeFailed, now);
      assert updated == Settled(task, GiveUp(error), now) && TaskFailed(worker, error) == SettledPayload(task, GiveUp(error), now);
      hide Settled, Unleased, SettledPayload, Follows;
      WriteOutcome(tid, lid, updated, task, lease, attempt, GiveUp(error), AttemptFailed, TaskFailed(worker, error), clientToken, OutcomeFailed, now);
      r := Ok(updated);
      if clientToken.Some? { RecordedOnceDone(s, op, now, Abs()); }
    }

    // ---- Cancelling a run ----

    method CancelTasks(rid: RunId)
      modifies this`tasks
      ensures tasks == map x | x in old(tasks) :: if old(tasks)[x].spec.runId == rid then CancelTask(old(tasks)[x]) else old(tasks)[x]
    {
      ghost var was := tasks;
      var todo := tasks.Keys;
      while todo != {}
        invariant todo <= was.Keys && tasks.Keys == was.Keys
        invariant forall x | x in was ::
                    tasks[x] == if x !in todo && was[x].spec.runId == rid then CancelTask(was[x]) else was[x]
        decreases |todo|
      {
        var x :| x in todo;
        todo := todo - {x};
        var task := tasks[x];
        if task.spec.runId != rid { continue; }
        if task.status == Completed || task.status == Failed || task.status == Cancelled { continue; }
        tasks := tasks[x := task.(status := Cancelled, leaseId := None, leasedBy := None, leaseExpiresAt := None)];
      }
    }

    method CancelAttempts(rid: RunId)
      modifies this`attempts
      ensures attempts == map x | x in old(attempts) ::
                            if old(attempts)[x].runId == rid then CancelAttempt(old(attempts)[x]) else old(attempts)[x]
    {
      ghost var was := attempts;
      var todo := attempts.Keys;
      while todo != {}
        invariant todo <= was.Keys && attempts.Keys == was.Keys
        invariant forall x | x in was ::
                    attempts[x] == if x !in todo && was[x].runId == rid then CancelAttempt(was[x]) else was[x]
        decreases |todo|
      {
        var x :| x in todo;
        todo := todo - {x};
        var attempt := attempts[x];
        if attempt.runId != rid { continue; }
        if attempt.status != AttemptLeased && attempt.status != AttemptRunning { continue; }
        attempts := attempts[x := attempt.(status := AttemptCancelled)];
      }
    }

    method CancelLeases(rid: RunId)
      modifies this`leases
      ensures leases == map x | x in old(leases) :: if old(leases)[x].runId == rid then CancelLease(old(leases)[x]) else old(leases)[x]
      ensures IndexOk(old(leases), leaseByClientToken) ==> IndexOk(leases, leaseByClientToken)
    {
      ghost var was := leases;
      var todo := leases.Keys;
      while todo != {}
        invariant todo <= was.Keys && leases.Keys == was.Keys
        invariant forall x | x in was ::
                    leases[x] == if x !in todo && was[x].runId == rid then CancelLease(was[x]) else was[x]
        decreases |todo|
      {
        var x :| x in todo;
        todo := todo - {x};
        var lease := leases[x];
        if lease.runId != rid { continue; }
        if lease.status != LeaseActive { continue; }
        leases := leases[x := lease.(status := LeaseCancelled)];
      }
    }

    method CancelRun(rid: RunId, now: Time) returns (r: Result<Run>)
      requires Valid()
      modifies this
      ensures Valid()
      ensures var plan := Plan(old(Abs()), Op.CancelRun(rid), now); Replies(r, plan) && Follows(old(Abs()), Abs(), plan, now)
      ensures r.Ok? ==> rid in runs && r.value == runs[rid] && r.value.status == RunCancelled
    {
      hide Inv, EnabledAll, DoAll, IndexOk, CancelRows, CancelTask, CancelAttempt, CancelLease;
      var run :- RequireRun(rid);
      if run.status == RunCancelled {
        FollowsNothing(Abs(), now);
        return Ok(run);
      }
      ghost var s := Abs();
      CancelDone(s, rid, now);
      hide Follows;
      runs := runs[rid := run.(status := RunCancelled, updatedAt := now)];
      CancelTasks(rid);
      CancelAttempts(rid);
      CancelLeases(rid);
      CancelRowsAre(s, rid, now, Abs());
      EmitEvent(rid, None, None, RunCancelledByCaller, now);
      r := Ok(runs[rid]);
    }

    // ---- Expiring leases ----

    method ExpireOne(tid: TaskId, task: Task, now: Time)
      requires HasLease(Abs(), tid) && tasks[tid] == task && task.spec.runId in runs
      modifies this`runs, this`tasks, this`attempts, this`leases, this`events, this`eventSeq
      ensures Abs() == Recompute(ExpiredBy(old(Abs()), tid, now), task.spec.runId, now)
      ensures IndexOk(old(leases), leaseByClientToken) ==> IndexOk(leases, leaseByClientToken)
    {
      hide Recompute, ExpiredBy, Emit, ComputeNotBefore;
      var rid, lid, worker := task.spec.runId, task.leaseId.value, task.leasedBy.value;
      var lease := leases[lid];
      var attempt := attempts[lease.attemptId];
      ExpiredRows(Abs(), tid, now, task, lease, attempt);
      attempts := attempts[lease.attemptId := attempt.(status := AttemptExpired)];
      leases := leases[lid := lease.(status := LeaseExpired)];
      var exhausted := task.spec.maxAttempts.Some? && task.attemptCount >= task.spec.maxAttempts.value;
      if exhausted {
        tasks := tasks[tid := task.(status := Failed, error := Some(MAX_ATTEMPTS_EXCEEDED), leaseId := None, leasedBy := None,
                                    leaseExpiresAt := None, notBefore := None, dead := true)];
        EmitEvent(rid, Some(tid), Some(lease.attemptId), TaskFailed(worker, MAX_ATTEMPTS_EXCEEDED), now);
        EmitEvent(rid, Some(tid), Some(lease.attemptId),
                  TaskDeadLettered(worker, task.attemptCount, task.spec.maxAttempts.value), now);
      } else {
        var notBefore := ComputeNotBefore(task, now);
        tasks := tasks[tid := task.(status := Queued, leaseId := None, leasedBy := None, leaseExpiresAt := None,
                                    notBefore := notBefore)];
        EmitEvent(rid, Some(tid), Some(lease.attemptId), TaskLeaseExpired(worker, task.status, lid, notBefore), now);
      }
      assert Abs() == ExpiredBy(old(Abs()), tid, now);
      RecomputeRunStatus(rid, now);
    }

    /** One pass over a copy of the task rows. */
    method ExpireLeasesSync(now: Time) returns (expired: seq<TaskId>)
      requires Valid()
      modifies this
      ensures Valid() && used == old(used) && leaseByClientToken == old(leaseByClientToken)
      ensures IsSweepOrder(old(Abs()), now, expired) && SweptSoFar(old(Abs()), Abs(), expired, now)
    {
      hide Inv, EnabledAll, DoAll, Recompute, IndexOk, Swept, ExpiredBy, HasLease;
      ghost var s := Abs();
      SweepStart(s, now);
      var snapshot := tasks;
      var todo := snapshot.Keys;
      expired := [];
      while todo != {}
        invariant todo <= snapshot.Keys
        invariant SweptSoFar(s, Abs(), expired, now) && IndexOk(leases, leaseByClientToken)
        invariant used == old(used) && leaseByClientToken == old(leaseByClientToken)
        invariant forall x | x in expired :: x in snapshot && x !in todo
        invariant forall x | x in snapshot && x !in todo && Lapsed(s, x, now) :: x in expired
        decreases |todo|
      {
        var tid :| tid in todo;
        todo := todo - {tid};
        var task := snapshot[tid];
        if task.status != Leased && task.status != Running { continue; }
        if task.leaseExpiresAt.None? || task.leaseExpiresAt.value >= now { continue; }
        ghost var s1 := Abs();
        SweepRoundReady(s, s1, expired, tid, now);
        SweepNeverSkips(s1, tid);
        if task.leaseId.None? { assert false; continue; }
        if task.leaseId.value !in leases { assert false; continue; }
        if leases[task.leaseId.value].attemptId !in attempts { assert false; continue; }
        ExpireOne(tid, task, now);
        SweepRound(s, s1, expired, tid, now);
        expired := expired + [tid];
      }
    }

    method ExpireLeases(now: Time) returns (expired: seq<TaskId>)
      requires Valid()
      modifies this
      ensures Valid()
      ensures Next(old(Abs()), Step(Sweep(expired), now), Abs())
    {
      hide Inv, EnabledAll, DoAll, IndexOk, Swept;
      expired := ExpireLeasesSync(now);
    }

    // ---- Claiming ----

    method IsEligible(tid: TaskId, kinds: seq<Kind>, now: Time) returns (eligible: bool)
      requires tid in tasks
      ensures eligible == Candidate(Abs(), tid, kinds, now)
    {
      var task := tasks[tid];
      if task.status != Queued { return false; }
      if task.spec.runId !in runs { return false; }
      var run := runs[task.spec.runId];
      if run.status == RunCompleted || run.status == RunFailed || run.status == RunCancelled { return false; }
      if task.notBefore.Some? && task.notBefore.value > now { return false; }
      if task.spec.maxAttempts.Some? && task.attemptCount >= task.spec.maxAttempts.value { return false; }
      if |kinds| > 0 && task.spec.kind !in kinds { return false; }
      return forall d | d in task.spec.deps :: d in tasks && tasks[d].status == Completed;
    }

    method Eligible(kinds: seq<Kind>, now: Time) returns (eligible: seq<(TaskId, Task)>)
      ensures forall e | e in eligible :: e.0 in tasks && e.1 == tasks[e.0] && Candidate(Abs(), e.0, kinds, now)
      ensures forall x | x in tasks && Candidate(Abs(), x, kinds, now) :: (x, tasks[x]) in eligible
    {
      hide Claimable;
      eligible := [];
      var todo := tasks.Keys;
      while todo != {}
        invariant todo <= tasks.Keys
        invariant forall e | e in eligible :: e.0 in tasks && e.1 == tasks[e.0] && Candidate(Abs(), e.0, kinds, now)
        invariant forall x | x in tasks && x !in todo && Candidate(Abs(), x, kinds, now) :: (x, tasks[x]) in eligible
        decreases |todo|
      {
        var tid :| tid in todo;
        todo := todo - {tid};
        var yes := IsEligible(tid, kinds, now);
        if yes { eligible := eligible + [(tid, tasks[tid])]; }
      }
    }

    /** Scan, sort, take the first. */
    method PickTask(kinds: seq<Kind>, now: Time) returns (pick: Option<TaskId>)
      ensures BestPick(Abs(), kinds, now, pick)
    {
      hide Claimable, Sort;
      var eligible := Eligible(kinds, now);
      var ranked := Sort(eligible, RanksFirst);
      SortSorts(eligible, RanksFirst);
      if |ranked| == 0 {
        return None;
      }
      var picked := ranked[0];
      assert picked in ranked;
      forall x | x in tasks && Candidate(Abs(), x, kinds, now) ensures Ranks(tasks[picked.0], tasks[x]) {
        assert (x, tasks[x]) in ranked;
        assert RanksFirst(picked, (x, tasks[x]));
      }
      return Some(picked.0);
    }

    method RehydrateLease(lid: Uuid) returns (r: Claimed)
      requires Valid() && lid in leases
      ensures ClaimedRows(Abs(), r) && r.leaseId == lid
    {
      LeaseRows(Abs(), lid);
      hide Inv;
      var lease := leases[lid];
      return Claimed(lid, runs[lease.runId], tasks[lease.taskId], attempts[lease.attemptId], lease);
    }

    /** The rows of a claim of `tid`. */
    method Take(tid: TaskId, lid: Uuid, aid: Uuid, worker: WorkerId, expiresAt: Time, clientToken: Option<Token>, now: Time)
      requires tid in tasks && tasks[tid].spec.runId in runs
      modifies this
      ensures Abs() == Recompute(GrantedBy(old(Abs()), tid, lid, aid, worker, expiresAt, clientToken, now),
                                 old(tasks)[tid].spec.runId, now)
      ensures leases == old(leases)[lid := Lease(old(tasks)[tid].spec.runId, tid, aid, worker, LeaseActive, expiresAt, clientToken)]
      ensures leaseByClientToken == if clientToken.Some? then old(leaseByClientToken)[clientToken.value := lid] else old(leaseByClientToken)
    {
      hide Recompute;
      var picked := tasks[tid];
      tasks := tasks[tid := picked.(status := Leased, attemptCount := picked.attemptCount + 1, leaseId := Some(lid),
                                    leasedBy := Some(worker), leaseExpiresAt := Some(expiresAt), notBefore := None)];
      attempts := attempts[aid := Attempt(picked.spec.runId, tid, worker, AttemptLeased, expiresAt)];
      leases := leases[lid := Lease(picked.spec.runId, tid, aid, worker, LeaseActive, expiresAt, clientToken)];
      used := used + {lid, aid};
      if clientToken.Some? { leaseByClientToken := leaseByClientToken[clientToken.value := lid]; }
      EmitEvent(picked.spec.runId, Some(tid), Some(aid), TaskClaimed(worker, lid, expiresAt), now);
      RecomputeRunStatus(picked.spec.runId, now);
    }

    /** `newLease` and `newAttempt` stand for the two ids drawn with `randomUUID`; `op` records the choices made. */
    method ClaimNextTask(worker: WorkerId, leaseMs: int, kinds: seq<Kind>, clientToken: Option<Token>, now: Time,
                         newLease: Uuid, newAttempt: Uuid)
      returns (r: Option<Claimed>, ghost op: Op)
      requires Valid() && newLease !in used && newAttempt !in used && newLease != newAttempt
      modifies this
      ensures Valid()
      ensures op.Claim? && op.(order := [], pick := None) == Claim(worker, leaseMs, kinds, clientToken, [], None, newLease, newAttempt)
      ensures Next(old(Abs()), Step(op, now), Abs())
      ensures r.Some? ==> ClaimedRows(Abs(), r.value) && r.value.lease.clientToken == clientToken
      ensures if clientToken.Some? && TokenUsed(old(Abs()), clientToken.value) then Abs() == old(Abs()) && r.Some?
              else r.Some? == op.pick.Some? && (r.Some? ==> r.value.leaseId == newLease && r.value.lease.taskId == op.pick.value)
    {
      hide Inv, EnabledAll, DoAll, Recompute, GrantedBy, BestPick, Swept, IsSweepOrder, Next, TokenUsed, IndexOk, SweptSoFar;
      ghost var s := Abs();
      if clientToken.Some? { IndexScan(s, leaseByClientToken, clientToken.value); }
      if clientToken.Some? && clientToken.value in leaseByClientToken {
        var lid := leaseByClientToken[clientToken.value];
        op := Claim(worker, leaseMs, kinds, clientToken, [], None, newLease, newAttempt);
        ClaimReplayed(s, op, now);
        var existing := RehydrateLease(lid);
        return Some(existing), op;
      }
      ghost var order := ExpireLeasesSync(now);
      var pick := PickTask(kinds, now);
      op := Claim(worker, leaseMs, kinds, clientToken, order, pick, newLease, newAttempt);
      if pick.None? {
        ClaimNothing(s, Abs(), op, now);
        return None, op;
      }
      ClaimDone(s, Abs(), op, now);
      FreshLease(Abs(), newLease);
      IndexAdd(leases, leaseByClientToken, newLease,
               Lease(tasks[pick.value].spec.runId, pick.value, newAttempt, worker, LeaseActive, now + leaseMs, clientToken));
      Take(pick.value, newLease, newAttempt, worker, now + leaseMs, clientToken, now);
      var claimed := RehydrateLease(newLease);
      return Some(claimed), op;
    }

    // ---- The event log ----

    method ListEventsSince(after: Option<int>, q: Query) returns (page: seq<Event>, nextCursor: Option<int>)
      ensures (page, nextCursor) == Page(events, after, q)
    {
      var rows := events;
      rows := AfterId(rows, after);
      rows := OfRun(rows, q.runId);
      rows := OfTypes(rows, q.types);
      FilterChain(events, after, q);
      var limit := if q.limit < 1 then 1 else q.limit;
      page := rows[..if |rows| < limit then |rows| else limit];
      nextCursor := if |page| > 0 then Some(page[|page| - 1].id) else after;
    }

    // ---- Pruning ----

    method DueNow(statuses: seq<RunStatus>, cutoff: Time) returns (due: seq<(RunId, Run)>)
      ensures DueRuns(Abs(), statuses, cutoff, due)
    {
      var wanted := PruneStatuses(statuses);
      due := [];
      var todo := runs.Keys;
      while todo != {}
        invariant todo <= runs.Keys && NoDuplicates(due)
        invariant forall e | e in due :: e.0 in PruneCandidates(Abs(), statuses, cutoff) && e.0 !in todo && e.1 == runs[e.0]
        invariant forall r | r in PruneCandidates(Abs(), statuses, cutoff) && r !in todo :: (r, runs[r]) in due
        decreases |todo|
      {
        var rid :| rid in todo;
        todo := todo - {rid};
        if runs[rid].status in wanted && runs[rid].updatedAt < cutoff {
          assert (rid, runs[rid]) !in due;
          due := due + [(rid, runs[rid])];
        }
      }
    }

    method DropTasks(rid: RunId)
      modifies this`tasks
      ensures tasks == map x | x in old(tasks) && old(tasks)[x].spec.runId != rid :: old(tasks)[x]
    {
      ghost var was := tasks;
      var todo := tasks.Keys;
      while todo != {}
        invariant todo <= was.Keys
        invariant tasks == map x | x in was && (x in todo || was[x].spec.runId != rid) :: was[x]
        decreases |todo|
      {
        var x :| x in todo;
        assert x in tasks && tasks[x] == was[x];
        todo := todo - {x};
        if tasks[x].spec.runId == rid { tasks := tasks - {x}; }
      }
    }

    method DropAttempts(rid: RunId)
      modifies this`attempts
      ensures attempts == map x | x in old(attempts) && old(attempts)[x].runId != rid :: old(attempts)[x]
    {
      ghost var was := attempts;
      var todo := attempts.Keys;
      while todo != {}
        invariant todo <= was.Keys
        invariant attempts == map x | x in was && (x in todo || was[x].runId != rid) :: was[x]
        decreases |todo|
      {
        var x :| x in todo;
        assert x in attempts && attempts[x] == was[x];
        todo := todo - {x};
        if attempts[x].runId == rid { attempts := attempts - {x}; }
      }
    }

    /** Takes the leases and their entries in the token index. */
    method DropLeases(rid: RunId)
      requires DistinctTokens(leases) && IndexOk(leases, leaseByClientToken)
      modifies this`leases, this`leaseByClientToken
      ensures leases == map x | x in old(leases) && old(leases)[x].runId != rid :: old(leases)[x]
      ensures IndexOk(leases, leaseByClientToken)
    {
      hide IndexOk, DistinctTokens;
      ghost var was := leases;
      var todo := leases.Keys;
      while todo != {}
        invariant todo <= was.Keys
        invariant leases == map x | x in was && (x in todo || was[x].runId != rid) :: was[x]
        invariant IndexOk(leases, leaseByClientToken) && DistinctTokens(leases)
        decreases |todo|
      {
        var x :| x in todo;
        assert x in leases && leases[x] == was[x];
        todo := todo - {x};
        var lease := leases[x];
        if lease.runId == rid {
          IndexRemove(leases, leaseByClientToken, x);
          leases := leases - {x};
          if lease.clientToken.Some? { leaseByClientToken := leaseByClientToken - {lease.clientToken.value}; }
        }
      }
    }

    method DropCompletions(rid: RunId)
      modifies this`completions
      ensures completions == map x | x in old(completions) && old(completions)[x].runId != rid :: old(completions)[x]
    {
      ghost var was := completions;
      var todo := completions.Keys;
      while todo != {}
        invariant todo <= was.Keys
        invariant completions == map x | x in was && (x in todo || was[x].runId != rid) :: was[x]
        decreases |todo|
      {
        var x :| x in todo;
        assert x in completions && completions[x] == was[x];
        todo := todo - {x};
        if completions[x].runId == rid { completions := completions - {x}; }
      }
    }

    method DropRunRows(rid: RunId)
      requires DistinctTokens(leases) && IndexOk(leases, leaseByClientToken)
      modifies this
      ensures Abs() == PurgeRows(old(Abs()), rid)
      ensures IndexOk(leases, leaseByClientToken)
    {
      hide DistinctTokens, IndexOk, Filter, DropRun, PurgeRows;
      ghost var s := Abs();
      runs := runs - {rid};
      DropTasks(rid);
      DropAttempts(rid);
      DropLeases(rid);
      DropCompletions(rid);
      DropRunIsFilter(events, rid, (e: Event) => e.runId != rid);
      events := Filter(events, (e: Event) => e.runId != rid);
      PurgeRowsAre(s, rid, Abs());
    }

    method PruneRuns(statuses: seq<RunStatus>, cutoff: Time, limit: int) returns (ids: seq<RunId>)
      requires Valid()
      modifies this
      ensures Valid()
      ensures var available := |PruneCandidates(old(Abs()), statuses, cutoff)|;
              && Next(old(Abs()), Step(Prune(statuses, cutoff, SliceTake(limit, available), ids), 0), Abs())
              && |ids| == if limit < 0 && available + limit < 0 then 0
                          else if limit < 0 then available + limit
                          else if limit < available then limit else available
      ensures forall r :: r in ids <==> r in old(runs) && r !in runs
      ensures forall r | r in ids ::
                && old(runs)[r].updatedAt < cutoff
                && if |statuses| == 0 then old(runs)[r].status in {RunCompleted, RunFailed, RunCancelled}
                   else old(runs)[r].status in statuses
    {
      hide Inv, EnabledAll, DoAll, IndexOk, DueRuns, Sort, PurgeRows, PruneChoice, PruneCandidates, NoDuplicates;
      ghost var s := Abs();
      var due := DueNow(statuses, cutoff);
      var take := SliceTake(limit, |due|);
      DueCount(s, statuses, cutoff, due);
      FirstDue(s, statuses, cutoff, due, take);
      ids := Ids(Sort(due, OlderFirst)[..take]);
      ChoiceKnown(s, statuses, cutoff, take, ids);
      PruneStart(s, 0);
      assert ids[..0] == [];
      for i := 0 to |ids|
        invariant PurgedSoFar(s, Abs(), ids[..i], 0) && IndexOk(leases, leaseByClientToken)
      {
        PurgesLeave(s, ids, i, 0);
        ghost var s1 := Abs();
        UniqueTokens(s1);
        DropRunRows(ids[i]);
        PurgeRound(s, s1, ids[..i], ids[i], 0);
        assert ids[..i] + [ids[i]] == ids[..i + 1];
      }
      assert ids[..|ids|] == ids;
      TakenRuns(s, statuses, cutoff, take, ids, 0);
      TakenDue(s, statuses, cutoff, take, ids);
    }
  }
}
