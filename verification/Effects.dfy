/** What each call does to the rows and to the log, column by column, and exactly when it is refused.  The lemmas
    name no function that the calls are made of. */
module Effects {
  import opened Records
  import opened StateMachine
  import opened Writes
  import opened Invariant
  import opened Preservation
  import opened Transactions

  // ---- Refusals ----

  lemma CheckReply(s: State, tid: TaskId, lid: Uuid, worker: WorkerId, now: Time)
    requires Inv(s)
    ensures CheckLease(s, tid, lid, worker, now) ==
            if tid !in s.tasks then Some(NotFound)
            else if s.tasks[tid].leaseId != Some(lid) || s.tasks[tid].leasedBy != Some(worker) then Some(LeaseConflict)
            else if s.tasks[tid].leaseExpiresAt.Some? && s.tasks[tid].leaseExpiresAt.value < now then Some(LeaseLapsed)
            else None
    ensures CheckLease(s, tid, lid, worker, now).None? ==> HeldStatus(s.tasks[tid].status)
  {
    hide Inv;
    if tid in s.tasks {
      InvTask(s, tid);
    }
  }

  /** What a call under a lease answers, in every reachable state.  A missing lease or attempt row, a lease row that
      contradicts the task and a transition that the table forbids are never met, but for marking a running task. */
  lemma LeaseCallReply(s: State, op: Op, now: Time)
    requires Inv(s)
    requires op.Heartbeat? || op.MarkRunning? || op.Pause? || op.Release? || op.Complete? || op.Fail?
    ensures var reply := Plan(s, op, now);
            if (op.Complete? || op.Fail?) && op.clientToken.Some? && op.clientToken.value in s.completions then
              var c := s.completions[op.clientToken.value];
              reply == if c.taskId != op.tid then Err(TokenReused)
                       else if c.outcome != (if op.Complete? then OutcomeCompleted else OutcomeFailed) then Err(OutcomeMismatch)
                       else Ok([])
            else if op.tid !in s.tasks then reply == Err(NotFound)
            else
              var t := s.tasks[op.tid];
              if t.leaseId != Some(op.lid) || t.leasedBy != Some(op.worker) then reply == Err(LeaseConflict)
              else if t.leaseExpiresAt.Some? && t.leaseExpiresAt.value < now then reply == Err(LeaseLapsed)
              else if op.MarkRunning? && t.status == Running then reply == Err(InvalidTransition)
              else reply.Ok? && reply.value != []
  {
    CheckReply(s, op.tid, op.lid, op.worker, now);
    if (op.Complete? || op.Fail?) && op.clientToken.Some? && op.clientToken.value in s.completions {
      RecordedTask(s, op.clientToken.value);
      KnownReply(s, op, now);
      hide Inv, CheckLease, Plan;
    } else {
      PassReply(s, op, now);
      hide Inv, CheckLease, Plan;
    }
  }

  lemma KnownReply(s: State, op: Op, now: Time)
    requires (op.Complete? || op.Fail?) && op.clientToken.Some? && op.clientToken.value in s.completions
    requires s.completions[op.clientToken.value].taskId in s.tasks
    ensures var c := s.completions[op.clientToken.value];
            Plan(s, op, now) == if c.taskId != op.tid then Err(TokenReused)
                                else if c.outcome != (if op.Complete? then OutcomeCompleted else OutcomeFailed) then Err(OutcomeMismatch)
                                else Ok([])
  {
    hide UnderLease;
  }

  lemma PassReply(s: State, op: Op, now: Time)
    requires op.Heartbeat? || op.MarkRunning? || op.Pause? || op.Release? || op.Complete? || op.Fail?
    requires !((op.Complete? || op.Fail?) && op.clientToken.Some? && op.clientToken.value in s.completions)
    requires CheckLease(s, op.tid, op.lid, op.worker, now).None? ==> op.tid in s.tasks && HeldStatus(s.tasks[op.tid].status)
    ensures var check, reply := CheckLease(s, op.tid, op.lid, op.worker, now), Plan(s, op, now);
            if check.Some? then reply == Err(check.value)
            else if op.MarkRunning? && s.tasks[op.tid].status == Running then reply == Err(InvalidTransition)
            else reply.Ok? && reply.value != []
  {
    hide CheckLease;
  }

  lemma RecordedTask(s: State, token: Token)
    requires Inv(s) && token in s.completions
    ensures s.completions[token].taskId in s.tasks
  {
    hide Inv;
    InvTables(s);
    hide Core, TasksOk, LeasesOk, AttemptsOk, Unique, LogOk;
    assert CompletionOk(s, token);
  }

  /** What the other calls answer.  Claims, sweeps and prunes are never refused. */
  lemma OtherReply(s: State, op: Op, now: Time)
    ensures op.CreateRun? ==> (Plan(s, op, now).Err? <==> op.rid in s.runs)
    ensures op.Resume? ==> Plan(s, op, now).Ok? == (op.tid in s.tasks && s.tasks[op.tid].status in {Blocked, WaitingInput})
    ensures op.Resume? && Plan(s, op, now).Err? ==> Plan(s, op, now).error == if op.tid in s.tasks then InvalidTransition else NotFound
    ensures op.RequeueDead? ==> Plan(s, op, now).Ok? == (op.tid in s.tasks && s.tasks[op.tid].dead)
    ensures op.RequeueDead? && Plan(s, op, now).Err? ==> Plan(s, op, now).error == if op.tid in s.tasks then InvalidTransition else NotFound
    ensures op.CancelRun? ==> Plan(s, op, now).Ok? == (op.rid in s.runs)
    ensures op.CancelRun? && Plan(s, op, now).Err? ==> Plan(s, op, now).error == NotFound
    ensures op.Claim? || op.Sweep? || op.Prune? ==> Plan(s, op, now).Ok?
  {
    hide TokenUsed;
  }

  /** Exactly when a task is taken in by the transaction, and the first of the reasons why it is not. */
  lemma EnqueueReply(s: State, tid: TaskId, o: EnqueueOptions, now: Time)
    ensures var reply := Plan(s, Enqueue(tid, o), now);
            if o.runId !in s.runs then reply == Err(NotFound)
            else if s.runs[o.runId].status in {RunCompleted, RunFailed, RunCancelled} then reply == Err(RunTerminal)
            else if o.key.Some? && exists x | x in s.tasks :: s.tasks[x].spec.runId == o.runId && s.tasks[x].spec.key == o.key then
              reply == Err(DuplicateTaskKey)
            else if tid in o.deps then reply == Err(DependencyCycle)
            else if (exists i, j :: 0 <= i < j < |o.deps| && o.deps[i] == o.deps[j])
                    || (exists d | d in o.deps :: d !in s.tasks || s.tasks[d].spec.runId != o.runId) then
              reply == Err(ForeignDependency)
            else if tid in s.tasks then reply == Err(IdTaken)
            else reply.Ok?
  {
    DependencyRowsCount(s, o.runId, o.deps);
    hide DependencyRows;
  }

  // ---- The run and the log ----

  /** The run of the written row is stamped; all other run rows are as before. */
  predicate Stamped(s: State, s': State, r: RunId, now: Time) {
    r in s.runs && r in s'.runs && s'.runs == s.runs[r := Run(s'.runs[r].status, now)]
  }

  /** The event is appended under the next id, followed by one that tells the status of the run, if that changed. */
  predicate Told(s: State, s': State, e: Event, now: Time) {
    && e.id == s.seqNo + 1 && e.at == now && e.runId in s.runs && e.runId in s'.runs
    && var was, next := s.runs[e.runId].status, s'.runs[e.runId].status;
       if was == next then s'.log == s.log + [e] && s'.seqNo == e.id
       else s'.log == s.log + [e, Event(e.id + 1, e.runId, None, None, RunStatusChanged(was, next), now)] && s'.seqNo == e.id + 1
  }

  predicate Appended(s: State, s': State, e: Event) {
    e.id == s.seqNo + 1 && s'.log == s.log + [e] && s'.seqNo == e.id
  }

  lemma RecomputeTells(s: State, raw: State, r: RunId, e: Event, now: Time)
    requires r in s.runs && raw.runs == s.runs && raw.log == s.log + [e] && raw.seqNo == s.seqNo + 1
    requires e.runId == r && e.id == s.seqNo + 1 && e.at == now
    ensures Stamped(s, Recompute(raw, r, now), r, now) && Told(s, Recompute(raw, r, now), e, now)
  {
    hide DeriveFrom, StatusesOf;
  }

  lemma DoTells(s: State, w: Write, now: Time, r: RunId, e: Event)
    requires Enabled(s, w, now) && RecomputedRun(s, w) == Some(r) && r in s.runs
    requires var raw := Raw(s, w, now); raw.runs == s.runs && raw.log == s.log + [e] && raw.seqNo == s.seqNo + 1
    requires e.runId == r && e.id == s.seqNo + 1 && e.at == now
    ensures Stamped(s, Do(s, w, now), r, now) && Told(s, Do(s, w, now), e, now)
  {
    RecomputeTells(s, Raw(s, w, now), r, e, now);
    hide Enabled, Raw, Stamped, Told, Recompute;
  }

  /** Nothing but the rows of one task, of the run and the log has changed. */
  predicate OnlyTask(s: State, s': State, tid: TaskId) {
    && tid in s'.tasks && s'.tasks == s.tasks[tid := s'.tasks[tid]] && s'.attempts == s.attempts && s'.leases == s.leases
    && s'.completions == s.completions && s'.used == s.used
  }

  // ---- Runs and tasks ----

  lemma CreateRunEffect(s: State, step: Step, s': State)
    requires Next(s, step, s') && step.op.CreateRun? && step.op.rid !in s.runs
    ensures s' == s.(runs := s.runs[step.op.rid := Run(RunPending, step.now)], seqNo := s.seqNo + 1,
                     log := s.log + [Event(s.seqNo + 1, step.op.rid, None, None, RunCreated, step.now)])
  {
    hide Next, Do, Enabled;
    NextOne(s, step, s', OpenRun(step.op.rid));
    OpenRunTells(s, step.op.rid, step.now);
  }

  lemma OpenRunTells(s: State, rid: RunId, now: Time)
    requires Enabled(s, OpenRun(rid), now)
    ensures Do(s, OpenRun(rid), now) == s.(runs := s.runs[rid := Run(RunPending, now)], seqNo := s.seqNo + 1,
                                           log := s.log + [Event(s.seqNo + 1, rid, None, None, RunCreated, now)])
  {}

  /** A new task has the columns its caller gave, is queued and untouched, and makes its run active. */
  lemma EnqueueEffect(s: State, step: Step, s': State)
    requires Inv(s) && Next(s, step, s') && step.op.Enqueue? && Plan(s, step.op, step.now).Ok?
    ensures var tid, o, now := step.op.tid, step.op.options, step.now;
            && tid !in s.tasks && OnlyTask(s, s', tid) && o.runId in s'.runs && s'.runs[o.runId].status == RunActive
            && var t := s'.tasks[tid];
            && t.spec.runId == o.runId && t.spec.key == o.key && t.spec.kind == o.kind && t.spec.priority == o.priority
            && t.spec.maxAttempts == o.maxAttempts && t.spec.retry == o.retry
            && (forall d :: d in t.spec.deps <==> d in o.deps)
            && t.createdAt == now && t.status == Queued && t.attemptCount == 0 && t.notBefore.None? && t.error.None?
            && t.leaseId.None? && t.leasedBy.None? && t.leaseExpiresAt.None? && !t.dead
            && Stamped(s, s', o.runId, now)
            && Told(s, s', Event(s.seqNo + 1, o.runId, Some(tid), None, TaskEnqueued(o.kind, o.priority, t.spec.deps), now), now)
  {
    var tid, o, now := step.op.tid, step.op.options, step.now;
    hide Next, Do, Enabled, Inv, Raw, DependencyRows, KeyTaken, Stamped, Told;
    NextOne(s, step, s', AddTask(tid, SpecOf(o)));
    NextInv(s, step, s');
    AddTaskTells(s, tid, SpecOf(o), now);
    QueuedActive(s', tid);
  }

  lemma AddTaskTells(s: State, tid: TaskId, spec: TaskSpec, now: Time)
    requires Inv(s) && Enabled(s, AddTask(tid, spec), now)
    ensures var s' := Do(s, AddTask(tid, spec), now);
            && tid !in s.tasks && OnlyTask(s, s', tid) && spec.runId in s'.runs && s'.runs[spec.runId].status != RunCancelled
            && s'.tasks[tid] == Task(spec, now, s.seqNo, Queued, 0, None, None, None, None, None, false)
            && Stamped(s, s', spec.runId, now)
            && Told(s, s', Event(s.seqNo + 1, spec.runId, Some(tid), None, TaskEnqueued(spec.kind, spec.priority, spec.deps), now), now)
  {
    DoRows(s, AddTask(tid, spec), now);
    DoTells(s, AddTask(tid, spec), now, spec.runId,
            Event(s.seqNo + 1, spec.runId, Some(tid), None, TaskEnqueued(spec.kind, spec.priority, spec.deps), now));
    AddTaskActive(s, tid, spec, now);
    hide Do, Stamped, Told, KeyTaken, Inv;
  }

  lemma AddTaskActive(s: State, tid: TaskId, spec: TaskSpec, now: Time)
    requires Inv(s) && Enabled(s, AddTask(tid, spec), now)
    ensures spec.runId in Do(s, AddTask(tid, spec), now).runs && Do(s, AddTask(tid, spec), now).runs[spec.runId].status != RunCancelled
  {
    InvTables(s);
    RawCore(s, AddTask(tid, spec), now);
    RecomputeStatus(Raw(s, AddTask(tid, spec), now), spec.runId, now);
    hide Core, TasksOk, LeasesOk, AttemptsOk, CompletionsOk, Unique, LogOk, KeyTaken, Recompute;
  }

  lemma QueuedActive(s: State, x: TaskId)
    requires Inv(s) && x in s.tasks && s.tasks[x].status == Queued
    ensures s.tasks[x].spec.runId in s.runs
    ensures s.runs[s.tasks[x].spec.runId].status != RunCancelled ==> s.runs[s.tasks[x].spec.runId].status == RunActive
  {
    var r := s.tasks[x].spec.runId;
    InvTask(s, x);
    assert Agrees(s, r);
    hide Core;
    assert InRun(s, x, r);
    assert Queued in StatusesOf(s, r);
  }

  lemma ResumeEffect(s: State, step: Step, s': State)
    requires Inv(s) && Next(s, step, s') && step.op.Resume? && step.op.tid in s.tasks
    requires s.tasks[step.op.tid].status in {Blocked, WaitingInput}
    ensures var tid, t := step.op.tid, s.tasks[step.op.tid];
            && OnlyTask(s, s', tid) && s'.tasks[tid] == t.(status := Queued)
            && Stamped(s, s', t.spec.runId, step.now)
            && Told(s, s', Event(s.seqNo + 1, t.spec.runId, Some(tid), None, TaskResumed, step.now), step.now)
  {
    hide Next, Do, Enabled, Inv;
    NextOne(s, step, s', Revive(step.op.tid));
    ReviveTells(s, step.op.tid, step.now);
  }

  lemma ReviveTells(s: State, tid: TaskId, now: Time)
    requires Enabled(s, Revive(tid), now)
    ensures var s', t := Do(s, Revive(tid), now), s.tasks[tid];
            && OnlyTask(s, s', tid) && s'.tasks[tid] == t.(status := Queued) && Stamped(s, s', t.spec.runId, now)
            && Told(s, s', Event(s.seqNo + 1, t.spec.runId, Some(tid), None, TaskResumed, now), now)
  {
    DoRows(s, Revive(tid), now);
    DoTells(s, Revive(tid), now, s.tasks[tid].spec.runId,
            Event(s.seqNo + 1, s.tasks[tid].spec.runId, Some(tid), None, TaskResumed, now));
    hide Do, Stamped, Told;
  }

  lemma RequeueEffect(s: State, step: Step, s': State)
    requires Inv(s) && Next(s, step, s') && step.op.RequeueDead? && step.op.tid in s.tasks && s.tasks[step.op.tid].dead
    ensures var tid, op, t := step.op.tid, step.op, s.tasks[step.op.tid];
            && OnlyTask(s, s', tid)
            && s'.tasks[tid] == t.(status := Queued, dead := false, error := None, notBefore := op.notBefore,
                                   attemptCount := if op.reset then 0 else t.attemptCount)
            && Stamped(s, s', t.spec.runId, step.now)
            && Told(s, s', Event(s.seqNo + 1, t.spec.runId, Some(tid), None,
                                 TaskRequeued(op.reset, op.notBefore, t.attemptCount), step.now), step.now)
  {
    hide Next, Do, Enabled, Inv;
    InvTask(s, step.op.tid);
    NextOne(s, step, s', Redrive(step.op.tid, step.op.reset, step.op.notBefore));
    RedriveTells(s, step.op.tid, step.op.reset, step.op.notBefore, step.now);
  }

  lemma RedriveTells(s: State, tid: TaskId, reset: bool, notBefore: Option<Time>, now: Time)
    requires Enabled(s, Redrive(tid, reset, notBefore), now)
    requires s.tasks[tid].leaseId.None? && s.tasks[tid].leasedBy.None? && s.tasks[tid].leaseExpiresAt.None?
    ensures var s', t := Do(s, Redrive(tid, reset, notBefore), now), s.tasks[tid];
            && OnlyTask(s, s', tid)
            && s'.tasks[tid] == t.(status := Queued, dead := false, error := None, notBefore := notBefore,
                                   attemptCount := if reset then 0 else t.attemptCount)
            && Stamped(s, s', t.spec.runId, now)
            && Told(s, s', Event(s.seqNo + 1, t.spec.runId, Some(tid), None, TaskRequeued(reset, notBefore, t.attemptCount), now), now)
  {
    var w, t := Redrive(tid, reset, notBefore), s.tasks[tid];
    DoRows(s, w, now);
    DoTells(s, w, now, t.spec.runId, Event(s.seqNo + 1, t.spec.runId, Some(tid), None, TaskRequeued(reset, notBefore, t.attemptCount), now));
    hide Do, Stamped, Told;
  }

  // ---- Calls under a lease ----

  /** The task is held by the worker under the lease, and its three records are there. */
  predicate HeldBy(s: State, tid: TaskId, lid: Uuid, worker: WorkerId) {
    && tid in s.tasks && s.tasks[tid].leaseId == Some(lid) && s.tasks[tid].leasedBy == Some(worker)
    && lid in s.leases && s.leases[lid].attemptId in s.attempts && s.tasks[tid].spec.runId in s.runs
  }

  /** Nothing but the three records of one hold, the run and the log has changed. */
  predicate OnlyHold(s: State, s': State, tid: TaskId, lid: Uuid)
    requires lid in s.leases
  {
    var aid := s.leases[lid].attemptId;
    && tid in s'.tasks && lid in s'.leases && aid in s'.attempts
    && s'.tasks == s.tasks[tid := s'.tasks[tid]] && s'.leases == s.leases[lid := s'.leases[lid]]
    && s'.attempts == s.attempts[aid := s'.attempts[aid]] && s'.used == s.used
  }

  lemma HeldByCheck(s: State, op: Op, now: Time)
    requires Inv(s) && (op.Heartbeat? || op.MarkRunning? || op.Pause? || op.Release? || op.Complete? || op.Fail?)
    requires Plan(s, op, now).Ok? && Plan(s, op, now).value != []
    ensures HeldBy(s, op.tid, op.lid, op.worker) && HasLease(s, op.tid) && LeaseIdOf(s, op.tid) == op.lid
    ensures CheckLease(s, op.tid, op.lid, op.worker, now).None?
  {
    hide Inv, CheckLease;
    assert CheckLease(s, op.tid, op.lid, op.worker, now).None?;
    CheckedLease(s, op.tid, op.lid, op.worker, now);
  }

  /** A heartbeat moves the expiry of task, lease and attempt to now + leaseMs, and nothing else. */
  lemma HeartbeatEffect(s: State, step: Step, s': State)
    requires Inv(s) && Next(s, step, s') && step.op.Heartbeat? && Plan(s, step.op, step.now).Ok?
    ensures var tid, lid, due := step.op.tid, step.op.lid, step.now + step.op.leaseMs;
            && HeldBy(s, tid, lid, step.op.worker) && OnlyHold(s, s', tid, lid)
            && var aid := s.leases[lid].attemptId;
            && s'.tasks[tid] == s.tasks[tid].(leaseExpiresAt := Some(due))
            && s'.leases[lid] == s.leases[lid].(expiresAt := due) && s'.attempts[aid] == s.attempts[aid].(expiresAt := due)
            && s'.completions == s.completions && s'.runs == s.runs
            && Appended(s, s', Event(s.seqNo + 1, s.tasks[tid].spec.runId, Some(tid), Some(aid),
                                     TaskHeartbeat(step.op.worker, lid, due), step.now))
  {
    var op, now := step.op, step.now;
    hide *;
    HeartbeatPlan(s, op, now);
    HeldByCheck(s, op, now);
    NextOne(s, step, s', Extend(op.tid, now + op.leaseMs));
    ExtendTells(s, op.tid, now + op.leaseMs, now);
    HoldIds(s, op.tid, op.lid, op.worker);
  }

  lemma HeartbeatPlan(s: State, op: Op, now: Time)
    requires op.Heartbeat? && Plan(s, op, now).Ok?
    ensures Plan(s, op, now) == Ok([Extend(op.tid, now + op.leaseMs)])
  {
    hide CheckLease;
  }

  lemma HoldIds(s: State, tid: TaskId, lid: Uuid, worker: WorkerId)
    requires HeldBy(s, tid, lid, worker) && HasLease(s, tid) && LeaseIdOf(s, tid) == lid
    ensures lid in s.leases && s.leases[lid].attemptId in s.attempts && AttemptIdOf(s, tid) == s.leases[lid].attemptId
    ensures tid in s.tasks && s.tasks[tid].leasedBy == Some(worker)
  {}

  lemma ExtendTells(s: State, tid: TaskId, due: Time, now: Time)
    requires Enabled(s, Extend(tid, due), now)
    ensures var s', lid, aid := Do(s, Extend(tid, due), now), LeaseIdOf(s, tid), AttemptIdOf(s, tid);
            && OnlyHold(s, s', tid, lid)
            && s'.tasks[tid] == s.tasks[tid].(leaseExpiresAt := Some(due))
            && s'.leases[lid] == s.leases[lid].(expiresAt := due) && s'.attempts[aid] == s.attempts[aid].(expiresAt := due)
            && s'.completions == s.completions && s'.runs == s.runs
            && Appended(s, s', Event(s.seqNo + 1, s.tasks[tid].spec.runId, Some(tid), Some(aid),
                                     TaskHeartbeat(s.tasks[tid].leasedBy.value, lid, due), now))
  {}

  lemma MarkEffect(s: State, step: Step, s': State)
    requires Inv(s) && Next(s, step, s') && step.op.MarkRunning? && Plan(s, step.op, step.now).Ok?
    ensures var tid, lid := step.op.tid, step.op.lid;
            && HeldBy(s, tid, lid, step.op.worker) && OnlyHold(s, s', tid, lid)
            && var r, aid := s.tasks[tid].spec.runId, s.leases[lid].attemptId;
            && s.tasks[tid].status == Leased && s'.tasks[tid] == s.tasks[tid].(status := Running)
            && s'.leases[lid] == s.leases[lid] && s'.attempts[aid] == s.attempts[aid].(status := AttemptRunning)
            && s'.completions == s.completions && Stamped(s, s', r, step.now)
            && Told(s, s', Event(s.seqNo + 1, r, Some(tid), Some(aid), TaskRunning(step.op.worker, lid), step.now), step.now)
  {
    HeldByCheck(s, step.op, step.now);
    hide Next, Do, Enabled, Inv, CheckLease;
    NextOne(s, step, s', Begin(step.op.tid));
    BeginTells(s, step.op.tid, step.now);
  }

  lemma BeginTells(s: State, tid: TaskId, now: Time)
    requires Enabled(s, Begin(tid), now)
    ensures var s', t, lid, aid := Do(s, Begin(tid), now), s.tasks[tid], LeaseIdOf(s, tid), AttemptIdOf(s, tid);
            && OnlyHold(s, s', tid, lid) && t.status == Leased && s'.tasks[tid] == t.(status := Running)
            && s'.leases[lid] == s.leases[lid] && s'.attempts[aid] == s.attempts[aid].(status := AttemptRunning)
            && s'.completions == s.completions && Stamped(s, s', t.spec.runId, now)
            && Told(s, s', Event(s.seqNo + 1, t.spec.runId, Some(tid), Some(aid), TaskRunning(t.leasedBy.value, lid), now), now)
  {
    var t, lid, aid := s.tasks[tid], LeaseIdOf(s, tid), AttemptIdOf(s, tid);
    DoRows(s, Begin(tid), now);
    DoTells(s, Begin(tid), now, t.spec.runId, Event(s.seqNo + 1, t.spec.runId, Some(tid), Some(aid), TaskRunning(t.leasedBy.value, lid), now));
    hide Do, Stamped, Told;
  }

  /** The hold is settled, the run stamped and the event told; tokens apart. */
  predicate HoldSettled(s: State, s': State, tid: TaskId, lid: Uuid, worker: WorkerId, how: Settlement, now: Time) {
    && HeldBy(s, tid, lid, worker) && s.tasks[tid].leasedBy.Some? && OnlyHold(s, s', tid, lid)
    && var t, r, aid := s.tasks[tid], s.tasks[tid].spec.runId, s.leases[lid].attemptId;
    && s'.tasks[tid] == Settled(t, how, now) && s'.leases[lid] == s.leases[lid].(status := LeaseReleased)
    && s'.attempts[aid] == s.attempts[aid].(status := SettledAttempt(how)) && Stamped(s, s', r, now)
    && Told(s, s', Event(s.seqNo + 1, r, Some(tid), Some(aid), SettledPayload(t, how, now), now), now)
  }

  lemma SettleTells(s: State, tid: TaskId, lid: Uuid, worker: WorkerId, how: Settlement, now: Time)
    requires Enabled(s, Settle(tid, how), now) && !how.Expire? && HeldBy(s, tid, lid, worker)
    requires HasLease(s, tid) && LeaseIdOf(s, tid) == lid
    ensures HoldSettled(s, Do(s, Settle(tid, how), now), tid, lid, worker, how, now)
    ensures Do(s, Settle(tid, how), now).completions == s.completions
  {
    var t := s.tasks[tid];
    SettleEffect(s, tid, how, now);
    DoTells(s, Settle(tid, how), now, t.spec.runId,
            Event(s.seqNo + 1, t.spec.runId, Some(tid), Some(AttemptIdOf(s, tid)), SettledPayload(t, how, now), now));
    hide Do, Stamped, Told, Settled, SettledPayload, SettledAttempt;
  }

  /** Completing, other than the retry of a call on record. */
  lemma CompleteEffect(s: State, step: Step, s': State)
    requires Inv(s) && Next(s, step, s') && step.op.Complete? && Plan(s, step.op, step.now).Ok? && Plan(s, step.op, step.now).value != []
    ensures var op, tid, lid := step.op, step.op.tid, step.op.lid;
            && HeldBy(s, tid, lid, op.worker) && OnlyHold(s, s', tid, lid)
            && var r, aid := s.tasks[tid].spec.runId, s.leases[lid].attemptId;
            && s'.tasks[tid] == s.tasks[tid].(status := Completed, leaseId := None, leasedBy := None, leaseExpiresAt := None)
            && s'.leases[lid] == s.leases[lid].(status := LeaseReleased) && s'.attempts[aid] == s.attempts[aid].(status := AttemptCompleted)
            && s'.completions == (if op.clientToken.None? then s.completions
                                 else s.completions[op.clientToken.value := Completion(tid, r, OutcomeCompleted)])
            && Stamped(s, s', r, step.now)
            && Told(s, s', Event(s.seqNo + 1, r, Some(tid), Some(aid), TaskCompleted(op.worker), step.now), step.now)
  {
    hide Inv, Next, Plan, Stamped, Told;
    EndSettled(s, step, s');
  }

  /** Failing, other than the retry of a call on record. */
  lemma FailEffect(s: State, step: Step, s': State)
    requires Inv(s) && Next(s, step, s') && step.op.Fail? && Plan(s, step.op, step.now).Ok? && Plan(s, step.op, step.now).value != []
    ensures var op, tid, lid := step.op, step.op.tid, step.op.lid;
            && HeldBy(s, tid, lid, op.worker) && OnlyHold(s, s', tid, lid)
            && var r, aid := s.tasks[tid].spec.runId, s.leases[lid].attemptId;
            && s'.tasks[tid] == s.tasks[tid].(status := Failed, error := Some(op.error), leaseId := None, leasedBy := None, leaseExpiresAt := None)
            && s'.leases[lid] == s.leases[lid].(status := LeaseReleased) && s'.attempts[aid] == s.attempts[aid].(status := AttemptFailed)
            && s'.completions == (if op.clientToken.None? then s.completions
                                 else s.completions[op.clientToken.value := Completion(tid, r, OutcomeFailed)])
            && Stamped(s, s', r, step.now)
            && Told(s, s', Event(s.seqNo + 1, r, Some(tid), Some(aid), TaskFailed(op.worker, op.error), step.now), step.now)
  {
    hide Inv, Next, Plan, Stamped, Told;
    EndSettled(s, step, s');
  }

  /** Pausing, for input or as blocked. */
  lemma PauseEffect(s: State, step: Step, s': State)
    requires Inv(s) && Next(s, step, s') && step.op.Pause? && Plan(s, step.op, step.now).Ok?
    ensures var op, tid, lid := step.op, step.op.tid, step.op.lid;
            && HeldBy(s, tid, lid, op.worker) && OnlyHold(s, s', tid, lid)
            && var r, aid := s.tasks[tid].spec.runId, s.leases[lid].attemptId;
            && s'.tasks[tid] == s.tasks[tid].(status := if op.needsInput then WaitingInput else Blocked, leaseId := None, leasedBy := None, leaseExpiresAt := None)
            && s'.leases[lid] == s.leases[lid].(status := LeaseReleased) && s'.attempts[aid] == s.attempts[aid].(status := AttemptReleased)
            && s'.completions == s.completions
            && Stamped(s, s', r, step.now)
            && Told(s, s', Event(s.seqNo + 1, r, Some(tid), Some(aid), TaskPaused(if op.needsInput then WaitingInput else Blocked, op.worker), step.now), step.now)
  {
    hide Inv, Next, Plan, Stamped, Told;
    EndWrites(s, step.op, step.now);
    EndSettled(s, step, s');
  }

  /** Releasing: the attempt stays counted. */
  lemma ReleaseEffect(s: State, step: Step, s': State)
    requires Inv(s) && Next(s, step, s') && step.op.Release? && Plan(s, step.op, step.now).Ok?
    ensures var op, tid, lid := step.op, step.op.tid, step.op.lid;
            && HeldBy(s, tid, lid, op.worker) && OnlyHold(s, s', tid, lid)
            && var r, aid := s.tasks[tid].spec.runId, s.leases[lid].attemptId;
            && s'.tasks[tid] == s.tasks[tid].(status := Queued, leaseId := None, leasedBy := None, leaseExpiresAt := None)
            && s'.leases[lid] == s.leases[lid].(status := LeaseReleased) && s'.attempts[aid] == s.attempts[aid].(status := AttemptReleased)
            && s'.completions == s.completions
            && Stamped(s, s', r, step.now)
            && Told(s, s', Event(s.seqNo + 1, r, Some(tid), Some(aid), TaskReleased(op.worker), step.now), step.now)
  {
    hide Inv, Next, Plan, Stamped, Told;
    EndWrites(s, step.op, step.now);
    EndSettled(s, step, s');
  }

  lemma EndWrites(s: State, op: Op, now: Time)
    requires (op.Pause? || op.Release?) && Plan(s, op, now).Ok?
    ensures Plan(s, op, now).value != []
  {
    hide CheckLease;
  }

  lemma EndSettled(s: State, step: Step, s': State)
    requires Inv(s) && Next(s, step, s') && (step.op.Complete? || step.op.Fail? || step.op.Pause? || step.op.Release?)
    requires Plan(s, step.op, step.now).Ok? && Plan(s, step.op, step.now).value != []
    ensures var op := step.op;
            && HoldSettled(s, s', op.tid, op.lid, op.worker, EndOf(op), step.now) && op.tid in s.tasks
            && s'.completions ==
               if (op.Complete? || op.Fail?) && op.clientToken.Some?
               then s.completions[op.clientToken.value := Completion(op.tid, s.tasks[op.tid].spec.runId,
                                                                     if op.Complete? then OutcomeCompleted else OutcomeFailed)]
               else s.completions
  {
    var op, now, how := step.op, step.now, EndOf(step.op);
    hide *;
    HeldByCheck(s, op, now);
    EndPlan(s, op, now);
    HoldIds(s, op.tid, op.lid, op.worker);
    if (op.Complete? || op.Fail?) && op.clientToken.Some? {
      var w := Record(op.clientToken.value, op.tid, if op.Complete? then OutcomeCompleted else OutcomeFailed);
      NextTwo(s, step, s', Settle(op.tid, how), w);
      SettleTells(s, op.tid, op.lid, op.worker, how, now);
      RecordTells(s, Do(s, Settle(op.tid, how), now), w, op.lid, op.worker, how, now);
    } else {
      NextOne(s, step, s', Settle(op.tid, how));
      SettleTells(s, op.tid, op.lid, op.worker, how, now);
    }
  }

  function EndOf(op: Op): (how: Settlement)
    requires op.Complete? || op.Fail? || op.Pause? || op.Release?
    ensures !how.Expire?
  {
    match op
    case Complete(_, _, _, _) => Finish
    case Fail(_, _, _, error, _) => GiveUp(error)
    case Pause(_, _, _, needsInput) => Park(PauseStatus(needsInput))
    case Release(_, _, _) => HandBack
  }

  lemma EndPlan(s: State, op: Op, now: Time)
    requires (op.Complete? || op.Fail? || op.Pause? || op.Release?) && Plan(s, op, now).Ok? && Plan(s, op, now).value != []
    ensures Plan(s, op, now).value ==
            if (op.Complete? || op.Fail?) && op.clientToken.Some?
            then [Settle(op.tid, EndOf(op)), Record(op.clientToken.value, op.tid, if op.Complete? then OutcomeCompleted else OutcomeFailed)]
            else [Settle(op.tid, EndOf(op))]
  {
    hide CheckLease;
  }

  /** A step of two writes. */
  lemma NextTwo(s: State, step: Step, s': State, w: Write, v: Write)
    requires Next(s, step, s') && Plan(s, step.op, step.now) == Ok([w, v])
    ensures Enabled(s, w, step.now) && Enabled(Do(s, w, step.now), v, step.now) && s' == Do(Do(s, w, step.now), v, step.now)
  {
    hide Plan, ChoiceOk, Enabled, Do;
    assert EnabledAll(s, [w, v], step.now) && [w, v][0] == w && [w, v][1..] == [v];
    var s1 := Do(s, w, step.now);
    assert EnabledAll(s1, [v], step.now) && [v][0] == v;
    DoAllOne(s1, v, step.now);
  }

  /** Recording a token changes nothing else. */
  lemma RecordTells(s: State, s1: State, w: Write, lid: Uuid, worker: WorkerId, how: Settlement, now: Time)
    requires w.Record? && Enabled(s1, w, now) && HoldSettled(s, s1, w.tid, lid, worker, how, now)
    requires s1.completions == s.completions
    ensures w.tid in s.tasks && HoldSettled(s, Do(s1, w, now), w.tid, lid, worker, how, now)
    ensures Do(s1, w, now).completions == s.completions[w.token := Completion(w.tid, s.tasks[w.tid].spec.runId, w.outcome)]
  {
    hide SettledPayload, SettledAttempt;
  }

  // ---- Cancelling ----

  /** Cancelling a run that is not cancelled: every task of it that is not over is cancelled and let go, its live
      attempts and active leases with it; nothing else changes. */
  lemma CancelRunEffect(s: State, step: Step, s': State)
    requires Next(s, step, s') && step.op.CancelRun? && step.op.rid in s.runs && s.runs[step.op.rid].status != RunCancelled
    ensures var r := step.op.rid;
            && s'.runs == s.runs[r := Run(RunCancelled, step.now)]
            && s'.tasks.Keys == s.tasks.Keys && s'.attempts.Keys == s.attempts.Keys && s'.leases.Keys == s.leases.Keys
            && s'.completions == s.completions && s'.used == s.used && s'.seqNo == s.seqNo + 1
            && s'.log == s.log + [Event(s.seqNo + 1, r, None, None, RunCancelledByCaller, step.now)]
            && (forall x | x in s.tasks ::
                  s'.tasks[x] == if s.tasks[x].spec.runId == r && s.tasks[x].status in {Queued, Leased, Running, Blocked, WaitingInput}
                                 then s.tasks[x].(status := Cancelled, leaseId := None, leasedBy := None, leaseExpiresAt := None)
                                 else s.tasks[x])
            && (forall x | x in s.attempts ::
                  s'.attempts[x] == if s.attempts[x].runId == r && s.attempts[x].status in {AttemptLeased, AttemptRunning}
                                    then s.attempts[x].(status := AttemptCancelled) else s.attempts[x])
            && (forall x | x in s.leases ::
                  s'.leases[x] == if s.leases[x].runId == r && s.leases[x].status == LeaseActive
                                  then s.leases[x].(status := LeaseCancelled) else s.leases[x])
  {
    hide Next, Do, Enabled;
    NextOne(s, step, s', CancelAll(step.op.rid));
    CancelTells(s, step.op.rid, step.now);
    CancelRowsColumns(s, step.op.rid, step.now);
  }

  lemma CancelTells(s: State, rid: RunId, now: Time)
    requires Enabled(s, CancelAll(rid), now)
    ensures Do(s, CancelAll(rid), now) == Emit(CancelRows(s, rid, now), rid, None, None, RunCancelledByCaller, now)
  {}

  lemma CancelRowsColumns(s: State, r: RunId, now: Time)
    requires r in s.runs
    ensures var s' := CancelRows(s, r, now);
            && s' == s.(runs := s.runs[r := Run(RunCancelled, now)], tasks := s'.tasks, attempts := s'.attempts, leases := s'.leases)
            && s'.tasks.Keys == s.tasks.Keys && s'.attempts.Keys == s.attempts.Keys && s'.leases.Keys == s.leases.Keys
            && (forall x | x in s.tasks ::
                  s'.tasks[x] == if s.tasks[x].spec.runId == r && s.tasks[x].status in {Queued, Leased, Running, Blocked, WaitingInput}
                                 then s.tasks[x].(status := Cancelled, leaseId := None, leasedBy := None, leaseExpiresAt := None)
                                 else s.tasks[x])
            && (forall x | x in s.attempts ::
                  s'.attempts[x] == if s.attempts[x].runId == r && s.attempts[x].status in {AttemptLeased, AttemptRunning}
                                    then s.attempts[x].(status := AttemptCancelled) else s.attempts[x])
            && (forall x | x in s.leases ::
                  s'.leases[x] == if s.leases[x].runId == r && s.leases[x].status == LeaseActive
                                  then s.leases[x].(status := LeaseCancelled) else s.leases[x])
  {}
}
