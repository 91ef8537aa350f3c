/** What a store has to do, row by row, to follow the plan of each operation.  Both implementations are held
    against these lemmas. */
module Refinement {
  import opened Records
  import opened StateMachine
  import opened Writes
  import opened Invariant
  import opened Preservation
  import opened Transactions
  import opened Sorting

  /** A call that throws leaves the store as it was; one that does not performs the writes of its plan. */
  predicate Follows(s: State, s': State, plan: Result<seq<Write>>, now: Time) {
    match plan
    case Err(_) => s' == s
    case Ok(ws) => EnabledAll(s, ws, now) && s' == DoAll(s, ws, now)
  }

  /** The call throws exactly the error of the plan, and returns exactly when the plan goes through. */
  predicate Replies<T>(r: Result<T>, plan: Result<seq<Write>>) {
    match r
    case Err(e) => plan == Err(e)
    case Ok(_) => plan.Ok?
  }

  /** Following the plan is taking an atomic step, for every operation that leaves the store no choice. */
  lemma FollowsNext(s: State, op: Op, now: Time, s': State)
    requires !op.Claim? && !op.Sweep? && !op.Prune?
    ensures Follows(s, s', Plan(s, op, now), now) <==> Next(s, Step(op, now), s')
  {
    hide Plan, EnabledAll, DoAll;
  }

  lemma FollowsInv(s: State, s': State, plan: Result<seq<Write>>, now: Time)
    requires Inv(s) && Follows(s, s', plan, now)
    ensures Inv(s')
  {
    hide Inv, EnabledAll, DoAll;
    if plan.Ok? {
      DoAllInv(s, plan.value, now);
    }
  }

  lemma FollowsNothing(s: State, now: Time)
    ensures Follows(s, s, Ok([]), now)
  {}

  lemma FollowsOne(s: State, w: Write, now: Time)
    requires Inv(s) && Enabled(s, w, now)
    ensures Follows(s, Do(s, w, now), Ok([w]), now) && Inv(Do(s, w, now))
  {
    hide Inv, Enabled, Do;
    DoAllOne(s, w, now);
    DoInv(s, w, now);
  }

  // ---- Runs ----

  lemma CreateRunDone(s: State, rid: RunId, now: Time)
    requires Inv(s) && rid !in s.runs
    ensures var s' := Emit(s.(runs := s.runs[rid := Run(RunPending, now)]), rid, None, None, RunCreated, now);
            Follows(s, s', Plan(s, CreateRun(rid), now), now) && Inv(s')
  {
    FollowsOne(s, OpenRun(rid), now);
    hide Inv;
  }

  lemma CancelDone(s: State, rid: RunId, now: Time)
    requires Inv(s) && rid in s.runs && s.runs[rid].status != RunCancelled
    ensures var s' := Emit(CancelRows(s, rid, now), rid, None, None, RunCancelledByCaller, now);
            Follows(s, s', Plan(s, CancelRun(rid), now), now) && Inv(s')
  {
    hide Inv, CancelRows;
    FollowsOne(s, CancelAll(rid), now);
  }

  lemma CancelRowsAre(s: State, rid: RunId, now: Time, after: State)
    requires rid in s.runs && after.runs == s.runs[rid := Run(RunCancelled, now)]
    requires after.tasks == map x | x in s.tasks :: if s.tasks[x].spec.runId == rid then CancelTask(s.tasks[x]) else s.tasks[x]
    requires after.attempts == map x | x in s.attempts :: if s.attempts[x].runId == rid then CancelAttempt(s.attempts[x]) else s.attempts[x]
    requires after.leases == map x | x in s.leases :: if s.leases[x].runId == rid then CancelLease(s.leases[x]) else s.leases[x]
    requires after.completions == s.completions && after.log == s.log && after.seqNo == s.seqNo && after.used == s.used
    ensures after == CancelRows(s, rid, now)
  {
    hide CancelTask, CancelAttempt, CancelLease;
    var c := CancelRows(s, rid, now);
    assert after.tasks == c.tasks;
    assert after.attempts == c.attempts;
    assert after.leases == c.leases;
  }

  // ---- Tasks without a lease ----

  lemma EnqueueDone(s: State, tid: TaskId, o: EnqueueOptions, now: Time)
    requires Inv(s) && Enabled(s, AddTask(tid, SpecOf(o)), now)
    ensures o.runId in s.runs
    ensures var added := Emit(s.(tasks := s.tasks[tid := NewTask(s, SpecOf(o), now)]), o.runId, Some(tid), None,
                              TaskEnqueued(o.kind, o.priority, Elements(o.deps)), now);
            var s' := Recompute(added, o.runId, now);
            Follows(s, s', Ok([AddTask(tid, SpecOf(o))]), now) && Inv(s')
  {
    hide Inv;
    FollowsOne(s, AddTask(tid, SpecOf(o)), now);
    hide Recompute;
  }

  lemma EnqueuePlanned(s: State, tid: TaskId, o: EnqueueOptions, now: Time)
    requires Inv(s) && PlanEnqueue(s, tid, o).Ok?
    ensures PlanEnqueue(s, tid, o) == Ok([AddTask(tid, SpecOf(o))]) && o.runId in s.runs
    ensures var added := Emit(s.(tasks := s.tasks[tid := NewTask(s, SpecOf(o), now)]), o.runId, Some(tid), None,
                              TaskEnqueued(o.kind, o.priority, Elements(o.deps)), now);
            var s' := Recompute(added, o.runId, now);
            Follows(s, s', PlanEnqueue(s, tid, o), now) && Inv(s')
  {
    PlanEnqueueEnabled(s, tid, o, now);
    hide Inv, Enabled, DoAll, Do;
    EnqueueDone(s, tid, o, now);
  }

  /** The memory store looks up each dependency instead of counting rows, and does not mind a reused id. */
  function PlanEnqueueEach(s: State, tid: TaskId, o: EnqueueOptions): Result<seq<Write>> {
    if o.runId !in s.runs then Err(NotFound)
    else if TerminalRun(s.runs[o.runId].status) then Err(RunTerminal)
    else if o.key.Some? && KeyTaken(s, o.runId, o.key.value) then Err(DuplicateTaskKey)
    else if tid in o.deps then Err(DependencyCycle)
    else if exists d | d in o.deps :: !InRun(s, d, o.runId) then Err(ForeignDependency)
    else Ok([AddTask(tid, SpecOf(o))])
  }

  /** For a fresh id the two stores decide alike exactly when no dependency is listed twice or the task is refused
      anyway.  A duplicate in an otherwise good list is the only difference: SQL refuses it. */
  lemma EnqueueAgreement(s: State, tid: TaskId, o: EnqueueOptions)
    requires tid !in s.tasks
    ensures PlanEnqueueEach(s, tid, o) == PlanEnqueue(s, tid, o) <==>
              || NoDuplicates(o.deps)
              || o.runId !in s.runs || TerminalRun(s.runs[o.runId].status)
              || (o.key.Some? && KeyTaken(s, o.runId, o.key.value))
              || tid in o.deps || (exists d | d in o.deps :: !InRun(s, d, o.runId))
    ensures PlanEnqueueEach(s, tid, o) != PlanEnqueue(s, tid, o) ==> PlanEnqueue(s, tid, o) == Err(ForeignDependency)
  {
    DependencyRowsCount(s, o.runId, o.deps);
  }

  /** One of each, in order of first occurrence. */
  function Distinct<T(==)>(xs: seq<T>): seq<T> {
    if |xs| == 0 then []
    else
      var rest, last := Distinct(xs[..|xs| - 1]), xs[|xs| - 1];
      if last in rest then rest else rest + [last]
  }

  lemma {:induction false} DistinctElements<T>(xs: seq<T>)
    ensures NoDuplicates(Distinct(xs)) && Elements(Distinct(xs)) == Elements(xs)
  {
    if |xs| > 0 {
      DistinctElements(xs[..|xs| - 1]);
      assert xs == xs[..|xs| - 1] + [xs[|xs| - 1]];
      var rest, last := Distinct(xs[..|xs| - 1]), xs[|xs| - 1];
      assert last in rest <==> last in Elements(rest);
      assert forall x :: x in xs <==> x in Elements(xs[..|xs| - 1]) || x == last;
    }
  }

  /** Whatever the memory store does with a list, the transaction does with the list without its duplicates. */
  lemma EnqueueEachIsEnqueue(s: State, tid: TaskId, o: EnqueueOptions)
    requires tid !in s.tasks
    ensures PlanEnqueueEach(s, tid, o) == PlanEnqueue(s, tid, o.(deps := Distinct(o.deps)))
  {
    DistinctElements(o.deps);
    var o' := o.(deps := Distinct(o.deps));
    assert forall x :: x in o.deps <==> x in Elements(o.deps);
    assert forall x :: x in o'.deps <==> x in Elements(o'.deps);
    EnqueueAgreement(s, tid, o');
    assert SpecOf(o) == SpecOf(o');
  }

  /** Why ids have to be fresh: overwriting a held task, as the memory store would, leaves an active lease
      without a holder. */
  lemma ReusedIdBreaks(s: State, tid: TaskId, spec: TaskSpec, now: Time)
    requires Inv(s) && tid in s.tasks && Held(s.tasks[tid])
    ensures !Inv(s.(tasks := s.tasks[tid := NewTask(s, spec, now)]))
  {
    InvTask(s, tid);
    var s' := s.(tasks := s.tasks[tid := NewTask(s, spec, now)]);
    var lid := LeaseIdOf(s, tid);
    assert lid in s'.leases && !LeaseOk(s', lid);
    hide TasksOk, AttemptsOk, CompletionsOk, Unique, LogOk;
  }

  lemma ReviveDone(s: State, tid: TaskId, now: Time)
    requires Inv(s) && tid in s.tasks && WaitingStatus(s.tasks[tid].status)
    ensures s.tasks[tid].spec.runId in s.runs
    ensures var t := s.tasks[tid];
            var s' := Recompute(Emit(s.(tasks := s.tasks[tid := t.(status := Queued)]), t.spec.runId, Some(tid), None,
                                     TaskResumed, now), t.spec.runId, now);
            Follows(s, s', Plan(s, Resume(tid), now), now) && Inv(s')
  {
    hide Inv, Recompute, EnabledAll, DoAll;
    InvTask(s, tid);
    ReviveIs(s, tid, now);
    hide Do;
    FollowsOne(s, Revive(tid), now);
  }

  lemma ReviveIs(s: State, tid: TaskId, now: Time)
    requires Enabled(s, Revive(tid), now)
    ensures var t := s.tasks[tid];
            Do(s, Revive(tid), now)
            == Recompute(Emit(s.(tasks := s.tasks[tid := t.(status := Queued)]), t.spec.runId, Some(tid), None, TaskResumed, now),
                         t.spec.runId, now)
  {
    hide Recompute;
  }

  lemma RedriveDone(s: State, tid: TaskId, reset: bool, notBefore: Option<Time>, now: Time)
    requires Inv(s) && tid in s.tasks && s.tasks[tid].dead
    ensures s.tasks[tid].spec.runId in s.runs
    ensures var t := s.tasks[tid];
            var s' := Recompute(Emit(s.(tasks := s.tasks[tid := Redriven(t, reset, notBefore)]), t.spec.runId, Some(tid), None,
                                     TaskRequeued(reset, notBefore, t.attemptCount), now), t.spec.runId, now);
            Follows(s, s', Plan(s, RequeueDead(tid, reset, notBefore), now), now) && Inv(s')
  {
    hide Inv, Recompute, EnabledAll, DoAll;
    InvTask(s, tid);
    RedriveIs(s, tid, reset, notBefore, now);
    hide Do;
    FollowsOne(s, Redrive(tid, reset, notBefore), now);
  }

  lemma RedriveIs(s: State, tid: TaskId, reset: bool, notBefore: Option<Time>, now: Time)
    requires Enabled(s, Redrive(tid, reset, notBefore), now)
    ensures var t := s.tasks[tid];
            Do(s, Redrive(tid, reset, notBefore), now)
            == Recompute(Emit(s.(tasks := s.tasks[tid := Redriven(t, reset, notBefore)]), t.spec.runId, Some(tid), None,
                              TaskRequeued(reset, notBefore, t.attemptCount), now), t.spec.runId, now)
  {
    hide Recompute, Redriven;
  }

  // ---- Under a lease ----

  function ExtendedBy(s: State, tid: TaskId, expiresAt: Time, now: Time): State
    requires HasLease(s, tid)
  {
    Emit(ExtendRows(s, tid, expiresAt), s.tasks[tid].spec.runId, Some(tid), Some(AttemptIdOf(s, tid)),
         TaskHeartbeat(s.tasks[tid].leasedBy.value, LeaseIdOf(s, tid), expiresAt), now)
  }

  lemma ExtendDone(s: State, tid: TaskId, lid: Uuid, worker: WorkerId, leaseMs: int, now: Time)
    requires Inv(s) && CheckLease(s, tid, lid, worker, now).None?
    ensures HasLease(s, tid) && LeaseIdOf(s, tid) == lid && s.tasks[tid].leasedBy == Some(worker)
    ensures var s' := ExtendedBy(s, tid, now + leaseMs, now);
            Follows(s, s', Plan(s, Heartbeat(tid, lid, worker, leaseMs), now), now) && Inv(s')
  {
    hide Inv, CheckLease, Do, Enabled, HasLease, ExtendedBy, Plan, EnabledAll, DoAll, Lapsed;
    CheckedLease(s, tid, lid, worker, now);
    HeartbeatEnabled(s, tid, lid, worker, now, now + leaseMs);
    HeartbeatPlan(s, tid, lid, worker, leaseMs, now);
    FollowsOne(s, Extend(tid, now + leaseMs), now);
    ExtendIs(s, tid, now + leaseMs, now);
  }

  lemma HeartbeatPlan(s: State, tid: TaskId, lid: Uuid, worker: WorkerId, leaseMs: int, now: Time)
    requires CheckLease(s, tid, lid, worker, now).None?
    ensures Plan(s, Heartbeat(tid, lid, worker, leaseMs), now) == Ok([Extend(tid, now + leaseMs)])
  {
    hide CheckLease;
  }

  lemma HeartbeatReply(s: State, tid: TaskId, lid: Uuid, worker: WorkerId, leaseMs: int, now: Time)
    ensures var check, plan := CheckLease(s, tid, lid, worker, now), Plan(s, Heartbeat(tid, lid, worker, leaseMs), now);
            (check.Some? ==> plan == Err(check.value)) && (check.None? ==> plan.Ok?)
  {
    hide CheckLease;
  }

  lemma ExtendIs(s: State, tid: TaskId, expiresAt: Time, now: Time)
    requires Enabled(s, Extend(tid, expiresAt), now)
    ensures Do(s, Extend(tid, expiresAt), now) == ExtendedBy(s, tid, expiresAt, now)
  {
    hide Recompute;
  }

  function BegunBy(s: State, tid: TaskId, now: Time): (r: State)
    requires HasLease(s, tid)
    ensures r.runs == s.runs
  {
    Emit(BeginRows(s, tid), s.tasks[tid].spec.runId, Some(tid), Some(AttemptIdOf(s, tid)),
         TaskRunning(s.tasks[tid].leasedBy.value, LeaseIdOf(s, tid)), now)
  }

  lemma BeginDone(s: State, tid: TaskId, lid: Uuid, worker: WorkerId, now: Time)
    requires Inv(s) && CheckLease(s, tid, lid, worker, now).None? && tid in s.tasks && CanMove(s.tasks[tid].status, Running)
    ensures HasLease(s, tid) && LeaseIdOf(s, tid) == lid && s.tasks[tid].spec.runId in s.runs && s.tasks[tid].leasedBy == Some(worker)
    ensures var s' := Recompute(BegunBy(s, tid, now), s.tasks[tid].spec.runId, now);
            Follows(s, s', Plan(s, MarkRunning(tid, lid, worker), now), now) && Inv(s')
  {
    hide Inv, CheckLease, Do, Enabled, HasLease, BegunBy, Recompute, Plan, EnabledAll, DoAll, Lapsed;
    CheckedLease(s, tid, lid, worker, now);
    UnderLeaseEnabled(s, tid, lid, worker, now, Running, Begin(tid));
    BeginPlan(s, tid, lid, worker, now);
    FollowsOne(s, Begin(tid), now);
    BeginIs(s, tid, now);
  }

  lemma BeginPlan(s: State, tid: TaskId, lid: Uuid, worker: WorkerId, now: Time)
    requires CheckLease(s, tid, lid, worker, now).None? && tid in s.tasks && CanMove(s.tasks[tid].status, Running)
    ensures Plan(s, MarkRunning(tid, lid, worker), now) == Ok([Begin(tid)])
  {
    hide CheckLease;
  }

  lemma BeginIs(s: State, tid: TaskId, now: Time)
    requires Enabled(s, Begin(tid), now)
    ensures Do(s, Begin(tid), now) == Recompute(BegunBy(s, tid, now), s.tasks[tid].spec.runId, now)
  {
    hide Recompute;
  }

  /** The rows and the event of a lease that its holder ends. */
  function SettledBy(s: State, tid: TaskId, how: Settlement, now: Time): (r: State)
    requires HasLease(s, tid)
    ensures r.runs == s.runs
  {
    Emit(SettleRows(s, tid, how, now), s.tasks[tid].spec.runId, Some(tid), Some(AttemptIdOf(s, tid)),
         SettledPayload(s.tasks[tid], how, now), now)
  }

  lemma SettleIs(s: State, tid: TaskId, how: Settlement, now: Time)
    requires Enabled(s, Settle(tid, how), now) && !how.Expire?
    ensures Do(s, Settle(tid, how), now) == Recompute(SettledBy(s, tid, how, now), s.tasks[tid].spec.runId, now)
  {
    hide Settled, SettledPayload, Recompute, Lapsed;
  }

  lemma SettleDone(s: State, tid: TaskId, lid: Uuid, worker: WorkerId, how: Settlement, to_: TaskStatus, now: Time)
    requires Inv(s) && CheckLease(s, tid, lid, worker, now).None? && tid in s.tasks && CanMove(s.tasks[tid].status, to_)
    requires !how.Expire? && (how.Park? ==> WaitingStatus(how.status))
    ensures HasLease(s, tid) && LeaseIdOf(s, tid) == lid && s.tasks[tid].leasedBy == Some(worker)
    ensures s.tasks[tid].spec.runId in s.runs && Enabled(s, Settle(tid, how), now)
    ensures var s' := Recompute(SettledBy(s, tid, how, now), s.tasks[tid].spec.runId, now);
            Follows(s, s', UnderLease(s, tid, lid, worker, now, to_, [Settle(tid, how)]), now) && Inv(s')
  {
    CheckedLease(s, tid, lid, worker, now);
    UnderLeaseEnabled(s, tid, lid, worker, now, to_, Settle(tid, how));
    hide Inv, CheckLease, Do;
    FollowsOne(s, Settle(tid, how), now);
    SettleIs(s, tid, how, now);
    hide Enabled, HasLease, SettledBy, Recompute;
  }

  /** The status a call under a lease moves its task to. */
  function Target(op: Op): TaskStatus
    requires op.MarkRunning? || op.Pause? || op.Complete? || op.Fail? || op.Release?
  {
    match op
    case MarkRunning(_, _, _) => Running
    case Pause(_, _, _, needsInput) => PauseStatus(needsInput)
    case Complete(_, _, _, _) => Completed
    case Fail(_, _, _, _, _) => Failed
    case Release(_, _, _) => Queued
  }

  /** When a call under a lease fails: the lease check comes first, then the transition table. */
  lemma RefusedPlan(s: State, op: Op, now: Time)
    requires op.MarkRunning? || op.Pause? || op.Release?
    ensures var check := CheckLease(s, op.tid, op.lid, op.worker, now);
            && (check.Some? ==> Plan(s, op, now) == Err(check.value))
            && (check.None? && op.tid in s.tasks && !CanMove(s.tasks[op.tid].status, Target(op)) ==>
                  Plan(s, op, now) == Err(InvalidTransition))
  {
    hide CheckLease, CanMove;
  }

  /** Whether the outcome is already on record; without a token it is not. */
  function Known(s: State, clientToken: Option<Token>, tid: TaskId, outcome: Outcome): Result<bool> {
    if clientToken.None? then Ok(false) else LookupCompletion(s, clientToken.value, tid, outcome)
  }

  /** When an outcome fails: the token is looked up before the lease is checked. */
  lemma RefusedOutcome(s: State, op: Op, now: Time)
    requires op.Complete? || op.Fail?
    ensures var known := Known(s, op.clientToken, op.tid, if op.Complete? then OutcomeCompleted else OutcomeFailed);
            var check := CheckLease(s, op.tid, op.lid, op.worker, now);
            && (known.Err? ==> Plan(s, op, now) == Err(known.error))
            && (known == Ok(true) ==> Plan(s, op, now) == Ok([]))
            && (known == Ok(false) ==>
                  && (op.clientToken.Some? ==> op.clientToken.value !in s.completions)
                  && (check.Some? ==> Plan(s, op, now) == Err(check.value))
                  && (check.None? && op.tid in s.tasks && !CanMove(s.tasks[op.tid].status, Target(op)) ==>
                        Plan(s, op, now) == Err(InvalidTransition)))
  {
    hide CheckLease, CanMove;
  }

  lemma SettlePlan(s: State, op: Op, now: Time)
    ensures op.Pause? ==> Plan(s, op, now) == UnderLease(s, op.tid, op.lid, op.worker, now, Target(op), [Settle(op.tid, Park(Target(op)))])
    ensures op.Release? ==> Plan(s, op, now) == UnderLease(s, op.tid, op.lid, op.worker, now, Queued, [Settle(op.tid, HandBack)])
    ensures op.Complete? ==> Plan(s, op, now) == PlanOutcome(s, op.tid, op.lid, op.worker, now, op.clientToken, OutcomeCompleted, Finish)
    ensures op.Fail? ==> Plan(s, op, now) == PlanOutcome(s, op.tid, op.lid, op.worker, now, op.clientToken, OutcomeFailed, GiveUp(op.error))
  {
    hide UnderLease, PlanOutcome;
  }

  /** The rows of a lease that its holder ends, one by one. */
  lemma SettledRows(s: State, tid: TaskId, how: Settlement, now: Time, t: Task, l: Lease, a: Attempt)
    requires HasLease(s, tid) && t == s.tasks[tid] && l == s.leases[LeaseIdOf(s, tid)] && a == s.attempts[AttemptIdOf(s, tid)]
    ensures SettledBy(s, tid, how, now)
         == Emit(s.(tasks := s.tasks[tid := Settled(t, how, now)],
                    attempts := s.attempts[l.attemptId := a.(status := SettledAttempt(how))],
                    leases := s.leases[LeaseIdOf(s, tid) := l.(status := SettledLease(how))]),
                 t.spec.runId, Some(tid), Some(l.attemptId), SettledPayload(t, how, now), now)
  {}

  lemma SettledSpec(t: Task, how: Settlement, now: Time)
    ensures Settled(t, how, now).spec == t.spec
  {
    hide ComputeNotBefore;
  }

  lemma RecordCommutes(s: State, token: Token, c: Completion, rid: RunId, now: Time)
    requires rid in s.runs
    ensures Recompute(s.(completions := s.completions[token := c]), rid, now)
         == var r := Recompute(s, rid, now); r.(completions := r.completions[token := c])
  {
    assert StatusesOf(s.(completions := s.completions[token := c]), rid) == StatusesOf(s, rid);
  }

  /** The stores record the token before they recompute the run status. */
  function RecordedBy(s: State, tid: TaskId, clientToken: Option<Token>, outcome: Outcome): (r: State)
    requires tid in s.tasks
    ensures r.runs == s.runs
  {
    if clientToken.None? then s
    else s.(completions := s.completions[clientToken.value := Completion(tid, s.tasks[tid].spec.runId, outcome)])
  }

  lemma RecordIs(s: State, tid: TaskId, how: Settlement, token: Token, outcome: Outcome, now: Time)
    requires Enabled(s, Settle(tid, how), now) && !how.Expire?
    requires Enabled(Do(s, Settle(tid, how), now), Record(token, tid, outcome), now)
    ensures var settled := SettledBy(s, tid, how, now);
            Do(Do(s, Settle(tid, how), now), Record(token, tid, outcome), now)
            == Recompute(RecordedBy(settled, tid, Some(token), outcome), s.tasks[tid].spec.runId, now)
  {
    SettleIs(s, tid, how, now);
    var settled, rid := SettledBy(s, tid, how, now), s.tasks[tid].spec.runId;
    assert settled.tasks[tid].spec == s.tasks[tid].spec;
    RecomputeTasks(settled, rid, now);
    hide SettledBy, Recompute, HasLease, Lapsed;
    RecordCommutes(settled, token, Completion(tid, rid, outcome), rid, now);
  }

  lemma RecomputeTasks(s: State, rid: RunId, now: Time)
    requires rid in s.runs
    ensures Recompute(s, rid, now).tasks == s.tasks
  {}

  lemma OutcomeDone(s: State, tid: TaskId, lid: Uuid, worker: WorkerId, how: Settlement,
                    clientToken: Option<Token>, outcome: Outcome, now: Time)
    requires Inv(s) && CheckLease(s, tid, lid, worker, now).None? && tid in s.tasks
    requires CanMove(s.tasks[tid].status, OutcomeStatus(outcome))
    requires (how.Finish? && outcome == OutcomeCompleted) || (how.GiveUp? && outcome == OutcomeFailed)
    requires clientToken.Some? ==> clientToken.value !in s.completions
    ensures HasLease(s, tid) && LeaseIdOf(s, tid) == lid && s.tasks[tid].leasedBy == Some(worker)
    ensures s.tasks[tid].spec.runId in s.runs
    ensures var s' := Recompute(RecordedBy(SettledBy(s, tid, how, now), tid, clientToken, outcome), s.tasks[tid].spec.runId, now);
            Follows(s, s', PlanOutcome(s, tid, lid, worker, now, clientToken, outcome, how), now) && Inv(s')
  {
    SettleDone(s, tid, lid, worker, how, OutcomeStatus(outcome), now);
    if clientToken.Some? {
      var token := clientToken.value;
      hide Inv, CheckLease, Enabled, Do, SettledBy, Recompute, HasLease;
      SettledRecordable(s, tid, how, token, outcome, now);
      SettleRecordEnabled(s, tid, how, token, outcome, now);
      DoAllTwo(s, Settle(tid, how), Record(token, tid, outcome), now);
      RecordIs(s, tid, how, token, outcome, now);
      FollowsInv(s, DoAll(s, [Settle(tid, how), Record(token, tid, outcome)], now),
                 PlanOutcome(s, tid, lid, worker, now, clientToken, outcome, how), now);
    }
  }

  lemma DoAllTwo(s: State, w: Write, v: Write, now: Time)
    requires EnabledAll(s, [w, v], now)
    ensures Enabled(s, w, now) && Enabled(Do(s, w, now), v, now) && DoAll(s, [w, v], now) == Do(Do(s, w, now), v, now)
  {
    hide Enabled, Do;
    assert [w, v][1..] == [v];
    DoAllOne(Do(s, w, now), v, now);
  }

  // ---- Sweep ----

  /** The rows and events of one expired lease, before the run status is recomputed. */
  function ExpiredBy(s: State, tid: TaskId, now: Time): (r: State)
    requires HasLease(s, tid)
    ensures r.runs == s.runs
  {
    var t := s.tasks[tid];
    var told := SettledBy(s, tid, Expire, now);
    if Exhausted(t) then
      Emit(told, t.spec.runId, Some(tid), Some(AttemptIdOf(s, tid)),
           TaskDeadLettered(t.leasedBy.value, t.attemptCount, t.spec.maxAttempts.value), now)
    else told
  }

  lemma ExpireIs(s: State, tid: TaskId, now: Time)
    requires Enabled(s, Settle(tid, Expire), now)
    ensures Do(s, Settle(tid, Expire), now) == Recompute(ExpiredBy(s, tid, now), s.tasks[tid].spec.runId, now)
  {
    hide Settled, SettledPayload, Recompute, Lapsed;
  }

  lemma ExpiredRows(s: State, tid: TaskId, now: Time, t: Task, l: Lease, a: Attempt)
    requires HasLease(s, tid) && t == s.tasks[tid] && l == s.leases[LeaseIdOf(s, tid)] && a == s.attempts[AttemptIdOf(s, tid)]
    ensures var rows := s.(tasks := s.tasks[tid := Settled(t, Expire, now)],
                           attempts := s.attempts[l.attemptId := a.(status := AttemptExpired)],
                           leases := s.leases[t.leaseId.value := l.(status := LeaseExpired)]);
            var rid, worker := t.spec.runId, t.leasedBy.value;
            ExpiredBy(s, tid, now) ==
              if Exhausted(t) then
                Emit(Emit(rows, rid, Some(tid), Some(l.attemptId), TaskFailed(worker, MAX_ATTEMPTS_EXCEEDED), now),
                     rid, Some(tid), Some(l.attemptId), TaskDeadLettered(worker, t.attemptCount, t.spec.maxAttempts.value), now)
              else Emit(rows, rid, Some(tid), Some(l.attemptId),
                        TaskLeaseExpired(worker, t.status, t.leaseId.value, ComputeNotBefore(t, now)), now)
  {
    SettledRows(s, tid, Expire, now, t, l, a);
    hide SettledBy, Settled;
  }

  ghost predicate SweptSoFar(s: State, s1: State, expired: seq<TaskId>, now: Time) {
    && AllLapsed(s, now, expired)
    && EnabledAll(s, Expiries(expired), now) && s1 == DoAll(s, Expiries(expired), now)
    && Inv(s1) && Swept(s, s1, expired, now)
  }

  lemma SweepStart(s: State, now: Time)
    requires Inv(s)
    ensures SweptSoFar(s, s, [], now)
  {
    hide Inv;
    SweepEffect(s, now, []);
  }

  lemma ExpiriesSnoc(expired: seq<TaskId>, tid: TaskId)
    ensures Expiries(expired + [tid]) == Expiries(expired) + [Settle(tid, Expire)]
  {}

  lemma LapsedHasLease(s: State, tid: TaskId, now: Time)
    requires Inv(s) && Lapsed(s, tid, now)
    ensures HasLease(s, tid) && s.tasks[tid].spec.runId in s.runs
  {
    hide Inv;
    InvTask(s, tid);
  }

  lemma SweepRoundReady(s: State, s1: State, expired: seq<TaskId>, tid: TaskId, now: Time)
    requires SweptSoFar(s, s1, expired, now) && Lapsed(s, tid, now) && tid !in expired
    ensures tid in s1.tasks && s1.tasks[tid] == s.tasks[tid] && Lapsed(s1, tid, now)
    ensures HasLease(s1, tid) && s1.tasks[tid].spec.runId in s1.runs
  {
    hide Inv, DoAll, EnabledAll, HasLease;
    LapsedHasLease(s1, tid, now);
  }

  /** One round of the sweep loop, for a task that was lapsed when the sweep started. */
  lemma SweepRound(s: State, s1: State, expired: seq<TaskId>, tid: TaskId, now: Time)
    requires Inv(s) && SweptSoFar(s, s1, expired, now) && Lapsed(s, tid, now) && tid !in expired
    requires tid in s1.tasks && Lapsed(s1, tid, now) && HasLease(s1, tid) && s1.tasks[tid].spec.runId in s1.runs
    ensures SweptSoFar(s, Recompute(ExpiredBy(s1, tid, now), s1.tasks[tid].spec.runId, now), expired + [tid], now)
  {
    hide Inv, Enabled, Do, DoAll, EnabledAll, Recompute, ExpiredBy, HasLease, Lapsed, Swept;
    LapsedEnabled(s1, tid, now);
    ExpireIs(s1, tid, now);
    ExpiriesSnoc(expired, tid);
    DoAllAppend(s, Expiries(expired), Settle(tid, Expire), now);
    assert AllLapsed(s, now, expired + [tid]);
    SweepEffect(s, now, expired + [tid]);
  }

  /** The three columns a sweep reads are always there: none of its guards ever skips a task. */
  lemma SweepNeverSkips(s: State, tid: TaskId)
    requires Inv(s) && tid in s.tasks && Held(s.tasks[tid])
    ensures s.tasks[tid].leaseId.Some? && s.tasks[tid].leasedBy.Some? && s.tasks[tid].leaseExpiresAt.Some?
    ensures s.tasks[tid].leaseId.value in s.leases && s.leases[s.tasks[tid].leaseId.value].attemptId in s.attempts
  {
    hide Inv;
    InvTask(s, tid);
  }

  // ---- Claim ----

  function GrantedBy(s: State, tid: TaskId, lid: Uuid, aid: Uuid, worker: WorkerId, expiresAt: Time, token: Option<Token>, now: Time): (r: State)
    requires tid in s.tasks
    ensures r.runs == s.runs
  {
    Emit(GrantRows(s, tid, lid, aid, worker, expiresAt, token), s.tasks[tid].spec.runId, Some(tid), Some(aid),
         TaskClaimed(worker, lid, expiresAt), now)
  }

  lemma GrantIs(s: State, tid: TaskId, lid: Uuid, aid: Uuid, worker: WorkerId, expiresAt: Time, token: Option<Token>, now: Time)
    requires Enabled(s, Grant(tid, lid, aid, worker, expiresAt, token), now)
    ensures Do(s, Grant(tid, lid, aid, worker, expiresAt, token), now)
         == Recompute(GrantedBy(s, tid, lid, aid, worker, expiresAt, token, now), s.tasks[tid].spec.runId, now)
  {
    hide Recompute, DepsCompleted, TokenUsed;
  }

  /** A claim that replays a token changes nothing. */
  lemma ClaimReplayed(s: State, op: Op, now: Time)
    requires op.Claim? && op.clientToken.Some? && TokenUsed(s, op.clientToken.value)
    ensures Next(s, Step(op, now), s)
  {}

  /** A claim that finds nothing has only swept. */
  lemma ClaimNothing(s: State, s1: State, op: Op, now: Time)
    requires Inv(s) && op.Claim? && op.pick.None? && !(op.clientToken.Some? && TokenUsed(s, op.clientToken.value))
    requires op.newLease !in s.used && op.newAttempt !in s.used && op.newLease != op.newAttempt
    requires SweptSoFar(s, s1, op.order, now) && IsSweepOrder(s, now, op.order)
    requires BestPick(s1, op.kinds, now, None)
    ensures Next(s, Step(op, now), s1)
  {
    hide Inv, EnabledAll, DoAll, Swept, IsSweepOrder, BestPick;
  }

  /** A claim that sweeps, picks the best task and hands it over. */
  lemma ClaimDone(s: State, s1: State, op: Op, now: Time)
    requires Inv(s) && op.Claim? && op.pick.Some? && !(op.clientToken.Some? && TokenUsed(s, op.clientToken.value))
    requires op.newLease !in s.used && op.newAttempt !in s.used && op.newLease != op.newAttempt
    requires SweptSoFar(s, s1, op.order, now) && IsSweepOrder(s, now, op.order)
    requires BestPick(s1, op.kinds, now, op.pick)
    ensures op.pick.value in s1.tasks && s1.tasks[op.pick.value].spec.runId in s1.runs
    ensures var tid := op.pick.value;
            var s' := Recompute(GrantedBy(s1, tid, op.newLease, op.newAttempt, op.worker, now + op.leaseMs, op.clientToken, now),
                                s1.tasks[tid].spec.runId, now);
            Next(s, Step(op, now), s') && Inv(s')
  {
    hide Inv, EnabledAll, DoAll, Swept, IsSweepOrder, Enabled, Do, Recompute, GrantedBy, Claimable, Ranks;
    var tid := op.pick.value;
    var grant := Grant(tid, op.newLease, op.newAttempt, op.worker, now + op.leaseMs, op.clientToken);
    assert Claimable(s1, tid, now);
    GrantEnabled(s, op, now);
    ClaimableRun(s1, tid, now);
    DoAllAppend(s, Expiries(op.order), grant, now);
    GrantIs(s1, tid, op.newLease, op.newAttempt, op.worker, now + op.leaseMs, op.clientToken, now);
    DoInv(s1, grant, now);
    assert Plan(s, op, now) == Ok(Expiries(op.order) + [grant]);
    hide BestPick, Plan;
  }

  lemma ClaimableRun(s: State, tid: TaskId, now: Time)
    requires Claimable(s, tid, now)
    ensures tid in s.tasks && s.tasks[tid].spec.runId in s.runs
  {}

  /** Dependencies are never missing, so asking for one that is there and unfinished (as the SQL query does) is
      the same as asking that each be there and completed (as the memory store does). */
  lemma DependenciesByQuery(s: State, tid: TaskId)
    requires Inv(s) && tid in s.tasks
    ensures DepsCompleted(s, s.tasks[tid]) <==>
            !exists d | d in s.tasks[tid].spec.deps :: d in s.tasks && s.tasks[d].status != Completed
  {
    hide Inv;
    InvTask(s, tid);
  }

  // ---- Prune ----

  ghost predicate PurgedSoFar(s: State, s1: State, ids: seq<RunId>, now: Time) {
    EnabledAll(s, Purges(ids), now) && s1 == DoAll(s, Purges(ids), now) && Inv(s1)
  }

  lemma PurgesSnoc(ids: seq<RunId>, rid: RunId)
    ensures Purges(ids + [rid]) == Purges(ids) + [Purge(rid)]
  {}

  lemma PruneStart(s: State, now: Time)
    requires Inv(s)
    ensures PurgedSoFar(s, s, [], now)
  {
    assert Purges([]) == [];
  }

  lemma PurgeRound(s: State, s1: State, ids: seq<RunId>, rid: RunId, now: Time)
    requires PurgedSoFar(s, s1, ids, now) && rid in s1.runs
    ensures PurgedSoFar(s, PurgeRows(s1, rid), ids + [rid], now)
  {
    hide Inv, PurgeRows;
    assert Enabled(s1, Purge(rid), now) && Do(s1, Purge(rid), now) == PurgeRows(s1, rid);
    PurgesSnoc(ids, rid);
    DoAllAppend(s, Purges(ids), Purge(rid), now);
    DoInv(s1, Purge(rid), now);
  }

  /** `slice(0, limit)`: a negative limit drops that many rows from the end. */
  function SliceTake(limit: int, available: nat): nat {
    if limit >= 0 then (if limit < available then limit else available)
    else if available + limit > 0 then available + limit else 0
  }

  /** `LIMIT`: a negative limit is no limit. */
  function LimitTake(limit: int, available: nat): nat {
    if 0 <= limit < available then limit else available
  }

  /** The two stores prune the same number of runs exactly when the limit is not negative or nothing is due. */
  lemma PruneLimitsAgree(limit: int, available: nat)
    ensures SliceTake(limit, available) == LimitTake(limit, available) <==> limit >= 0 || available == 0
  {}

  lemma {:induction false} DistinctKeys<T>(rows: seq<(nat, T)>)
    requires NoDuplicates(rows) && (forall a, b | a in rows && b in rows :: a.0 == b.0 ==> a == b)
    ensures NoDuplicates(seq(|rows|, i requires 0 <= i < |rows| => rows[i].0))
  {
    var keys := seq(|rows|, i requires 0 <= i < |rows| => rows[i].0);
    forall i, j | 0 <= i < j < |keys| ensures keys[i] != keys[j] {
      assert rows[i] in rows && rows[j] in rows;
    }
  }

  lemma SortDistinct<T(!new)>(xs: seq<T>, leq: (T, T) -> bool)
    requires TotalPreorder(leq) && NoDuplicates(xs)
    ensures NoDuplicates(Sort(xs, leq))
  {
    SortSorts(xs, leq);
    CountDistinct(xs);
    CountDistinct(Sort(xs, leq));
    assert Elements(Sort(xs, leq)) == Elements(xs);
  }

  predicate OlderFirst(a: (RunId, Run), b: (RunId, Run)) {
    a.1.updatedAt <= b.1.updatedAt
  }

  /** The runs that are due, with their rows, each once. */
  ghost predicate DueRuns(s: State, statuses: seq<RunStatus>, cutoff: Time, due: seq<(RunId, Run)>) {
    && NoDuplicates(due)
    && (forall e | e in due :: e.0 in PruneCandidates(s, statuses, cutoff) && e.1 == s.runs[e.0])
    && (forall r | r in PruneCandidates(s, statuses, cutoff) :: (r, s.runs[r]) in due)
  }

  function Ids<T>(rows: seq<(nat, T)>): seq<nat> {
    seq(|rows|, i requires 0 <= i < |rows| => rows[i].0)
  }

  lemma DueCount(s: State, statuses: seq<RunStatus>, cutoff: Time, due: seq<(RunId, Run)>)
    requires DueRuns(s, statuses, cutoff, due)
    ensures NoDuplicates(Ids(due)) && Elements(Ids(due)) == PruneCandidates(s, statuses, cutoff)
    ensures |due| == |PruneCandidates(s, statuses, cutoff)|
  {
    DistinctKeys(due);
    var ids, candidates := Ids(due), PruneCandidates(s, statuses, cutoff);
    forall r | r in candidates ensures r in ids {
      assert (r, s.runs[r]) in due;
      var i :| 0 <= i < |due| && due[i] == (r, s.runs[r]);
      assert ids[i] == r;
    }
    forall r | r in ids ensures r in candidates {
      var i :| 0 <= i < |ids| && ids[i] == r;
      assert due[i] in due;
    }
    assert Elements(ids) == candidates;
    CountDistinct(ids);
  }

  /** Filtering, sorting by age and taking the first rows is what the prune query asks for. */
  lemma FirstDue(s: State, statuses: seq<RunStatus>, cutoff: Time, due: seq<(RunId, Run)>, take: nat)
    requires DueRuns(s, statuses, cutoff, due) && take <= |due|
    ensures |Sort(due, OlderFirst)| == |due|
    ensures PruneChoice(s, statuses, cutoff, take, Ids(Sort(due, OlderFirst)[..take]))
  {
    var sorted := Sort(due, OlderFirst);
    SortSorts(due, OlderFirst);
    SortDistinct(due, OlderFirst);
    hide Sort, TotalPreorder, PruneCandidates;
    assert DueRuns(s, statuses, cutoff, sorted);
    DueCount(s, statuses, cutoff, sorted);
    TakeFirst(s, statuses, cutoff, sorted, take);
  }

  lemma TakeFirst(s: State, statuses: seq<RunStatus>, cutoff: Time, sorted: seq<(RunId, Run)>, take: nat)
    requires DueRuns(s, statuses, cutoff, sorted) && SortedBy(sorted, OlderFirst) && take <= |sorted|
    requires NoDuplicates(Ids(sorted)) && |sorted| == |PruneCandidates(s, statuses, cutoff)|
    ensures PruneChoice(s, statuses, cutoff, take, Ids(sorted[..take]))
  {
    var chosen, candidates := Ids(sorted[..take]), PruneCandidates(s, statuses, cutoff);
    assert forall i | 0 <= i < take :: chosen[i] == sorted[i].0 == Ids(sorted)[i] && sorted[i] in sorted;
    forall r, q | r in chosen && q in candidates && q !in chosen ensures s.runs[r].updatedAt <= s.runs[q].updatedAt {
      var i :| 0 <= i < take && chosen[i] == r;
      YoungerLeft(s, statuses, cutoff, sorted, take, i, q);
    }
    hide PruneCandidates, SortedBy;
    forall i, j | 0 <= i < j < |chosen| ensures s.runs[chosen[i]].updatedAt <= s.runs[chosen[j]].updatedAt {
      InOrder(sorted, i, j);
    }
  }

  lemma InOrder(sorted: seq<(RunId, Run)>, i: nat, j: nat)
    requires SortedBy(sorted, OlderFirst) && i < j < |sorted|
    ensures sorted[i].1.updatedAt <= sorted[j].1.updatedAt
  {
    assert OlderFirst(sorted[i], sorted[j]);
  }

  lemma TakenIds(sorted: seq<(RunId, Run)>, take: nat, j: nat)
    requires take <= |sorted| && j < |sorted|
    ensures j >= take || sorted[j].0 in Ids(sorted[..take])
  {
    if j < take {
      assert Ids(sorted[..take])[j] == sorted[j].0;
    }
  }

  lemma YoungerLeft(s: State, statuses: seq<RunStatus>, cutoff: Time, sorted: seq<(RunId, Run)>, take: nat, i: nat, q: RunId)
    requires DueRuns(s, statuses, cutoff, sorted) && SortedBy(sorted, OlderFirst) && i < take <= |sorted|
    requires q in PruneCandidates(s, statuses, cutoff) && q !in Ids(sorted[..take])
    ensures q in s.runs && sorted[i].1.updatedAt <= s.runs[q].updatedAt
  {
    assert (q, s.runs[q]) in sorted;
    var j :| 0 <= j < |sorted| && sorted[j] == (q, s.runs[q]);
    TakenIds(sorted, take, j);
    InOrder(sorted, i, j);
  }

  /** After any part of a prune, the runs not yet reached are still there. */
  lemma PurgesLeave(s: State, ids: seq<RunId>, i: nat, now: Time)
    requires NoDuplicates(ids) && (forall r | r in ids :: r in s.runs) && i < |ids|
    ensures EnabledAll(s, Purges(ids[..i]), now) && ids[i] in DoAll(s, Purges(ids[..i]), now).runs
  {
    forall r | r in ids[..i] ensures r in s.runs && r != ids[i] {
      var k :| 0 <= k < i && ids[k] == r;
    }
    PurgesEnabled(s, ids[..i], now);
    assert ids[i] in ids;
  }

  lemma PurgeRowsAre(s: State, rid: RunId, after: State)
    requires after.runs == s.runs - {rid}
    requires after.tasks == map x | x in s.tasks && s.tasks[x].spec.runId != rid :: s.tasks[x]
    requires after.attempts == map x | x in s.attempts && s.attempts[x].runId != rid :: s.attempts[x]
    requires after.leases == map x | x in s.leases && s.leases[x].runId != rid :: s.leases[x]
    requires after.completions == map x | x in s.completions && s.completions[x].runId != rid :: s.completions[x]
    requires after.log == DropRun(s.log, rid) && after.seqNo == s.seqNo && after.used == s.used
    ensures after == PurgeRows(s, rid)
  {
    hide DropRun;
    var p := PurgeRows(s, rid);
    assert after.runs == p.runs;
    assert after.tasks == p.tasks;
    assert after.attempts == p.attempts;
    assert after.leases == p.leases;
    assert after.completions == p.completions;
  }

  /** How many runs a prune takes, and which are gone then. */
  lemma TakenRuns(s: State, statuses: seq<RunStatus>, cutoff: Time, take: nat, ids: seq<RunId>, now: Time)
    requires PruneChoice(s, statuses, cutoff, take, ids) && EnabledAll(s, Purges(ids), now)
    ensures |ids| == if take < |PruneCandidates(s, statuses, cutoff)| then take else |PruneCandidates(s, statuses, cutoff)|
    ensures forall r :: r in ids <==> r in s.runs && r !in DoAll(s, Purges(ids), now).runs
  {
    PurgesEnabled(s, ids, now);
  }

  lemma TakenDue(s: State, statuses: seq<RunStatus>, cutoff: Time, take: nat, ids: seq<RunId>)
    requires PruneChoice(s, statuses, cutoff, take, ids)
    ensures forall r | r in ids ::
              && r in s.runs && s.runs[r].updatedAt < cutoff
              && if |statuses| == 0 then s.runs[r].status in {RunCompleted, RunFailed, RunCancelled} else s.runs[r].status in statuses
  {}

  lemma ChoiceKnown(s: State, statuses: seq<RunStatus>, cutoff: Time, take: nat, chosen: seq<RunId>)
    requires PruneChoice(s, statuses, cutoff, take, chosen)
    ensures NoDuplicates(chosen) && forall r | r in chosen :: r in s.runs
  {}

  // ---- Replies of a claim ----

  /** The rows a claim returns. */
  datatype Claimed = Claimed(leaseId: Uuid, run: Run, task: Task, attempt: Attempt, lease: Lease)

  ghost predicate ClaimedRows(s: State, c: Claimed) {
    && c.leaseId in s.leases && c.lease == s.leases[c.leaseId]
    && c.lease.attemptId in s.attempts && c.attempt == s.attempts[c.lease.attemptId]
    && c.lease.taskId in s.tasks && c.task == s.tasks[c.lease.taskId]
    && c.lease.runId in s.runs && c.run == s.runs[c.lease.runId]
  }

  /** What a lease row refers to is there. */
  lemma LeaseRows(s: State, lid: Uuid)
    requires Inv(s) && lid in s.leases
    ensures s.leases[lid].attemptId in s.attempts && s.leases[lid].taskId in s.tasks && s.leases[lid].runId in s.runs
  {
    hide Inv;
    InvTables(s);
    hide Core, AttemptsOk, CompletionsOk, Unique, LogOk;
    assert LeaseOk(s, lid);
    assert TaskOk(s, s.leases[lid].taskId);
  }
}
