/** The memory store overwrites the row of a run or task whose id is used again.  Exactly when it may. */
module Reuse {
  import opened Records
  import opened StateMachine
  import opened Writes
  import opened Invariant
  import opened Preservation
  import opened Transactions
  import opened Refinement
  import opened EventLog
  import opened Ledger
  import opened Lifecycle

  // ---- Runs ----

  function CreatedOver(s: State, rid: RunId, now: Time): State {
    Emit(s.(runs := s.runs[rid := Run(RunPending, now)]), rid, None, None, RunCreated, now)
  }

  predicate NoTaskIn(s: State, rid: RunId) {
    forall x | x in s.tasks :: s.tasks[x].spec.runId != rid
  }

  lemma CreatedTaskOk(s: State, rid: RunId, now: Time, x: TaskId)
    requires x in s.tasks && TaskOk(s, x) && s.tasks[x].spec.runId != rid
    ensures TaskOk(CreatedOver(s, rid, now), x)
  {}

  lemma CreatedHolds(s: State, rid: RunId, now: Time)
    requires LeasesOk(s) && AttemptsOk(s) && CompletionsOk(s) && Unique(s) && LogOk(s)
    ensures var s' := CreatedOver(s, rid, now); LeasesOk(s') && CompletionsOk(s') && Unique(s') && LogOk(s')
  {
    var s' := CreatedOver(s, rid, now);
    forall x | x in s'.leases ensures LeaseOk(s', x) { assert LeaseOk(s, x); }
    forall x | x in s'.completions ensures CompletionOk(s', x) { assert CompletionOk(s, x); }
    hide LeaseOk, AttemptOk, CompletionOk;
  }

  lemma CreatedAttempts(s: State, rid: RunId, now: Time)
    requires AttemptsOk(s)
    ensures AttemptsOk(CreatedOver(s, rid, now))
  {
    var s' := CreatedOver(s, rid, now);
    forall x | x in s'.attempts ensures AttemptOk(s', x) {
      assert AttemptOk(s, x);
      assert DepsCompleted(s', s'.tasks[s.attempts[x].taskId]);
    }
  }

  lemma CreatedCore(s: State, rid: RunId, now: Time)
    requires Core(s) && NoTaskIn(s, rid)
    ensures Core(CreatedOver(s, rid, now))
  {
    hide LeasesOk, AttemptsOk, CompletionsOk, Unique, LogOk, TaskOk, CreatedOver;
    CreatedHolds(s, rid, now);
    CreatedAttempts(s, rid, now);
    var s' := CreatedOver(s, rid, now);
    assert s'.tasks == s.tasks by { CreatedTables(s, rid, now); }
    forall x | x in s'.tasks ensures TaskOk(s', x) {
      CreatedTaskOk(s, rid, now, x);
    }
  }

  lemma CreatedTables(s: State, rid: RunId, now: Time)
    ensures var s' := CreatedOver(s, rid, now);
            s'.tasks == s.tasks && s'.runs == s.runs[rid := Run(RunPending, now)]
  {}

  lemma CreatedAgrees(s: State, rid: RunId, now: Time, r: RunId)
    requires r in s.runs || r == rid
    requires r != rid ==> Agrees(s, r)
    requires r == rid ==> NoTaskIn(s, rid)
    ensures r in CreatedOver(s, rid, now).runs && Agrees(CreatedOver(s, rid, now), r)
  {
    var s' := CreatedOver(s, rid, now);
    if r != rid {
      StatusesFrame(s, s', r);
    } else {
      assert StatusesOf(s', rid) == {};
    }
  }

  /** Creating a run under an id in use keeps the invariant exactly when that run has no task. */
  lemma CreatedKeepsInv(s: State, rid: RunId, now: Time)
    requires Inv(s)
    ensures Inv(CreatedOver(s, rid, now)) <==> NoTaskIn(s, rid)
  {
    var s' := CreatedOver(s, rid, now);
    if NoTaskIn(s, rid) {
      hide Core, Agrees;
      CreatedCore(s, rid, now);
      CreatedTables(s, rid, now);
      forall r | r in s'.runs ensures Agrees(s', r) {
        CreatedAgrees(s, rid, now, r);
      }
    } else {
      var x :| x in s.tasks && s.tasks[x].spec.runId == rid;
      hide Core;
      assert InRun(s', x, rid);
      assert s'.tasks[x].status in StatusesOf(s', rid);
      assert !Agrees(s', rid);
    }
  }

  // ---- Tasks ----

  function EnqueuedOver(s: State, tid: TaskId, spec: TaskSpec, now: Time): (r: State)
    ensures r.runs == s.runs
  {
    Emit(s.(tasks := s.tasks[tid := NewTask(s, spec, now)]), spec.runId, Some(tid), None,
         TaskEnqueued(spec.kind, spec.priority, spec.deps), now)
  }

  function StatusesBut(s: State, rid: RunId, tid: TaskId): set<TaskStatus> {
    set x | x in s.tasks && InRun(s, x, rid) && x != tid :: s.tasks[x].status
  }

  /** What the call has checked when it writes the row. */
  predicate Admitted(s: State, tid: TaskId, spec: TaskSpec) {
    && spec.runId in s.runs && !TerminalRun(s.runs[spec.runId].status) && tid !in spec.deps
    && (forall d | d in spec.deps :: InRun(s, d, spec.runId))
    && (spec.key.Some? ==> !KeyTaken(s, spec.runId, spec.key.value))
  }

  predicate LeaseAllows(s: State, lid: Uuid, tid: TaskId, spec: TaskSpec)
    requires lid in s.leases
  {
    var l := s.leases[lid];
    l.taskId == tid ==> l.status != LeaseActive && l.runId == spec.runId
  }

  predicate AttemptAllows(s: State, aid: Uuid, tid: TaskId, spec: TaskSpec)
    requires aid in s.attempts
  {
    var a := s.attempts[aid];
    a.taskId == tid ==>
      && !Live(a) && !Decided(a) && a.runId == spec.runId
      && forall d | d in spec.deps :: d in s.tasks && s.tasks[d].status == Completed
  }

  predicate RunAllows(s: State, tid: TaskId, spec: TaskSpec) {
    tid in s.tasks && s.tasks[tid].spec.runId != spec.runId && s.tasks[tid].spec.runId in s.runs ==>
      var run := s.runs[s.tasks[tid].spec.runId];
      run.status == RunCancelled || run.status == RunStatusTable(StatusesBut(s, s.tasks[tid].spec.runId, tid))
  }

  /** Nothing in the store depends on the row that is overwritten being what it was: no other task waits for it, no
      token is recorded for it, its leases and attempts are over and undecided and belong to the same run, with the
      new dependencies completed, and its old run can do without it. */
  predicate Replaceable(s: State, tid: TaskId, spec: TaskSpec) {
    && (forall x | x in s.tasks && x != tid :: tid !in s.tasks[x].spec.deps)
    && (forall token | token in s.completions :: s.completions[token].taskId != tid)
    && (forall lid | lid in s.leases :: LeaseAllows(s, lid, tid, spec))
    && (forall aid | aid in s.attempts :: AttemptAllows(s, aid, tid, spec))
    && RunAllows(s, tid, spec)
  }

  lemma OverTaskOk(s: State, tid: TaskId, spec: TaskSpec, now: Time, x: TaskId)
    requires Admitted(s, tid, spec) && x in s.tasks && x != tid && TaskOk(s, x) && tid !in s.tasks[x].spec.deps
    ensures TaskOk(EnqueuedOver(s, tid, spec, now), x)
  {
    hide KeyTaken;
  }

  lemma OverNewOk(s: State, tid: TaskId, spec: TaskSpec, now: Time)
    requires Admitted(s, tid, spec) && forall d | d in spec.deps :: d in s.tasks && s.tasks[d].row < s.seqNo
    ensures TaskOk(EnqueuedOver(s, tid, spec, now), tid)
  {
    hide KeyTaken;
    var s' := EnqueuedOver(s, tid, spec, now);
    assert forall d | d in spec.deps :: s'.tasks[d] == s.tasks[d];
  }

  lemma OverTasksOk(s: State, tid: TaskId, spec: TaskSpec, now: Time)
    requires Admitted(s, tid, spec) && TasksOk(s) && forall x | x in s.tasks && x != tid :: tid !in s.tasks[x].spec.deps
    ensures TasksOk(EnqueuedOver(s, tid, spec, now))
  {
    forall d | d in spec.deps ensures d in s.tasks && s.tasks[d].row < s.seqNo {
      assert InRun(s, d, spec.runId) && TaskOk(s, d);
    }
    OverNewOk(s, tid, spec, now);
    hide TaskOk, Admitted;
    var s' := EnqueuedOver(s, tid, spec, now);
    forall x | x in s'.tasks ensures TaskOk(s', x) {
      if x != tid { OverTaskOk(s, tid, spec, now, x); }
    }
  }

  lemma OverLeasesOk(s: State, tid: TaskId, spec: TaskSpec, now: Time)
    requires LeasesOk(s) && forall lid | lid in s.leases :: LeaseAllows(s, lid, tid, spec)
    ensures LeasesOk(EnqueuedOver(s, tid, spec, now))
  {
    var s' := EnqueuedOver(s, tid, spec, now);
    forall lid | lid in s'.leases ensures LeaseOk(s', lid) {
      assert LeaseOk(s, lid) && LeaseAllows(s, lid, tid, spec);
    }
  }

  lemma OverAttemptOk(s: State, tid: TaskId, spec: TaskSpec, now: Time, aid: Uuid)
    requires aid in s.attempts && AttemptOk(s, aid) && AttemptAllows(s, aid, tid, spec) && tid !in spec.deps
    requires s.attempts[aid].taskId != tid ==> tid !in s.tasks[s.attempts[aid].taskId].spec.deps
    ensures AttemptOk(EnqueuedOver(s, tid, spec, now), aid)
  {
    var s', x := EnqueuedOver(s, tid, spec, now), s.attempts[aid].taskId;
    assert DepsCompleted(s', s'.tasks[x]);
  }

  lemma OverAttemptsOk(s: State, tid: TaskId, spec: TaskSpec, now: Time)
    requires AttemptsOk(s) && Replaceable(s, tid, spec) && tid !in spec.deps
    ensures AttemptsOk(EnqueuedOver(s, tid, spec, now))
  {
    hide EnqueuedOver, AttemptAllows, LeaseAllows, RunAllows;
    OverTables(s, tid, spec, now);
    var s' := EnqueuedOver(s, tid, spec, now);
    forall aid | aid in s'.attempts ensures AttemptOk(s', aid) {
      assert AttemptOk(s, aid) && AttemptAllows(s, aid, tid, spec);
      OverAttemptOk(s, tid, spec, now, aid);
    }
  }

  lemma OverTables(s: State, tid: TaskId, spec: TaskSpec, now: Time)
    ensures var s' := EnqueuedOver(s, tid, spec, now);
            && s'.tasks == s.tasks[tid := NewTask(s, spec, now)] && s'.attempts == s.attempts && s'.leases == s.leases
            && s'.completions == s.completions && s'.runs == s.runs
  {}

  lemma OverRest(s: State, tid: TaskId, spec: TaskSpec, now: Time)
    requires CompletionsOk(s) && Unique(s) && LogOk(s) && Admitted(s, tid, spec)
    requires forall token | token in s.completions :: s.completions[token].taskId != tid
    ensures var s' := EnqueuedOver(s, tid, spec, now); CompletionsOk(s') && Unique(s') && LogOk(s')
  {
    var s' := EnqueuedOver(s, tid, spec, now);
    forall x | x in s'.completions ensures CompletionOk(s', x) {
      assert CompletionOk(s, x);
    }
    assert OneOutcome(s') && TokensUnique(s') && LogOk(s');
    assert KeysUnique(s');
  }

  lemma OverCore(s: State, tid: TaskId, spec: TaskSpec, now: Time)
    requires Core(s) && Admitted(s, tid, spec) && Replaceable(s, tid, spec)
    ensures Core(EnqueuedOver(s, tid, spec, now))
  {
    hide TasksOk, LeasesOk, AttemptsOk, CompletionsOk, Unique, LogOk, EnqueuedOver, LeaseAllows, AttemptAllows;
    OverTasksOk(s, tid, spec, now);
    OverLeasesOk(s, tid, spec, now);
    OverAttemptsOk(s, tid, spec, now);
    OverRest(s, tid, spec, now);
  }

  /** The statuses in the runs that are not recomputed. */
  lemma OverStatuses(s: State, tid: TaskId, spec: TaskSpec, now: Time, r: RunId)
    requires r != spec.runId
    ensures StatusesOf(EnqueuedOver(s, tid, spec, now), r) == StatusesBut(s, r, tid)
    ensures tid !in s.tasks || s.tasks[tid].spec.runId != r ==> StatusesBut(s, r, tid) == StatusesOf(s, r)
  {
    var s' := EnqueuedOver(s, tid, spec, now);
    assert forall x :: x in s'.tasks && InRun(s', x, r) <==> x in s.tasks && InRun(s, x, r) && x != tid;
    assert forall x | x in s.tasks && x != tid :: s'.tasks[x] == s.tasks[x];
  }

  lemma OverAgrees(s: State, tid: TaskId, spec: TaskSpec, now: Time, r: RunId)
    requires r in s.runs && r != spec.runId && Agrees(s, r)
    ensures r in EnqueuedOver(s, tid, spec, now).runs
    ensures Agrees(EnqueuedOver(s, tid, spec, now), r)
       <==> (tid in s.tasks && s.tasks[tid].spec.runId == r ==> RunAllows(s, tid, spec))
  {
    OverTables(s, tid, spec, now);
    OverStatuses(s, tid, spec, now, r);
    hide EnqueuedOver, StatusesOf, StatusesBut, RunStatusTable;
  }

  lemma OverAllAgree(s: State, tid: TaskId, spec: TaskSpec, now: Time)
    requires (forall r | r in s.runs :: Agrees(s, r)) && RunAllows(s, tid, spec)
    ensures forall r | r in EnqueuedOver(s, tid, spec, now).runs && r != spec.runId :: Agrees(EnqueuedOver(s, tid, spec, now), r)
  {
    hide Agrees, RunAllows, EnqueuedOver;
    OverTables(s, tid, spec, now);
    forall r | r in EnqueuedOver(s, tid, spec, now).runs && r != spec.runId ensures Agrees(EnqueuedOver(s, tid, spec, now), r) {
      OverAgrees(s, tid, spec, now, r);
    }
  }

  lemma ReplaceableKeeps(s: State, tid: TaskId, spec: TaskSpec, now: Time)
    requires Inv(s) && Admitted(s, tid, spec) && Replaceable(s, tid, spec)
    ensures spec.runId in EnqueuedOver(s, tid, spec, now).runs
    ensures Inv(Recompute(EnqueuedOver(s, tid, spec, now), spec.runId, now))
  {
    hide Core, Agrees, EnqueuedOver, Recompute;
    OverTables(s, tid, spec, now);
    OverCore(s, tid, spec, now);
    OverAllAgree(s, tid, spec, now);
    RecomputeInv(EnqueuedOver(s, tid, spec, now), spec.runId, now);
  }

  // Conversely, each part of the condition is needed.

  lemma NeedsNoDependents(s: State, s': State, tid: TaskId, spec: TaskSpec, now: Time)
    requires TasksOk(s) && TasksOk(s') && s'.tasks == s.tasks[tid := NewTask(s, spec, now)]
    ensures forall x | x in s.tasks && x != tid :: tid !in s.tasks[x].spec.deps
  {
    forall x | x in s.tasks && x != tid ensures tid !in s.tasks[x].spec.deps {
      assert TaskOk(s, x) && TaskOk(s', x);
    }
  }

  lemma NeedsNoToken(s: State, s': State, tid: TaskId, spec: TaskSpec, now: Time)
    requires CompletionsOk(s') && s'.tasks == s.tasks[tid := NewTask(s, spec, now)] && s'.completions == s.completions
    ensures forall token | token in s.completions :: s.completions[token].taskId != tid
  {
    forall token | token in s.completions ensures s.completions[token].taskId != tid {
      assert CompletionOk(s', token);
    }
  }

  lemma NeedsLeases(s: State, s': State, tid: TaskId, spec: TaskSpec, now: Time)
    requires LeasesOk(s') && s'.tasks == s.tasks[tid := NewTask(s, spec, now)] && s'.leases == s.leases
    ensures forall lid | lid in s.leases :: LeaseAllows(s, lid, tid, spec)
  {
    forall lid | lid in s.leases ensures LeaseAllows(s, lid, tid, spec) {
      assert LeaseOk(s', lid);
    }
  }

  lemma NeedsAttempts(s: State, s': State, tid: TaskId, spec: TaskSpec, now: Time)
    requires AttemptsOk(s') && s'.tasks == s.tasks[tid := NewTask(s, spec, now)] && s'.attempts == s.attempts && tid !in spec.deps
    ensures forall aid | aid in s.attempts :: AttemptAllows(s, aid, tid, spec)
  {
    forall aid | aid in s.attempts ensures AttemptAllows(s, aid, tid, spec) {
      assert AttemptOk(s', aid);
      if s.attempts[aid].taskId == tid {
        assert DepsCompleted(s', s'.tasks[tid]);
        assert forall d | d in spec.deps :: s'.tasks[d] == s.tasks[d];
      }
    }
  }

  lemma NeedsRun(s: State, tid: TaskId, spec: TaskSpec, now: Time)
    requires (forall r | r in s.runs :: Agrees(s, r)) && spec.runId in s.runs && spec.runId in EnqueuedOver(s, tid, spec, now).runs
    requires var s' := Recompute(EnqueuedOver(s, tid, spec, now), spec.runId, now); forall r | r in s'.runs :: Agrees(s', r)
    ensures RunAllows(s, tid, spec)
  {
    if tid in s.tasks && s.tasks[tid].spec.runId in s.runs && s.tasks[tid].spec.runId != spec.runId {
      var e, r := EnqueuedOver(s, tid, spec, now), s.tasks[tid].spec.runId;
      OverTables(s, tid, spec, now);
      RecomputeRuns(e, spec.runId, now);
      RecomputeTasks(e, spec.runId, now);
      var s' := Recompute(e, spec.runId, now);
      hide EnqueuedOver, Recompute, RunStatusTable;
      assert Agrees(s', r);
      StatusesFrame(e, s', r);
      OverAgrees(s, tid, spec, now, r);
    }
  }

  /** Enqueueing under an id in use, in every circumstance in which the memory store lets it pass, keeps the
      invariant exactly when the old row is replaceable. */
  lemma EnqueuedKeepsInv(s: State, tid: TaskId, spec: TaskSpec, now: Time)
    requires Inv(s) && Admitted(s, tid, spec)
    ensures spec.runId in EnqueuedOver(s, tid, spec, now).runs
    ensures Inv(Recompute(EnqueuedOver(s, tid, spec, now), spec.runId, now)) <==> Replaceable(s, tid, spec)
  {
    hide Core, Agrees, EnqueuedOver, Recompute, TasksOk, LeasesOk, AttemptsOk, CompletionsOk, Unique, LogOk, LeaseAllows, AttemptAllows, RunAllows;
    OverTables(s, tid, spec, now);
    var e := EnqueuedOver(s, tid, spec, now);
    var s' := Recompute(e, spec.runId, now);
    RecomputeLeaves(e, spec.runId, now);
    if Inv(s') {
      InvTables(s);
      InvTables(s');
      NeedsNoDependents(s, s', tid, spec, now);
      NeedsNoToken(s, s', tid, spec, now);
      NeedsLeases(s, s', tid, spec, now);
      NeedsAttempts(s, s', tid, spec, now);
      NeedsRun(s, tid, spec, now);
    }
    if Replaceable(s, tid, spec) {
      ReplaceableKeeps(s, tid, spec, now);
    }
  }

  lemma RecomputeLeaves(s: State, rid: RunId, now: Time)
    requires rid in s.runs
    ensures var s' := Recompute(s, rid, now);
            s'.tasks == s.tasks && s'.attempts == s.attempts && s'.leases == s.leases && s'.completions == s.completions
  {
    hide DeriveFrom, StatusesOf;
  }

  // ---- Everything that reachable states promise ----

  /** The invariant, the attempt ledger, and the log rebuilding the tables. */
  predicate Sound(s: State) {
    Inv(s) && LedgerOk(s) && Replayed(s)
  }

  lemma CreatedLedger(s: State, rid: RunId, now: Time)
    requires LedgerOk(s)
    ensures LedgerOk(CreatedOver(s, rid, now))
  {
    var s' := CreatedOver(s, rid, now);
    hide ResetSum;
    forall x | x in s'.tasks ensures Balanced(s', x) {
      assert Balanced(s, x) && AttemptRows(s', x) == AttemptRows(s, x);
      ResetSumSnoc(s.log, s'.log[|s.log|], s.tasks[x].spec.runId, x);
    }
  }

  /** Reading the log, the event of the creation starts the run afresh. */
  lemma CreatedFaithful(s: State, rid: RunId, now: Time, r: RunId)
    requires NoTaskIn(s, rid) && (r == rid || (r in s.runs && Faithful(s, r)))
    ensures r in CreatedOver(s, rid, now).runs && Faithful(CreatedOver(s, rid, now), r)
  {
    var s' := CreatedOver(s, rid, now);
    ReplaySnoc(s.log, s'.log[|s.log|], r);
    if r == rid {
      assert ViewOf(s', rid).tasks == map[];
    } else {
      hide Replay;
      assert ViewOf(s', r).tasks == ViewOf(s, r).tasks;
    }
  }

  lemma CreatedOnward(s: State, rid: RunId, now: Time)
    requires rid in s.runs
    ensures Onward(s, CreatedOver(s, rid, now), rid) <==> s.runs[rid].status != RunCancelled
  {}

  /** Creating a run under an id in use keeps all this exactly when that run has no task; and it keeps the promise
      that a cancelled run stays cancelled exactly when the run was not cancelled. */
  lemma RunReused(s: State, rid: RunId, now: Time)
    requires Sound(s)
    ensures var s' := CreatedOver(s, rid, now);
            && (Sound(s') <==> NoTaskIn(s, rid))
            && (rid in s.runs ==> (Onward(s, s', rid) <==> s.runs[rid].status != RunCancelled))
  {
    hide Inv, LedgerOk, Faithful, NoTaskIn, Onward, CreatedOver;
    var s' := CreatedOver(s, rid, now);
    CreatedKeepsInv(s, rid, now);
    CreatedTables(s, rid, now);
    CreatedLedger(s, rid, now);
    if NoTaskIn(s, rid) {
      forall r | r in s'.runs ensures Faithful(s', r) {
        CreatedFaithful(s, rid, now, r);
      }
    }
    if rid in s.runs {
      CreatedOnward(s, rid, now);
    }
  }

  /** The old row is of the same run and has no attempt on its count, no task depends on it, and if it was attempted
      before its count was reset, the new dependencies are completed. */
  predicate Untouched(s: State, tid: TaskId, spec: TaskSpec) {
    tid in s.tasks ==>
      && s.tasks[tid].spec.runId == spec.runId && s.tasks[tid].attemptCount == 0
      && (forall x | x in s.tasks && x != tid :: tid !in s.tasks[x].spec.deps)
      && (AttemptRows(s, tid) != {} ==> forall d | d in spec.deps :: d in s.tasks && s.tasks[d].status == Completed)
  }

  lemma NoTokenFor(s: State, tid: TaskId, token: Token)
    requires Inv(s) && token in s.completions && tid in s.tasks && s.tasks[tid].attemptCount == 0
    ensures s.completions[token].taskId != tid
  {
    InvTables(s);
    InvTask(s, tid);
    hide Core, TasksOk, LeasesOk, AttemptsOk, Unique, LogOk;
    assert CompletionOk(s, token);
  }

  lemma UntouchedLease(s: State, lid: Uuid, tid: TaskId, spec: TaskSpec)
    requires Inv(s) && Untouched(s, tid, spec) && lid in s.leases
    ensures LeaseAllows(s, lid, tid, spec)
  {
    if s.leases[lid].taskId == tid {
      InvTables(s);
      hide Core, TasksOk, AttemptsOk, CompletionsOk, Unique, LogOk;
      assert LeaseOk(s, lid);
      InvTask(s, tid);
    }
  }

  lemma UntouchedAttempt(s: State, aid: Uuid, tid: TaskId, spec: TaskSpec)
    requires Inv(s) && Untouched(s, tid, spec) && aid in s.attempts
    ensures AttemptAllows(s, aid, tid, spec)
  {
    if s.attempts[aid].taskId == tid {
      assert aid in AttemptRows(s, tid);
      InvTables(s);
      hide Core, TasksOk, LeasesOk, CompletionsOk, Unique, LogOk;
      assert AttemptOk(s, aid);
      InvTask(s, tid);
    }
  }

  lemma UntouchedReplaceable(s: State, tid: TaskId, spec: TaskSpec)
    requires Inv(s) && tid in s.tasks && Untouched(s, tid, spec)
    ensures Replaceable(s, tid, spec)
  {
    hide Inv, LeaseAllows, AttemptAllows;
    forall token | token in s.completions ensures s.completions[token].taskId != tid {
      NoTokenFor(s, tid, token);
    }
    forall lid | lid in s.leases ensures LeaseAllows(s, lid, tid, spec) {
      UntouchedLease(s, lid, tid, spec);
    }
    forall aid | aid in s.attempts ensures AttemptAllows(s, aid, tid, spec) {
      UntouchedAttempt(s, aid, tid, spec);
    }
  }

  lemma EnqueuedBalance(s: State, tid: TaskId, spec: TaskSpec, now: Time, x: TaskId)
    requires x in s.tasks && (x == tid ==> s.tasks[tid].spec.runId == spec.runId)
    ensures var s' := EnqueuedOver(s, tid, spec, now);
            && x in s'.tasks && s'.tasks[x].spec.runId == s.tasks[x].spec.runId
            && s'.tasks[x].attemptCount == (if x == tid then 0 else s.tasks[x].attemptCount)
            && AttemptRows(s', x) == AttemptRows(s, x)
            && ResetSum(s'.log, s.tasks[x].spec.runId, x) == ResetSum(s.log, s.tasks[x].spec.runId, x)
  {
    var s' := EnqueuedOver(s, tid, spec, now);
    ResetSumSnoc(s.log, s'.log[|s.log|], s.tasks[x].spec.runId, x);
  }

  lemma EnqueuedLedger(s: State, tid: TaskId, spec: TaskSpec, now: Time)
    requires LedgerOk(s) && tid in s.tasks && s.tasks[tid].spec.runId == spec.runId && s.tasks[tid].attemptCount == 0
    ensures LedgerOk(EnqueuedOver(s, tid, spec, now))
  {
    var s' := EnqueuedOver(s, tid, spec, now);
    assert EventsOwned(s');
    hide EventsOwned, ResetSum, AttemptRows, EnqueuedOver;
    OverTables(s, tid, spec, now);
    forall x | x in s'.tasks ensures Balanced(s', x) {
      assert Balanced(s, x);
      EnqueuedBalance(s, tid, spec, now, x);
    }
  }

  lemma EnqueuedFaithful(s: State, tid: TaskId, spec: TaskSpec, now: Time, r: RunId)
    requires r in s.runs && spec.runId in s.runs && tid in s.tasks && s.tasks[tid].spec.runId == spec.runId && Faithful(s, r)
    ensures r in EnqueuedOver(s, tid, spec, now).runs && Faithful(EnqueuedOver(s, tid, spec, now), r)
  {
    var s' := EnqueuedOver(s, tid, spec, now);
    ReplaySnoc(s.log, s'.log[|s.log|], r);
    hide Replay;
    if r == spec.runId {
      ViewUpdate(s, s', r, tid, NewTask(s, spec, now));
    } else {
      assert ViewOf(s', r).tasks == ViewOf(s, r).tasks;
    }
  }

  lemma EnqueuedReplayed(s: State, tid: TaskId, spec: TaskSpec, now: Time)
    requires Replayed(s) && spec.runId in s.runs && tid in s.tasks && s.tasks[tid].spec.runId == spec.runId
    ensures Replayed(EnqueuedOver(s, tid, spec, now))
  {
    hide Faithful;
    forall r | r in s.runs ensures Faithful(EnqueuedOver(s, tid, spec, now), r) {
      EnqueuedFaithful(s, tid, spec, now, r);
    }
  }

  lemma UntouchedKeeps(s: State, tid: TaskId, spec: TaskSpec, now: Time)
    requires Sound(s) && Admitted(s, tid, spec) && tid in s.tasks && Untouched(s, tid, spec)
    ensures spec.runId in EnqueuedOver(s, tid, spec, now).runs
    ensures Sound(Recompute(EnqueuedOver(s, tid, spec, now), spec.runId, now))
  {
    hide Inv, LedgerOk, Replayed, Replaceable, EnqueuedOver, Recompute;
    OverTables(s, tid, spec, now);
    UntouchedReplaceable(s, tid, spec);
    ReplaceableKeeps(s, tid, spec, now);
    EnqueuedLedger(s, tid, spec, now);
    RecomputeLedger(EnqueuedOver(s, tid, spec, now), spec.runId, now);
    EnqueuedReplayed(s, tid, spec, now);
    RecomputeReplayed(EnqueuedOver(s, tid, spec, now), spec.runId, now);
  }

  /** The log still shows the task in its old run. */
  lemma MovedUnfaithful(s: State, s': State, tid: TaskId, r: RunId)
    requires r in s.runs && r in s'.runs && InRun(s, tid, r) && !InRun(s', tid, r)
    requires Faithful(s, r) && Replay(s'.log, r) == Replay(s.log, r)
    ensures !Faithful(s', r)
  {
    hide Replay;
    assert tid in ViewOf(s, r).tasks && tid !in ViewOf(s', r).tasks;
  }

  lemma OverLog(s: State, tid: TaskId, spec: TaskSpec, now: Time, r: RunId)
    requires spec.runId in s.runs && r != spec.runId
    ensures spec.runId in EnqueuedOver(s, tid, spec, now).runs
    ensures Replay(Recompute(EnqueuedOver(s, tid, spec, now), spec.runId, now).log, r) == Replay(s.log, r)
  {
    hide DeriveFrom, StatusesOf;
    var e := EnqueuedOver(s, tid, spec, now);
    ReplaySnoc(s.log, e.log[|s.log|], r);
    var s' := Recompute(e, spec.runId, now);
    hide Replay;
    if |s'.log| > |e.log| {
      ReplaySnoc(e.log, s'.log[|e.log|], r);
    }
  }

  lemma NeedsSameRun(s: State, tid: TaskId, spec: TaskSpec, now: Time)
    requires Inv(s) && Replayed(s) && tid in s.tasks && spec.runId in s.runs
    requires spec.runId in EnqueuedOver(s, tid, spec, now).runs && Replayed(Recompute(EnqueuedOver(s, tid, spec, now), spec.runId, now))
    ensures s.tasks[tid].spec.runId == spec.runId
  {
    hide Inv, Faithful, EnqueuedOver, Recompute;
    var r, s' := s.tasks[tid].spec.runId, Recompute(EnqueuedOver(s, tid, spec, now), spec.runId, now);
    if r != spec.runId {
      InvTask(s, tid);
      OverTables(s, tid, spec, now);
      RecomputeLeaves(EnqueuedOver(s, tid, spec, now), spec.runId, now);
      RecomputeRuns(EnqueuedOver(s, tid, spec, now), spec.runId, now);
      OverLog(s, tid, spec, now, r);
      MovedUnfaithful(s, s', tid, r);
    }
  }

  lemma NeedsNoCount(s: State, tid: TaskId, spec: TaskSpec, now: Time)
    requires tid in s.tasks && Balanced(s, tid) && spec.runId in s.runs && s.tasks[tid].spec.runId == spec.runId
    requires spec.runId in EnqueuedOver(s, tid, spec, now).runs && LedgerOk(Recompute(EnqueuedOver(s, tid, spec, now), spec.runId, now))
    ensures s.tasks[tid].attemptCount == 0
  {
    var e := EnqueuedOver(s, tid, spec, now);
    var s' := Recompute(e, spec.runId, now);
    EnqueuedBalance(s, tid, spec, now, tid);
    RecomputeLeaves(e, spec.runId, now);
    RecomputedResetSum(e, spec.runId, now, tid);
    hide EnqueuedOver, Recompute, ResetSum;
    assert Balanced(s', tid);
    assert AttemptRows(s', tid) == AttemptRows(e, tid);
  }

  lemma RecomputedResetSum(s: State, rid: RunId, now: Time, x: TaskId)
    requires rid in s.runs && x in s.tasks
    ensures ResetSum(Recompute(s, rid, now).log, s.tasks[x].spec.runId, x) == ResetSum(s.log, s.tasks[x].spec.runId, x)
  {
    hide DeriveFrom, StatusesOf, ResetSum;
    var s' := Recompute(s, rid, now);
    if |s'.log| > |s.log| {
      ResetSumSnoc(s.log, s'.log[|s.log|], s.tasks[x].spec.runId, x);
    }
  }

  lemma SoundNeeds(s: State, tid: TaskId, spec: TaskSpec, now: Time)
    requires Sound(s) && Admitted(s, tid, spec) && tid in s.tasks
    requires spec.runId in EnqueuedOver(s, tid, spec, now).runs && Sound(Recompute(EnqueuedOver(s, tid, spec, now), spec.runId, now))
    ensures Untouched(s, tid, spec)
  {
    hide Inv, Replayed, EnqueuedOver, Recompute, LeaseAllows, RunAllows;
    EnqueuedKeepsInv(s, tid, spec, now);
    NeedsSameRun(s, tid, spec, now);
    assert Balanced(s, tid);
    hide LedgerOk, Balanced, KeyTaken;
    NeedsNoCount(s, tid, spec, now);
    forall aid | aid in AttemptRows(s, tid) ensures forall d | d in spec.deps :: d in s.tasks && s.tasks[d].status == Completed {
      assert AttemptAllows(s, aid, tid, spec);
    }
  }

  /** Enqueueing under an id in use, wherever the memory store lets it pass, keeps the invariant, the attempt ledger
      and the replay exactly when the old row is untouched.  (It is then a new task: nothing is promised of the
      old row.) */
  lemma TaskReused(s: State, tid: TaskId, spec: TaskSpec, now: Time)
    requires Sound(s) && Admitted(s, tid, spec)
    ensures spec.runId in EnqueuedOver(s, tid, spec, now).runs
    ensures Sound(Recompute(EnqueuedOver(s, tid, spec, now), spec.runId, now)) <==> Untouched(s, tid, spec)
  {
    var s' := Recompute(EnqueuedOver(s, tid, spec, now), spec.runId, now);
    hide Sound, Admitted, Untouched, EnqueuedOver, Recompute;
    OverTables(s, tid, spec, now);
    if tid !in s.tasks {
      FreshSound(s, tid, spec, now);
    } else {
      if Sound(s') { SoundNeeds(s, tid, spec, now); }
      if Untouched(s, tid, spec) { UntouchedKeeps(s, tid, spec, now); }
    }
  }

  lemma FreshSound(s: State, tid: TaskId, spec: TaskSpec, now: Time)
    requires Sound(s) && Admitted(s, tid, spec) && tid !in s.tasks
    ensures spec.runId in EnqueuedOver(s, tid, spec, now).runs
    ensures Sound(Recompute(EnqueuedOver(s, tid, spec, now), spec.runId, now)) && Untouched(s, tid, spec)
  {
    var w := AddTask(tid, spec);
    assert Enabled(s, w, now) && Do(s, w, now) == Recompute(EnqueuedOver(s, tid, spec, now), spec.runId, now);
    hide Inv, LedgerOk, Replayed, Enabled, Do, EnqueuedOver, Recompute, Admitted;
    DoInv(s, w, now);
    DoLedger(s, w, now);
    DoReplayed(s, w, now);
  }

  // ---- Fresh ids ----

  lemma FreshRun(s: State, rid: RunId)
    requires Inv(s) && rid !in s.runs
    ensures NoTaskIn(s, rid)
  {
    hide Inv;
    forall x | x in s.tasks ensures s.tasks[x].spec.runId != rid {
      InvTask(s, x);
    }
  }

  lemma AdmittedByPlan(s: State, tid: TaskId, o: EnqueueOptions)
    requires PlanEnqueueEach(s, tid, o).Ok?
    ensures Admitted(s, tid, SpecOf(o)) && PlanEnqueueEach(s, tid, o) == Ok([AddTask(tid, SpecOf(o))])
  {
    hide KeyTaken;
    forall d | d in SpecOf(o).deps ensures InRun(s, d, o.runId) {
      assert d in o.deps;
    }
  }

  /** Under a fresh id this is the step of the plan, and the store stays sound. */
  lemma FreshTask(s: State, tid: TaskId, o: EnqueueOptions, now: Time)
    requires Inv(s) && tid !in s.tasks && Admitted(s, tid, SpecOf(o))
    ensures var s' := Recompute(EnqueuedOver(s, tid, SpecOf(o), now), o.runId, now);
            Inv(s') && Follows(s, s', Ok([AddTask(tid, SpecOf(o))]), now)
  {
    hide Inv, Recompute, KeyTaken, EnabledAll, DoAll;
    assert Enabled(s, AddTask(tid, SpecOf(o)), now);
    EnqueueDone(s, tid, o, now);
  }
}
