/** What every write keeps: the lease bijection, the attempt budget, dependency safety, token and outcome
    uniqueness, and the agreement of run statuses with their tasks. */
module Invariant {
  import opened Records
  import opened StateMachine
  import opened Writes

  /** A held task, its lease and its attempt tell the same story. */
  predicate Holds(s: State, tid: TaskId) {
    && HasLease(s, tid)
    && var t := s.tasks[tid];
       var l := s.leases[LeaseIdOf(s, tid)];
       var a := s.attempts[AttemptIdOf(s, tid)];
    && l.status == LeaseActive && l.taskId == tid
    && l.worker == t.leasedBy.value && l.expiresAt == t.leaseExpiresAt.value
    && a.taskId == tid && a.worker == l.worker && a.expiresAt == l.expiresAt
    && a.status == (if t.status == Leased then AttemptLeased else AttemptRunning)
    && t.notBefore.None? && t.attemptCount >= 1
  }

  predicate BudgetOk(t: Task) {
    && (t.spec.maxAttempts.Some? ==> t.attemptCount == 0 || t.attemptCount <= t.spec.maxAttempts.value)
    && (t.dead ==> t.status == Failed && t.spec.maxAttempts == Some(t.attemptCount) && t.attemptCount >= 1)
    && (WaitingStatus(t.status) ==> t.notBefore.None? && t.attemptCount >= 1)
    && (t.status == Completed || t.status == Failed ==> t.attemptCount >= 1)
  }

  predicate DepsEarlier(s: State, tid: TaskId)
    requires tid in s.tasks
  {
    forall d | d in s.tasks[tid].spec.deps :: InRun(s, d, s.tasks[tid].spec.runId) && s.tasks[d].row < s.tasks[tid].row
  }

  predicate TaskOk(s: State, tid: TaskId)
    requires tid in s.tasks
  {
    var t := s.tasks[tid];
    && t.spec.runId in s.runs
    && t.row < s.seqNo
    && DepsEarlier(s, tid)
    && (Held(t) ==> Holds(s, tid) && s.runs[t.spec.runId].status != RunCancelled)
    && (!Held(t) ==> t.leaseId.None? && t.leasedBy.None? && t.leaseExpiresAt.None?)
    && (WaitingStatus(t.status) ==> s.runs[t.spec.runId].status != RunCancelled)
    && (t.status == Cancelled ==> s.runs[t.spec.runId].status == RunCancelled)
    && BudgetOk(t)
  }

  predicate LeaseOk(s: State, lid: Uuid)
    requires lid in s.leases
  {
    var l := s.leases[lid];
    && lid in s.used
    && InRun(s, l.taskId, l.runId)
    && l.attemptId in s.attempts && s.attempts[l.attemptId].taskId == l.taskId
    && (l.status == LeaseActive ==> Held(s.tasks[l.taskId]) && s.tasks[l.taskId].leaseId == Some(lid))
  }

  predicate AttemptOk(s: State, aid: Uuid)
    requires aid in s.attempts
  {
    var a := s.attempts[aid];
    && aid in s.used
    && InRun(s, a.taskId, a.runId)
    && DepsCompleted(s, s.tasks[a.taskId])
    && (Live(a) ==> HasLease(s, a.taskId) && AttemptIdOf(s, a.taskId) == aid)
    && (a.status == AttemptCompleted ==> s.tasks[a.taskId].status == Completed)
    && (a.status == AttemptFailed ==> s.tasks[a.taskId].status == Failed && !s.tasks[a.taskId].dead)
  }

  predicate CompletionOk(s: State, token: Token)
    requires token in s.completions
  {
    var c := s.completions[token];
    InRun(s, c.taskId, c.runId) && s.tasks[c.taskId].status == OutcomeStatus(c.outcome) && !s.tasks[c.taskId].dead
  }

  predicate OneOutcome(s: State) {
    forall a, b | a in s.attempts && b in s.attempts ::
      Decided(s.attempts[a]) && Decided(s.attempts[b]) && s.attempts[a].taskId == s.attempts[b].taskId ==> a == b
  }

  predicate TokensUnique(s: State) {
    forall l, m | l in s.leases && m in s.leases ::
      s.leases[l].clientToken.Some? && s.leases[l].clientToken == s.leases[m].clientToken ==> l == m
  }

  predicate KeysUnique(s: State) {
    forall t, u | t in s.tasks && u in s.tasks ::
      (s.tasks[t].spec.runId == s.tasks[u].spec.runId && s.tasks[t].spec.key.Some?
       && s.tasks[t].spec.key == s.tasks[u].spec.key) ==> t == u
  }

  /** Event ids increase strictly, and no event outlives its run. */
  predicate LogOk(s: State) {
    && (forall i | 0 <= i < |s.log| :: s.log[i].id <= s.seqNo && s.log[i].runId in s.runs)
    && (forall i, j | 0 <= i < j < |s.log| :: s.log[i].id < s.log[j].id)
  }

  predicate TasksOk(s: State) {
    forall tid | tid in s.tasks :: TaskOk(s, tid)
  }

  predicate LeasesOk(s: State) {
    forall lid | lid in s.leases :: LeaseOk(s, lid)
  }

  predicate AttemptsOk(s: State) {
    forall aid | aid in s.attempts :: AttemptOk(s, aid)
  }

  predicate CompletionsOk(s: State) {
    forall token | token in s.completions :: CompletionOk(s, token)
  }

  predicate Unique(s: State) {
    OneOutcome(s) && TokensUnique(s) && KeysUnique(s)
  }

  predicate Core(s: State) {
    TasksOk(s) && LeasesOk(s) && AttemptsOk(s) && CompletionsOk(s) && Unique(s) && LogOk(s)
  }

  /** The status of the run is the one the documented table gives for its tasks. */
  predicate Agrees(s: State, rid: RunId)
    requires rid in s.runs
  {
    s.runs[rid].status != RunCancelled ==> s.runs[rid].status == RunStatusTable(StatusesOf(s, rid))
  }

  predicate Inv(s: State) {
    Core(s) && forall rid | rid in s.runs :: Agrees(s, rid)
  }

  lemma InvTables(s: State)
    requires Inv(s)
    ensures Core(s) && TasksOk(s) && LeasesOk(s) && AttemptsOk(s) && CompletionsOk(s) && Unique(s) && LogOk(s)
  {
    hide TasksOk, LeasesOk, AttemptsOk, CompletionsOk, Unique, LogOk;
  }

  lemma InvTask(s: State, tid: TaskId)
    requires Inv(s) && tid in s.tasks
    ensures TaskOk(s, tid)
  {
    hide TaskOk, LeasesOk, AttemptsOk, CompletionsOk, Unique, LogOk, Agrees;
  }

  // ---- Recomputing the run status ----

  lemma StatusesFrame(s: State, s': State, rid: RunId)
    requires forall x | x in s.tasks || x in s'.tasks :: InRun(s, x, rid) <==> InRun(s', x, rid)
    requires forall x | x in s.tasks && InRun(s, x, rid) && x in s'.tasks :: s'.tasks[x].status == s.tasks[x].status
    ensures StatusesOf(s', rid) == StatusesOf(s, rid)
  {
    var a, b := StatusesOf(s, rid), StatusesOf(s', rid);
    forall x | x in a ensures x in b {
      var tid :| tid in s.tasks && InRun(s, tid, rid) && s.tasks[tid].status == x;
      assert InRun(s', tid, rid);
    }
    forall x | x in b ensures x in a {
      var tid :| tid in s'.tasks && InRun(s', tid, rid) && s'.tasks[tid].status == x;
      assert InRun(s, tid, rid);
    }
  }

  /** Recomputing never takes a run into or out of cancellation. */
  lemma RecomputeStatus(s: State, rid: RunId, now: Time)
    requires TasksOk(s) && rid in s.runs
    ensures var next := Recompute(s, rid, now).runs[rid].status;
            && (next == RunCancelled <==> s.runs[rid].status == RunCancelled)
            && (next != RunCancelled ==> next == RunStatusTable(StatusesOf(s, rid)))
  {
    var present := StatusesOf(s, rid);
    forall x | x in present
      ensures x == Cancelled ==> s.runs[rid].status == RunCancelled
      ensures HeldStatus(x) ==> s.runs[rid].status != RunCancelled
    {
      var tid :| tid in s.tasks && InRun(s, tid, rid) && s.tasks[tid].status == x;
      assert TaskOk(s, tid);
    }
    if s.runs[rid].status != RunCancelled {
      DeriveIsTable(s.runs[rid].status, present);
    }
  }

  /** Rows are judged by the tables of tasks, attempts and leases, the runs and the counters only. */
  predicate SameRows(s: State, s': State) {
    && s'.tasks == s.tasks && s'.attempts == s.attempts && s'.leases == s.leases
    && s'.used == s.used && s.seqNo <= s'.seqNo
    && s.runs.Keys <= s'.runs.Keys
    && forall r | r in s.runs :: s'.runs[r].status == RunCancelled <==> s.runs[r].status == RunCancelled
  }

  lemma SameHolds(s: State, s': State, tid: TaskId)
    requires SameRows(s, s')
    ensures HasLease(s', tid) <==> HasLease(s, tid)
    ensures Holds(s', tid) <==> Holds(s, tid)
  {}

  lemma SameTaskOk(s: State, s': State, tid: TaskId)
    requires SameRows(s, s') && tid in s.tasks && TaskOk(s, tid)
    ensures TaskOk(s', tid)
  {
    SameHolds(s, s', tid);
  }

  lemma SameAttemptOk(s: State, s': State, aid: Uuid)
    requires SameRows(s, s') && aid in s.attempts && AttemptOk(s, aid)
    ensures AttemptOk(s', aid)
  {
    SameHolds(s, s', s.attempts[aid].taskId);
  }

  lemma SameTasksOk(s: State, s': State)
    requires SameRows(s, s') && TasksOk(s)
    ensures TasksOk(s')
  {
    forall tid | tid in s'.tasks ensures TaskOk(s', tid) {
      SameTaskOk(s, s', tid);
    }
  }

  lemma SameAttemptsOk(s: State, s': State)
    requires SameRows(s, s') && AttemptsOk(s)
    ensures AttemptsOk(s')
  {
    forall aid | aid in s'.attempts ensures AttemptOk(s', aid) {
      SameAttemptOk(s, s', aid);
    }
  }

  lemma SameLeasesOk(s: State, s': State)
    requires SameRows(s, s') && LeasesOk(s)
    ensures LeasesOk(s')
  {
    forall lid | lid in s'.leases ensures LeaseOk(s', lid) {
      assert LeaseOk(s, lid);
    }
  }

  lemma SameCompletionsOk(s: State, s': State)
    requires s'.tasks == s.tasks && s'.completions == s.completions && CompletionsOk(s)
    ensures CompletionsOk(s')
  {
    forall token | token in s'.completions ensures CompletionOk(s', token) {
      assert CompletionOk(s, token);
    }
  }

  lemma SameUnique(s: State, s': State)
    requires SameRows(s, s') && Unique(s)
    ensures Unique(s')
  {}

  lemma SameCore(s: State, s': State)
    requires Core(s) && SameRows(s, s') && CompletionsOk(s') && LogOk(s')
    ensures Core(s')
  {
    hide SameRows, TasksOk, LeasesOk, AttemptsOk, CompletionsOk, Unique, LogOk;
    SameTasksOk(s, s');
    SameAttemptsOk(s, s');
    SameLeasesOk(s, s');
    SameUnique(s, s');
  }

  lemma EmitLogOk(s: State, rid: RunId, tid: Option<TaskId>, aid: Option<Uuid>, payload: Payload, now: Time)
    requires LogOk(s) && rid in s.runs
    ensures LogOk(Emit(s, rid, tid, aid, payload, now))
  {}

  lemma RecomputeLogOk(s: State, rid: RunId, now: Time)
    requires LogOk(s) && rid in s.runs
    ensures LogOk(Recompute(s, rid, now))
  {
    var current := s.runs[rid].status;
    var next := DeriveFrom(current, StatusesOf(s, rid));
    var written := s.(runs := s.runs[rid := Run(next, now)]);
    assert LogOk(written);
    EmitLogOk(written, rid, None, None, RunStatusChanged(current, next), now);
  }

  lemma RecomputeCore(s: State, rid: RunId, now: Time)
    requires Core(s) && rid in s.runs
    ensures Core(Recompute(s, rid, now))
  {
    hide LeasesOk, AttemptsOk, CompletionsOk, Unique, LogOk;
    RecomputeStatus(s, rid, now);
    RecomputeLogOk(s, rid, now);
    SameCompletionsOk(s, Recompute(s, rid, now));
    SameCore(s, Recompute(s, rid, now));
  }

  /** Recomputing one run restores agreement when all other runs already agree. */
  lemma RecomputeInv(s: State, rid: RunId, now: Time)
    requires Core(s) && rid in s.runs
    requires forall r | r in s.runs && r != rid :: Agrees(s, r)
    ensures Inv(Recompute(s, rid, now))
  {
    RecomputeCore(s, rid, now);
    RecomputeStatus(s, rid, now);
    var s' := Recompute(s, rid, now);
    forall r | r in s'.runs ensures Agrees(s', r) {
      StatusesFrame(s, s', r);
      assert r != rid ==> Agrees(s, r);
    }
  }

  // ---- Writes to the three records of a held task: Extend, Begin, Settle ----

  function Rewrite(s: State, tid: TaskId, t: Task, lid: Uuid, l: Lease, aid: Uuid, a: Attempt): State {
    s.(tasks := s.tasks[tid := t], leases := s.leases[lid := l], attempts := s.attempts[aid := a])
  }

  /** The new records of a held task either still agree, or have all let go of the lease. */
  predicate RewriteOk(s: State, tid: TaskId, t: Task, lid: Uuid, l: Lease, aid: Uuid, a: Attempt)
    requires HasLease(s, tid)
  {
    && lid == LeaseIdOf(s, tid) && aid == AttemptIdOf(s, tid)
    && t.spec == s.tasks[tid].spec && t.row == s.tasks[tid].row
    && l.(status := s.leases[lid].status, expiresAt := s.leases[lid].expiresAt) == s.leases[lid]
    && a.(status := s.attempts[aid].status, expiresAt := s.attempts[aid].expiresAt) == s.attempts[aid]
    && BudgetOk(t) && t.status != Cancelled
    && (if Held(t) then
          && t.leaseId == Some(lid) && t.leasedBy == s.tasks[tid].leasedBy && t.leaseExpiresAt == Some(l.expiresAt)
          && l.status == LeaseActive && a.expiresAt == l.expiresAt
          && a.status == (if t.status == Leased then AttemptLeased else AttemptRunning)
          && t.notBefore.None? && t.attemptCount >= 1
        else
          && t.leaseId.None? && t.leasedBy.None? && t.leaseExpiresAt.None?
          && l.status != LeaseActive && !Live(a)
          && (a.status == AttemptCompleted ==> t.status == Completed)
          && (a.status == AttemptFailed ==> t.status == Failed && !t.dead))
  }

  lemma RewriteTaskOk(s: State, tid: TaskId, t: Task, lid: Uuid, l: Lease, aid: Uuid, a: Attempt, x: TaskId)
    requires tid in s.tasks && TaskOk(s, tid) && Held(s.tasks[tid])
    requires RewriteOk(s, tid, t, lid, l, aid, a)
    requires x in s.tasks && TaskOk(s, x)
    ensures TaskOk(Rewrite(s, tid, t, lid, l, aid, a), x)
  {
    if x != tid && Held(s.tasks[x]) {
      assert LeaseIdOf(s, x) != lid && AttemptIdOf(s, x) != aid;
    }
  }

  lemma RewriteTasksOk(s: State, tid: TaskId, t: Task, lid: Uuid, l: Lease, aid: Uuid, a: Attempt)
    requires TasksOk(s) && tid in s.tasks && Held(s.tasks[tid])
    requires HasLease(s, tid) && RewriteOk(s, tid, t, lid, l, aid, a)
    ensures TasksOk(Rewrite(s, tid, t, lid, l, aid, a))
  {
    hide TaskOk, RewriteOk;
    forall x | x in s.tasks ensures TaskOk(Rewrite(s, tid, t, lid, l, aid, a), x) {
      RewriteTaskOk(s, tid, t, lid, l, aid, a, x);
    }
  }

  lemma RewriteLeasesOk(s: State, tid: TaskId, t: Task, lid: Uuid, l: Lease, aid: Uuid, a: Attempt)
    requires tid in s.tasks && TaskOk(s, tid) && Held(s.tasks[tid])
    requires RewriteOk(s, tid, t, lid, l, aid, a)
    requires LeasesOk(s)
    ensures LeasesOk(Rewrite(s, tid, t, lid, l, aid, a))
  {
    var s' := Rewrite(s, tid, t, lid, l, aid, a);
    forall x | x in s'.leases ensures LeaseOk(s', x) {
      assert LeaseOk(s, x);
    }
  }

  lemma RewriteAttemptOk(s: State, tid: TaskId, t: Task, lid: Uuid, l: Lease, aid: Uuid, a: Attempt, x: Uuid)
    requires tid in s.tasks && TaskOk(s, tid) && Held(s.tasks[tid])
    requires RewriteOk(s, tid, t, lid, l, aid, a)
    requires x in s.attempts && AttemptOk(s, x) && TaskOk(s, s.attempts[x].taskId)
    ensures AttemptOk(Rewrite(s, tid, t, lid, l, aid, a), x)
  {
    var s' := Rewrite(s, tid, t, lid, l, aid, a);
    var y := s.attempts[x].taskId;
    assert s.tasks[tid].status != Completed;
    assert DepsCompleted(s', s'.tasks[y]);
    if x == aid {
      assert y == tid;
    } else if y != tid && Held(s.tasks[y]) {
      assert LeaseIdOf(s, y) != lid;
    }
  }

  lemma RewriteAttemptsOk(s: State, tid: TaskId, t: Task, lid: Uuid, l: Lease, aid: Uuid, a: Attempt)
    requires TasksOk(s) && AttemptsOk(s) && tid in s.tasks && Held(s.tasks[tid])
    requires HasLease(s, tid) && RewriteOk(s, tid, t, lid, l, aid, a) && aid in s.attempts
    ensures AttemptsOk(Rewrite(s, tid, t, lid, l, aid, a))
  {
    hide TaskOk, RewriteOk, DepsCompleted;
    forall x | x in s.attempts ensures AttemptOk(Rewrite(s, tid, t, lid, l, aid, a), x) {
      assert AttemptOk(s, x);
      RewriteAttemptOk(s, tid, t, lid, l, aid, a, x);
    }
  }

  lemma RewriteCompletionsOk(s: State, tid: TaskId, t: Task, lid: Uuid, l: Lease, aid: Uuid, a: Attempt)
    requires tid in s.tasks && TaskOk(s, tid) && Held(s.tasks[tid])
    requires RewriteOk(s, tid, t, lid, l, aid, a)
    requires CompletionsOk(s)
    ensures CompletionsOk(Rewrite(s, tid, t, lid, l, aid, a))
  {
    var s' := Rewrite(s, tid, t, lid, l, aid, a);
    forall x | x in s'.completions ensures CompletionOk(s', x) {
      assert CompletionOk(s, x);
    }
  }

  lemma HeldUndecided(s: State, tid: TaskId)
    requires AttemptsOk(s) && tid in s.tasks && Held(s.tasks[tid])
    ensures forall x | x in s.attempts && Decided(s.attempts[x]) :: s.attempts[x].taskId != tid
  {
    forall x | x in s.attempts && Decided(s.attempts[x]) ensures s.attempts[x].taskId != tid {
      assert AttemptOk(s, x);
    }
  }

  lemma RewriteUnique(s: State, tid: TaskId, t: Task, lid: Uuid, l: Lease, aid: Uuid, a: Attempt)
    requires Unique(s) && AttemptsOk(s) && tid in s.tasks && TaskOk(s, tid) && Held(s.tasks[tid])
    requires HasLease(s, tid) && RewriteOk(s, tid, t, lid, l, aid, a)
    ensures Unique(Rewrite(s, tid, t, lid, l, aid, a))
  {
    HeldUndecided(s, tid);
    hide AttemptsOk;
    var s' := Rewrite(s, tid, t, lid, l, aid, a);
    assert OneOutcome(s');
    assert TokensUnique(s');
    assert KeysUnique(s');
  }

  lemma RewriteLogOk(s: State, tid: TaskId, t: Task, lid: Uuid, l: Lease, aid: Uuid, a: Attempt)
    requires LogOk(s)
    ensures LogOk(Rewrite(s, tid, t, lid, l, aid, a))
  {}

  lemma RewriteCore(s: State, tid: TaskId, t: Task, lid: Uuid, l: Lease, aid: Uuid, a: Attempt)
    requires Core(s) && tid in s.tasks && Held(s.tasks[tid]) && aid in s.attempts
    requires HasLease(s, tid) && RewriteOk(s, tid, t, lid, l, aid, a)
    ensures Core(Rewrite(s, tid, t, lid, l, aid, a))
  {
    hide TaskOk, LeasesOk, AttemptsOk, CompletionsOk, Unique, LogOk, RewriteOk, Rewrite;
    assert TaskOk(s, tid);
    hide TasksOk;
    RewriteLogOk(s, tid, t, lid, l, aid, a);
    RewriteTasksOk(s, tid, t, lid, l, aid, a);
    RewriteLeasesOk(s, tid, t, lid, l, aid, a);
    RewriteAttemptsOk(s, tid, t, lid, l, aid, a);
    RewriteCompletionsOk(s, tid, t, lid, l, aid, a);
    RewriteUnique(s, tid, t, lid, l, aid, a);
  }
}
