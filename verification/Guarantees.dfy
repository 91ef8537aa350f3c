/** The promises of the store over whole behaviours. */
module Guarantees {
  import opened Records
  import opened StateMachine
  import opened Writes
  import opened Invariant
  import opened Preservation
  import opened Transactions
  import opened Lifecycle

  // ---- Leases ----

  /** Active leases on the task. */
  function ActiveLeases(s: State, tid: TaskId): set<Uuid> {
    set lid | lid in s.leases && s.leases[lid].taskId == tid && s.leases[lid].status == LeaseActive
  }

  /** Attempts of the task that are still going on. */
  function LiveAttempts(s: State, tid: TaskId): set<Uuid> {
    set aid | aid in s.attempts && s.attempts[aid].taskId == tid && Live(s.attempts[aid])
  }

  /** In every reachable state: a task is leased or running exactly when its lease columns are set, exactly when
      one active lease and one live attempt, in the task's own status, point at it; the three records agree on
      worker, run and expiry.  Otherwise there is neither. */
  lemma LeaseBijection(states: seq<State>, steps: seq<Step>, i: nat, tid: TaskId)
    requires Behaviour(states, steps) && i < |states| && tid in states[i].tasks
    ensures var s := states[i];
            var t := s.tasks[tid];
            && (Held(t) <==> t.leaseId.Some?) && (Held(t) <==> t.leasedBy.Some?) && (Held(t) <==> t.leaseExpiresAt.Some?)
            && (Held(t) <==> ActiveLeases(s, tid) != {}) && (Held(t) <==> LiveAttempts(s, tid) != {})
            && (Held(t) ==>
                  && HasLease(s, tid)
                  && ActiveLeases(s, tid) == {LeaseIdOf(s, tid)} && LiveAttempts(s, tid) == {AttemptIdOf(s, tid)}
                  && var l, a := s.leases[LeaseIdOf(s, tid)], s.attempts[AttemptIdOf(s, tid)];
                  && (a.status == if t.status == Leased then AttemptLeased else AttemptRunning)
                  && l.runId == a.runId == t.spec.runId
                  && Some(l.worker) == Some(a.worker) == t.leasedBy
                  && Some(l.expiresAt) == Some(a.expiresAt) == t.leaseExpiresAt)
  {
    hide Inv, Behaviour;
    var s := states[i];
    ReachableInv(states, steps, i);
    InvTask(s, tid);
    HoldersOf(s, tid);
    if Held(s.tasks[tid]) {
      assert LeaseIdOf(s, tid) in ActiveLeases(s, tid);
      assert AttemptIdOf(s, tid) in LiveAttempts(s, tid);
      HoldersRun(s, tid);
    }
  }

  lemma HoldersOf(s: State, tid: TaskId)
    requires Inv(s) && tid in s.tasks
    ensures forall lid | lid in ActiveLeases(s, tid) :: Held(s.tasks[tid]) && s.tasks[tid].leaseId == Some(lid)
    ensures forall aid | aid in LiveAttempts(s, tid) :: HasLease(s, tid) && AttemptIdOf(s, tid) == aid
  {
    hide Inv;
    InvTables(s);
    hide Core, TasksOk, CompletionsOk, Unique, LogOk;
    forall lid | lid in ActiveLeases(s, tid) ensures Held(s.tasks[tid]) && s.tasks[tid].leaseId == Some(lid) {
      assert LeaseOk(s, lid);
    }
    forall aid | aid in LiveAttempts(s, tid) ensures HasLease(s, tid) && AttemptIdOf(s, tid) == aid {
      assert AttemptOk(s, aid);
    }
  }

  lemma HoldersRun(s: State, tid: TaskId)
    requires Inv(s) && HasLease(s, tid)
    ensures s.leases[LeaseIdOf(s, tid)].runId == s.attempts[AttemptIdOf(s, tid)].runId == s.tasks[tid].spec.runId
  {
    hide Inv;
    InvTask(s, tid);
    InvTables(s);
    hide Core, TasksOk, CompletionsOk, Unique, LogOk;
    assert LeaseOk(s, LeaseIdOf(s, tid));
    assert AttemptOk(s, AttemptIdOf(s, tid));
  }

  /** The conditional update of a claim (`status = 'queued' AND lease_id IS NULL`) always hits its row. */
  lemma ClaimUpdatesOneRow(s: State, tid: TaskId, now: Time)
    requires Inv(s) && Claimable(s, tid, now)
    ensures s.tasks[tid].status == Queued && s.tasks[tid].leaseId.None?
  {
    hide Inv;
    InvTask(s, tid);
  }

  // ---- For life ----

  /** Once a task has had an attempt, all its dependencies are completed, and they stay so for as long as
      the run is kept. */
  lemma DependencySafety(states: seq<State>, steps: seq<Step>, i: nat, j: nat, aid: Uuid)
    requires Behaviour(states, steps) && i < |states| && aid in states[i].attempts
    requires Kept(states, i, j, states[i].attempts[aid].runId)
    ensures var tid := states[i].attempts[aid].taskId;
            tid in states[j].tasks && DepsCompleted(states[j], states[j].tasks[tid])
  {
    var r := states[i].attempts[aid].runId;
    ReachableInv(states, steps, j);
    KeptOnward(states, steps, i, j, r);
    hide Inv, Behaviour;
    InvTables(states[j]);
    hide Core, TasksOk, LeasesOk, CompletionsOk, Unique, LogOk;
    assert AttemptOk(states[j], aid);
  }

  /** A completed, cancelled or failed-by-its-worker task never changes again, in any column. */
  lemma FinalForLife(states: seq<State>, steps: seq<Step>, i: nat, j: nat, tid: TaskId)
    requires Behaviour(states, steps) && i < |states| && tid in states[i].tasks && Final(states[i].tasks[tid])
    requires Kept(states, i, j, states[i].tasks[tid].spec.runId)
    ensures tid in states[j].tasks && states[j].tasks[tid] == states[i].tasks[tid]
  {
    KeptOnward(states, steps, i, j, states[i].tasks[tid].spec.runId);
  }

  /** A cancelled run stays cancelled, and no task in it is ever leased or running again. */
  lemma CancelledForLife(states: seq<State>, steps: seq<Step>, i: nat, j: nat, r: RunId, tid: TaskId)
    requires Behaviour(states, steps) && Kept(states, i, j, r) && states[i].runs[r].status == RunCancelled
    ensures states[j].runs[r].status == RunCancelled
    ensures InRun(states[j], tid, r) ==> !Held(states[j].tasks[tid])
  {
    KeptOnward(states, steps, i, j, r);
    ReachableInv(states, steps, j);
    hide Inv, Behaviour, Onward;
    if InRun(states[j], tid, r) {
      InvTask(states[j], tid);
    }
    assert states[j].runs[r].status == RunCancelled by {
      CancelledOnward(states[i], states[j], r);
    }
  }

  lemma CancelledOnward(s: State, s': State, r: RunId)
    requires Onward(s, s', r) && s.runs[r].status == RunCancelled
    ensures s'.runs[r].status == RunCancelled
  {}

  // ---- Tokens ----

  /** As long as the run is kept, the task of a recorded completion token has the recorded status.  Retrying
      the call, with any lease and worker, is a no-op; using the token for the other outcome or for another
      task is an error. */
  lemma CompletionTokenForLife(states: seq<State>, steps: seq<Step>, i: nat, j: nat, token: Token,
                               tid: TaskId, lid: Uuid, worker: WorkerId, error: string, now: Time)
    requires Behaviour(states, steps) && i < |states| && token in states[i].completions
    requires Kept(states, i, j, states[i].completions[token].runId)
    ensures var c, s := states[i].completions[token], states[j];
            var complete := Plan(s, Complete(tid, lid, worker, Some(token)), now);
            var fail := Plan(s, Fail(tid, lid, worker, error, Some(token)), now);
            && c.taskId in s.tasks && s.tasks[c.taskId].status == OutcomeStatus(c.outcome)
            && (tid == c.taskId && c.outcome == OutcomeCompleted ==> complete == Ok([]) && fail == Err(OutcomeMismatch))
            && (tid == c.taskId && c.outcome == OutcomeFailed ==> fail == Ok([]) && complete == Err(OutcomeMismatch))
            && (tid != c.taskId ==> complete == Err(TokenReused) && fail == Err(TokenReused))
  {
    hide Inv, Behaviour, Plan, Onward, CompletionOk;
    KeptOnward(states, steps, i, j, states[i].completions[token].runId);
    ReachableInv(states, steps, j);
    var s := states[j];
    TokenKept(states[i], s, token);
    RecordedOk(s, token);
    OnRecord(s, token, tid, lid, worker, error, now);
  }

  lemma TokenKept(s: State, s': State, token: Token)
    requires token in s.completions && Onward(s, s', s.completions[token].runId)
    ensures token in s'.completions && s'.completions[token] == s.completions[token]
  {}

  lemma RecordedOk(s: State, token: Token)
    requires Inv(s) && token in s.completions
    ensures CompletionOk(s, token)
  {
    hide Inv;
    InvTables(s);
    hide Core, TasksOk, LeasesOk, AttemptsOk, Unique, LogOk, CompletionOk;
  }

  lemma OnRecord(s: State, token: Token, tid: TaskId, lid: Uuid, worker: WorkerId, error: string, now: Time)
    requires token in s.completions && CompletionOk(s, token)
    ensures var c := s.completions[token];
            var complete := Plan(s, Complete(tid, lid, worker, Some(token)), now);
            var fail := Plan(s, Fail(tid, lid, worker, error, Some(token)), now);
            && c.taskId in s.tasks && s.tasks[c.taskId].status == OutcomeStatus(c.outcome)
            && (tid == c.taskId && c.outcome == OutcomeCompleted ==> complete == Ok([]) && fail == Err(OutcomeMismatch))
            && (tid == c.taskId && c.outcome == OutcomeFailed ==> fail == Ok([]) && complete == Err(OutcomeMismatch))
            && (tid != c.taskId ==> complete == Err(TokenReused) && fail == Err(TokenReused))
  {
    hide UnderLease;
  }

  /** A claim token that was used keeps standing for its one lease: a retried claim changes nothing. */
  lemma ClaimTokenForLife(states: seq<State>, steps: seq<Step>, i: nat, j: nat, lid: Uuid, op: Op, now: Time)
    requires Behaviour(states, steps) && i < |states| && lid in states[i].leases
    requires Kept(states, i, j, states[i].leases[lid].runId)
    requires op.Claim? && op.clientToken.Some? && op.clientToken == states[i].leases[lid].clientToken
    ensures Plan(states[j], op, now) == Ok([])
    ensures (set x | x in states[j].leases && states[j].leases[x].clientToken == op.clientToken) == {lid}
  {
    KeptOnward(states, steps, i, j, states[i].leases[lid].runId);
    ReachableInv(states, steps, j);
    hide Inv, Behaviour;
    var s := states[j];
    assert lid in s.leases && s.leases[lid].clientToken == op.clientToken;
    hide Onward;
    InvTables(s);
    hide Core, TasksOk, LeasesOk, AttemptsOk, CompletionsOk, LogOk;
  }

  // ---- At most one outcome ----

  /** The step writes an outcome (completed, failed, paused or released) under the lease. */
  predicate Commits(s: State, step: Step, lid: Uuid) {
    && (step.op.Pause? || step.op.Complete? || step.op.Fail? || step.op.Release?)
    && step.op.lid == lid
    && Plan(s, step.op, step.now).Ok? && Plan(s, step.op, step.now).value != []
  }

  /** The step writes anything at all under the lease. */
  predicate WritesUnder(s: State, step: Step, lid: Uuid) {
    Commits(s, step, lid)
    || ((step.op.Heartbeat? || step.op.MarkRunning?) && step.op.lid == lid && Plan(s, step.op, step.now).Ok?)
  }

  lemma CheckedActive(s: State, tid: TaskId, lid: Uuid, worker: WorkerId, now: Time)
    requires CheckLease(s, tid, lid, worker, now).None?
    ensures lid in s.leases && s.leases[lid].status == LeaseActive
  {}

  lemma WritesUnderActive(s: State, step: Step, lid: Uuid)
    requires WritesUnder(s, step, lid)
    ensures CheckLease(s, step.op.tid, lid, step.op.worker, step.now).None?
    ensures lid in s.leases && s.leases[lid].status == LeaseActive
  {
    hide CheckLease;
    CheckedActive(s, step.op.tid, lid, step.op.worker, step.now) by {
      assert CheckLease(s, step.op.tid, lid, step.op.worker, step.now).None?;
    }
  }

  /** The write of a committed outcome is a settlement of the task, possibly followed by the token. */
  lemma CommitPlan(s: State, step: Step, lid: Uuid)
    requires Commits(s, step, lid)
    ensures var ws := Plan(s, step.op, step.now).value;
            && ws[0].Settle? && ws[0].tid == step.op.tid && !ws[0].how.Expire?
            && (|ws| == 1 || (|ws| == 2 && ws[1].Record?))
  {
    hide CheckLease;
  }

  lemma SettleSpends(s: State, tid: TaskId, how: Settlement, now: Time)
    requires Inv(s) && Enabled(s, Settle(tid, how), now)
    ensures Spent(Do(s, Settle(tid, how), now), LeaseIdOf(s, tid))
  {
    SettleEffect(s, tid, how, now);
    hide Do, Inv, Enabled;
    InvTables(s);
    hide Core, TasksOk, AttemptsOk, CompletionsOk, Unique, LogOk;
    assert LeaseOk(s, LeaseIdOf(s, tid));
  }

  /** A committed outcome ends its lease. */
  lemma CommitSpends(s: State, step: Step, s': State, lid: Uuid)
    requires Inv(s) && Next(s, step, s') && Commits(s, step, lid)
    ensures Spent(s', lid)
  {
    var ws, now := Plan(s, step.op, step.now).value, step.now;
    CommitPlan(s, step, lid);
    WritesUnderActive(s, step, lid);
    hide Inv, Enabled, Do, Plan, ChoiceOk, CheckLease, Spent, Commits, WritesUnder;
    CheckedLease(s, step.op.tid, lid, step.op.worker, now);
    assert Enabled(s, ws[0], now);
    SettleSpends(s, step.op.tid, ws[0].how, now);
    var s1 := Do(s, ws[0], now);
    DoInv(s, ws[0], now);
    DoAllSpent(s1, ws[1..], now, lid);
  }

  /** A lease that has stopped being active authorises no further write. */
  lemma SpentRefused(states: seq<State>, steps: seq<Step>, i: nat, j: nat, lid: Uuid)
    requires Behaviour(states, steps) && i <= j < |steps| && Spent(states[i], lid)
    ensures !WritesUnder(states[j], steps[j], lid)
  {
    SpentForever(states, steps, i, j, lid);
    if WritesUnder(states[j], steps[j], lid) {
      WritesUnderActive(states[j], steps[j], lid);
    }
  }

  /** Over any interleaving, at most one outcome is ever written under a lease. */
  lemma AtMostOneOutcomePerLease(states: seq<State>, steps: seq<Step>, i: nat, j: nat, lid: Uuid)
    requires Behaviour(states, steps) && i < j < |steps| && Commits(states[i], steps[i], lid)
    ensures !WritesUnder(states[j], steps[j], lid)
  {
    hide Inv, Commits, WritesUnder, Spent;
    ReachableInv(states, steps, i);
    assert Next(states[i], steps[i], states[i + 1]);
    CommitSpends(states[i], steps[i], states[i + 1], lid);
    SpentRefused(states, steps, i + 1, j, lid);
  }

  /** Each task gets at most one completed or failed attempt, and if it has one the task is over. */
  lemma AtMostOneDecidedAttempt(states: seq<State>, steps: seq<Step>, i: nat, a: Uuid, b: Uuid)
    requires Behaviour(states, steps) && i < |states| && a in states[i].attempts && b in states[i].attempts
    requires Decided(states[i].attempts[a]) && states[i].attempts[a].taskId == states[i].attempts[b].taskId
    ensures Decided(states[i].attempts[b]) ==> a == b
    ensures var tid := states[i].attempts[a].taskId; tid in states[i].tasks && Final(states[i].tasks[tid])
  {
    ReachableInv(states, steps, i);
    var s := states[i];
    hide Inv, Behaviour;
    InvTables(s);
    hide Core, TasksOk, LeasesOk, CompletionsOk, LogOk;
    assert AttemptOk(s, a);
  }

  // ---- Run status ----

  predicate HasTaskIn(s: State, r: RunId, status: TaskStatus) {
    exists x | x in s.tasks :: InRun(s, x, r) && s.tasks[x].status == status
  }

  lemma HasTaskInStatuses(s: State, r: RunId, status: TaskStatus)
    ensures HasTaskIn(s, r, status) <==> status in StatusesOf(s, r)
  {}

  predicate HasActive(s: State, r: RunId) {
    HasTaskIn(s, r, Queued) || HasTaskIn(s, r, Leased) || HasTaskIn(s, r, Running)
  }

  predicate HasWaiting(s: State, r: RunId) {
    HasTaskIn(s, r, Blocked) || HasTaskIn(s, r, WaitingInput)
  }

  lemma TableMeaning(present: set<TaskStatus>)
    requires Cancelled !in present
    ensures var status := RunStatusTable(present);
            var active := Queued in present || Leased in present || Running in present;
            var waiting := Blocked in present || WaitingInput in present;
            && (status == RunActive <==> active) && (status == RunWaiting <==> !active && waiting)
            && (status == RunFailed <==> !active && !waiting && Failed in present)
            && (status == RunCompleted <==> !active && !waiting && Failed !in present && Completed in present)
            && (status == RunPending <==> !active && !waiting && Failed !in present && Completed !in present)
  {
    assert (forall x | x in present :: x == Completed) && Completed in present ==> present == {Completed};
    if present != {} {
      var x :| x in present;
      assert x == Queued || x == Leased || x == Running || x == Blocked || x == WaitingInput || x == Completed || x == Failed;
    }
  }

  lemma NoCancelledTask(s: State, r: RunId)
    requires Inv(s) && r in s.runs && s.runs[r].status != RunCancelled
    ensures !HasTaskIn(s, r, Cancelled)
  {
    hide Inv;
    InvTables(s);
    hide Core, LeasesOk, AttemptsOk, CompletionsOk, Unique, LogOk;
    forall x | x in s.tasks && InRun(s, x, r) ensures s.tasks[x].status != Cancelled {
      assert TaskOk(s, x);
    }
  }

  /** The documented table holds in every reachable state, in both directions, for every run that was not
      cancelled; and such a run has no cancelled task. */
  lemma RunStatusDeclared(states: seq<State>, steps: seq<Step>, i: nat, r: RunId)
    requires Behaviour(states, steps) && i < |states| && r in states[i].runs && states[i].runs[r].status != RunCancelled
    ensures var s := states[i];
            var status := s.runs[r].status;
            var idle := !HasActive(s, r) && !HasWaiting(s, r);
            && !HasTaskIn(s, r, Cancelled)
            && (status == RunActive <==> HasActive(s, r)) && (status == RunWaiting <==> !HasActive(s, r) && HasWaiting(s, r))
            && (status == RunFailed <==> idle && HasTaskIn(s, r, Failed))
            && (status == RunCompleted <==> idle && !HasTaskIn(s, r, Failed) && HasTaskIn(s, r, Completed))
            && (status == RunPending <==> idle && !HasTaskIn(s, r, Failed) && !HasTaskIn(s, r, Completed))
  {
    ReachableInv(states, steps, i);
    var s := states[i];
    hide Behaviour;
    assert Agrees(s, r);
    hide Inv, RunStatusTable, HasTaskIn;
    NoCancelledTask(s, r);
    forall status: TaskStatus ensures HasTaskIn(s, r, status) <==> status in StatusesOf(s, r) {
      HasTaskInStatuses(s, r, status);
    }
    TableMeaning(StatusesOf(s, r));
  }
}
