/** Where the code does not do what its documentation says: what it does instead, and exactly when the
    documented behaviour can be relied on. */
module Divergences {
  import opened Records
  import opened StateMachine
  import opened Writes
  import opened Invariant
  import opened Preservation
  import opened Transactions
  import opened Lifecycle
  import opened Liveness
  import opened Refinement
  import opened Guarantees
  import opened Ledger

  // ---- Out of reach ----

  /** Queued, with no attempt left. */
  predicate Stuck(t: Task) {
    t.status == Queued && !HasBudget(t) && !t.dead
  }

  predicate StuckOrCancelled(t: Task, t': Task) {
    t' == t || t' == CancelTask(t)
  }

  lemma DoStuck(s: State, w: Write, now: Time, x: TaskId, t: Task)
    requires Enabled(s, w, now) && x in s.tasks && w != Purge(s.tasks[x].spec.runId)
    requires Stuck(t) && StuckOrCancelled(t, s.tasks[x])
    ensures x in Do(s, w, now).tasks && StuckOrCancelled(t, Do(s, w, now).tasks[x])
  {
    DoRows(s, w, now);
    hide Do, DepsCompleted, TokenUsed, KeyTaken, Lapsed, SettledPayload;
  }

  lemma {:induction false} DoAllStuck(s: State, ws: seq<Write>, now: Time, x: TaskId, t: Task)
    requires EnabledAll(s, ws, now) && x in s.tasks && Spares(ws, t.spec.runId)
    requires Stuck(t) && StuckOrCancelled(t, s.tasks[x])
    ensures x in DoAll(s, ws, now).tasks && StuckOrCancelled(t, DoAll(s, ws, now).tasks[x])
    decreases |ws|
  {
    if |ws| > 0 {
      assert ws[0] != Purge(t.spec.runId) && s.tasks[x].spec == t.spec;
      hide Enabled, Do, Stuck, StuckOrCancelled;
      DoStuck(s, ws[0], now, x, t);
      DoAllStuck(Do(s, ws[0], now), ws[1..], now, x, t);
    }
  }

  lemma NextStuck(s: State, step: Step, s': State, x: TaskId, t: Task)
    requires Next(s, step, s') && x in s.tasks && t.spec.runId in s'.runs && Stuck(t) && StuckOrCancelled(t, s.tasks[x])
    ensures x in s'.tasks && StuckOrCancelled(t, s'.tasks[x])
  {
    hide Plan, ChoiceOk, EnabledAll, DoAll, Stuck, StuckOrCancelled;
    if Plan(s, step.op, step.now).Ok? {
      PlanSpares(s, step.op, step.now, t.spec.runId);
      DoAllStuck(s, Plan(s, step.op, step.now).value, step.now, x, t);
    }
  }

  /** A queued task with no attempt left stays as it is, whatever anybody does, until its run is cancelled or
      pruned.  It can never be claimed again. */
  lemma {:induction false} StuckForever(states: seq<State>, steps: seq<Step>, i: nat, j: nat, x: TaskId, later: Time)
    requires Behaviour(states, steps) && i <= j < |states| && x in states[i].tasks && Stuck(states[i].tasks[x])
    requires Kept(states, i, j, states[i].tasks[x].spec.runId)
    ensures x in states[j].tasks && StuckOrCancelled(states[i].tasks[x], states[j].tasks[x])
    ensures !Claimable(states[j], x, later)
    decreases j - i
  {
    if i < j {
      hide Next, Claimable, StuckOrCancelled, Stuck;
      StuckForever(states, steps, i, j - 1, x, later);
      assert Next(states[j - 1], steps[j - 1], states[j]);
      NextStuck(states[j - 1], steps[j - 1], states[j], x, states[i].tasks[x]);
    }
    StuckUnclaimable(states[j], states[i].tasks[x], x, later);
  }

  lemma StuckUnclaimable(s: State, t: Task, x: TaskId, later: Time)
    requires x in s.tasks && Stuck(t) && StuckOrCancelled(t, s.tasks[x])
    ensures !Claimable(s, x, later)
  {}

  /** A queued task of an uncancelled run whose dependencies are completed and that has no not-before. */
  predicate Ready(s: State, x: TaskId) {
    && x in s.tasks && s.tasks[x].status == Queued && s.tasks[x].notBefore.None? && DepsCompleted(s, s.tasks[x])
    && s.tasks[x].spec.runId in s.runs && s.runs[s.tasks[x].spec.runId].status != RunCancelled
  }

  lemma ReadyClaimable(s: State, x: TaskId, later: Time)
    requires Inv(s) && Ready(s, x)
    ensures Claimable(s, x, later) <==> HasBudget(s.tasks[x])
  {
    hide Inv, DepsCompleted, HasBudget;
    QueuedNotOver(s, x);
  }

  lemma QueuedNotDead(s: State, x: TaskId)
    requires Inv(s) && x in s.tasks && s.tasks[x].status == Queued && !HasBudget(s.tasks[x])
    ensures Stuck(s.tasks[x])
  {
    hide Inv;
    InvTask(s, x);
  }

  /** What becomes of a task that was put back in the queue, with `t` its row before. */
  predicate BackInQueue(states: seq<State>, i: nat, j: nat, x: TaskId, t: Task, later: Time)
    requires i < |states| && j < |states|
  {
    && x in states[i].tasks && states[i].tasks[x].status == Queued && states[i].tasks[x].attemptCount == t.attemptCount
    && (HasBudget(t) ==> Claimable(states[i], x, later))
    && (!HasBudget(t) ==> x in states[j].tasks && StuckOrCancelled(states[i].tasks[x], states[j].tasks[x]) && !Claimable(states[j], x, later))
  }

  lemma ReadyOrStuck(states: seq<State>, steps: seq<Step>, i: nat, j: nat, x: TaskId, t: Task, later: Time)
    requires Behaviour(states, steps) && i <= j < |states| && Ready(states[i], x)
    requires Kept(states, i, j, states[i].tasks[x].spec.runId)
    requires states[i].tasks[x].attemptCount == t.attemptCount && states[i].tasks[x].spec == t.spec
    ensures BackInQueue(states, i, j, x, t, later)
  {
    hide Inv, Behaviour, Claimable, StuckOrCancelled, DepsCompleted, Stuck;
    ReachableInv(states, steps, i);
    ReadyClaimable(states[i], x, later);
    if !HasBudget(t) {
      QueuedNotDead(states[i], x);
      StuckForever(states, steps, i, j, x, later);
    }
  }

  // ---- Releasing ----

  lemma DepsOfHeld(s: State, tid: TaskId)
    requires Inv(s) && HasLease(s, tid)
    ensures DepsCompleted(s, s.tasks[tid])
    ensures s.tasks[tid].spec.runId in s.runs && s.runs[s.tasks[tid].spec.runId].status != RunCancelled
    ensures s.tasks[tid].notBefore.None?
  {
    hide Inv;
    InvTask(s, tid);
    InvTables(s);
    hide Core, TasksOk, LeasesOk, CompletionsOk, Unique, LogOk;
    assert AttemptOk(s, AttemptIdOf(s, tid));
  }

  lemma HandedBack(s: State, tid: TaskId, now: Time, s': State)
    requires Inv(s) && Enabled(s, Settle(tid, HandBack), now) && s' == Do(s, Settle(tid, HandBack), now)
    ensures tid in s'.tasks && s'.tasks[tid] == Unleased(s.tasks[tid], Queued) && Ready(s', tid)
  {
    hide Inv, Do;
    DepsOfHeld(s, tid);
    SettleEffect(s, tid, HandBack, now);
    SettleCancelled(s, tid, HandBack, now);
    hide Enabled, HasLease;
    assert s.tasks[tid].status != Completed;
  }

  lemma ReleasedIsReady(s: State, step: Step, s': State)
    requires Inv(s) && Next(s, step, s') && step.op.Release? && Plan(s, step.op, step.now).Ok?
    ensures step.op.tid in s.tasks && Ready(s', step.op.tid) && s'.tasks[step.op.tid] == Unleased(s.tasks[step.op.tid], Queued)
  {
    hide Inv, CheckLease, Next, Enabled, Do, Ready;
    NextOne(s, step, s', Settle(step.op.tid, HandBack));
    HandedBack(s, step.op.tid, step.now, s');
  }

  /** `releaseTask` is documented to requeue "without consuming an attempt".  It does not give the attempt back: the
      count stays.  If the attempt just released was not the last of its budget the task can be claimed again at
      once, at any clock; otherwise it can not be claimed in any later state, until its run is pruned. */
  lemma ReleasedClaimable(states: seq<State>, steps: seq<Step>, i: nat, j: nat, later: Time)
    requires Behaviour(states, steps) && i < j < |states| && steps[i].op.Release?
    requires Plan(states[i], steps[i].op, steps[i].now).Ok?
    requires steps[i].op.tid in states[i].tasks && Kept(states, i, j, states[i].tasks[steps[i].op.tid].spec.runId)
    ensures BackInQueue(states, i + 1, j, steps[i].op.tid, states[i].tasks[steps[i].op.tid], later)
  {
    hide Inv, Next, Plan, Ready, BackInQueue;
    var x := steps[i].op.tid;
    ReachableInv(states, steps, i);
    assert Next(states[i], steps[i], states[i + 1]);
    hide Behaviour;
    ReleasedIsReady(states[i], steps[i], states[i + 1]);
    ReadyOrStuck(states, steps, i + 1, j, x, states[i].tasks[x], later);
  }

  // ---- Resuming ----

  lemma ResumeKeepsCancelled(s: State, x: TaskId, now: Time)
    requires Inv(s) && Enabled(s, Revive(x), now)
    ensures var s', r := Do(s, Revive(x), now), s.tasks[x].spec.runId;
            r in s'.runs && (s'.runs[r].status == RunCancelled <==> s.runs[r].status == RunCancelled)
  {
    hide Inv, StatusesOf;
    var w, r := Revive(x), s.tasks[x].spec.runId;
    var raw := Raw(s, w, now);
    assert Do(s, w, now) == Recompute(raw, r, now) && raw.runs == s.runs;
    hide Raw, Enabled, Do;
    InvTables(s);
    RawCore(s, w, now);
    hide TasksOk, LeasesOk, AttemptsOk, CompletionsOk, Unique, LogOk;
    RecomputeStatus(raw, r, now);
  }

  lemma Resumed(s: State, x: TaskId, now: Time, s': State)
    requires Inv(s) && Enabled(s, Revive(x), now) && s' == Do(s, Revive(x), now) && DepsCompleted(s, s.tasks[x])
    ensures x in s'.tasks && s'.tasks[x] == s.tasks[x].(status := Queued) && Ready(s', x)
  {
    hide Inv, Do;
    InvTask(s, x);
    DoRows(s, Revive(x), now);
    ResumeKeepsCancelled(s, x, now);
  }

  /** The same trap on the way through human input: a task that was paused on its last attempt is queued when it is
      resumed, and can never be claimed. */
  lemma ResumedClaimable(states: seq<State>, steps: seq<Step>, i: nat, j: nat, later: Time)
    requires Behaviour(states, steps) && i < j < |states| && steps[i].op.Resume?
    requires Plan(states[i], steps[i].op, steps[i].now).Ok?
    requires steps[i].op.tid in states[i].tasks && Kept(states, i, j, states[i].tasks[steps[i].op.tid].spec.runId)
    ensures BackInQueue(states, i + 1, j, steps[i].op.tid, states[i].tasks[steps[i].op.tid], later)
  {
    hide Inv, Next, Ready, BackInQueue, DepsCompleted, Enabled, Do;
    var x, s := steps[i].op.tid, states[i];
    ReachableInv(states, steps, i);
    assert Next(s, steps[i], states[i + 1]);
    hide Behaviour;
    InvTask(s, x);
    AttemptedDeps(states, steps, i, x);
    NextOne(s, steps[i], states[i + 1], Revive(x));
    Resumed(s, x, steps[i].now, states[i + 1]);
    ReadyOrStuck(states, steps, i + 1, j, x, s.tasks[x], later);
  }

  // ---- Dead letters ----

  lemma Requeued(s: State, tid: TaskId, reset: bool, notBefore: Option<Time>, now: Time, s': State)
    requires Inv(s) && Enabled(s, Redrive(tid, reset, notBefore), now) && s' == Do(s, Redrive(tid, reset, notBefore), now)
    ensures tid in s'.tasks && s'.tasks[tid] == Redriven(s.tasks[tid], reset, notBefore)
    ensures DepsCompleted(s', s'.tasks[tid]) <==> DepsCompleted(s, s.tasks[tid])
    ensures var r := s.tasks[tid].spec.runId;
            r in s'.runs && r in s.runs && (s'.runs[r].status == RunCancelled <==> s.runs[r].status == RunCancelled)
  {
    hide Inv, Do;
    InvTask(s, tid);
    DoRows(s, Redrive(tid, reset, notBefore), now);
    RequeueCancelled(s, tid, reset, notBefore, now);
    assert forall d | d in s.tasks[tid].spec.deps :: d != tid by {
      hide Enabled;
    }
  }

  lemma RequeueCancelled(s: State, tid: TaskId, reset: bool, notBefore: Option<Time>, now: Time)
    requires Inv(s) && Enabled(s, Redrive(tid, reset, notBefore), now)
    ensures var s', r := Do(s, Redrive(tid, reset, notBefore), now), s.tasks[tid].spec.runId;
            r in s'.runs && (s'.runs[r].status == RunCancelled <==> s.runs[r].status == RunCancelled)
  {
    hide Inv, StatusesOf;
    var w, r := Redrive(tid, reset, notBefore), s.tasks[tid].spec.runId;
    var raw := Raw(s, w, now);
    assert Do(s, w, now) == Recompute(raw, r, now) && raw.runs == s.runs;
    hide Raw, Enabled, Do;
    InvTables(s);
    RawCore(s, w, now);
    hide TasksOk, LeasesOk, AttemptsOk, CompletionsOk, Unique, LogOk;
    RecomputeStatus(raw, r, now);
  }

  /** A failed status is documented as one that no transition leaves, but a dead task goes back to the queue
      without the transition table being asked.  It can be claimed there exactly when the caller reset its
      attempts, its run was not cancelled and its not-before has passed. */
  lemma RequeuedClaimable(states: seq<State>, steps: seq<Step>, i: nat, later: Time)
    requires Behaviour(states, steps) && i < |steps| && steps[i].op.RequeueDead? && Plan(states[i], steps[i].op, steps[i].now).Ok?
    ensures var s, s', op := states[i], states[i + 1], steps[i].op;
            && op.tid in s.tasks && s.tasks[op.tid].status == Failed && !CanMove(Failed, Queued)
            && op.tid in s'.tasks && s'.tasks[op.tid].status == Queued && s.tasks[op.tid].spec.runId in s.runs
            && (Claimable(s', op.tid, later) <==>
                  op.reset && s.runs[s.tasks[op.tid].spec.runId].status != RunCancelled
                  && (op.notBefore.None? || op.notBefore.value <= later))
  {
    hide Inv, Next, Enabled, Do, DepsCompleted;
    var s, s', op := states[i], states[i + 1], steps[i].op;
    ReachableInv(states, steps, i);
    ReachableInv(states, steps, i + 1);
    assert Next(s, steps[i], s');
    hide Behaviour;
    InvTask(s, op.tid);
    AttemptedDeps(states, steps, i, op.tid);
    NextOne(s, steps[i], s', Redrive(op.tid, op.reset, op.notBefore));
    Requeued(s, op.tid, op.reset, op.notBefore, steps[i].now, s');
    QueuedNotOver(s', op.tid);
  }

  /** Requeued without a reset, or in a cancelled run, it stays out of reach until the run is pruned. */
  lemma RequeuedInVain(states: seq<State>, steps: seq<Step>, i: nat, j: nat, later: Time)
    requires Behaviour(states, steps) && i < j < |states| && steps[i].op.RequeueDead? && Plan(states[i], steps[i].op, steps[i].now).Ok?
    requires steps[i].op.tid in states[i].tasks && Kept(states, i, j, states[i].tasks[steps[i].op.tid].spec.runId)
    requires !steps[i].op.reset || states[i].runs[states[i].tasks[steps[i].op.tid].spec.runId].status == RunCancelled
    ensures !Claimable(states[j], steps[i].op.tid, later)
  {
    hide Inv, Next, Enabled, Do, DepsCompleted, Claimable;
    var s, s', op := states[i], states[i + 1], steps[i].op;
    var r := s.tasks[op.tid].spec.runId;
    ReachableInv(states, steps, i);
    assert Next(s, steps[i], s');
    InvTask(s, op.tid);
    hide Behaviour;
    NextOne(s, steps[i], s', Redrive(op.tid, op.reset, op.notBefore));
    Requeued(s, op.tid, op.reset, op.notBefore, steps[i].now, s');
    if op.reset {
      CancelledForLife(states, steps, i, j, r, op.tid);
      TaskStays(states, steps, i, j, op.tid);
      CancelledUnclaimable(states[j], op.tid, later);
    } else {
      StuckForever(states, steps, i + 1, j, op.tid, later);
    }
  }

  lemma TaskStays(states: seq<State>, steps: seq<Step>, i: nat, j: nat, x: TaskId)
    requires Behaviour(states, steps) && i < |states| && x in states[i].tasks && Kept(states, i, j, states[i].tasks[x].spec.runId)
    ensures x in states[j].tasks && states[j].tasks[x].spec == states[i].tasks[x].spec
  {
    hide Behaviour;
    KeptOnward(states, steps, i, j, states[i].tasks[x].spec.runId);
  }

  lemma CancelledUnclaimable(s: State, x: TaskId, later: Time)
    requires x in s.tasks && s.tasks[x].spec.runId in s.runs && s.runs[s.tasks[x].spec.runId].status == RunCancelled
    ensures !Claimable(s, x, later)
  {}

  // ---- Not-before ----

  /** The call runs the sweep: it is one, or a claim that is no retry. */
  predicate Sweeps(s: State, op: Op) {
    op.Sweep? || (op.Claim? && !(op.clientToken.Some? && TokenUsed(s, op.clientToken.value)))
  }

  predicate NoDue(s: State, x: TaskId) {
    x in s.tasks ==> s.tasks[x].notBefore.None?
  }

  predicate SetsNoDue(w: Write, x: TaskId) {
    !(w.Settle? && w.how.Expire?) && !(w.Redrive? && w.tid == x)
  }

  lemma DoNoDue(s: State, w: Write, now: Time, x: TaskId)
    requires Enabled(s, w, now) && NoDue(s, x) && SetsNoDue(w, x)
    ensures NoDue(Do(s, w, now), x)
  {
    DoRows(s, w, now);
    hide Do, DepsCompleted, TokenUsed, KeyTaken, Lapsed, SettledPayload;
  }

  lemma {:induction false} DoAllNoDue(s: State, ws: seq<Write>, now: Time, x: TaskId)
    requires EnabledAll(s, ws, now) && NoDue(s, x) && forall i | 0 <= i < |ws| :: SetsNoDue(ws[i], x)
    ensures NoDue(DoAll(s, ws, now), x)
    decreases |ws|
  {
    hide Enabled, Do, NoDue, SetsNoDue;
    if |ws| > 0 {
      DoNoDue(s, ws[0], now, x);
      DoAllNoDue(Do(s, ws[0], now), ws[1..], now, x);
    }
  }

  lemma PlanSetsNoDue(s: State, op: Op, now: Time, x: TaskId)
    requires Plan(s, op, now).Ok? && !Sweeps(s, op) && !(op.RequeueDead? && op.tid == x)
    ensures forall i | 0 <= i < |Plan(s, op, now).value| :: SetsNoDue(Plan(s, op, now).value[i], x)
  {
    hide TokenUsed, KeyTaken, DependencyRows, CheckLease, LookupCompletion, CanMove;
  }

  lemma DelayPositive(retry: Retry, attempt: nat)
    requires RetryDelay(retry, attempt).Some?
    ensures RetryDelay(retry, attempt).value > 0
  {
    Pow2Positive(if attempt < 1 then 0 else attempt - 1);
  }

  lemma {:induction false} Pow2Positive(n: nat)
    ensures Pow2(n) >= 1
  {
    if n > 0 { Pow2Positive(n - 1); }
  }

  /** What the sweep makes of the column. */
  predicate SweptDue(t: Task, t': Task, lapsed: bool, now: Time) {
    t'.notBefore == (if lapsed && HasBudget(t) then ComputeNotBefore(t, now) else None)
  }

  lemma SweepDue(s: State, s': State, order: seq<TaskId>, now: Time, x: TaskId)
    requires Swept(s, s', order, now) && x in s.tasks && s.tasks[x].notBefore.None?
    ensures x in s'.tasks && SweptDue(s.tasks[x], s'.tasks[x], x in order, now)
  {
    hide RetryDelay;
  }

  lemma ClaimDue(s: State, op: Op, now: Time, s': State, x: TaskId)
    requires Inv(s) && Next(s, Step(op, now), s') && op.Claim? && Sweeps(s, op) && x in s.tasks && s.tasks[x].notBefore.None?
    ensures x in s'.tasks && SweptDue(s.tasks[x], s'.tasks[x], Lapsed(s, x, now), now)
  {
    hide Inv, DoAll, EnabledAll, Enabled, Do, BestPick, SweptDue, Lapsed;
    SweepEffect(s, now, op.order);
    var s1 := DoAll(s, Expiries(op.order), now);
    SweepDue(s, s1, op.order, now, x);
    if op.pick.Some? {
      GrantEnabled(s, op, now);
      var grant := Grant(op.pick.value, op.newLease, op.newAttempt, op.worker, now + op.leaseMs, op.clientToken);
      DoAllAppend(s, Expiries(op.order), grant, now);
      GrantHandsOver(s1, grant, now);
      hide Swept;
      if x == op.pick.value {
        GrantedDue(s, s1, x, grant, now);
      }
    }
  }

  /** A task that the sweep has just delayed is not the one picked. */
  lemma GrantedDue(s: State, s1: State, x: TaskId, grant: Write, now: Time)
    requires x in s.tasks && x in s1.tasks && SweptDue(s.tasks[x], s1.tasks[x], Lapsed(s, x, now), now)
    requires grant.Grant? && grant.tid == x && Enabled(s1, grant, now)
    ensures SweptDue(s.tasks[x], Granted(s1.tasks[x], grant.lid, grant.worker, grant.expiresAt), Lapsed(s, x, now), now)
  {
    var t := s.tasks[x];
    if RetryDelay(t.spec.retry, t.attemptCount).Some? {
      DelayPositive(t.spec.retry, t.attemptCount);
    }
    hide RetryDelay, DepsCompleted, TokenUsed, Lapsed;
  }

  lemma SweptDueAt(s: State, step: Step, s': State, x: TaskId)
    requires Inv(s) && Next(s, step, s') && Sweeps(s, step.op) && x in s.tasks && s.tasks[x].notBefore.None?
    ensures x in s'.tasks && SweptDue(s.tasks[x], s'.tasks[x], Lapsed(s, x, step.now), step.now)
  {
    hide Inv, Next, ExactSweep, SweptDue, Lapsed;
    if step.op.Sweep? {
      SweepIsExact(s, step.op.order, step.now, s');
      ExactDue(s, step.op.order, step.now, s', x);
    } else {
      ClaimDue(s, step.op, step.now, s', x);
    }
  }

  lemma ExactDue(s: State, order: seq<TaskId>, now: Time, s': State, x: TaskId)
    requires ExactSweep(s, order, now, s') && x in s.tasks && s.tasks[x].notBefore.None?
    ensures x in s'.tasks && SweptDue(s.tasks[x], s'.tasks[x], Lapsed(s, x, now), now)
  {
    hide Lapsed, Held;
    SweepDue(s, s', order, now, x);
  }

  /** Exactly when a step sets the not-before of a task that had none: a sweep expires its lease, an attempt is left
      and its retry policy has a delay; or it is requeued from the dead letters with one.  Releasing never does. */
  lemma NotBeforeSet(s: State, step: Step, s': State, x: TaskId)
    requires Inv(s) && Next(s, step, s') && x in s.tasks && x in s'.tasks && s.tasks[x].notBefore.None?
    ensures var t, op := s.tasks[x], step.op;
            s'.tasks[x].notBefore.Some? <==>
              || (Sweeps(s, op) && Lapsed(s, x, step.now) && HasBudget(t) && RetryDelay(t.spec.retry, t.attemptCount).Some?)
              || (op.RequeueDead? && op.tid == x && t.dead && op.notBefore.Some?)
  {
    hide Inv, Enabled, EnabledAll, DoAll, Do, ChoiceOk, Lapsed, RetryDelay, HasBudget, Plan;
    var op := step.op;
    if Sweeps(s, op) {
      SweptDueAt(s, step, s', x);
    } else if op.RequeueDead? && op.tid == x {
      RequeuedDue(s, step, s');
    } else if Plan(s, op, step.now).Ok? {
      PlanSetsNoDue(s, op, step.now, x);
      DoAllNoDue(s, Plan(s, op, step.now).value, step.now, x);
    }
  }

  lemma RequeuedDue(s: State, step: Step, s': State)
    requires Inv(s) && Next(s, step, s') && step.op.RequeueDead? && step.op.tid in s.tasks
    ensures step.op.tid in s'.tasks
    ensures s'.tasks[step.op.tid] == if s.tasks[step.op.tid].dead then Redriven(s.tasks[step.op.tid], step.op.reset, step.op.notBefore)
                                     else s.tasks[step.op.tid]
  {
    hide Inv, Enabled, EnabledAll, DoAll, Do;
    if Plan(s, step.op, step.now).Ok? {
      NextOne(s, step, s', Redrive(step.op.tid, step.op.reset, step.op.notBefore));
      Requeued(s, step.op.tid, step.op.reset, step.op.notBefore, step.now, s');
    }
  }

  // ---- Cancelling ----

  /** Completed and failed runs are called terminal, but cancelling one takes it to cancelled all the same; what
      its tasks had become stays as it was. */
  lemma CancelOverwrites(s: State, rid: RunId, now: Time, s': State, x: TaskId)
    requires Inv(s) && Next(s, Step(CancelRun(rid), now), s') && rid in s.runs
    ensures rid in s'.runs && s'.runs[rid].status == RunCancelled
    ensures x in s.tasks && Final(s.tasks[x]) ==> x in s'.tasks && s'.tasks[x] == s.tasks[x]
  {
    hide Inv;
    if s.runs[rid].status != RunCancelled {
      hide Next, Do, Enabled;
      NextOne(s, Step(CancelRun(rid), now), s', CancelAll(rid));
      CancelEffect(s, rid, now);
    }
  }

  lemma CancelEffect(s: State, rid: RunId, now: Time)
    requires Enabled(s, CancelAll(rid), now)
    ensures var s' := Do(s, CancelAll(rid), now);
            && s'.runs == s.runs[rid := Run(RunCancelled, now)] && s'.tasks == CancelRows(s, rid, now).tasks
            && s'.leases == CancelRows(s, rid, now).leases && s'.used == s.used
  {
    hide CancelTask, CancelLease, CancelAttempt;
  }

  /** A lease that is over is refused as a conflict, whatever the call. */
  lemma SpentIsConflict(s: State, tid: TaskId, lid: Uuid, worker: WorkerId, now: Time)
    requires Inv(s) && Spent(s, lid) && tid in s.tasks
    ensures CheckLease(s, tid, lid, worker, now) == Some(LeaseConflict)
  {
    hide Inv;
    InvTask(s, tid);
  }

  /** The holder of a task in a run that is cancelled is documented to get an InvalidTransitionError from its next
      write.  It gets a LeaseConflictError, from every call under the lease, unless it passes a token that is on
      record, which can only be that of another task. */
  lemma CancelledHolderGetsConflict(states: seq<State>, steps: seq<Step>, i: nat, rid: RunId, now: Time, s': State,
                                    tid: TaskId, op: Op, later: Time)
    requires Behaviour(states, steps) && i < |states| && Next(states[i], Step(CancelRun(rid), now), s')
    requires HasLease(states[i], tid) && states[i].tasks[tid].spec.runId == rid
    requires op.Heartbeat? || op.MarkRunning? || op.Pause? || op.Release? || op.Complete? || op.Fail?
    requires op.tid == tid && op.lid == LeaseIdOf(states[i], tid)
    ensures Plan(s', op, later) ==
              Err(if (op.Complete? || op.Fail?) && op.clientToken.Some? && op.clientToken.value in s'.completions
                  then TokenReused else LeaseConflict)
  {
    hide Inv, CheckLease, Next, Enabled, Do, HasLease, Spent, Behaviour;
    ReachableInv(states, steps, i);
    CancelledIsSpent(states[i], rid, now, s', tid);
    SpentIsConflict(s', tid, op.lid, op.worker, later);
    if (op.Complete? || op.Fail?) && op.clientToken.Some? && op.clientToken.value in s'.completions {
      RecordedElsewhere(s', op.clientToken.value, tid);
    }
  }

  lemma RecordedElsewhere(s: State, token: Token, tid: TaskId)
    requires Inv(s) && token in s.completions && tid in s.tasks && s.tasks[tid].status == Cancelled
    ensures s.completions[token].taskId != tid
  {
    hide Inv;
    InvTables(s);
    hide Core, TasksOk, LeasesOk, AttemptsOk, Unique, LogOk;
    assert CompletionOk(s, token);
  }

  lemma CancelledIsSpent(s: State, rid: RunId, now: Time, s': State, tid: TaskId)
    requires Inv(s) && Next(s, Step(CancelRun(rid), now), s') && HasLease(s, tid) && s.tasks[tid].spec.runId == rid
    ensures Inv(s') && tid in s'.tasks && s'.tasks[tid].status == Cancelled && Spent(s', LeaseIdOf(s, tid))
  {
    hide Inv, Next, Enabled, Do, HasLease, Spent;
    var step := Step(CancelRun(rid), now);
    NextInv(s, step, s');
    HeldInRun(s, tid);
    NextOne(s, step, s', CancelAll(rid));
    CancelSpends(s, tid, now);
  }

  lemma HeldInRun(s: State, tid: TaskId)
    requires Inv(s) && HasLease(s, tid)
    ensures s.leases[LeaseIdOf(s, tid)].runId == s.tasks[tid].spec.runId && s.leases[LeaseIdOf(s, tid)].taskId == tid
    ensures LeaseIdOf(s, tid) in s.used
    ensures s.tasks[tid].spec.runId in s.runs && s.runs[s.tasks[tid].spec.runId].status != RunCancelled
  {
    hide Inv;
    InvTask(s, tid);
    InvTables(s);
    hide Core, TasksOk, AttemptsOk, CompletionsOk, Unique, LogOk;
    assert LeaseOk(s, LeaseIdOf(s, tid));
  }

  lemma CancelSpends(s: State, tid: TaskId, now: Time)
    requires Inv(s) && HasLease(s, tid) && Enabled(s, CancelAll(s.tasks[tid].spec.runId), now)
    ensures var s' := Do(s, CancelAll(s.tasks[tid].spec.runId), now);
            tid in s'.tasks && s'.tasks[tid].status == Cancelled && Spent(s', LeaseIdOf(s, tid))
  {
    hide Inv, Do, Enabled;
    HeldInRun(s, tid);
    CancelEffect(s, s.tasks[tid].spec.runId, now);
    hide HasLease;
  }
}
