/** What keeps the system going: sweeps are exact, claims miss nothing, live holders keep their tasks, and
    dependencies cannot deadlock a run. */
module Liveness {
  import opened Records
  import opened StateMachine
  import opened Writes
  import opened Invariant
  import opened Preservation
  import opened Transactions
  import opened Lifecycle
  import opened Choices

  // ---- Sweeping ----

  /** The sweep expires precisely the lapsed leases, changes no other task, and leaves none behind. */
  ghost predicate ExactSweep(s: State, order: seq<TaskId>, now: Time, s': State) {
    && Swept(s, s', order, now)
    && (forall x | x in s.tasks :: x in order <==> Lapsed(s, x, now))
    && (forall x | x in s.tasks && Lapsed(s, x, now) ::
          x in s'.tasks && s'.tasks[x] == Settled(s.tasks[x], Expire, now) && !Held(s'.tasks[x]))
    && (forall x | x in s.tasks && !Lapsed(s, x, now) :: x in s'.tasks && s'.tasks[x] == s.tasks[x])
    && (forall x | x in s'.tasks :: !Lapsed(s', x, now))
  }

  lemma SweepIsExact(s: State, order: seq<TaskId>, now: Time, s': State)
    requires Inv(s) && Next(s, Step(Sweep(order), now), s')
    ensures ExactSweep(s, order, now, s')
  {
    hide Inv, Enabled, Do;
    SweepEffect(s, now, order);
  }

  lemma SweepExact(states: seq<State>, steps: seq<Step>, i: nat, order: seq<TaskId>, now: Time, s': State)
    requires Behaviour(states, steps) && i < |states| && Next(states[i], Step(Sweep(order), now), s')
    ensures ExactSweep(states[i], order, now, s')
  {
    hide Inv, Next, ExactSweep, Behaviour;
    ReachableInv(states, steps, i);
    SweepIsExact(states[i], order, now, s');
  }

  /** A second sweep at the same time changes nothing at all. */
  lemma SweepIdempotent(states: seq<State>, steps: seq<Step>, i: nat, order: seq<TaskId>, now: Time, s': State,
                        again: seq<TaskId>, s'': State)
    requires Behaviour(states, steps) && i < |states| && Next(states[i], Step(Sweep(order), now), s')
    requires Next(s', Step(Sweep(again), now), s'')
    ensures again == [] && s'' == s'
  {
    hide Behaviour;
    ReachableInv(states, steps, i);
    SweepIsExact(states[i], order, now, s');
    hide Inv, Enabled, Do;
    FirstIn(again);
  }

  lemma FirstIn<T>(xs: seq<T>)
    ensures xs == [] || xs[0] in xs
  {}

  lemma SameOrderSwept(s: State, a: State, b: State, order: seq<TaskId>, other: seq<TaskId>, now: Time)
    requires Swept(s, a, order, now) && Swept(s, b, other, now) && forall x | x in s.tasks :: x in order <==> x in other
    requires LeasesOk(s) && AttemptsOk(s)
    ensures a.tasks == b.tasks && a.leases == b.leases && a.attempts == b.attempts && a.runs.Keys == b.runs.Keys
    ensures forall r | r in a.runs :: a.runs[r].status == RunCancelled <==> b.runs[r].status == RunCancelled
  {
    hide Settled, SweptLease, SweptAttempt, SweptTask;
    forall x | x in s.leases ensures s.leases[x].taskId in s.tasks {
      assert LeaseOk(s, x);
    }
    forall x | x in s.attempts ensures s.attempts[x].taskId in s.tasks {
      assert AttemptOk(s, x);
    }
  }

  lemma SweptAlike(s: State, order: seq<TaskId>, other: seq<TaskId>, now: Time, a: State, b: State)
    requires Inv(s) && Next(s, Step(Sweep(order), now), a) && Next(s, Step(Sweep(other), now), b)
    ensures Swept(s, a, order, now) && Swept(s, b, other, now) && forall x | x in s.tasks :: x in order <==> x in other
  {
    hide Inv, Next, Swept, Lapsed;
    SweepIsExact(s, order, now, a);
    SweepIsExact(s, other, now, b);
  }

  /** The order in which a sweep visits the lapsed tasks makes no difference to any task, lease, attempt or
      run status. */
  lemma SweepOrderIrrelevant(states: seq<State>, steps: seq<Step>, i: nat, order: seq<TaskId>, other: seq<TaskId>, now: Time,
                             a: State, b: State)
    requires Behaviour(states, steps) && i < |states|
    requires Next(states[i], Step(Sweep(order), now), a) && Next(states[i], Step(Sweep(other), now), b)
    ensures a.tasks == b.tasks && a.leases == b.leases && a.attempts == b.attempts && a.runs.Keys == b.runs.Keys
    ensures forall r | r in a.runs :: a.runs[r].status == b.runs[r].status
  {
    hide *;
    var s := states[i];
    ReachableInv(states, steps, i);
    SweptAlike(s, order, other, now, a, b);
    NextInv(s, Step(Sweep(order), now), a);
    NextInv(s, Step(Sweep(other), now), b);
    InvTables(s);
    SameOrderSwept(s, a, b, order, other, now);
    SameTasksSameStatus(a, b);
  }

  lemma SameTasksSameStatus(a: State, b: State)
    requires Inv(a) && Inv(b) && a.tasks == b.tasks && a.runs.Keys == b.runs.Keys
    requires forall r | r in a.runs :: a.runs[r].status == RunCancelled <==> b.runs[r].status == RunCancelled
    ensures forall r | r in a.runs :: a.runs[r].status == b.runs[r].status
  {
    hide Core;
    forall r | r in a.runs ensures a.runs[r].status == b.runs[r].status {
      assert Agrees(a, r) && Agrees(b, r);
      StatusesFrame(a, b, r);
    }
  }

  /** At any time the holder of a task is either let through by the lease check or swept, never both. */
  lemma AcceptedOrSwept(states: seq<State>, steps: seq<Step>, i: nat, x: TaskId, now: Time)
    requires Behaviour(states, steps) && i < |states| && x in states[i].tasks && Held(states[i].tasks[x])
    ensures var s, t := states[i], states[i].tasks[x];
            && t.leaseId.Some? && t.leasedBy.Some?
            && (CheckLease(s, x, t.leaseId.value, t.leasedBy.value, now).None? <==> !Lapsed(s, x, now))
  {
    hide Inv, Behaviour;
    var s := states[i];
    ReachableInv(states, steps, i);
    InvTask(s, x);
  }

  // ---- Claiming ----

  lemma QueuedNotOver(s: State, x: TaskId)
    requires Inv(s) && x in s.tasks && s.tasks[x].status == Queued
    ensures s.tasks[x].spec.runId in s.runs
    ensures s.runs[s.tasks[x].spec.runId].status != RunCancelled ==> !TerminalRun(s.runs[s.tasks[x].spec.runId].status)
  {
    var r := s.tasks[x].spec.runId;
    InvTask(s, x);
    assert Agrees(s, r);
    hide Core;
    assert InRun(s, x, r);
    assert Queued in StatusesOf(s, r);
  }

  /** What could be claimed before the sweep can be claimed after it. */
  lemma ClaimableAfterSweep(s: State, x: TaskId, now: Time, order: seq<TaskId>)
    requires Inv(s) && AllLapsed(s, now, order) && Claimable(s, x, now)
    ensures EnabledAll(s, Expiries(order), now) && Claimable(DoAll(s, Expiries(order), now), x, now)
    ensures DoAll(s, Expiries(order), now).tasks[x] == s.tasks[x]
  {
    hide Inv, DoAll, EnabledAll;
    SweepEffect(s, now, order);
    var s' := DoAll(s, Expiries(order), now);
    assert x !in order;
    assert s'.tasks[x] == s.tasks[x];
    QueuedNotOver(s', x);
    hide Settled, SweptLease, SweptAttempt;
    forall d | d in s.tasks[x].spec.deps ensures d in s'.tasks && s'.tasks[d].status == Completed {
      assert d !in order;
    }
  }

  /** A claim under a new token returns nothing only when nothing can be claimed; otherwise what it returns
      has the highest priority and, within it, the earliest creation time of all tasks that could be. */
  lemma ClaimOptimal(states: seq<State>, steps: seq<Step>, i: nat, op: Op, now: Time)
    requires Behaviour(states, steps) && i < |states| && op.Claim? && ChoiceOk(states[i], op, now)
    requires op.clientToken.Some? ==> !TokenUsed(states[i], op.clientToken.value)
    ensures var s := states[i];
            && (op.pick.None? ==> forall x | x in s.tasks :: !Candidate(s, x, op.kinds, now))
            && (op.pick.Some? ==>
                  && op.pick.value in s.tasks
                  && forall x | x in s.tasks && Candidate(s, x, op.kinds, now) ::
                       var t, p := s.tasks[x], s.tasks[op.pick.value];
                       t.spec.priority <= p.spec.priority && (t.spec.priority == p.spec.priority ==> p.createdAt <= t.createdAt))
  {
    hide Behaviour;
    var s := states[i];
    ReachableInv(states, steps, i);
    var s1 := DoAll(s, Expiries(op.order), now);
    hide Inv, DoAll, EnabledAll, Claimable;
    SweepEffect(s, now, op.order);
    forall x | x in s.tasks && Candidate(s, x, op.kinds, now) ensures x in s1.tasks && Candidate(s1, x, op.kinds, now) && s1.tasks[x] == s.tasks[x] {
      ClaimableAfterSweep(s, x, now, op.order);
      assert Claimable(s1, x, now) && x in s1.tasks;
    }
    SweptRanks(s, s1, op.order, now);
  }

  /** A sweep does not change what tasks are ranked by. */
  lemma SweptRanks(s: State, s1: State, order: seq<TaskId>, now: Time)
    requires Swept(s, s1, order, now)
    ensures s1.tasks.Keys == s.tasks.Keys
    ensures forall x, y | x in s.tasks && y in s.tasks :: Ranks(s1.tasks[x], s1.tasks[y]) <==> Ranks(s.tasks[x], s.tasks[y])
  {}

  /** The task a claim picks is handed to the worker: leased, under the new lease, until now + leaseMs, with one
      more attempt on its account. */
  lemma ClaimHandsOver(s: State, op: Op, now: Time, s': State)
    requires Inv(s) && op.Claim? && op.pick.Some? && Next(s, Step(op, now), s')
    requires op.clientToken.Some? ==> !TokenUsed(s, op.clientToken.value)
    ensures var x := op.pick.value;
            && x in s.tasks && x in s'.tasks && s.tasks[x].spec == s'.tasks[x].spec
            && s'.tasks[x].status == Leased && s'.tasks[x].attemptCount == s.tasks[x].attemptCount + 1
            && s'.tasks[x].leaseId == Some(op.newLease) && s'.tasks[x].leasedBy == Some(op.worker)
            && s'.tasks[x].leaseExpiresAt == Some(now + op.leaseMs) && DepsCompleted(s', s'.tasks[x])
  {
    hide Inv, DoAll, EnabledAll, Enabled, Do;
    SweepEffect(s, now, op.order);
    GrantEnabled(s, op, now);
    var s1 := DoAll(s, Expiries(op.order), now);
    var grant := Grant(op.pick.value, op.newLease, op.newAttempt, op.worker, now + op.leaseMs, op.clientToken);
    DoAllAppend(s, Expiries(op.order), grant, now);
    SweptCount(s, s1, op.order, now);
    GrantHandsOver(s1, grant, now);
  }

  lemma SweptCount(s: State, s1: State, order: seq<TaskId>, now: Time)
    requires Swept(s, s1, order, now)
    ensures s1.tasks.Keys == s.tasks.Keys
    ensures forall x | x in s.tasks :: s1.tasks[x].attemptCount == s.tasks[x].attemptCount && s1.tasks[x].spec == s.tasks[x].spec
  {}

  lemma GrantHandsOver(s: State, w: Write, now: Time)
    requires w.Grant? && Enabled(s, w, now)
    ensures var s' := Do(s, w, now);
            && w.tid in s.tasks && s'.tasks == s.tasks[w.tid := Granted(s.tasks[w.tid], w.lid, w.worker, w.expiresAt)]
            && DepsCompleted(s', s'.tasks[w.tid])
  {
    DoRows(s, w, now);
    hide Do;
  }

  // ---- Live holders ----

  /** The holder of the lease does not write under it in this step. */
  predicate HolderSilent(op: Op, x: TaskId, lid: Uuid) {
    !((op.Heartbeat? || op.MarkRunning? || op.Pause? || op.Complete? || op.Fail? || op.Release?) && op.tid == x && op.lid == lid)
  }

  /** The write is none of the holder's, nor a cancellation or purge of the run. */
  predicate LeavesAlone(w: Write, x: TaskId, r: RunId) {
    w != CancelAll(r) && w != Purge(r)
    && !((w.Extend? || w.Begin? || (w.Settle? && !w.how.Expire?)) && w.tid == x)
  }

  lemma DoLeavesAlone(s: State, w: Write, now: Time, x: TaskId)
    requires Enabled(s, w, now) && x in s.tasks && TaskOk(s, x) && Held(s.tasks[x]) && !Lapsed(s, x, now)
    requires LeavesAlone(w, x, s.tasks[x].spec.runId)
    ensures x in Do(s, w, now).tasks && Do(s, w, now).tasks[x] == s.tasks[x] && !Lapsed(Do(s, w, now), x, now)
  {
    DoRows(s, w, now);
    hide Do, Settled, DepsEarlier;
  }

  lemma {:induction false} DoAllLeavesAlone(s: State, ws: seq<Write>, now: Time, x: TaskId)
    requires Inv(s) && EnabledAll(s, ws, now) && x in s.tasks && Held(s.tasks[x]) && !Lapsed(s, x, now)
    requires forall i | 0 <= i < |ws| :: LeavesAlone(ws[i], x, s.tasks[x].spec.runId)
    ensures x in DoAll(s, ws, now).tasks && DoAll(s, ws, now).tasks[x] == s.tasks[x]
    decreases |ws|
  {
    hide Inv, Enabled, Do, LeavesAlone, TaskOk, Held, Lapsed;
    if |ws| > 0 {
      assert forall i | 0 <= i < |ws[1..]| :: ws[1..][i] == ws[i + 1];
      InvTask(s, x);
      DoInv(s, ws[0], now);
      DoLeavesAlone(s, ws[0], now, x);
      DoAllLeavesAlone(Do(s, ws[0], now), ws[1..], now, x);
    }
  }

  lemma PlanLeavesAlone(s: State, op: Op, now: Time, x: TaskId, lid: Uuid)
    requires Plan(s, op, now).Ok? && x in s.tasks && s.tasks[x].leaseId == Some(lid)
    requires HolderSilent(op, x, lid) && op != CancelRun(s.tasks[x].spec.runId)
    requires Spares(Plan(s, op, now).value, s.tasks[x].spec.runId)
    ensures forall i | 0 <= i < |Plan(s, op, now).value| :: LeavesAlone(Plan(s, op, now).value[i], x, s.tasks[x].spec.runId)
  {
    hide TokenUsed, TerminalRun, KeyTaken, DependencyRows;
  }

  lemma NextLeavesAlone(s: State, step: Step, s': State, x: TaskId, lid: Uuid)
    requires Inv(s) && Next(s, step, s') && x in s.tasks && Held(s.tasks[x]) && s.tasks[x].leaseId == Some(lid)
    requires s.tasks[x].leaseExpiresAt.Some? && step.now <= s.tasks[x].leaseExpiresAt.value
    requires HolderSilent(step.op, x, lid) && step.op != CancelRun(s.tasks[x].spec.runId)
    requires s.tasks[x].spec.runId in s'.runs
    ensures x in s'.tasks && s'.tasks[x] == s.tasks[x]
  {
    assert !Lapsed(s, x, step.now);
    hide Inv, Enabled, Do, ChoiceOk, Plan, HolderSilent, LeavesAlone, Lapsed, Spares;
    if Plan(s, step.op, step.now).Ok? {
      PlanSpares(s, step.op, step.now, s.tasks[x].spec.runId);
      PlanLeavesAlone(s, step.op, step.now, x, lid);
      DoAllLeavesAlone(s, Plan(s, step.op, step.now).value, step.now, x);
    }
  }

  /** Until its lease runs out, a holder keeps its task: as long as every step happens no later than the
      expiry that its last claim or heartbeat set, and it does not write itself, and the run is neither
      cancelled nor pruned, the task does not change at all. */
  lemma {:induction false} LiveHolderKeepsTask(states: seq<State>, steps: seq<Step>, i: nat, j: nat, x: TaskId, lid: Uuid, expiry: Time)
    requires Behaviour(states, steps) && i <= j < |states|
    requires x in states[i].tasks && Held(states[i].tasks[x])
    requires states[i].tasks[x].leaseId == Some(lid) && states[i].tasks[x].leaseExpiresAt == Some(expiry)
    requires Kept(states, i, j, states[i].tasks[x].spec.runId)
    requires forall k | i <= k < j :: steps[k].now <= expiry
    requires forall k | i <= k < j :: HolderSilent(steps[k].op, x, lid)
    requires forall k | i <= k < j :: steps[k].op != CancelRun(states[i].tasks[x].spec.runId)
    ensures x in states[j].tasks && states[j].tasks[x] == states[i].tasks[x]
    decreases j - i
  {
    if i < j {
      hide Inv, Next, HolderSilent;
      LiveHolderKeepsTask(states, steps, i, j - 1, x, lid, expiry);
      ReachableInv(states, steps, j - 1);
      NextLeavesAlone(states[j - 1], steps[j - 1], states[j], x, lid);
    }
  }

  // ---- No deadlock ----

  /** Starting from a queued task and going back through unfinished dependencies ends in one that is ready:
      dependencies were enqueued earlier, so the search cannot go in circles. */
  lemma {:induction false} FindReady(s: State, r: RunId, x: TaskId) returns (ready: TaskId)
    requires Inv(s) && InRun(s, x, r) && s.tasks[x].status == Queued
    requires forall y | y in s.tasks && InRun(s, y, r) :: s.tasks[y].status == Queued || s.tasks[y].status == Completed
    ensures InRun(s, ready, r) && s.tasks[ready].status == Queued && DepsCompleted(s, s.tasks[ready])
    decreases s.tasks[x].row
  {
    hide Inv;
    InvTask(s, x);
    if DepsCompleted(s, s.tasks[x]) {
      ready := x;
    } else {
      var d :| d in s.tasks[x].spec.deps && !(d in s.tasks && s.tasks[d].status == Completed);
      assert InRun(s, d, r) && s.tasks[d].row < s.tasks[x].row;
      ready := FindReady(s, r, d);
    }
  }

  lemma StatusesSeen(s: State, r: RunId)
    ensures forall x | x in s.tasks && InRun(s, x, r) :: s.tasks[x].status in StatusesOf(s, r)
    ensures forall st | st in StatusesOf(s, r) :: exists x :: x in s.tasks && InRun(s, x, r) && s.tasks[x].status == st
  {}

  lemma SomeQueued(s: State, r: RunId, some: TaskId)
    requires Inv(s) && r in s.runs && !TerminalRun(s.runs[r].status) && InRun(s, some, r)
    requires forall x | x in s.tasks && InRun(s, x, r) ::
               !Held(s.tasks[x]) && !WaitingStatus(s.tasks[x].status) && s.tasks[x].status != Failed
    ensures exists x :: x in s.tasks && InRun(s, x, r) && s.tasks[x].status == Queued
    ensures forall x | x in s.tasks && InRun(s, x, r) :: s.tasks[x].status == Queued || s.tasks[x].status == Completed
  {
    assert Agrees(s, r);
    hide Inv;
    forall x | x in s.tasks && InRun(s, x, r) ensures s.tasks[x].status == Queued || s.tasks[x].status == Completed {
      InvTask(s, x);
    }
    StatusesSeen(s, r);
    hide StatusesOf, TaskOk, RunStatusTable;
    assert s.tasks[some].status in StatusesOf(s, r);
    QueuedOrCompleted(StatusesOf(s, r));
  }

  lemma QueuedOrCompleted(present: set<TaskStatus>)
    requires present != {} && forall st | st in present :: st == Queued || st == Completed
    ensures Queued in present || RunStatusTable(present) == RunCompleted
  {
    var st :| st in present;
    if Queued !in present {
      assert present == {Completed};
    }
  }

  /** A claim that the store may make, under no token or a new one, of tasks of any kind. */
  ghost predicate NewUnfilteredClaim(s: State, op: Op, now: Time) {
    ChoiceOk(s, op, now) && op.Claim? && op.kinds == [] && (op.clientToken.Some? ==> !TokenUsed(s, op.clientToken.value))
  }

  ghost predicate SomeNewUnfilteredClaim(s: State, now: Time) {
    exists op :: NewUnfilteredClaim(s, op, now)
  }

  /** There always is such a claim. */
  lemma UnfilteredClaimExists(s: State, now: Time)
    requires Inv(s)
    ensures SomeNewUnfilteredClaim(s, now)
  {
    hide Inv, ChoiceOk;
    var op := ClaimChoiceExists(s, Claim(0, 0, [], None, [], None, 0, 1), now);
    assert NewUnfilteredClaim(s, op, now);
  }

  lemma ReadyIsClaimed(s: State, ready: TaskId, op: Op, now: Time)
    requires Inv(s) && Claimable(s, ready, now) && NewUnfilteredClaim(s, op, now)
    ensures op.pick.Some?
  {
    ClaimableAfterSweep(s, ready, now, op.order);
    hide Inv, Claimable, DoAll, EnabledAll;
  }

  /** Some task of the run is held or paused, or is queued with its dependencies completed. */
  lemma SomeoneReady(s: State, r: RunId, some: TaskId) returns (ready: TaskId)
    requires Inv(s) && r in s.runs && !TerminalRun(s.runs[r].status) && InRun(s, some, r)
    requires forall x | x in s.tasks && InRun(s, x, r) :: s.tasks[x].status != Failed
    ensures InRun(s, ready, r)
    ensures Held(s.tasks[ready]) || WaitingStatus(s.tasks[ready].status)
            || (s.tasks[ready].status == Queued && DepsCompleted(s, s.tasks[ready]))
  {
    if x :| x in s.tasks && InRun(s, x, r) && (Held(s.tasks[x]) || WaitingStatus(s.tasks[x].status)) {
      ready := x;
    } else {
      SomeQueued(s, r, some);
      var q :| q in s.tasks && InRun(s, q, r) && s.tasks[q].status == Queued;
      hide Inv;
      ready := FindReady(s, r, q);
    }
  }

  /** In every reachable state: in a run that is not over, has tasks, none of them failed, and budget left for
      every queued one, either somebody holds or has paused a task, or some queued task is ready, and every
      unfiltered claim at any time past its not-before returns a task.  At any time there is such a claim. */
  lemma NoDependencyDeadlock(states: seq<State>, steps: seq<Step>, i: nat, r: RunId, some: TaskId) returns (ready: TaskId)
    requires Behaviour(states, steps) && i < |states|
    requires r in states[i].runs && !TerminalRun(states[i].runs[r].status) && InRun(states[i], some, r)
    requires forall x | x in states[i].tasks && InRun(states[i], x, r) :: states[i].tasks[x].status != Failed
    requires forall x | x in states[i].tasks && InRun(states[i], x, r) && states[i].tasks[x].status == Queued :: HasBudget(states[i].tasks[x])
    ensures InRun(states[i], ready, r)
    ensures var s, t := states[i], states[i].tasks[ready];
            Held(t) || WaitingStatus(t.status)
            || (&& t.status == Queued && HasBudget(t) && DepsCompleted(s, t)
                && forall op: Op, now: Time | NewUnfilteredClaim(s, op, now) && (t.notBefore.Some? ==> t.notBefore.value <= now) ::
                     op.pick.Some?)
    ensures forall now: Time :: SomeNewUnfilteredClaim(states[i], now)
  {
    var s := states[i];
    ReachableInv(states, steps, i);
    hide Inv, Behaviour, ChoiceOk, DepsCompleted;
    forall now: Time ensures SomeNewUnfilteredClaim(s, now) {
      UnfilteredClaimExists(s, now);
    }
    ready := SomeoneReady(s, r, some);
    var t := s.tasks[ready];
    if t.status == Queued {
      forall op: Op, now: Time | NewUnfilteredClaim(s, op, now) && (t.notBefore.Some? ==> t.notBefore.value <= now)
        ensures op.pick.Some?
      {
        ReadyIsClaimed(s, ready, op, now);
      }
    }
  }

  /** The dependency graph has no cycle: along every chain of dependencies the insertion stamps decrease. */
  lemma {:induction false} NoDependencyCycle(s: State, chain: seq<TaskId>)
    requires Inv(s) && |chain| >= 2 && chain[0] in s.tasks
    requires forall i | 0 <= i < |chain| - 1 :: chain[i] in s.tasks ==> chain[i + 1] in s.tasks[chain[i]].spec.deps
    ensures chain[|chain| - 1] in s.tasks && s.tasks[chain[|chain| - 1]].row < s.tasks[chain[0]].row
    ensures chain[|chain| - 1] != chain[0]
    decreases |chain|
  {
    hide Inv;
    if |chain| == 2 {
      InvTask(s, chain[0]);
    } else {
      NoDependencyCycle(s, chain[..|chain| - 1]);
      var y := chain[|chain| - 2];
      assert chain[..|chain| - 1][|chain| - 2] == y;
      InvTask(s, y);
      assert chain[|chain| - 1] in s.tasks[y].spec.deps;
    }
  }
}
