/** Behaviours from the empty store in which the documented behaviour fails. */
module Witnesses {
  import opened Records
  import opened StateMachine
  import opened Writes
  import opened Invariant
  import opened Preservation
  import opened Transactions
  import opened Lifecycle
  import opened Guarantees
  import opened Liveness
  import opened Refinement
  import opened Divergences
  import opened Worker
  import opened Terminal

  // ---- One run, one task with `m` attempts, claimed once ----

  const NO_RETRY := Retry(None, false, None)

  function Options(m: int, deps: seq<TaskId>): EnqueueOptions {
    EnqueueOptions(0, None, 0, 0, Some(m), NO_RETRY, deps)
  }

  function QueuedTask(m: int): Task {
    Task(TaskSpec(0, None, 0, 0, Some(m), NO_RETRY, {}), 0, 1, Queued, 0, None, None, None, None, None, false)
  }

  function Created(): State {
    State(map[0 := Run(RunPending, 0)], map[], map[], map[], map[], [Event(1, 0, None, None, RunCreated, 0)], 1, {})
  }

  function Enqueued(m: int): State {
    Created().(runs := map[0 := Run(RunActive, 0)], tasks := map[1 := QueuedTask(m)], seqNo := 3,
               log := Created().log + [Event(2, 0, Some(1), None, TaskEnqueued(0, 0, {}), 0)]
                      + [Event(3, 0, None, None, RunStatusChanged(RunPending, RunActive), 0)])
  }

  function ClaimedOnce(m: int): State {
    Enqueued(m).(tasks := map[1 := Granted(QueuedTask(m), 1, 0, 9)], attempts := map[2 := Attempt(0, 1, 0, AttemptLeased, 9)],
                 leases := map[1 := Lease(0, 1, 2, 0, LeaseActive, 9, None)], used := {1, 2}, seqNo := 4,
                 log := Enqueued(m).log + [Event(4, 0, Some(1), Some(2), TaskClaimed(0, 1, 9), 0)])
  }

  const CREATE := Step(CreateRun(0), 0)
  const CLAIM := Step(Claim(0, 9, [], None, [], Some(1), 1, 2), 0)

  function EnqueueStep(m: int): Step {
    Step(Enqueue(1, Options(m, [])), 0)
  }

  function Prefix(m: int): seq<State> {
    [EMPTY, Created(), Enqueued(m), ClaimedOnce(m)]
  }

  function PrefixSteps(m: int): seq<Step> {
    [CREATE, EnqueueStep(m), CLAIM]
  }

  lemma CreateStep()
    ensures Next(EMPTY, CREATE, Created())
  {
    DoAllOne(EMPTY, OpenRun(0), 0);
    assert Do(EMPTY, OpenRun(0), 0) == Created();
  }

  lemma EnqueueNext(m: int)
    ensures Next(Created(), EnqueueStep(m), Enqueued(m))
  {
    var s, w := Created(), AddTask(1, SpecOf(Options(m, [])));
    assert DependencyRows(s, 0, []) == {} && Elements<TaskId>([]) == {};
    assert Enabled(s, w, 0) && Plan(s, EnqueueStep(m).op, 0) == Ok([w]);
    DoAllOne(s, w, 0);
    var raw := Raw(s, w, 0);
    assert raw.tasks == map[1 := QueuedTask(m)] && InRun(raw, 1, 0);
    assert StatusesOf(raw, 0) == {Queued};
    assert Do(s, w, 0) == Enqueued(m);
  }

  lemma ClaimNext(m: int)
    requires m > 0
    ensures Next(Enqueued(m), CLAIM, ClaimedOnce(m))
  {
    var s, w := Enqueued(m), Grant(1, 1, 2, 0, 9, None);
    assert IsSweepOrder(s, 0, []) && Expiries([]) == [];
    assert Claimable(s, 1, 0) && BestPick(s, [], 0, Some(1));
    assert Enabled(s, w, 0);
    assert Expiries([]) + [w] == [w];
    GrantGives(m);
    DoAllOne(s, w, 0);
    hide Enabled, Do, BestPick, IsSweepOrder;
  }

  lemma GrantGives(m: int)
    requires m > 0 && Enabled(Enqueued(m), Grant(1, 1, 2, 0, 9, None), 0)
    ensures Do(Enqueued(m), Grant(1, 1, 2, 0, 9, None), 0) == ClaimedOnce(m)
  {
    var raw := Raw(Enqueued(m), Grant(1, 1, 2, 0, 9, None), 0);
    hide Claimable, TokenUsed;
    assert raw.tasks == map[1 := Granted(QueuedTask(m), 1, 0, 9)] && InRun(raw, 1, 0);
    assert StatusesOf(raw, 0) == {Leased};
    assert raw.runs == map[0 := Run(RunActive, 0)];
  }

  lemma PrefixRuns(m: int)
    requires m > 0
    ensures Behaviour(Prefix(m), PrefixSteps(m))
  {
    hide Next, Created, Enqueued, ClaimedOnce;
    CreateStep();
    EnqueueNext(m);
    ClaimNext(m);
    forall i | 0 <= i < 3 ensures Next(Prefix(m)[i], PrefixSteps(m)[i], Prefix(m)[i + 1]) {
      assert i == 0 || i == 1 || i == 2;
    }
  }

  /** A behaviour goes on with any operation. */
  lemma GoOn(states: seq<State>, steps: seq<Step>, op: Op, now: Time) returns (s': State)
    requires Behaviour(states, steps) && ChoiceOk(states[|steps|], op, now)
    ensures Next(states[|steps|], Step(op, now), s')
    ensures Behaviour(states + [s'], steps + [Step(op, now)]) && |states| == |steps| + 1
  {
    hide Next, Inv, ChoiceOk;
    ReachableInv(states, steps, |steps|);
    NextExists(states[|steps|], Step(op, now));
    s' :| Next(states[|steps|], Step(op, now), s');
    var more, on := states + [s'], steps + [Step(op, now)];
    forall i | 0 <= i < |on| ensures Next(more[i], on[i], more[i + 1]) {
      if i < |steps| { assert Next(states[i], steps[i], states[i + 1]); }
    }
  }

  /** The claim above, as far as later calls look at it. */
  lemma ClaimedGood(m: int, now: Time)
    ensures var s := ClaimedOnce(m);
            && 1 in s.tasks && s.tasks[1].status == Leased && s.tasks[1].spec.runId == 0 && s.tasks[1].attemptCount == 1
            && s.tasks[1].spec.maxAttempts == Some(m) && 0 in s.runs && s.runs[0].status == RunActive
            && HasLease(s, 1) && LeaseIdOf(s, 1) == 1 && s.completions == map[]
            && (CheckLease(s, 1, 1, 0, now).None? <==> now <= 9) && (Lapsed(s, 1, now) <==> now > 9)
            && forall x | x in s.tasks :: x == 1
  {}

  // ---- The last attempt ----

  /** A task handed back in time that nobody can claim any more, although nobody failed. */
  lemma ReleasedStuck() returns (states: seq<State>, steps: seq<Step>)
    ensures Behaviour(states, steps) && |steps| == 4 && steps[3].op == Release(1, 1, 0) && Plan(states[3], steps[3].op, steps[3].now).Ok?
    ensures 1 in states[4].tasks && Stuck(states[4].tasks[1]) && forall later: Time :: !Claimable(states[4], 1, later)
  {
    PrefixRuns(1);
    ClaimedGood(1, 0);
    hide ClaimedOnce, Enqueued, Created, Behaviour, Next, CheckLease, HasLease;
    var s' := GoOn(Prefix(1), PrefixSteps(1), Release(1, 1, 0), 0);
    states, steps := Prefix(1) + [s'], PrefixSteps(1) + [Step(Release(1, 1, 0), 0)];
    ReachableInv(states, steps, 3);
    hide Inv, Plan;
    ReleasedIsReady(states[3], steps[3], s');
    forall later: Time ensures !Claimable(s', 1, later) {
      StuckUnclaimable(s', s'.tasks[1], 1, later);
    }
  }

  lemma PausedAway(s: State, step: Step, s': State)
    requires Inv(s) && Next(s, step, s') && step.op.Pause? && Plan(s, step.op, step.now).Ok?
    ensures step.op.tid in s.tasks && step.op.tid in s'.tasks
    ensures s'.tasks[step.op.tid] == Unleased(s.tasks[step.op.tid], PauseStatus(step.op.needsInput))
  {
    hide Inv, CheckLease, Next, Enabled, Do;
    NextOne(s, step, s', Settle(step.op.tid, Park(PauseStatus(step.op.needsInput))));
    SettleEffect(s, step.op.tid, Park(PauseStatus(step.op.needsInput)), step.now);
  }

  lemma ResumedRow(s: State, step: Step, s': State)
    requires Next(s, step, s') && step.op.Resume? && Plan(s, step.op, step.now).Ok?
    ensures step.op.tid in s.tasks && step.op.tid in s'.tasks && s'.tasks[step.op.tid] == s.tasks[step.op.tid].(status := Queued)
  {
    hide Next, Enabled, Do;
    NextOne(s, step, s', Revive(step.op.tid));
    ReviveRow(s, step.op.tid, step.now);
  }

  lemma ReviveRow(s: State, tid: TaskId, now: Time)
    requires Enabled(s, Revive(tid), now)
    ensures Do(s, Revive(tid), now).tasks == s.tasks[tid := s.tasks[tid].(status := Queued)]
  {
    DoRows(s, Revive(tid), now);
    hide Do;
  }

  /** The task is claimed, and paused on its only attempt to wait for human input. */
  lemma PausedTask() returns (states: seq<State>, steps: seq<Step>)
    ensures Behaviour(states, steps) && |states| == 5 && |steps| == 4 && steps[3].op == Pause(1, 1, 0, true)
    ensures Plan(states[3], steps[3].op, steps[3].now).Ok? && 1 in states[4].tasks && states[4].tasks[1].status == WaitingInput
    ensures !HasBudget(states[4].tasks[1]) && !states[4].tasks[1].dead
  {
    PrefixRuns(1);
    ClaimedGood(1, 0);
    hide ClaimedOnce, Enqueued, Created, Behaviour, Next, CheckLease, HasLease, Inv;
    var s' := GoOn(Prefix(1), PrefixSteps(1), Pause(1, 1, 0, true), 0);
    states, steps := Prefix(1) + [s'], PrefixSteps(1) + [Step(Pause(1, 1, 0, true), 0)];
    ReachableInv(states, steps, 3);
    GrantedAlive(1);
    assert Plan(states[3], steps[3].op, 0).Ok?;
    hide Plan, Prefix;
    PausedAway(states[3], steps[3], s');
  }

  lemma GrantedAlive(m: int)
    ensures 1 in ClaimedOnce(m).tasks && !ClaimedOnce(m).tasks[1].dead
  {}

  /** Resumed, it is queued and out of reach. */
  lemma ResumedStuck() returns (states: seq<State>, steps: seq<Step>)
    ensures Behaviour(states, steps) && |steps| == 5 && steps[3].op == Pause(1, 1, 0, true) && steps[4].op == Resume(1)
    ensures Plan(states[3], steps[3].op, steps[3].now).Ok? && Plan(states[4], steps[4].op, steps[4].now).Ok?
    ensures 1 in states[5].tasks && Stuck(states[5].tasks[1]) && forall later: Time :: !Claimable(states[5], 1, later)
  {
    states, steps := PausedTask();
    hide Behaviour, Next, Inv, HasLease;
    var s' := GoOn(states, steps, Resume(1), 0);
    states, steps := states + [s'], steps + [Step(Resume(1), 0)];
    ResumedRow(states[4], steps[4], s');
    forall later: Time ensures !Claimable(s', 1, later) {
      StuckUnclaimable(s', s'.tasks[1], 1, later);
    }
  }

  // ---- Dead letters ----

  lemma SweptDead(s: State, order: seq<TaskId>, now: Time, s': State, x: TaskId)
    requires ExactSweep(s, order, now, s') && x in s.tasks && Lapsed(s, x, now) && Exhausted(s.tasks[x])
    ensures x in s'.tasks && s'.tasks[x].dead && s'.tasks[x].spec == s.tasks[x].spec && s'.tasks[x].attemptCount == s.tasks[x].attemptCount
    ensures forall r | r in s.runs :: r in s'.runs && (s'.runs[r].status == RunCancelled <==> s.runs[r].status == RunCancelled)
    ensures s'.tasks.Keys == s.tasks.Keys
  {}

  /** The task is claimed, its only attempt runs out, and it is dead. */
  lemma DeadTask() returns (states: seq<State>, steps: seq<Step>)
    ensures Behaviour(states, steps) && |states| == 5 && |steps| == 4 && 1 in states[4].tasks && states[4].tasks[1].dead
    ensures states[4].tasks[1].spec.runId == 0 && states[4].tasks[1].attemptCount == 1 && states[4].tasks[1].spec.maxAttempts == Some(1)
    ensures 0 in states[4].runs && states[4].runs[0].status != RunCancelled && forall x | x in states[4].tasks :: x == 1
  {
    PrefixRuns(1);
    ClaimedGood(1, 10);
    var s := ClaimedOnce(1);
    hide ClaimedOnce, Enqueued, Created, Behaviour, Next, CheckLease, HasLease, Inv, Lapsed;
    assert IsSweepOrder(s, 10, [1]);
    hide IsSweepOrder;
    var s' := GoOn(Prefix(1), PrefixSteps(1), Sweep([1]), 10);
    states, steps := Prefix(1) + [s'], PrefixSteps(1) + [Step(Sweep([1]), 10)];
    ReachableInv(Prefix(1), PrefixSteps(1), 3);
    hide ChoiceOk, ExactSweep;
    SweepIsExact(s, [1], 10, s');
    SweptDead(s, [1], 10, s', 1);
  }

  lemma RequeuedRow(s: State, step: Step, s': State)
    requires Inv(s) && Next(s, step, s') && step.op.RequeueDead? && Plan(s, step.op, step.now).Ok?
    ensures var tid := step.op.tid;
            && tid in s.tasks && tid in s'.tasks && s'.tasks[tid] == Redriven(s.tasks[tid], step.op.reset, step.op.notBefore)
            && var r := s.tasks[tid].spec.runId;
               r in s.runs && r in s'.runs && (s'.runs[r].status == RunCancelled <==> s.runs[r].status == RunCancelled)
  {
    hide Inv, Next, Enabled, Do;
    NextOne(s, step, s', Redrive(step.op.tid, step.op.reset, step.op.notBefore));
    Requeued(s, step.op.tid, step.op.reset, step.op.notBefore, step.now, s');
  }

  /** A dead task requeued without a reset: it has left `failed` and is out of reach. */
  lemma RequeuedStuck() returns (states: seq<State>, steps: seq<Step>)
    ensures Behaviour(states, steps) && |steps| == 5 && steps[4].op == RequeueDead(1, false, None)
    ensures 1 in states[4].tasks && states[4].tasks[1].dead && 1 in states[5].tasks && Stuck(states[5].tasks[1])
    ensures forall later: Time :: !Claimable(states[5], 1, later)
  {
    states, steps := DeadTask();
    hide Behaviour, Next, Inv;
    var s' := GoOn(states, steps, RequeueDead(1, false, None), 10);
    states, steps := states + [s'], steps + [Step(RequeueDead(1, false, None), 10)];
    ReachableInv(states, steps, 4);
    RequeuedRow(states[4], steps[4], s');
    hide Plan;
    forall later: Time ensures !Claimable(s', 1, later) {
      StuckUnclaimable(s', s'.tasks[1], 1, later);
    }
  }

  /** A dead task requeued, with its attempts reset, into a run that was cancelled: it is queued there. */
  lemma RequeuedIntoCancelled() returns (states: seq<State>, steps: seq<Step>)
    ensures Behaviour(states, steps) && |steps| == 6 && steps[4].op == CancelRun(0) && steps[5].op == RequeueDead(1, true, None)
    ensures 1 in states[6].tasks && states[6].tasks[1].status == Queued && states[6].tasks[1].spec.runId == 0
    ensures 0 in states[6].runs && states[6].runs[0].status == RunCancelled && forall later: Time :: !Claimable(states[6], 1, later)
  {
    states, steps := DeadTask();
    hide Behaviour, Next, Inv;
    ReachableInv(states, steps, 4);
    DeadFailed(states[4], 1);
    var s5 := GoOn(states, steps, CancelRun(0), 10);
    states, steps := states + [s5], steps + [Step(CancelRun(0), 10)];
    CancelledTask(states[4], steps[4], s5, 0, 1);
    var s6 := GoOn(states, steps, RequeueDead(1, true, None), 10);
    states, steps := states + [s6], steps + [Step(RequeueDead(1, true, None), 10)];
    ReachableInv(states, steps, 5);
    RequeuedRow(states[5], steps[5], s6);
    hide Plan;
    forall later: Time ensures !Claimable(s6, 1, later) {
      CancelledUnclaimable(s6, 1, later);
    }
  }

  lemma OneFailed(s: State)
    requires Inv(s) && 1 in s.tasks && s.tasks[1].status == Failed && s.tasks[1].spec.runId == 0 && (forall x | x in s.tasks :: x == 1)
    requires 0 in s.runs && s.runs[0].status != RunCancelled
    ensures s.runs[0].status == RunFailed
  {
    assert Agrees(s, 0);
    hide Core;
    assert InRun(s, 1, 0);
    assert StatusesOf(s, 0) == {Failed};
  }

  /** A failed run that is active again because its dead task is requeued. */
  lemma ReopenedRun() returns (states: seq<State>, steps: seq<Step>)
    ensures Behaviour(states, steps) && |steps| == 5 && steps[4].op == RequeueDead(1, true, None)
    ensures 0 in states[4].runs && states[4].runs[0].status == RunFailed
    ensures 0 in states[5].runs && states[5].runs[0].status == RunActive
  {
    states, steps := DeadTask();
    hide Behaviour, Next, Inv;
    ReachableInv(states, steps, 4);
    DeadFailed(states[4], 1);
    OneFailed(states[4]);
    var s' := GoOn(states, steps, RequeueDead(1, true, None), 10);
    states, steps := states + [s'], steps + [Step(RequeueDead(1, true, None), 10)];
    RequeueTerminal(states[4], steps[4], s', 0);
  }

  // ---- Cancelling ----

  lemma CancelledTask(s: State, step: Step, s': State, rid: RunId, x: TaskId)
    requires Next(s, step, s') && step.op == CancelRun(rid) && rid in s.runs && s.runs[rid].status != RunCancelled
    requires x in s.tasks && s.tasks[x].spec.runId == rid
    ensures rid in s'.runs && s'.runs[rid].status == RunCancelled && x in s'.tasks && s'.tasks[x] == CancelTask(s.tasks[x])
    ensures s'.completions == s.completions
  {
    hide Next, Enabled, Do;
    NextOne(s, step, s', CancelAll(rid));
    CancelEffect(s, rid, step.now);
    DoRows(s, CancelAll(rid), step.now);
    CancelKeepsTokens(s, rid, step.now);
  }

  lemma CancelKeepsTokens(s: State, rid: RunId, now: Time)
    requires Enabled(s, CancelAll(rid), now)
    ensures Raw(s, CancelAll(rid), now).completions == s.completions
  {}

  /** The task is claimed and completed, and with it the run. */
  lemma CompletedRun() returns (states: seq<State>, steps: seq<Step>)
    ensures Behaviour(states, steps) && |states| == 5 && |steps| == 4
    ensures 0 in states[4].runs && states[4].runs[0].status == RunCompleted
    ensures 1 in states[4].tasks && states[4].tasks[1].status == Completed && states[4].tasks[1].spec.runId == 0
  {
    PrefixRuns(1);
    ClaimedGood(1, 0);
    hide ClaimedOnce, Enqueued, Created, Behaviour, Next, CheckLease, HasLease, Inv;
    var op := Complete(1, 1, 0, None);
    var s' := GoOn(Prefix(1), PrefixSteps(1), op, 0);
    states, steps := Prefix(1) + [s'], PrefixSteps(1) + [Step(op, 0)];
    ReachableInv(states, steps, 3);
    ReachableInv(states, steps, 4);
    assert Plan(ClaimedOnce(1), op, 0).Ok?;
    hide Plan, ChoiceOk;
    CompletedRow(ClaimedOnce(1), Step(op, 0), s');
    OneCompleted(s');
  }

  /** A run that is completed, and then cancelled. */
  lemma CompletedThenCancelled() returns (states: seq<State>, steps: seq<Step>)
    ensures Behaviour(states, steps) && |steps| == 5 && steps[4].op == CancelRun(0)
    ensures 0 in states[4].runs && states[4].runs[0].status == RunCompleted
    ensures 0 in states[5].runs && states[5].runs[0].status == RunCancelled
    ensures 1 in states[5].tasks && states[5].tasks[1].status == Completed
  {
    states, steps := CompletedRun();
    hide Behaviour, Next, Inv;
    var s' := GoOn(states, steps, CancelRun(0), 0);
    states, steps := states + [s'], steps + [Step(CancelRun(0), 0)];
    CancelledTask(states[4], steps[4], s', 0, 1);
  }

  lemma CompletedRow(s: State, step: Step, s': State)
    requires Inv(s) && Next(s, step, s') && step.op.Complete? && step.op.clientToken.None? && Plan(s, step.op, step.now).Ok?
    requires step.op.tid in s.tasks && s.tasks[step.op.tid].spec.runId in s.runs && s.runs[s.tasks[step.op.tid].spec.runId].status != RunCancelled
    ensures s'.tasks == s.tasks[step.op.tid := Unleased(s.tasks[step.op.tid], Completed)]
    ensures s'.runs.Keys == s.runs.Keys
    ensures s'.runs[s.tasks[step.op.tid].spec.runId].status != RunCancelled
  {
    hide Inv, CheckLease, Next, Enabled, Do;
    NextOne(s, step, s', Settle(step.op.tid, Finish));
    SettleEffect(s, step.op.tid, Finish, step.now);
    SettleCancelled(s, step.op.tid, Finish, step.now);
  }

  lemma OneCompleted(s: State)
    requires Inv(s) && 1 in s.tasks && s.tasks[1].status == Completed && s.tasks[1].spec.runId == 0 && (forall x | x in s.tasks :: x == 1)
    requires 0 in s.runs && s.runs[0].status != RunCancelled
    ensures s.runs[0].status == RunCompleted
  {
    assert Agrees(s, 0);
    hide Core;
    assert InRun(s, 1, 0);
    assert StatusesOf(s, 0) == {Completed};
  }

  /** The holder of a task in a run that is cancelled completes it and gets a lease conflict. */
  lemma CancelledHolder(now: Time) returns (states: seq<State>, steps: seq<Step>)
    ensures Behaviour(states, steps) && |steps| == 4 && steps[3].op == CancelRun(0)
    ensures HasLease(states[3], 1) && LeaseIdOf(states[3], 1) == 1 && CheckLease(states[3], 1, 1, 0, steps[3].now).None?
    ensures Plan(states[4], Complete(1, 1, 0, None), now) == Err(LeaseConflict)
  {
    PrefixRuns(1);
    ClaimedGood(1, 0);
    hide ClaimedOnce, Enqueued, Created, Behaviour, Next, CheckLease, HasLease, Inv;
    var s' := GoOn(Prefix(1), PrefixSteps(1), CancelRun(0), 0);
    states, steps := Prefix(1) + [s'], PrefixSteps(1) + [Step(CancelRun(0), 0)];
    CancelledHolderGetsConflict(states, steps, 3, 0, 0, s', 1, Complete(1, 1, 0, None), now);
  }

  // ---- The two stores ----

  /** A second task that names the first one twice: the memory store takes it, SQL refuses it. */
  lemma EnqueueDiffers() returns (states: seq<State>, steps: seq<Step>, tid: TaskId, o: EnqueueOptions)
    ensures Behaviour(states, steps) && tid !in states[|steps|].tasks
    ensures PlanEnqueueEach(states[|steps|], tid, o).Ok? && PlanEnqueue(states[|steps|], tid, o) == Err(ForeignDependency)
  {
    CreateStep();
    EnqueueNext(1);
    states, steps, tid, o := [EMPTY, Created(), Enqueued(1)], [CREATE, EnqueueStep(1)], 2, Options(1, [1, 1]);
    hide Next, Inv;
    forall i | 0 <= i < 2 ensures Next(states[i], steps[i], states[i + 1]) {
      assert i == 0 || i == 1;
    }
    var s := Enqueued(1);
    assert InRun(s, 1, 0) && PlanEnqueueEach(s, tid, o).Ok?;
    assert o.deps[0] == o.deps[1];
    EnqueueAgreement(s, tid, o);
  }

  // ---- A handler that overruns its time limit ----

  lemma BegunStillGood(s: State, step: Step, s': State)
    requires Inv(s) && Next(s, step, s') && step.op.MarkRunning? && Plan(s, step.op, step.now).Ok?
    ensures var op := step.op;
            && op.tid in s.tasks && op.tid in s'.tasks && s'.tasks[op.tid] == s.tasks[op.tid].(status := Running)
            && CheckLease(s', op.tid, op.lid, op.worker, step.now).None?
  {
    hide Inv, CheckLease, Next, Enabled, Do;
    var op := step.op;
    assert CheckLease(s, op.tid, op.lid, op.worker, step.now).None?;
    NextOne(s, step, s', Begin(op.tid));
    CheckedLease(s, op.tid, op.lid, op.worker, step.now);
    BegunCheck(s, op.tid, op.lid, op.worker, step.now);
  }

  lemma BegunCheck(s: State, tid: TaskId, lid: Uuid, worker: WorkerId, now: Time)
    requires Enabled(s, Begin(tid), now) && CheckLease(s, tid, lid, worker, now).None? && LeaseIdOf(s, tid) == lid
    ensures var s' := Do(s, Begin(tid), now);
            && tid in s'.tasks && s'.tasks[tid] == s.tasks[tid].(status := Running)
            && CheckLease(s', tid, lid, worker, now).None?
  {
    DoRows(s, Begin(tid), now);
    hide Do;
  }

  function Alone(s: State, phase: Phase): Sys {
    Sys(s, map[0 := Proc(0, phase)], if phase.Polling? then map[] else map[1 := Grip(0, 1, 0)], multiset{})
  }

  const MARK := Step(MarkRunning(1, 1, 0), 0)
  const FAIL := Step(Fail(1, 1, 0, "timeout", None), 0)

  /** The stages of the worker's round up to the timeout, with `s` the store after `markTaskRunning`. */
  function Round(m: int, s: State): seq<Sys> {
    [Alone(EMPTY, Polling), Alone(Created(), Polling), Alone(Enqueued(m), Polling), Alone(ClaimedOnce(m), Marking(1, 1)),
     Alone(s, Handling(1, 1)), Alone(s, TimingOut(1, 1))]
  }

  function RoundActions(m: int): seq<Action> {
    [Other(CREATE), Other(EnqueueStep(m)), Call(0, CLAIM), Call(0, MARK), TaskTimeout(0)]
  }

  lemma OtherStep(s: State, step: Step, s': State)
    requires Next(s, step, s') && (step.op.CreateRun? || step.op.Enqueue?)
    ensures SysNext(Alone(s, Polling), Other(step), Alone(s', Polling))
  {
    hide Next, Commits;
  }

  lemma ClaimCall(s: State, s': State)
    requires Next(s, CLAIM, s')
    ensures SysNext(Alone(s, Polling), Call(0, CLAIM), Alone(s', Marking(1, 1)))
  {
    hide Next, Plan, Commits;
  }

  lemma MarkCall(s: State, s': State)
    requires Next(s, MARK, s') && Plan(s, MARK.op, MARK.now).Ok?
    ensures SysNext(Alone(s, Marking(1, 1)), Call(0, MARK), Alone(s', Handling(1, 1)))
  {
    hide Next, Plan;
  }

  lemma TimeoutStep(s: State)
    ensures SysNext(Alone(s, Handling(1, 1)), TaskTimeout(0), Alone(s, TimingOut(1, 1)))
  {}

  lemma RoundRuns(m: int, s: State)
    requires m > 0 && Next(ClaimedOnce(m), MARK, s) && Plan(ClaimedOnce(m), MARK.op, MARK.now).Ok?
    ensures SysBehaviour(Round(m, s), RoundActions(m))
  {
    hide Next, Plan, Created, Enqueued, ClaimedOnce, SysNext, Alone;
    CreateStep();
    EnqueueNext(m);
    ClaimNext(m);
    OtherStep(EMPTY, CREATE, Created());
    OtherStep(Created(), EnqueueStep(m), Enqueued(m));
    ClaimCall(Enqueued(m), ClaimedOnce(m));
    MarkCall(ClaimedOnce(m), s);
    TimeoutStep(s);
    AloneStart();
    forall i | 0 <= i < 5 ensures SysNext(Round(m, s)[i], RoundActions(m)[i], Round(m, s)[i + 1]) {
      assert i == 0 || i == 1 || i == 2 || i == 3 || i == 4;
    }
  }

  lemma AloneStart()
    ensures SysInit(Alone(EMPTY, Polling))
  {}

  lemma SysGoesOn(syss: seq<Sys>, actions: seq<Action>, action: Action, sys: Sys)
    requires SysBehaviour(syss, actions) && SysNext(syss[|actions|], action, sys)
    ensures SysBehaviour(syss + [sys], actions + [action])
  {
    hide SysNext;
    var more, on := syss + [sys], actions + [action];
    forall i | 0 <= i < |on| ensures SysNext(more[i], on[i], more[i + 1]) {
      if i < |actions| { assert SysNext(syss[i], actions[i], syss[i + 1]); }
    }
  }

  lemma FailSteps(s: State, s': State)
    requires Next(s, FAIL, s')
    ensures var sys := Alone(s, TimingOut(1, 1));
            SysNext(sys, Call(0, FAIL), MoveTo(sys, 0, Polling).(store := s', commits := Counted(sys, FAIL)))
  {
    hide Next, Plan, Commits;
  }

  lemma MarkedStore() returns (s: State, s': State)
    ensures Next(ClaimedOnce(2), MARK, s) && Plan(ClaimedOnce(2), MARK.op, MARK.now).Ok? && Next(s, FAIL, s')
    ensures 1 in s.tasks && HasBudget(s.tasks[1]) && s.tasks[1].status == Running && CheckLease(s, 1, 1, 0, FAIL.now).None?
  {
    PrefixRuns(2);
    ClaimedGood(2, 0);
    hide Created, Enqueued, ClaimedOnce, Behaviour, Next, CheckLease, HasLease, Inv;
    s := GoOn(Prefix(2), PrefixSteps(2), MARK.op, 0);
    ReachableInv(Prefix(2), PrefixSteps(2), 3);
    assert Plan(ClaimedOnce(2), MARK.op, 0).Ok?;
    hide Plan;
    BegunStillGood(ClaimedOnce(2), MARK, s);
    s' := GoOn(Prefix(2) + [s], PrefixSteps(2) + [MARK], FAIL.op, 0);
  }

  /** A task with an attempt left whose handler overran its limit: it has failed for good and is not tried again. */
  lemma TimedOutForGood() returns (syss: seq<Sys>, actions: seq<Action>)
    ensures SysBehaviour(syss, actions) && |syss| == 7 && |actions| == 6
    ensures actions[4] == TaskTimeout(0) && actions[5] == Call(0, FAIL)
    ensures 1 in syss[5].store.tasks && HasBudget(syss[5].store.tasks[1])
    ensures 1 in syss[6].store.tasks && syss[6].store.tasks[1].status == Failed && Final(syss[6].store.tasks[1])
  {
    hide Created, Enqueued, ClaimedOnce, Next, CheckLease, SysBehaviour, SysNext, Commits, Plan, Final;
    var s, s' := MarkedStore();
    RoundRuns(2, s);
    FailSteps(s, s');
    var sys := Alone(s, TimingOut(1, 1));
    var last := MoveTo(sys, 0, Polling).(store := s', commits := Counted(sys, FAIL));
    SysGoesOn(Round(2, s), RoundActions(2), Call(0, FAIL), last);
    syss, actions := Round(2, s) + [last], RoundActions(2) + [Call(0, FAIL)];
    TimeoutIsTerminal(syss, actions, 5, 0);
  }

  // ---- A worker that is preempted ----

  lemma OtherMarks(s: State, s': State)
    requires Next(s, MARK, s')
    ensures SysNext(Alone(s, Marking(1, 1)), Other(MARK), Alone(s', Marking(1, 1)))
  {
    hide Next;
    assert !Commits(s, MARK, 1);
  }

  lemma MarkThrows(s: State)
    requires Next(s, MARK, s) && Plan(s, MARK.op, MARK.now).Err?
    ensures SysNext(Alone(s, Marking(1, 1)), Call(0, MARK), MoveTo(Alone(s, Marking(1, 1)), 0, Polling))
  {
    hide Next;
    assert !Commits(s, MARK, 1);
    hide Plan;
  }

  lemma MarkedTwice(s: State)
    requires CheckLease(s, 1, 1, 0, MARK.now).None? && 1 in s.tasks && s.tasks[1].status == Running
    ensures Next(s, MARK, s) && Plan(s, MARK.op, MARK.now).Err?
  {
    hide CheckLease;
  }

  lemma PreemptedRound(s: State)
    requires Next(ClaimedOnce(2), MARK, s)
    ensures SysBehaviour(Round(2, s)[..4] + [Alone(s, Marking(1, 1))], RoundActions(2)[..3] + [Other(MARK)])
  {
    hide Next, Plan, Created, Enqueued, ClaimedOnce, SysNext, Alone;
    CreateStep();
    EnqueueNext(2);
    ClaimNext(2);
    OtherStep(EMPTY, CREATE, Created());
    OtherStep(Created(), EnqueueStep(2), Enqueued(2));
    ClaimCall(Enqueued(2), ClaimedOnce(2));
    OtherMarks(ClaimedOnce(2), s);
    AloneStart();
    var syss, actions := Round(2, s)[..4] + [Alone(s, Marking(1, 1))], RoundActions(2)[..3] + [Other(MARK)];
    forall i | 0 <= i < 4 ensures SysNext(syss[i], actions[i], syss[i + 1]) {
      assert i == 0 || i == 1 || i == 2 || i == 3;
    }
  }

  /** Somebody who was shown the lease marks the task running before its worker does.  The worker goes back to
      polling, and its lease is neither spent nor lapsed. */
  lemma PreemptedWorker() returns (syss: seq<Sys>, actions: seq<Action>)
    ensures SysBehaviour(syss, actions) && |syss| == 6 && |actions| == 5 && actions[3] == Other(MARK) && actions[4] == Call(0, MARK)
    ensures 0 in syss[4].procs && syss[4].procs[0].phase == Marking(1, 1) && Preempted(syss[4].store, syss[4].procs[0], MARK.now)
    ensures 0 in syss[5].procs && syss[5].procs[0].phase == Polling
    ensures !Spent(syss[5].store, 1) && !Lapsed(syss[5].store, 1, MARK.now)
  {
    hide Created, Enqueued, ClaimedOnce, Next, CheckLease, SysBehaviour, SysNext, Plan, Spent, Lapsed;
    var s, s' := MarkedStore();
    PreemptedRound(s);
    MarkedTwice(s);
    MarkThrows(s);
    var last := MoveTo(Alone(s, Marking(1, 1)), 0, Polling);
    syss, actions := Round(2, s)[..4] + [Alone(s, Marking(1, 1))], RoundActions(2)[..3] + [Other(MARK)];
    SysGoesOn(syss, actions, Call(0, MARK), last);
    syss, actions := syss + [last], actions + [Call(0, MARK)];
    ClaimResolved(syss, actions, 4, 0);
  }
}
