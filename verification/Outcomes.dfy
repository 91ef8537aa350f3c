/** What the workers make of the tasks they were given: how often, and what. */
module Outcomes {
  import opened Records
  import opened StateMachine
  import opened Writes
  import opened Invariant
  import opened Preservation
  import opened Transactions
  import opened Lifecycle
  import opened Guarantees
  import opened Liveness
  import opened Effects
  import opened Sweeping
  import opened Claiming
  import opened Pruning
  import opened Worker

  // ---- The count of outcomes ----

  /** A lease is released by no step but one that writes an outcome under it. */
  lemma ReleasedByCommit(s: State, step: Step, s': State, lid: Uuid)
    requires Inv(s) && Next(s, step, s') && lid in s'.leases && s'.leases[lid].status == LeaseReleased
    ensures lid in s.leases
    ensures s.leases[lid].status == LeaseReleased || (LeaseCall(step.op) && step.op.lid == lid && Commits(s, step, lid))
  {
    hide Inv, Next, Plan;
    if Plan(s, step.op, step.now).Err? || Plan(s, step.op, step.now).value == [] {
      NothingWritten(s, step, s');
    } else if LeaseCall(step.op) {
      LeaseCallLeases(s, step, s', lid);
    } else {
      OtherLeases(s, step, s', lid);
    }
  }

  lemma NothingWritten(s: State, step: Step, s': State)
    requires Next(s, step, s') && (Plan(s, step.op, step.now).Ok? ==> Plan(s, step.op, step.now).value == [])
    ensures s' == s
  {
    hide Plan, ChoiceOk;
  }

  lemma LeaseCallLeases(s: State, step: Step, s': State, lid: Uuid)
    requires Inv(s) && Next(s, step, s') && LeaseCall(step.op)
    requires Plan(s, step.op, step.now).Ok? && Plan(s, step.op, step.now).value != []
    requires lid in s'.leases && s'.leases[lid].status == LeaseReleased
    ensures lid in s.leases
    ensures s.leases[lid].status == LeaseReleased || (step.op.lid == lid && Commits(s, step, lid))
  {
    hide Inv, Next, Plan, Stamped, Told, Appended;
    match step.op
    case Heartbeat(_, _, _, _) => HeartbeatEffect(s, step, s');
    case MarkRunning(_, _, _) => MarkEffect(s, step, s');
    case Pause(_, _, _, _) => PauseEffect(s, step, s');
    case Complete(_, _, _, _) => CompleteEffect(s, step, s');
    case Fail(_, _, _, _, _) => FailEffect(s, step, s');
    case Release(_, _, _) => ReleaseEffect(s, step, s');
  }

  lemma OtherLeases(s: State, step: Step, s': State, lid: Uuid)
    requires Inv(s) && Next(s, step, s') && !LeaseCall(step.op)
    requires Plan(s, step.op, step.now).Ok? && Plan(s, step.op, step.now).value != []
    requires lid in s'.leases && s'.leases[lid].status == LeaseReleased
    ensures lid in s.leases && s.leases[lid].status == LeaseReleased
  {
    OtherReply(s, step.op, step.now);
    if step.op.Claim? { ClaimIsNew(s, step); }
    if step.op.CancelRun? { CancelIsNew(s, step); }
    hide Inv, Next, Plan, TokenUsed;
    if step.op.Claim? {
      ClaimLeases(s, step, s', lid);
    } else if step.op.Sweep? {
      SweptLeases(s, step, s', lid);
    } else if step.op.Prune? {
      PruneRows(s, step, s');
    } else if step.op.CancelRun? {
      CancelRunEffect(s, step, s');
    } else {
      QueueLeases(s, step, s');
    }
  }

  lemma QueueLeases(s: State, step: Step, s': State)
    requires Inv(s) && Next(s, step, s') && Plan(s, step.op, step.now).Ok?
    requires step.op.CreateRun? || step.op.Enqueue? || step.op.Resume? || step.op.RequeueDead?
    ensures s'.leases == s.leases
  {
    OtherReply(s, step.op, step.now);
    hide Inv, Next, Plan, Stamped, Told;
    match step.op
    case CreateRun(_) => CreateRunEffect(s, step, s');
    case Enqueue(_, _) => EnqueueEffect(s, step, s');
    case Resume(_) => ResumeEffect(s, step, s');
    case RequeueDead(_, _, _) => RequeueEffect(s, step, s');
  }

  lemma ClaimLeases(s: State, step: Step, s': State, lid: Uuid)
    requires Inv(s) && Next(s, step, s') && step.op.Claim?
    requires step.op.clientToken.Some? ==> forall lid | lid in s.leases :: s.leases[lid].clientToken != step.op.clientToken
    requires lid in s'.leases && s'.leases[lid].status == LeaseReleased
    ensures lid in s.leases && s.leases[lid].status == LeaseReleased
  {
    hide Inv, Next, Stamped, Told;
    var s1 := ClaimWrites(s, step, s');
    SweptLeases(s, Step(Sweep(step.op.order), step.now), s1, lid);
  }

  lemma ClaimIsNew(s: State, step: Step)
    requires step.op.Claim? && Plan(s, step.op, step.now).Ok? && Plan(s, step.op, step.now).value != []
    ensures step.op.clientToken.Some? ==> forall lid | lid in s.leases :: s.leases[lid].clientToken != step.op.clientToken
  {}

  lemma CancelIsNew(s: State, step: Step)
    requires step.op.CancelRun? && Plan(s, step.op, step.now).Ok? && Plan(s, step.op, step.now).value != []
    ensures step.op.rid in s.runs && s.runs[step.op.rid].status != RunCancelled
  {}

  lemma SweptLeases(s: State, step: Step, s': State, lid: Uuid)
    requires Inv(s) && Next(s, step, s') && step.op.Sweep?
    ensures lid in s'.leases ==> lid in s.leases && (s'.leases[lid] == s.leases[lid] || s'.leases[lid].status == LeaseExpired)
  {
    hide Inv, Next, SweptTask, SweptAttempt, Lapsed;
    SweepIsExact(s, step.op.order, step.now, s');
  }

  /** What is counted as outcomes is what the lease rows say. */
  ghost predicate CountOk(sys: Sys) {
    forall lid | lid in sys.store.leases :: sys.commits[lid] == if sys.store.leases[lid].status == LeaseReleased then 1 else 0
  }

  lemma CountFrame(sys: Sys, step: Step, sys': Sys)
    requires Inv(sys.store) && Next(sys.store, step, sys'.store) && (forall lid: Uuid :: CommitsOk(sys, lid)) && CountOk(sys)
    requires sys'.commits == Counted(sys, step)
    ensures CountOk(sys')
  {
    hide Inv, Next, Counted, CommitsOk;
    NextInv(sys.store, step, sys'.store);
    forall lid | lid in sys'.store.leases ensures sys'.commits[lid] == if sys'.store.leases[lid].status == LeaseReleased then 1 else 0 {
      assert CommitsOk(sys, lid);
      CountOneMore(sys, step, sys', lid);
    }
  }

  lemma CountOneMore(sys: Sys, step: Step, sys': Sys, lid: Uuid)
    requires Inv(sys.store) && Inv(sys'.store) && Next(sys.store, step, sys'.store) && CommitsOk(sys, lid)
    requires lid in sys.store.leases ==> sys.commits[lid] == if sys.store.leases[lid].status == LeaseReleased then 1 else 0
    requires lid in sys'.store.leases && sys'.commits == Counted(sys, step)
    ensures sys'.commits[lid] == if sys'.store.leases[lid].status == LeaseReleased then 1 else 0
  {
    hide Inv, Next, Commits, Plan, Spent;
    CountOne(sys.store, step, sys'.store, lid);
  }

  lemma CountOne(s: State, step: Step, s': State, lid: Uuid)
    requires Inv(s) && Inv(s') && Next(s, step, s') && lid in s'.leases
    ensures lid !in s.leases ==> s'.leases[lid].status != LeaseReleased && !Spent(s, lid)
    ensures lid in s.leases ==> (s'.leases[lid].status == LeaseReleased <==>
              s.leases[lid].status == LeaseReleased || (LeaseCall(step.op) && step.op.lid == lid && Commits(s, step, lid)))
    ensures LeaseCall(step.op) && step.op.lid == lid && Commits(s, step, lid) ==> lid in s.leases && s.leases[lid].status == LeaseActive
  {
    hide Inv, Next, Plan;
    if s'.leases[lid].status == LeaseReleased { ReleasedByCommit(s, step, s', lid); }
    if lid in s.used { NextKept(s, step, s', lid); }
    if lid in s.leases { LeaseUsed(s, lid); }
    if LeaseCall(step.op) && step.op.lid == lid && Commits(s, step, lid) {
      WritesUnderActive(s, step, lid);
      CommitReleases(s, step, s');
    }
  }

  lemma LeaseUsed(s: State, lid: Uuid)
    requires Inv(s) && lid in s.leases
    ensures lid in s.used
  {
    hide Inv;
    InvTables(s);
    hide Core, TasksOk, AttemptsOk, CompletionsOk, Unique, LogOk;
    assert LeaseOk(s, lid);
  }

  lemma CommitReleases(s: State, step: Step, s': State)
    requires Inv(s) && Next(s, step, s') && LeaseCall(step.op) && Commits(s, step, step.op.lid)
    ensures step.op.lid in s'.leases && s'.leases[step.op.lid].status == LeaseReleased
  {
    hide Inv, Next, Plan, Stamped, Told;
    match step.op
    case Pause(_, _, _, _) => PauseEffect(s, step, s');
    case Complete(_, _, _, _) => CompleteEffect(s, step, s');
    case Fail(_, _, _, _, _) => FailEffect(s, step, s');
    case Release(_, _, _) => ReleaseEffect(s, step, s');
    case _ =>
  }

  lemma SysCount(sys: Sys, action: Action, sys': Sys)
    requires SysInv(sys) && SysNext(sys, action, sys') && CountOk(sys)
    ensures CountOk(sys')
  {
    hide Inv, Next, Plan, Commits, CountOk, CommitsOk, Spent, Calls;
    match action
    case Call(p, step) => CountFrame(sys, step, sys');
    case Other(step) => CountFrame(sys, step, sys');
    case Return(_, _) => SameCount(sys, sys');
    case Throw(_) => SameCount(sys, sys');
    case DrainTimeout(_) => SameCount(sys, sys');
    case TaskTimeout(_) => SameCount(sys, sys');
    case Crash(_) => SameCount(sys, sys');
  }

  lemma SameCount(sys: Sys, sys': Sys)
    requires CountOk(sys) && sys'.store == sys.store && sys'.commits == sys.commits
    ensures CountOk(sys')
  {}

  /** The count of outcomes is exact: 1 for a lease that a completed, failed, paused or released task gave back, 0 for
      one that is still active, ran out or was cancelled. */
  lemma {:induction false} OutcomesCounted(syss: seq<Sys>, actions: seq<Action>, i: nat, lid: Uuid)
    requires SysBehaviour(syss, actions) && i < |syss| && lid in syss[i].store.leases
    ensures syss[i].commits[lid] == if syss[i].store.leases[lid].status == LeaseReleased then 1 else 0
  {
    ReachableCount(syss, actions, i);
    hide SysBehaviour;
  }

  lemma {:induction false} ReachableCount(syss: seq<Sys>, actions: seq<Action>, i: nat)
    requires SysBehaviour(syss, actions) && i < |syss|
    ensures CountOk(syss[i])
  {
    hide SysNext, SysInv;
    if i > 0 {
      ReachableCount(syss, actions, i - 1);
      ReachableSys(syss, actions, i - 1);
      assert SysNext(syss[i - 1], actions[i - 1], syss[i]);
      hide SysBehaviour, CountOk;
      SysCount(syss[i - 1], actions[i - 1], syss[i]);
    }
  }

  // ---- What becomes of the task ----

  /** The task is let go by the call, with this status and, if it has failed, this error. */
  predicate LeftAs(s: State, s': State, tid: TaskId, status: TaskStatus, error: Option<string>) {
    && tid in s.tasks && tid in s'.tasks && !s'.tasks[tid].dead
    && s'.tasks[tid] == s.tasks[tid].(status := status, error := if error.Some? then error else s.tasks[tid].error,
                                      leaseId := None, leasedBy := None, leaseExpiresAt := None)
  }

  lemma NotDead(s: State, tid: TaskId)
    requires Inv(s) && HasLease(s, tid)
    ensures !s.tasks[tid].dead
  {
    hide Inv;
    InvTask(s, tid);
  }

  lemma EndLeaves(s: State, step: Step, s': State)
    requires Inv(s) && Next(s, step, s') && (step.op.Complete? || step.op.Fail? || step.op.Pause? || step.op.Release?)
    requires CheckLease(s, step.op.tid, step.op.lid, step.op.worker, step.now).None?
    requires (step.op.Complete? || step.op.Fail?) ==> step.op.clientToken.None?
    ensures Plan(s, step.op, step.now).Ok?
    ensures step.op.Complete? ==> LeftAs(s, s', step.op.tid, Completed, None)
    ensures step.op.Fail? ==> LeftAs(s, s', step.op.tid, Failed, Some(step.op.error))
    ensures step.op.Pause? ==> LeftAs(s, s', step.op.tid, if step.op.needsInput then WaitingInput else Blocked, None)
    ensures step.op.Release? ==> LeftAs(s, s', step.op.tid, Queued, None)
  {
    hide Inv, Next, Plan, CheckLease, Stamped, Told;
    CheckedLease(s, step.op.tid, step.op.lid, step.op.worker, step.now);
    NotDead(s, step.op.tid);
    PassReply(s, step.op, step.now);
    match step.op
    case Complete(_, _, _, _) => CompleteEffect(s, step, s');
    case Fail(_, _, _, _, _) => FailEffect(s, step, s');
    case Pause(_, _, _, _) => PauseEffect(s, step, s');
    case Release(_, _, _) => ReleaseEffect(s, step, s');
  }

  /** The call of a process that is done with its task, under a good lease: what the handler returned is what the task
      becomes, a worker that drains gives it back, and one that recovers or whose time is up fails it. */
  lemma CallLeaves(sys: Sys, p: ProcId, step: Step, sys': Sys)
    requires SysInv(sys) && SysNext(sys, Call(p, step), sys') && Busy(sys.procs[p].phase) && !sys.procs[p].phase.Marking?
    requires CheckLease(sys.store, sys.procs[p].phase.tid, sys.procs[p].phase.lid, sys.procs[p].worker, step.now).None?
    ensures var phase, s, s' := sys.procs[p].phase, sys.store, sys'.store;
            && sys'.procs == sys.procs[p := sys.procs[p].(phase := Polling)]
            && (phase.Applying? ==>
                  match phase.result
                  case ReturnCompleted => LeftAs(s, s', phase.tid, Completed, None)
                  case ReturnFailed(error) => LeftAs(s, s', phase.tid, Failed, Some(error))
                  case ReturnPaused(needsInput) => LeftAs(s, s', phase.tid, if needsInput then WaitingInput else Blocked, None)
                  case ReturnReleased => LeftAs(s, s', phase.tid, Queued, None)
                  case ReturnUnknown => false)
            && (phase.Draining? ==> LeftAs(s, s', phase.tid, Queued, None))
            && (phase.Recovering? || phase.TimingOut? ==> exists error :: LeftAs(s, s', phase.tid, Failed, Some(error)))
  {
    hide Inv, Next, Plan, CheckLease, LeftAs, Commits, CommitsOk, Spent;
    CallOfPhase(sys.procs[p], step.op);
    EndLeaves(sys.store, step, sys'.store);
  }

  /** A call of `applyResult` that is refused, because the lease is over, is followed by an attempt to fail the task. */
  lemma RefusedRecovers(sys: Sys, p: ProcId, step: Step, sys': Sys)
    requires SysNext(sys, Call(p, step), sys') && sys.procs[p].phase.Applying?
    requires CheckLease(sys.store, sys.procs[p].phase.tid, sys.procs[p].phase.lid, sys.procs[p].worker, step.now).Some?
    ensures sys'.store == sys.store
    ensures sys'.procs[p] == sys.procs[p].(phase := Recovering(sys.procs[p].phase.tid, sys.procs[p].phase.lid))
  {
    hide CheckLease, Commits;
  }

  predicate Acts(action: Action, p: ProcId) {
    !action.Other? && action.p == p
  }

  /** The process does nothing from `i` on, up to but not including `k`. */
  predicate Idle(actions: seq<Action>, i: nat, k: nat, p: ProcId) {
    i <= k <= |actions| && forall m | i <= m < k :: !Acts(actions[m], p)
  }

  lemma {:induction false} PhaseStays(syss: seq<Sys>, actions: seq<Action>, i: nat, k: nat, p: ProcId)
    requires SysBehaviour(syss, actions) && Idle(actions, i, k, p) && k < |syss| && p in syss[i].procs
    ensures p in syss[k].procs && syss[k].procs[p] == syss[i].procs[p]
    decreases k - i
  {
    hide SysNext, Acts;
    if i < k {
      assert Idle(actions, i, k - 1, p) && !Acts(actions[k - 1], p);
      assert SysNext(syss[k - 1], actions[k - 1], syss[k]);
      hide Idle;
      PhaseStays(syss, actions, i, k - 1, p);
      hide SysBehaviour;
      OthersStay(syss[k - 1], actions[k - 1], syss[k], p);
    }
  }

  lemma OthersStay(sys: Sys, action: Action, sys': Sys, p: ProcId)
    requires SysNext(sys, action, sys') && p in sys.procs && !Acts(action, p)
    ensures p in sys'.procs && sys'.procs[p] == sys.procs[p]
  {
    hide Next, Plan, Calls, Commits, Counted, Gripped;
  }

  /** How a handler ends decides what its task becomes.  It returned, threw, or overran the drain limit or its own; the
      next thing its worker does is a call, and the lease is good when it is made. */
  lemma HandlerDecides(syss: seq<Sys>, actions: seq<Action>, i: nat, k: nat, p: ProcId)
    requires SysBehaviour(syss, actions) && i < k < |actions| && p in syss[i].procs && syss[i].procs[p].phase.Handling?
    requires Acts(actions[i], p) && !actions[i].Crash? && actions[k].Call? && actions[k].p == p
    requires Idle(actions, i + 1, k, p)
    requires CheckLease(syss[k].store, syss[i].procs[p].phase.tid, syss[i].procs[p].phase.lid, syss[i].procs[p].worker, actions[k].step.now).None?
    ensures var tid, s, s' := syss[i].procs[p].phase.tid, syss[k].store, syss[k + 1].store;
            match actions[i]
            case Return(_, ReturnCompleted) => LeftAs(s, s', tid, Completed, None)
            case Return(_, ReturnFailed(error)) => LeftAs(s, s', tid, Failed, Some(error))
            case Return(_, ReturnPaused(needsInput)) => LeftAs(s, s', tid, if needsInput then WaitingInput else Blocked, None)
            case Return(_, ReturnReleased) => LeftAs(s, s', tid, Queued, None)
            case DrainTimeout(_) => LeftAs(s, s', tid, Queued, None)
            case _ => exists error :: LeftAs(s, s', tid, Failed, Some(error))
  {
    hide SysInv, Next, Plan, CheckLease, LeftAs, Commits;
    assert SysNext(syss[i], actions[i], syss[i + 1]);
    ReachableSys(syss, actions, k);
    assert SysNext(syss[k], actions[k], syss[k + 1]);
    PhaseStays(syss, actions, i + 1, k, p);
    hide SysBehaviour;
    EndedPhase(syss[i], actions[i], syss[i + 1], p);
    hide SysNext;
    CallLeaves(syss[k], p, actions[k].step, syss[k + 1]);
  }

  lemma EndedPhase(sys: Sys, action: Action, sys': Sys, p: ProcId)
    requires SysNext(sys, action, sys') && p in sys.procs && sys.procs[p].phase.Handling? && Acts(action, p) && !action.Crash?
    ensures var tid, lid := sys.procs[p].phase.tid, sys.procs[p].phase.lid;
            && !action.Call?
            && p in sys'.procs && sys'.procs[p].worker == sys.procs[p].worker
            && sys'.procs[p].phase == match action
                                      case Return(_, result) => if result.ReturnUnknown? then Recovering(tid, lid) else Applying(tid, lid, result)
                                      case DrainTimeout(_) => Draining(tid, lid)
                                      case TaskTimeout(_) => TimingOut(tid, lid)
                                      case _ => Recovering(tid, lid)
  {
    hide Next, Plan, Commits;
  }

  /** A worker that has claimed a task handles it exactly when its lease is good and nobody has marked the task
      before; then the task is running. */
  lemma MarkedThenHandled(sys: Sys, p: ProcId, step: Step, sys': Sys)
    requires SysInv(sys) && SysNext(sys, Call(p, step), sys') && sys.procs[p].phase.Marking?
    ensures var s, s', phase := sys.store, sys'.store, sys.procs[p].phase;
            var good := CheckLease(s, phase.tid, phase.lid, sys.procs[p].worker, step.now).None?
                        && phase.tid in s.tasks && s.tasks[phase.tid].status != Running;
            && p in sys'.procs && sys'.procs[p].worker == sys.procs[p].worker
            && sys'.procs[p].phase == (if good then Handling(phase.tid, phase.lid) else Polling)
            && (if good then phase.tid in s'.tasks && s'.tasks[phase.tid] == s.tasks[phase.tid].(status := Running) else s' == s)
  {
    var s, phase, worker := sys.store, sys.procs[p].phase, sys.procs[p].worker;
    hide Inv, Next, CheckLease, Commits, Spent, Stamped, Told, Plan;
    CheckReply(s, phase.tid, phase.lid, worker, step.now);
    PassReply(s, step.op, step.now);
    if Plan(s, step.op, step.now).Ok? {
      MarkEffect(s, step, sys'.store);
    } else {
      RefusedStays(s, step, sys'.store);
    }
  }

  lemma RefusedStays(s: State, step: Step, s': State)
    requires Next(s, step, s') && Plan(s, step.op, step.now).Err?
    ensures s' == s
  {
    hide Plan, ChoiceOk;
  }

  /** A poll sweeps, or claims for the worker itself and without a token; what it takes is what it marks next. */
  lemma PollTakes(sys: Sys, p: ProcId, step: Step, sys': Sys)
    requires SysInv(sys) && SysNext(sys, Call(p, step), sys') && sys.procs[p].phase.Polling?
    ensures p in sys'.procs && sys'.procs[p].worker == sys.procs[p].worker
    ensures if step.op.Claim? && step.op.pick.Some? then
              var x, s' := step.op.pick.value, sys'.store;
              && sys'.procs[p].phase == Marking(x, step.op.newLease)
              && x in s'.tasks && s'.tasks[x].status == Leased && s'.tasks[x].leaseId == Some(step.op.newLease)
              && s'.tasks[x].leasedBy == Some(sys.procs[p].worker) && s'.tasks[x].leaseExpiresAt == Some(step.now + step.op.leaseMs)
            else sys'.procs[p].phase == Polling
  {
    hide Inv, Next, Commits, Spent, Plan;
    if step.op.Claim? && step.op.pick.Some? {
      ClaimHandsOver(sys.store, step.op, step.now, sys'.store);
    }
  }
}
