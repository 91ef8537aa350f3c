/** Workers run against the store: any number of processes, each going round the loop of `runWorker` and
    `runOneTask`, interleaved with each other, with crashes, and with every other caller of the store. */
module Worker {
  import opened Records
  import opened StateMachine
  import opened Writes
  import opened Invariant
  import opened Preservation
  import opened Transactions
  import opened Lifecycle
  import opened Guarantees
  import opened Liveness

  type ProcId = nat

  /** What a handler may return.  An unknown status makes `applyResult` throw. */
  datatype HandlerResult = ReturnCompleted | ReturnFailed(error: string) | ReturnPaused(needsInput: bool) | ReturnReleased | ReturnUnknown

  /** Where a process is in the loop. */
  datatype Phase =
    | Polling
    | Marking(tid: TaskId, lid: Uuid)
    | Handling(tid: TaskId, lid: Uuid)
    | Applying(tid: TaskId, lid: Uuid, result: HandlerResult)
    | Recovering(tid: TaskId, lid: Uuid)
    | Draining(tid: TaskId, lid: Uuid)
    | TimingOut(tid: TaskId, lid: Uuid)

  datatype Proc = Proc(worker: WorkerId, phase: Phase)

  /** A lease handed to a process by a claim. */
  datatype Grip = Grip(proc: ProcId, tid: TaskId, worker: WorkerId)

  /** `commits` counts the outcomes that anybody has written, by lease. */
  datatype Sys = Sys(store: State, procs: map<ProcId, Proc>, grips: map<Uuid, Grip>, commits: multiset<Uuid>)

  /** `Other` is a call by anybody else: heartbeat timers, sweepers, clients of the store, observers and handlers,
      running or abandoned, which hold the lease of their worker and may write under it themselves. */
  datatype Action =
    | Call(p: ProcId, step: Step)
    | Return(p: ProcId, result: HandlerResult)
    | Throw(p: ProcId)
    | DrainTimeout(p: ProcId)
    | TaskTimeout(p: ProcId)
    | Crash(p: ProcId)
    | Other(step: Step)

  predicate Busy(phase: Phase) {
    !phase.Polling?
  }

  /** The call of `applyResult`; an unknown status makes none. */
  function ApplyCall(tid: TaskId, lid: Uuid, worker: WorkerId, result: HandlerResult): Option<Op> {
    match result
    case ReturnCompleted => Some(Complete(tid, lid, worker, None))
    case ReturnFailed(error) => Some(Fail(tid, lid, worker, error, None))
    case ReturnPaused(needsInput) => Some(Pause(tid, lid, worker, needsInput))
    case ReturnReleased => Some(Release(tid, lid, worker))
    case ReturnUnknown => None
  }

  predicate IsFail(op: Op, tid: TaskId, lid: Uuid, worker: WorkerId) {
    op.Fail? && op.tid == tid && op.lid == lid && op.worker == worker && op.clientToken.None?
  }

  /** The store calls a process makes in each phase. */
  predicate Calls(proc: Proc, op: Op) {
    match proc.phase
    case Polling => op.Sweep? || (op.Claim? && op.worker == proc.worker && op.clientToken.None?)
    case Marking(tid, lid) => op == MarkRunning(tid, lid, proc.worker)
    case Handling(_, _) => false
    case Applying(tid, lid, result) => ApplyCall(tid, lid, proc.worker, result) == Some(op)
    case Recovering(tid, lid) => IsFail(op, tid, lid, proc.worker)
    case Draining(tid, lid) => op == Release(tid, lid, proc.worker)
    case TimingOut(tid, lid) => IsFail(op, tid, lid, proc.worker)
  }

  /** Where the process goes after the call; `ok` says that it did not throw. */
  function After(phase: Phase, op: Op, ok: bool): Phase {
    match phase
    case Polling => if op.Claim? && op.pick.Some? then Marking(op.pick.value, op.newLease) else Polling
    case Marking(tid, lid) => if ok then Handling(tid, lid) else Polling
    case Handling(_, _) => phase
    case Applying(tid, lid, _) => if ok then Polling else Recovering(tid, lid)
    case Recovering(_, _) => Polling
    case Draining(_, _) => Polling
    case TimingOut(_, _) => Polling
  }

  predicate LeaseCall(op: Op) {
    op.Heartbeat? || op.MarkRunning? || op.Pause? || op.Complete? || op.Fail? || op.Release?
  }

  function MoveTo(sys: Sys, p: ProcId, phase: Phase): Sys
    requires p in sys.procs
  {
    sys.(procs := sys.procs[p := sys.procs[p].(phase := phase)])
  }

  function Gripped(sys: Sys, p: ProcId, op: Op): map<Uuid, Grip>
    requires p in sys.procs
  {
    if op.Claim? && op.pick.Some? then sys.grips[op.newLease := Grip(p, op.pick.value, sys.procs[p].worker)] else sys.grips
  }

  function Counted(sys: Sys, step: Step): multiset<Uuid> {
    if LeaseCall(step.op) && Commits(sys.store, step, step.op.lid) then sys.commits + multiset{step.op.lid} else sys.commits
  }

  predicate SysNext(sys: Sys, action: Action, sys': Sys) {
    match action
    case Call(p, step) =>
      && p in sys.procs && Calls(sys.procs[p], step.op)
      && Next(sys.store, step, sys'.store)
      && sys'.procs == MoveTo(sys, p, After(sys.procs[p].phase, step.op, Plan(sys.store, step.op, step.now).Ok?)).procs
      && sys'.grips == Gripped(sys, p, step.op)
      && sys'.commits == Counted(sys, step)
    case Return(p, result) =>
      && p in sys.procs && sys.procs[p].phase.Handling?
      && sys' == MoveTo(sys, p, if result.ReturnUnknown? then Recovering(sys.procs[p].phase.tid, sys.procs[p].phase.lid)
                                else Applying(sys.procs[p].phase.tid, sys.procs[p].phase.lid, result))
    case Throw(p) =>
      p in sys.procs && sys.procs[p].phase.Handling?
      && sys' == MoveTo(sys, p, Recovering(sys.procs[p].phase.tid, sys.procs[p].phase.lid))
    case DrainTimeout(p) =>
      p in sys.procs && sys.procs[p].phase.Handling?
      && sys' == MoveTo(sys, p, Draining(sys.procs[p].phase.tid, sys.procs[p].phase.lid))
    case TaskTimeout(p) =>
      p in sys.procs && sys.procs[p].phase.Handling?
      && sys' == MoveTo(sys, p, TimingOut(sys.procs[p].phase.tid, sys.procs[p].phase.lid))
    case Crash(p) => p in sys.procs && sys' == MoveTo(sys, p, Polling)
    case Other(step) =>
      && Next(sys.store, step, sys'.store)
      && sys' == sys.(store := sys'.store, commits := Counted(sys, step))
  }

  predicate SysInit(sys: Sys) {
    sys.store == EMPTY && sys.grips == map[] && sys.commits == multiset{} && forall p | p in sys.procs :: sys.procs[p].phase.Polling?
  }

  predicate SysBehaviour(syss: seq<Sys>, actions: seq<Action>) {
    && |syss| == |actions| + 1 && SysInit(syss[0])
    && forall i | 0 <= i < |actions| :: SysNext(syss[i], actions[i], syss[i + 1])
  }

  // ---- What any step of the store does to a lease ----

  predicate Active(s: State, lid: Uuid) {
    lid in s.leases && s.leases[lid].status == LeaseActive
  }

  /** The status of the task the lease is for. */
  function StatusUnder(s: State, lid: Uuid): Option<TaskStatus> {
    if Active(s, lid) && s.leases[lid].taskId in s.tasks then Some(s.tasks[s.leases[lid].taskId].status) else None
  }

  predicate LeaseKept(s: State, s': State, lid: Uuid) {
    lid in s.used && lid in s'.used && (lid in s'.leases ==> lid in s.leases && LeaseOnward(s.leases[lid], s'.leases[lid]))
  }

  lemma DoLeaseKept(s: State, w: Write, now: Time, lid: Uuid)
    requires Inv(s) && Enabled(s, w, now) && lid in s.used
    ensures LeaseKept(s, Do(s, w, now), lid)
  {
    hide Do, Inv, Enabled, Raw, LeaseOnward, AttemptOnward;
    DoRows(s, w, now);
    RawUsed(s, w, now, lid);
    RawHoldOnward(s, w, now, lid);
  }

  /** While the lease stays active, only `Begin` changes the status of its task. */
  lemma DoStatusKept(s: State, w: Write, now: Time, lid: Uuid)
    requires Inv(s) && Enabled(s, w, now) && lid in s.used && Active(Do(s, w, now), lid)
    requires lid in s.leases && w != Begin(s.leases[lid].taskId)
    ensures StatusUnder(Do(s, w, now), lid) == StatusUnder(s, lid)
  {
    DoLeaseKept(s, w, now, lid);
    var x := s.leases[lid].taskId;
    ActiveTask(s, lid);
    hide Inv;
    DoRows(s, w, now);
    hide Do;
    RawStatusKept(s, w, now, lid, x);
  }

  lemma ActiveTask(s: State, lid: Uuid)
    requires Inv(s) && Active(s, lid)
    ensures var x := s.leases[lid].taskId;
            HasLease(s, x) && LeaseIdOf(s, x) == lid && s.tasks[x].spec.runId == s.leases[lid].runId && !s.tasks[x].dead
            && s.tasks[x].leasedBy == Some(s.leases[lid].worker)
  {
    hide Inv;
    InvTables(s);
    hide Core, AttemptsOk, CompletionsOk, Unique, LogOk;
    assert LeaseOk(s, lid);
    assert TaskOk(s, s.leases[lid].taskId);
  }

  lemma RawStatusKept(s: State, w: Write, now: Time, lid: Uuid, x: TaskId)
    requires HasLease(s, x) && LeaseIdOf(s, x) == lid && s.leases[lid].taskId == x
    requires s.tasks[x].spec.runId == s.leases[lid].runId && !s.tasks[x].dead
    requires Enabled(s, w, now) && w != Begin(x)
    ensures Active(Raw(s, w, now), lid) ==> x in Raw(s, w, now).tasks && Raw(s, w, now).tasks[x].status == s.tasks[x].status
  {
    hide Lapsed, SettledPayload, DepsCompleted, TokenUsed, KeyTaken;
  }

  predicate StatusKept(s: State, s': State, lid: Uuid) {
    Active(s', lid) ==> Active(s, lid) && StatusUnder(s', lid) == StatusUnder(s, lid)
  }

  lemma KeptTrans(a: State, b: State, c: State, lid: Uuid)
    requires LeaseKept(a, b, lid) && LeaseKept(b, c, lid)
    ensures LeaseKept(a, c, lid)
    ensures StatusKept(a, b, lid) && StatusKept(b, c, lid) ==> StatusKept(a, c, lid)
    ensures lid in b.leases ==> lid in a.leases && b.leases[lid].taskId == a.leases[lid].taskId
  {}

  lemma DoKept(s: State, w: Write, now: Time, lid: Uuid)
    requires Inv(s) && Enabled(s, w, now) && lid in s.used
    ensures LeaseKept(s, Do(s, w, now), lid)
    ensures lid in s.leases && w != Begin(s.leases[lid].taskId) ==> StatusKept(s, Do(s, w, now), lid)
  {
    hide Inv, Enabled, Do, StatusUnder;
    DoLeaseKept(s, w, now, lid);
    if lid in s.leases && Active(Do(s, w, now), lid) && w != Begin(s.leases[lid].taskId) {
      DoStatusKept(s, w, now, lid);
    }
  }

  lemma {:induction false} DoAllKept(s: State, ws: seq<Write>, now: Time, lid: Uuid)
    requires Inv(s) && EnabledAll(s, ws, now) && lid in s.used
    ensures LeaseKept(s, DoAll(s, ws, now), lid)
    ensures lid in s.leases && (forall i | 0 <= i < |ws| :: ws[i] != Begin(s.leases[lid].taskId)) ==>
              StatusKept(s, DoAll(s, ws, now), lid)
    decreases |ws|
  {
    hide Inv, Enabled, Do, StatusUnder;
    if |ws| == 0 {
      assert lid in s.leases ==> LeaseOnward(s.leases[lid], s.leases[lid]);
    } else {
      var s1, s2 := Do(s, ws[0], now), DoAll(s, ws, now);
      DoInv(s, ws[0], now);
      DoKept(s, ws[0], now, lid);
      DoAllKept(s1, ws[1..], now, lid);
      KeptTrans(s, s1, s2, lid);
      hide LeaseKept;
      if lid !in s1.leases {
        GoneStaysGone(s1, s2, lid);
      }
    }
  }

  lemma GoneStaysGone(s: State, s': State, lid: Uuid)
    requires LeaseKept(s, s', lid) && lid !in s.leases
    ensures !Active(s', lid)
  {}

  lemma PlanBegins(s: State, op: Op, now: Time, x: TaskId, i: nat)
    requires Plan(s, op, now).Ok? && i < |Plan(s, op, now).value| && Plan(s, op, now).value[i] == Begin(x)
    ensures op.MarkRunning? && op.tid == x && x in s.tasks && s.tasks[x].leaseId == Some(op.lid)
  {
    hide TokenUsed, TerminalRun, KeyTaken, DependencyRows;
  }

  lemma PlanBeginsNot(s: State, op: Op, now: Time, lid: Uuid)
    requires Inv(s) && Plan(s, op, now).Ok? && Active(s, lid) && !(op.MarkRunning? && op.lid == lid)
    ensures forall i | 0 <= i < |Plan(s, op, now).value| :: Plan(s, op, now).value[i] != Begin(s.leases[lid].taskId)
  {
    hide Inv, Plan;
    ActiveTask(s, lid);
    var ws := Plan(s, op, now).value;
    forall i | 0 <= i < |ws| ensures ws[i] != Begin(s.leases[lid].taskId) {
      if ws[i] == Begin(s.leases[lid].taskId) {
        PlanBegins(s, op, now, s.leases[lid].taskId, i);
      }
    }
  }

  /** One step of the store: a lease id keeps its task and worker and never becomes active again, and while it
      is active the status of its task changes only if the step marks it running under this very lease. */
  lemma NextKept(s: State, step: Step, s': State, lid: Uuid)
    requires Inv(s) && Next(s, step, s') && lid in s.used
    ensures LeaseKept(s, s', lid)
    ensures Active(s', lid) ==> Active(s, lid)
    ensures !(step.op.MarkRunning? && step.op.lid == lid) ==> StatusKept(s, s', lid)
  {
    hide Inv, Enabled, Do, StatusUnder, ChoiceOk, Plan;
    if Plan(s, step.op, step.now).Ok? {
      DoAllKept(s, Plan(s, step.op, step.now).value, step.now, lid);
      if Active(s, lid) && !(step.op.MarkRunning? && step.op.lid == lid) {
        PlanBeginsNot(s, step.op, step.now, lid);
      }
    }
  }

  // ---- What holds of the whole system ----

  /** The grip of a process on a lease is what the store's lease row says, as long as it is there. */
  predicate GripOk(sys: Sys, lid: Uuid)
    requires lid in sys.grips
  {
    && lid in sys.store.used
    && (lid in sys.store.leases ==>
          sys.store.leases[lid].taskId == sys.grips[lid].tid && sys.store.leases[lid].worker == sys.grips[lid].worker)
  }

  predicate CommitsOk(sys: Sys, lid: Uuid) {
    sys.commits[lid] > 0 ==> sys.commits[lid] == 1 && Spent(sys.store, lid)
  }

  /** A process past its claim has a lease of its own; and if the lease is still active, its task is running once
      `markTaskRunning` has gone through. */
  predicate ProcOk(sys: Sys, p: ProcId)
    requires p in sys.procs
  {
    var proc := sys.procs[p];
    Busy(proc.phase) ==>
      && proc.phase.lid in sys.grips && sys.grips[proc.phase.lid] == Grip(p, proc.phase.tid, proc.worker)
      && (!proc.phase.Marking? && Active(sys.store, proc.phase.lid) ==> StatusUnder(sys.store, proc.phase.lid) == Some(Running))
  }

  ghost predicate SysInv(sys: Sys) {
    && Inv(sys.store)
    && (forall lid | lid in sys.grips :: GripOk(sys, lid))
    && (forall lid: Uuid :: CommitsOk(sys, lid))
    && (forall p | p in sys.procs :: ProcOk(sys, p))
  }

  // ---- Every step keeps it ----

  lemma GripFrame(sys: Sys, step: Step, sys': Sys, lid: Uuid)
    requires Inv(sys.store) && Next(sys.store, step, sys'.store)
    requires lid in sys.grips && GripOk(sys, lid) && lid in sys'.grips && sys'.grips[lid] == sys.grips[lid]
    ensures GripOk(sys', lid)
  {
    hide Inv, Next;
    NextKept(sys.store, step, sys'.store, lid);
  }

  /** However often outcomes were counted before: one more is counted only under a lease that was active, and the
      lease is spent by it. */
  lemma CommitFrame(sys: Sys, step: Step, sys': Sys, lid: Uuid)
    requires Inv(sys.store) && Next(sys.store, step, sys'.store)
    requires CommitsOk(sys, lid) && sys'.commits == Counted(sys, step)
    ensures CommitsOk(sys', lid)
  {
    if LeaseCall(step.op) && step.op.lid == lid && Commits(sys.store, step, lid) {
      WritesUnderActive(sys.store, step, lid);
      hide Inv, Next, Commits;
      CommitSpends(sys.store, step, sys'.store, lid);
    } else {
      hide Inv, Next, Commits;
      if sys.commits[lid] > 0 {
        NextKept(sys.store, step, sys'.store, lid);
      }
    }
  }

  /** Marking a task that is running already, or under a lease that is over, changes nothing. */
  lemma MarkedAlready(s: State, step: Step, s': State, lid: Uuid)
    requires Inv(s) && Next(s, step, s') && step.op.MarkRunning? && step.op.lid == lid
    requires Active(s, lid) ==> StatusUnder(s, lid) == Some(Running)
    ensures s' == s
  {
    var op := step.op;
    RefusedMark(s, op, step.now);
    if CheckLease(s, op.tid, lid, op.worker, step.now).None? {
      CheckedActive(s, op.tid, lid, op.worker, step.now);
      CheckedLease(s, op.tid, lid, op.worker, step.now);
      HolderOf(s, op.tid);
    }
    hide Inv, Plan, CheckLease;
  }

  lemma RefusedMark(s: State, op: Op, now: Time)
    requires op.MarkRunning?
    requires CheckLease(s, op.tid, op.lid, op.worker, now).None? ==> op.tid in s.tasks
    ensures CheckLease(s, op.tid, op.lid, op.worker, now).Some? || s.tasks[op.tid].status == Running ==> Plan(s, op, now).Err?
  {
    hide CheckLease;
  }

  lemma HolderOf(s: State, tid: TaskId)
    requires Inv(s) && HasLease(s, tid)
    ensures s.leases[LeaseIdOf(s, tid)].taskId == tid
  {
    hide Inv;
    InvTask(s, tid);
  }

  lemma ProcFrame(sys: Sys, step: Step, sys': Sys, q: ProcId)
    requires Inv(sys.store) && Next(sys.store, step, sys'.store) && (forall lid | lid in sys.grips :: GripOk(sys, lid))
    requires q in sys.procs && ProcOk(sys, q) && q in sys'.procs && sys'.procs[q] == sys.procs[q]
    requires Busy(sys.procs[q].phase) ==>
               var lid := sys.procs[q].phase.lid;
               lid in sys.grips ==> lid in sys'.grips && sys'.grips[lid] == sys.grips[lid]
    ensures ProcOk(sys', q)
  {
    hide Inv, Next, StatusUnder;
    if Busy(sys.procs[q].phase) {
      var lid := sys.procs[q].phase.lid;
      NextKept(sys.store, step, sys'.store, lid);
      if step.op.MarkRunning? && step.op.lid == lid && !sys.procs[q].phase.Marking? {
        MarkedAlready(sys.store, step, sys'.store, lid);
      }
    }
  }

  /** After a claim the process has a fresh lease on the task picked. */
  lemma ClaimGrips(s: State, op: Op, now: Time, s': State)
    requires Inv(s) && Next(s, Step(op, now), s') && op.Claim? && op.pick.Some? && op.clientToken.None?
    ensures op.newLease !in s.used && op.newLease in s'.used && Active(s', op.newLease)
    ensures s'.leases[op.newLease].taskId == op.pick.value && s'.leases[op.newLease].worker == op.worker
  {
    NextInv(s, Step(op, now), s');
    ClaimHandsOver(s, op, now, s');
    hide Inv, DoAll, EnabledAll, BestPick, IsSweepOrder;
    InvTask(s', op.pick.value);
    InvTables(s');
    hide Core, TasksOk, AttemptsOk, CompletionsOk, Unique, LogOk;
    assert LeaseOk(s', op.newLease);
  }

  lemma DoBegins(s: State, tid: TaskId, now: Time)
    requires Enabled(s, Begin(tid), now)
    ensures tid in Do(s, Begin(tid), now).tasks && Do(s, Begin(tid), now).tasks[tid].status == Running
  {
    DoRows(s, Begin(tid), now);
    hide Do;
  }

  lemma BeginRuns(s: State, tid: TaskId, lid: Uuid, worker: WorkerId, now: Time, s': State)
    requires Next(s, Step(MarkRunning(tid, lid, worker), now), s') && Plan(s, MarkRunning(tid, lid, worker), now).Ok?
    ensures tid in s'.tasks && s'.tasks[tid].status == Running
  {
    hide CheckLease, Next, Enabled, Do;
    NextOne(s, Step(MarkRunning(tid, lid, worker), now), s', Begin(tid));
    DoBegins(s, tid, now);
  }

  lemma FreshGrip(sys: Sys, lid: Uuid)
    requires SysInv(sys) && lid !in sys.store.used
    ensures lid !in sys.grips
  {
    hide Inv, Spent;
    assert lid in sys.grips ==> GripOk(sys, lid);
  }

  lemma ClaimCallInv(sys: Sys, p: ProcId, step: Step, sys': Sys)
    requires SysInv(sys) && SysNext(sys, Call(p, step), sys') && step.op.Claim? && step.op.pick.Some?
    ensures SysInv(sys')
  {
    hide Next, Plan, Commits, Spent, StatusUnder, Active, Inv, GripOk, CommitsOk, ProcOk;
    var op := step.op;
    assert sys.procs[p].phase.Polling? && sys.procs[p].worker == op.worker && op.clientToken.None?;
    ClaimGrips(sys.store, op, step.now, sys'.store);
    FreshGrip(sys, op.newLease);
    CallFrame(sys, p, step, sys');
    assert sys'.procs[p] == Proc(op.worker, Marking(op.pick.value, op.newLease));
    hide SysInv, SysNext, Calls;
    ClaimOk(sys', p, op);
  }

  lemma ClaimOk(sys: Sys, p: ProcId, op: Op)
    requires op.Claim? && op.pick.Some?
    requires op.newLease in sys.store.used && Active(sys.store, op.newLease)
    requires sys.store.leases[op.newLease].taskId == op.pick.value && sys.store.leases[op.newLease].worker == op.worker
    requires p in sys.procs && sys.procs[p] == Proc(op.worker, Marking(op.pick.value, op.newLease))
    requires op.newLease in sys.grips && sys.grips[op.newLease] == Grip(p, op.pick.value, op.worker)
    ensures ProcOk(sys, p) && GripOk(sys, op.newLease)
  {
    hide StatusUnder;
  }

  /** What a call of `p` leaves alone: the grips there were and the other processes; and no lease gets a second
      outcome. */
  lemma CallFrame(sys: Sys, p: ProcId, step: Step, sys': Sys)
    requires SysInv(sys) && SysNext(sys, Call(p, step), sys')
    requires step.op.Claim? && step.op.pick.Some? ==> step.op.newLease !in sys.grips
    ensures Inv(sys'.store)
    ensures forall lid | lid in sys.grips :: lid in sys'.grips && sys'.grips[lid] == sys.grips[lid] && GripOk(sys', lid)
    ensures forall lid: Uuid :: CommitsOk(sys', lid)
    ensures forall q | q in sys.procs && q != p :: q in sys'.procs && ProcOk(sys', q)
  {
    hide Next, Plan, Commits, Spent, Inv, GripOk, CommitsOk;
    NextInv(sys.store, step, sys'.store);
    forall lid | lid in sys.grips ensures lid in sys'.grips && sys'.grips[lid] == sys.grips[lid] && GripOk(sys', lid) {
      GripFrame(sys, step, sys', lid);
    }
    forall lid: Uuid ensures CommitsOk(sys', lid) {
      CommitFrame(sys, step, sys', lid);
    }
    forall q | q in sys.procs && q != p ensures q in sys'.procs && ProcOk(sys', q) {
      assert ProcOk(sys, p) && ProcOk(sys, q);
      ProcFrame(sys, step, sys', q);
    }
  }

  lemma LeaseCallInv(sys: Sys, p: ProcId, step: Step, sys': Sys)
    requires SysInv(sys) && SysNext(sys, Call(p, step), sys') && LeaseCall(step.op)
    ensures SysInv(sys')
  {
    hide Inv, Next, Plan, Spent, Commits, GripOk, ProcOk, CommitsOk;
    CallFrame(sys, p, step, sys');
    CallerOk(sys, p, step, sys');
  }

  lemma CallerOk(sys: Sys, p: ProcId, step: Step, sys': Sys)
    requires SysInv(sys) && SysNext(sys, Call(p, step), sys') && LeaseCall(step.op)
    ensures p in sys'.procs && ProcOk(sys', p)
  {
    var phase := sys.procs[p].phase;
    assert ProcOk(sys, p) && GripOk(sys, phase.lid);
    if phase.Marking? && Plan(sys.store, step.op, step.now).Ok? {
      NextKept(sys.store, step, sys'.store, phase.lid);
      BeginRuns(sys.store, phase.tid, phase.lid, sys.procs[p].worker, step.now, sys'.store);
      hide Inv, Next;
    } else if phase.Applying? && Plan(sys.store, step.op, step.now).Err? {
      assert sys'.store == sys.store;
      hide Inv, Next, Plan;
    } else {
      hide Inv, Next, Plan;
    }
  }

  lemma CallInv(sys: Sys, p: ProcId, step: Step, sys': Sys)
    requires SysInv(sys) && SysNext(sys, Call(p, step), sys')
    ensures SysInv(sys')
  {
    hide Inv, Next, Plan, Commits, Spent;
    if step.op.Claim? && step.op.pick.Some? {
      ClaimCallInv(sys, p, step, sys');
    } else if LeaseCall(step.op) {
      LeaseCallInv(sys, p, step, sys');
    } else {
      CallFrame(sys, p, step, sys');
    }
  }

  /** A step by anybody but the processes. */
  lemma OtherInv(sys: Sys, step: Step, sys': Sys)
    requires SysInv(sys) && SysNext(sys, Other(step), sys')
    ensures SysInv(sys')
  {
    hide Next, Spent, Inv, GripOk, CommitsOk, Commits;
    NextInv(sys.store, step, sys'.store);
    forall lid | lid in sys'.grips ensures GripOk(sys', lid) {
      GripFrame(sys, step, sys', lid);
    }
    forall lid: Uuid ensures CommitsOk(sys', lid) {
      CommitFrame(sys, step, sys', lid);
    }
    forall q | q in sys'.procs ensures ProcOk(sys', q) {
      ProcFrame(sys, step, sys', q);
    }
  }

  lemma SysNextInv(sys: Sys, action: Action, sys': Sys)
    requires SysInv(sys) && SysNext(sys, action, sys')
    ensures SysInv(sys')
  {
    match action
    case Call(p, step) => CallInv(sys, p, step, sys');
    case Other(step) => OtherInv(sys, step, sys');
    case Return(p, _) => LocalInv(sys, p, action, sys');
    case Throw(p) => LocalInv(sys, p, action, sys');
    case DrainTimeout(p) => LocalInv(sys, p, action, sys');
    case TaskTimeout(p) => LocalInv(sys, p, action, sys');
    case Crash(p) => LocalInv(sys, p, action, sys');
  }

  lemma LocalInv(sys: Sys, p: ProcId, action: Action, sys': Sys)
    requires SysInv(sys) && SysNext(sys, action, sys')
    requires action.Return? || action.Throw? || action.DrainTimeout? || action.TaskTimeout? || action.Crash?
    requires p == action.p
    ensures SysInv(sys')
  {
    hide Inv, Spent, Active, StatusUnder;
    assert ProcOk(sys, p);
    assert sys'.store == sys.store && sys'.grips == sys.grips && sys'.commits == sys.commits;
    forall lid | lid in sys'.grips ensures GripOk(sys', lid) {
      assert GripOk(sys, lid);
    }
    forall lid: Uuid ensures CommitsOk(sys', lid) {
      assert CommitsOk(sys, lid);
    }
    forall q | q in sys'.procs ensures ProcOk(sys', q) {
      assert ProcOk(sys, q);
    }
  }

  lemma {:induction false} ReachableSys(syss: seq<Sys>, actions: seq<Action>, i: nat)
    requires SysBehaviour(syss, actions) && i < |syss|
    ensures SysInv(syss[i])
  {
    if i == 0 {
      EmptyInv();
    } else {
      ReachableSys(syss, actions, i - 1);
      hide SysInv;
      SysNextInv(syss[i - 1], actions[i - 1], syss[i]);
    }
  }

  // ---- What the workers can rely on ----

  /** Each claim gets at most one outcome, whoever writes it: the worker, even when `applyResult` throws and
      `failTask` is tried, its handler, or a handler that was abandoned.  Once it has one, its lease is over. */
  lemma OneOutcomePerClaim(syss: seq<Sys>, actions: seq<Action>, i: nat, lid: Uuid)
    requires SysBehaviour(syss, actions) && i < |syss|
    ensures syss[i].commits[lid] <= 1
    ensures syss[i].commits[lid] == 1 ==> Spent(syss[i].store, lid)
  {
    ReachableSys(syss, actions, i);
    hide SysBehaviour;
    assert CommitsOk(syss[i], lid);
  }

  /** Two processes never have the same lease; and when two believe that they have the same task, at most one
      of them can write to it, whatever the time. */
  lemma MutualExclusion(syss: seq<Sys>, actions: seq<Action>, i: nat, p: ProcId, q: ProcId, now: Time, later: Time)
    requires SysBehaviour(syss, actions) && i < |syss| && p != q
    requires p in syss[i].procs && q in syss[i].procs && Busy(syss[i].procs[p].phase) && Busy(syss[i].procs[q].phase)
    ensures var a, b := syss[i].procs[p], syss[i].procs[q];
            && a.phase.lid != b.phase.lid
            && (a.phase.tid == b.phase.tid ==>
                  CheckLease(syss[i].store, a.phase.tid, a.phase.lid, a.worker, now).Some?
                  || CheckLease(syss[i].store, b.phase.tid, b.phase.lid, b.worker, later).Some?)
  {
    ReachableSys(syss, actions, i);
    hide SysBehaviour;
    assert ProcOk(syss[i], p) && ProcOk(syss[i], q);
  }

  /** As long as the lease check lets the worker through, its task is held, and running after `markTaskRunning`. */
  lemma GoodLeaseStatus(sys: Sys, p: ProcId, now: Time)
    requires SysInv(sys) && p in sys.procs && Busy(sys.procs[p].phase)
    ensures var proc, s := sys.procs[p], sys.store;
            CheckLease(s, proc.phase.tid, proc.phase.lid, proc.worker, now).None? ==>
              && proc.phase.tid in s.tasks && Held(s.tasks[proc.phase.tid])
              && (!proc.phase.Marking? ==> s.tasks[proc.phase.tid].status == Running)
              && Active(s, proc.phase.lid) && !Lapsed(s, proc.phase.tid, now)
  {
    hide Inv;
    var proc := sys.procs[p];
    assert ProcOk(sys, p) && GripOk(sys, proc.phase.lid);
    if CheckLease(sys.store, proc.phase.tid, proc.phase.lid, proc.worker, now).None? {
      CheckedActive(sys.store, proc.phase.tid, proc.phase.lid, proc.worker, now);
      CheckedLease(sys.store, proc.phase.tid, proc.phase.lid, proc.worker, now);
    }
  }

  /** While a handler runs and its lease is good, its task is running, on the worker's lease. */
  lemma HandlerHasTask(syss: seq<Sys>, actions: seq<Action>, i: nat, p: ProcId, now: Time)
    requires SysBehaviour(syss, actions) && i < |syss| && p in syss[i].procs && syss[i].procs[p].phase.Handling?
    ensures var phase, s := syss[i].procs[p].phase, syss[i].store;
            CheckLease(s, phase.tid, phase.lid, syss[i].procs[p].worker, now).None? ==>
              phase.tid in s.tasks && s.tasks[phase.tid].status == Running
  {
    ReachableSys(syss, actions, i);
    hide SysBehaviour, SysInv, CheckLease;
    GoodLeaseStatus(syss[i], p, now);
  }

  /** A lease call that is refused finds its lease spent, or run out and waiting for the sweep. */
  lemma RefusedIsOver(sys: Sys, p: ProcId, now: Time)
    requires SysInv(sys) && p in sys.procs && Busy(sys.procs[p].phase)
    ensures var phase := sys.procs[p].phase;
            CheckLease(sys.store, phase.tid, phase.lid, sys.procs[p].worker, now).Some? ==>
              Spent(sys.store, phase.lid) || Lapsed(sys.store, phase.tid, now)
  {
    var lid := sys.procs[p].phase.lid;
    assert ProcOk(sys, p) && GripOk(sys, lid);
    if Active(sys.store, lid) {
      ActiveTask(sys.store, lid);
      InvTask(sys.store, sys.procs[p].phase.tid);
    }
    hide Inv;
  }

  /** A call that ends the work on a claim commits its outcome, if the lease check lets it through. */
  lemma FinalCallCommits(sys: Sys, p: ProcId, step: Step)
    requires SysInv(sys) && p in sys.procs && Busy(sys.procs[p].phase) && !sys.procs[p].phase.Marking?
    requires Calls(sys.procs[p], step.op)
    requires CheckLease(sys.store, step.op.tid, step.op.lid, step.op.worker, step.now).None?
    ensures Commits(sys.store, step, step.op.lid)
  {
    hide Plan, SysInv, Calls, CheckLease, Commits;
    CallOfPhase(sys.procs[p], step.op);
    GoodLeaseStatus(sys, p, step.now);
    RunningCommits(sys.store, step);
  }

  lemma RunningCommits(s: State, step: Step)
    requires step.op.Pause? || step.op.Release? || ((step.op.Complete? || step.op.Fail?) && step.op.clientToken.None?)
    requires CheckLease(s, step.op.tid, step.op.lid, step.op.worker, step.now).None?
    requires step.op.tid in s.tasks && s.tasks[step.op.tid].status == Running
    ensures Commits(s, step, step.op.lid)
  {
    hide CheckLease;
  }

  /** Marking is refused under a good lease exactly when somebody else has marked the task already. */
  lemma MarkingGoesThrough(sys: Sys, p: ProcId, step: Step)
    requires SysInv(sys) && p in sys.procs && sys.procs[p].phase.Marking? && Calls(sys.procs[p], step.op)
    requires CheckLease(sys.store, step.op.tid, step.op.lid, step.op.worker, step.now).None?
    ensures step.op.tid in sys.store.tasks
    ensures Plan(sys.store, step.op, step.now).Ok? <==> sys.store.tasks[step.op.tid].status != Running
  {
    hide SysInv, CheckLease;
    GoodLeaseStatus(sys, p, step.now);
  }

  /** Before the worker could mark its task running, somebody who was shown the lease did. */
  predicate Preempted(s: State, proc: Proc, now: Time) {
    && proc.phase.Marking? && CheckLease(s, proc.phase.tid, proc.phase.lid, proc.worker, now).None?
    && proc.phase.tid in s.tasks && s.tasks[proc.phase.tid].status == Running
  }

  /** A worker that goes back to polling, other than by crashing, leaves no claim behind, that is, its lease is spent
      or has run out and the next sweep gives the task back, except when it was preempted: then `markTaskRunning`
      throws, nothing is written and the lease stays active until it runs out. */
  lemma ClaimResolved(syss: seq<Sys>, actions: seq<Action>, i: nat, p: ProcId)
    requires SysBehaviour(syss, actions) && i < |actions| && p in syss[i].procs && Busy(syss[i].procs[p].phase)
    requires p in syss[i + 1].procs && syss[i + 1].procs[p].phase.Polling? && actions[i] != Crash(p)
    ensures var proc, s' := syss[i].procs[p], syss[i + 1].store;
            && actions[i].Call?
            && (Spent(s', proc.phase.lid) || Lapsed(s', proc.phase.tid, actions[i].step.now)
                <==> !Preempted(syss[i].store, proc, actions[i].step.now))
            && (Preempted(syss[i].store, proc, actions[i].step.now) ==> s' == syss[i].store)
  {
    ReachableSys(syss, actions, i);
    assert SysNext(syss[i], actions[i], syss[i + 1]);
    hide SysBehaviour, Spent, Lapsed, Preempted;
    OnlyCallsEnd(syss[i], actions[i], syss[i + 1], p);
    CallResolves(syss[i], p, actions[i].step, syss[i + 1]);
  }

  lemma OnlyCallsEnd(sys: Sys, action: Action, sys': Sys, p: ProcId)
    requires SysNext(sys, action, sys') && p in sys.procs && Busy(sys.procs[p].phase)
    requires p in sys'.procs && sys'.procs[p].phase.Polling? && action != Crash(p)
    ensures action.Call? && action.p == p
  {
    hide Next, Plan, Calls, Commits;
  }

  lemma CallOfPhase(proc: Proc, op: Op)
    requires Busy(proc.phase) && Calls(proc, op)
    ensures LeaseCall(op) && op.tid == proc.phase.tid && op.lid == proc.phase.lid && op.worker == proc.worker
    ensures op.Complete? || op.Fail? ==> op.clientToken.None?
    ensures op.MarkRunning? <==> proc.phase.Marking?
    ensures !op.Heartbeat?
  {}

  lemma CallResolves(sys: Sys, p: ProcId, step: Step, sys': Sys)
    requires SysInv(sys) && SysNext(sys, Call(p, step), sys') && Busy(sys.procs[p].phase) && sys'.procs[p].phase.Polling?
    ensures var proc, s' := sys.procs[p], sys'.store;
            && (Spent(s', proc.phase.lid) || Lapsed(s', proc.phase.tid, step.now) <==> !Preempted(sys.store, proc, step.now))
            && (Preempted(sys.store, proc, step.now) ==> s' == sys.store)
  {
    var phase, worker := sys.procs[p].phase, sys.procs[p].worker;
    hide Next, Plan, Calls, Commits, Spent, Lapsed, CheckLease;
    CallOfPhase(sys.procs[p], step.op);
    RefusedIsOver(sys, p, step.now);
    if CheckLease(sys.store, phase.tid, phase.lid, worker, step.now).Some? {
      RefusedChangesNothing(sys.store, step, sys'.store);
    } else if phase.Marking? {
      MarkingGoesThrough(sys, p, step);
      PreemptedStays(sys, p, step, sys'.store);
    } else {
      FinalCallCommits(sys, p, step);
      hide Inv;
      CommitSpends(sys.store, step, sys'.store, phase.lid);
    }
  }

  lemma PreemptedStays(sys: Sys, p: ProcId, step: Step, s': State)
    requires SysInv(sys) && p in sys.procs && Preempted(sys.store, sys.procs[p], step.now)
    requires Next(sys.store, step, s') && Plan(sys.store, step.op, step.now).Err?
    ensures s' == sys.store && !Spent(s', sys.procs[p].phase.lid) && !Lapsed(s', sys.procs[p].phase.tid, step.now)
  {
    hide Inv, Plan, SysInv, CheckLease, Lapsed;
    GoodLeaseStatus(sys, p, step.now);
  }

  lemma RefusedChangesNothing(s: State, step: Step, s': State)
    requires Next(s, step, s') && LeaseCall(step.op)
    requires CheckLease(s, step.op.tid, step.op.lid, step.op.worker, step.now).Some?
    requires (step.op.Complete? || step.op.Fail?) ==> step.op.clientToken.None?
    ensures s' == s
  {
    hide CheckLease;
  }

  /** When the time limit of a handler runs out, the worker's call goes through exactly when its lease is still good.
      Then the task has failed for good.  Otherwise nothing is written, and the lease is spent, or it has run out
      and is due for the next sweep. */
  lemma TimeoutIsTerminal(syss: seq<Sys>, actions: seq<Action>, i: nat, p: ProcId)
    requires SysBehaviour(syss, actions) && i < |actions| && p in syss[i].procs && syss[i].procs[p].phase.TimingOut?
    requires actions[i].Call? && actions[i].p == p
    ensures var s, s', step := syss[i].store, syss[i + 1].store, actions[i].step;
            var tid, lid := syss[i].procs[p].phase.tid, syss[i].procs[p].phase.lid;
            var good := CheckLease(s, tid, lid, syss[i].procs[p].worker, step.now).None?;
            && (Plan(s, step.op, step.now).Ok? <==> good)
            && (good ==> tid in s'.tasks && s'.tasks[tid].status == Failed && Final(s'.tasks[tid]))
            && (!good ==> s' == s && (Spent(s, lid) || Lapsed(s, tid, step.now)))
  {
    ReachableSys(syss, actions, i);
    assert SysNext(syss[i], actions[i], syss[i + 1]);
    hide SysBehaviour;
    TimeoutCall(syss[i], p, actions[i].step, syss[i + 1]);
  }

  lemma TimeoutCall(sys: Sys, p: ProcId, step: Step, sys': Sys)
    requires SysInv(sys) && SysNext(sys, Call(p, step), sys') && sys.procs[p].phase.TimingOut?
    ensures var s, s', tid, lid := sys.store, sys'.store, sys.procs[p].phase.tid, sys.procs[p].phase.lid;
            var good := CheckLease(s, tid, lid, sys.procs[p].worker, step.now).None?;
            && (Plan(s, step.op, step.now).Ok? <==> good)
            && (good ==> tid in s'.tasks && s'.tasks[tid].status == Failed && Final(s'.tasks[tid]))
            && (!good ==> s' == s && (Spent(s, lid) || Lapsed(s, tid, step.now)))
  {
    var proc := sys.procs[p];
    assert step.op.Fail? && step.op.clientToken.None?;
    hide Next, Plan, Calls, Commits, Spent, Lapsed, CheckLease, Final;
    CallOfPhase(proc, step.op);
    if CheckLease(sys.store, proc.phase.tid, proc.phase.lid, proc.worker, step.now).None? {
      FinalCallCommits(sys, p, step);
      CommitWorks(sys.store, step, proc.phase.lid);
      hide Inv;
      FailIsFinal(sys.store, step, sys'.store);
    } else {
      RefusedIsOver(sys, p, step.now);
      RefusedFails(sys.store, step);
      RefusedChangesNothing(sys.store, step, sys'.store);
    }
  }

  lemma CommitWorks(s: State, step: Step, lid: Uuid)
    requires Commits(s, step, lid)
    ensures Plan(s, step.op, step.now).Ok?
  {
    hide Plan;
  }

  lemma RefusedFails(s: State, step: Step)
    requires step.op.Fail? && step.op.clientToken.None?
    requires CheckLease(s, step.op.tid, step.op.lid, step.op.worker, step.now).Some?
    ensures Plan(s, step.op, step.now).Err?
  {
    hide CheckLease;
  }

  /** The retry that the documentation promises after a timeout.  As long as the lease is the worker's, the sweep
      that follows queues the task again exactly when the lease had run out before the worker's call and the task
      has an attempt left. */
  lemma TimeoutRetried(syss: seq<Sys>, actions: seq<Action>, i: nat, p: ProcId, order: seq<TaskId>, s'': State)
    requires SysBehaviour(syss, actions) && i < |actions| && p in syss[i].procs && syss[i].procs[p].phase.TimingOut?
    requires actions[i].Call? && actions[i].p == p && Active(syss[i].store, syss[i].procs[p].phase.lid)
    requires Next(syss[i + 1].store, Step(Sweep(order), actions[i].step.now), s'')
    ensures var s, tid, now := syss[i].store, syss[i].procs[p].phase.tid, actions[i].step.now;
            && tid in s.tasks && tid in s''.tasks
            && (s''.tasks[tid].status == Queued <==> Lapsed(s, tid, now) && HasBudget(s.tasks[tid]))
  {
    ReachableSys(syss, actions, i);
    ReachableSys(syss, actions, i + 1);
    assert SysNext(syss[i], actions[i], syss[i + 1]);
    hide SysBehaviour;
    TimeoutThenSweep(syss[i], p, actions[i].step, syss[i + 1], order, s'');
  }

  lemma TimeoutThenSweep(sys: Sys, p: ProcId, step: Step, sys': Sys, order: seq<TaskId>, s'': State)
    requires SysInv(sys) && SysInv(sys') && p in sys.procs && SysNext(sys, Call(p, step), sys') && sys.procs[p].phase.TimingOut?
    requires Active(sys.store, sys.procs[p].phase.lid) && Next(sys'.store, Step(Sweep(order), step.now), s'')
    ensures var s, tid := sys.store, sys.procs[p].phase.tid;
            && tid in s.tasks && tid in s''.tasks
            && (s''.tasks[tid].status == Queued <==> Lapsed(s, tid, step.now) && HasBudget(s.tasks[tid]))
  {
    hide *;
    var proc, s := sys.procs[p], sys.store;
    StoreInv(sys);
    StoreInv(sys');
    BusyTiming(sys, p);
    ActiveGrip(sys, p);
    GoodOrLapsed(s, proc.phase.tid, proc.phase.lid, proc.worker, step.now);
    TimeoutCall(sys, p, step, sys');
    SweepIsExact(sys'.store, order, step.now, s'');
    SweptOne(sys'.store, order, step.now, s'', proc.phase.tid);
    if !Lapsed(s, proc.phase.tid, step.now) {
      NotHeldNotLapsed(sys'.store, proc.phase.tid, step.now);
    }
  }

  lemma StoreInv(sys: Sys)
    requires SysInv(sys)
    ensures Inv(sys.store)
  {
    hide Inv;
  }

  lemma BusyTiming(sys: Sys, p: ProcId)
    requires p in sys.procs && sys.procs[p].phase.TimingOut?
    ensures Busy(sys.procs[p].phase)
  {}

  lemma ActiveGrip(sys: Sys, p: ProcId)
    requires SysInv(sys) && p in sys.procs && Busy(sys.procs[p].phase) && Active(sys.store, sys.procs[p].phase.lid)
    ensures var proc, s := sys.procs[p], sys.store;
            && s.leases[proc.phase.lid].taskId == proc.phase.tid && s.leases[proc.phase.lid].worker == proc.worker
            && proc.phase.tid in s.tasks
  {
    assert ProcOk(sys, p) && GripOk(sys, sys.procs[p].phase.lid);
    ActiveTask(sys.store, sys.procs[p].phase.lid);
    hide Inv;
  }

  lemma NotHeldNotLapsed(s: State, tid: TaskId, now: Time)
    requires tid in s.tasks && s.tasks[tid].status == Failed
    ensures !Lapsed(s, tid, now)
  {}

  lemma GoodOrLapsed(s: State, tid: TaskId, lid: Uuid, worker: WorkerId, now: Time)
    requires Inv(s) && Active(s, lid) && s.leases[lid].taskId == tid && s.leases[lid].worker == worker
    ensures CheckLease(s, tid, lid, worker, now).None? <==> !Lapsed(s, tid, now)
  {
    ActiveTask(s, lid);
    InvTask(s, tid);
    hide Inv;
  }

  lemma SweptOne(s: State, order: seq<TaskId>, now: Time, s': State, tid: TaskId)
    requires ExactSweep(s, order, now, s') && tid in s.tasks
    ensures tid in s'.tasks
    ensures Lapsed(s, tid, now) ==> (s'.tasks[tid].status == Queued <==> HasBudget(s.tasks[tid]))
    ensures !Lapsed(s, tid, now) ==> s'.tasks[tid] == s.tasks[tid]
  {
    hide Swept;
  }

  lemma FailIsFinal(s: State, step: Step, s': State)
    requires Inv(s) && Next(s, step, s') && step.op.Fail? && step.op.clientToken.None? && Plan(s, step.op, step.now).Ok?
    ensures var tid := step.op.tid; tid in s'.tasks && s'.tasks[tid].status == Failed && Final(s'.tasks[tid])
  {
    hide CheckLease, Next, Enabled, Do, Inv, Final;
    NextOne(s, step, s', Settle(step.op.tid, GiveUp(step.op.error)));
    GiveUpIsFinal(s, step.op.tid, step.op.error, step.now);
  }

  lemma GiveUpIsFinal(s: State, tid: TaskId, error: string, now: Time)
    requires Inv(s) && Enabled(s, Settle(tid, GiveUp(error)), now)
    ensures var s' := Do(s, Settle(tid, GiveUp(error)), now);
            tid in s'.tasks && s'.tasks[tid].status == Failed && Final(s'.tasks[tid])
  {
    hide Inv, Do;
    InvTask(s, tid);
    SettleEffect(s, tid, GiveUp(error), now);
    hide Enabled, HasLease;
  }
}
