/** The public methods of the store.  Each is one atomic step: it either fails and changes nothing, or
    performs the writes of its plan.  What the caller cannot determine (fresh ids, the order in which a
    query returns rows, ties between equally ranked tasks) is a parameter of the operation. */
module Transactions {
  import opened Records
  import opened StateMachine
  import opened Writes
  import opened Invariant
  import opened Preservation

  datatype EnqueueOptions = EnqueueOptions(
    runId: RunId, key: Option<Key>, kind: Kind, priority: int, maxAttempts: Option<int>, retry: Retry, deps: seq<TaskId>)

  datatype Op =
    | CreateRun(rid: RunId)
    | Enqueue(tid: TaskId, options: EnqueueOptions)
    | Claim(worker: WorkerId, leaseMs: int, kinds: seq<Kind>, clientToken: Option<Token>,
            order: seq<TaskId>, pick: Option<TaskId>, newLease: Uuid, newAttempt: Uuid)
    | Heartbeat(tid: TaskId, lid: Uuid, worker: WorkerId, leaseMs: int)
    | MarkRunning(tid: TaskId, lid: Uuid, worker: WorkerId)
    | Pause(tid: TaskId, lid: Uuid, worker: WorkerId, needsInput: bool)
    | Resume(tid: TaskId)
    | Complete(tid: TaskId, lid: Uuid, worker: WorkerId, clientToken: Option<Token>)
    | Fail(tid: TaskId, lid: Uuid, worker: WorkerId, error: string, clientToken: Option<Token>)
    | Release(tid: TaskId, lid: Uuid, worker: WorkerId)
    | CancelRun(rid: RunId)
    | Sweep(order: seq<TaskId>)
    | RequeueDead(tid: TaskId, reset: bool, notBefore: Option<Time>)
    | Prune(statuses: seq<RunStatus>, cutoff: Time, take: nat, chosen: seq<RunId>)

  predicate NoDuplicates<T(==)>(xs: seq<T>) {
    forall i, j | 0 <= i < j < |xs| :: xs[i] != xs[j]
  }

  function Elements<T(==)>(xs: seq<T>): set<T> {
    set x | x in xs
  }

  // ---- Enqueue ----

  function SpecOf(o: EnqueueOptions): TaskSpec {
    TaskSpec(o.runId, o.key, o.kind, o.priority, o.maxAttempts, o.retry, Elements(o.deps))
  }

  /** The rows the dependency query returns. */
  function DependencyRows(s: State, rid: RunId, deps: seq<TaskId>): set<TaskId> {
    set d | d in deps && InRun(s, d, rid)
  }

  function PlanEnqueue(s: State, tid: TaskId, o: EnqueueOptions): Result<seq<Write>> {
    if o.runId !in s.runs then Err(NotFound)
    else if TerminalRun(s.runs[o.runId].status) then Err(RunTerminal)
    else if o.key.Some? && KeyTaken(s, o.runId, o.key.value) then Err(DuplicateTaskKey)
    else if tid in o.deps then Err(DependencyCycle)
    else if |DependencyRows(s, o.runId, o.deps)| != |o.deps| then Err(ForeignDependency)
    else if tid in s.tasks then Err(IdTaken)
    else Ok([AddTask(tid, SpecOf(o))])
  }

  // ---- Sweep and claim ----

  function Expiries(order: seq<TaskId>): seq<Write> {
    seq(|order|, i requires 0 <= i < |order| => Settle(order[i], Expire))
  }

  /** The rows whose lease has run out, each once, in the order the query returns them. */
  predicate IsSweepOrder(s: State, now: Time, order: seq<TaskId>) {
    AllLapsed(s, now, order) && forall x | x in s.tasks :: Lapsed(s, x, now) ==> x in order
  }

  predicate Candidate(s: State, tid: TaskId, kinds: seq<Kind>, now: Time) {
    Claimable(s, tid, now) && (|kinds| == 0 || s.tasks[tid].spec.kind in kinds)
  }

  /** ORDER BY priority DESC, created_at ASC: `a` may come before `b`. */
  predicate Ranks(a: Task, b: Task) {
    a.spec.priority > b.spec.priority || (a.spec.priority == b.spec.priority && a.createdAt <= b.createdAt)
  }

  predicate BestPick(s: State, kinds: seq<Kind>, now: Time, pick: Option<TaskId>) {
    match pick
    case None => forall x | x in s.tasks :: !Candidate(s, x, kinds, now)
    case Some(tid) =>
      && Candidate(s, tid, kinds, now)
      && forall x | x in s.tasks && Candidate(s, x, kinds, now) :: Ranks(s.tasks[tid], s.tasks[x])
  }

  function PlanClaim(s: State, op: Op, now: Time): Result<seq<Write>>
    requires op.Claim?
  {
    if op.clientToken.Some? && TokenUsed(s, op.clientToken.value) then Ok([])
    else if op.pick.None? then Ok(Expiries(op.order))
    else Ok(Expiries(op.order) +
            [Grant(op.pick.value, op.newLease, op.newAttempt, op.worker, now + op.leaseMs, op.clientToken)])
  }

  // ---- Writes under a lease ----

  /** `requireTask` followed by `assertActiveLease`. */
  function CheckLease(s: State, tid: TaskId, lid: Uuid, worker: WorkerId, now: Time): Option<StoreError> {
    if tid !in s.tasks then Some(NotFound)
    else
      var t := s.tasks[tid];
      if t.leaseId != Some(lid) || t.leasedBy != Some(worker) then Some(LeaseConflict)
      else if t.leaseExpiresAt.None? || t.leaseExpiresAt.value < now then Some(LeaseLapsed)
      else if lid !in s.leases then Some(NotFound)
      else if s.leases[lid].status != LeaseActive || s.leases[lid].worker != worker then Some(LeaseConflict)
      else if s.leases[lid].attemptId !in s.attempts then Some(NotFound)
      else None
  }

  function UnderLease(s: State, tid: TaskId, lid: Uuid, worker: WorkerId, now: Time, to_: TaskStatus, ws: seq<Write>): Result<seq<Write>> {
    match CheckLease(s, tid, lid, worker, now)
    case Some(e) => Err(e)
    case None => if tid in s.tasks && CanMove(s.tasks[tid].status, to_) then Ok(ws) else Err(InvalidTransition)
  }

  /** `lookupCompletion`: whether the token already stands for this very outcome of this very task. */
  function LookupCompletion(s: State, token: Token, tid: TaskId, outcome: Outcome): Result<bool> {
    if token !in s.completions then Ok(false)
    else if s.completions[token].taskId != tid then Err(TokenReused)
    else if s.completions[token].outcome != outcome then Err(OutcomeMismatch)
    else if tid !in s.tasks then Err(NotFound)
    else Ok(true)
  }

  function PlanOutcome(s: State, tid: TaskId, lid: Uuid, worker: WorkerId, now: Time,
                       clientToken: Option<Token>, outcome: Outcome, how: Settlement): Result<seq<Write>> {
    match clientToken
    case None => UnderLease(s, tid, lid, worker, now, OutcomeStatus(outcome), [Settle(tid, how)])
    case Some(token) =>
      match LookupCompletion(s, token, tid, outcome)
      case Err(e) => Err(e)
      case Ok(true) => Ok([])
      case Ok(false) =>
        UnderLease(s, tid, lid, worker, now, OutcomeStatus(outcome), [Settle(tid, how), Record(token, tid, outcome)])
  }

  function PauseStatus(needsInput: bool): TaskStatus {
    if needsInput then WaitingInput else Blocked
  }

  // ---- Prune ----

  function PruneStatuses(statuses: seq<RunStatus>): set<RunStatus> {
    if |statuses| == 0 then {RunCompleted, RunFailed, RunCancelled} else Elements(statuses)
  }

  function PruneCandidates(s: State, statuses: seq<RunStatus>, cutoff: Time): set<RunId> {
    set r | r in s.runs && s.runs[r].status in PruneStatuses(statuses) && s.runs[r].updatedAt < cutoff
  }

  /** WHERE, ORDER BY updated_at ASC and LIMIT of the prune query. */
  predicate PruneChoice(s: State, statuses: seq<RunStatus>, cutoff: Time, take: nat, chosen: seq<RunId>) {
    var candidates := PruneCandidates(s, statuses, cutoff);
    && NoDuplicates(chosen)
    && (forall r | r in chosen :: r in candidates)
    && |chosen| == (if take < |candidates| then take else |candidates|)
    && (forall r, q | r in chosen && q in candidates && q !in chosen :: s.runs[r].updatedAt <= s.runs[q].updatedAt)
    && (forall i, j | 0 <= i < j < |chosen| && chosen[i] in s.runs && chosen[j] in s.runs ::
          s.runs[chosen[i]].updatedAt <= s.runs[chosen[j]].updatedAt)
  }

  function Purges(chosen: seq<RunId>): seq<Write> {
    seq(|chosen|, i requires 0 <= i < |chosen| => Purge(chosen[i]))
  }

  // ---- Plans ----

  function Plan(s: State, op: Op, now: Time): Result<seq<Write>> {
    match op
    case CreateRun(rid) => if rid in s.runs then Err(IdTaken) else Ok([OpenRun(rid)])
    case Enqueue(tid, options) => PlanEnqueue(s, tid, options)
    case Claim(_, _, _, _, _, _, _, _) => PlanClaim(s, op, now)
    case Heartbeat(tid, lid, worker, leaseMs) =>
      (match CheckLease(s, tid, lid, worker, now)
       case Some(e) => Err(e)
       case None => Ok([Extend(tid, now + leaseMs)]))
    case MarkRunning(tid, lid, worker) => UnderLease(s, tid, lid, worker, now, Running, [Begin(tid)])
    case Pause(tid, lid, worker, needsInput) =>
      UnderLease(s, tid, lid, worker, now, PauseStatus(needsInput), [Settle(tid, Park(PauseStatus(needsInput)))])
    case Resume(tid) =>
      if tid !in s.tasks then Err(NotFound)
      else if !WaitingStatus(s.tasks[tid].status) then Err(InvalidTransition)
      else Ok([Revive(tid)])
    case Complete(tid, lid, worker, clientToken) =>
      PlanOutcome(s, tid, lid, worker, now, clientToken, OutcomeCompleted, Finish)
    case Fail(tid, lid, worker, error, clientToken) =>
      PlanOutcome(s, tid, lid, worker, now, clientToken, OutcomeFailed, GiveUp(error))
    case Release(tid, lid, worker) => UnderLease(s, tid, lid, worker, now, Queued, [Settle(tid, HandBack)])
    case CancelRun(rid) =>
      if rid !in s.runs then Err(NotFound)
      else if s.runs[rid].status == RunCancelled then Ok([])
      else Ok([CancelAll(rid)])
    case Sweep(order) => Ok(Expiries(order))
    case RequeueDead(tid, reset, notBefore) =>
      if tid !in s.tasks then Err(NotFound)
      else if !s.tasks[tid].dead then Err(InvalidTransition)
      else Ok([Redrive(tid, reset, notBefore)])
    case Prune(_, _, _, chosen) => Ok(Purges(chosen))
  }

  /** The choices recorded in the operation are ones the store may make.  That the sweep can be carried
      out at all is no restriction: `SweepEffect` proves it of every reachable state. */
  predicate ChoiceOk(s: State, op: Op, now: Time) {
    match op
    case Sweep(order) => IsSweepOrder(s, now, order)
    case Prune(statuses, cutoff, take, chosen) => PruneChoice(s, statuses, cutoff, take, chosen)
    case Claim(_, _, kinds, clientToken, order, pick, newLease, newAttempt) =>
      (clientToken.Some? && TokenUsed(s, clientToken.value))
      || (&& IsSweepOrder(s, now, order)
          && EnabledAll(s, Expiries(order), now)
          && BestPick(DoAll(s, Expiries(order), now), kinds, now, pick)
          && newLease !in s.used && newAttempt !in s.used && newLease != newAttempt)
    case _ => true
  }

  datatype Step = Step(op: Op, now: Time)

  predicate Next(s: State, step: Step, s': State) {
    && ChoiceOk(s, step.op, step.now)
    && match Plan(s, step.op, step.now)
       case Err(_) => s' == s
       case Ok(ws) => EnabledAll(s, ws, step.now) && s' == DoAll(s, ws, step.now)
  }

  /** A run of the whole system: any callers, in any interleaving, each call one atomic step. */
  predicate Behaviour(states: seq<State>, steps: seq<Step>) {
    && |states| == |steps| + 1
    && states[0] == EMPTY
    && forall i | 0 <= i < |steps| :: Next(states[i], steps[i], states[i + 1])
  }

  /** A step of a single write. */
  lemma NextOne(s: State, step: Step, s': State, w: Write)
    requires Next(s, step, s') && Plan(s, step.op, step.now) == Ok([w])
    ensures Enabled(s, w, step.now) && s' == Do(s, w, step.now)
  {
    hide Plan, ChoiceOk, Enabled, Do;
    assert EnabledAll(s, [w], step.now) && [w][0] == w;
    DoAllOne(s, w, step.now);
  }

  // ---- What a write leaves alone ----

  /** Recomputing a run status touches no rows but the run's. */
  lemma DoRows(s: State, w: Write, now: Time)
    requires Enabled(s, w, now)
    ensures var d, r := Do(s, w, now), Raw(s, w, now);
            && d.tasks == r.tasks && d.attempts == r.attempts && d.leases == r.leases
            && d.completions == r.completions && d.used == r.used && d.runs.Keys == r.runs.Keys
  {
    hide Enabled, Raw, WriteRun, RecomputedRun, DeriveFrom, StatusesOf;
    RecomputedIsWritten(s, w, now);
  }

  lemma SettleEffect(s: State, tid: TaskId, how: Settlement, now: Time)
    requires Enabled(s, Settle(tid, how), now)
    ensures var s' := Do(s, Settle(tid, how), now);
            && s'.tasks == s.tasks[tid := Settled(s.tasks[tid], how, now)]
            && s'.leases == s.leases[LeaseIdOf(s, tid) := s.leases[LeaseIdOf(s, tid)].(status := SettledLease(how))]
            && s'.attempts == s.attempts[AttemptIdOf(s, tid) := s.attempts[AttemptIdOf(s, tid)].(status := SettledAttempt(how))]
            && s'.completions == s.completions && s'.used == s.used && s'.runs.Keys == s.runs.Keys
  {
    DoRows(s, Settle(tid, how), now);
  }

  // ---- Plans are always enabled ----

  predicate AllLapsed(s: State, now: Time, order: seq<TaskId>) {
    NoDuplicates(order) && forall x | x in order :: Lapsed(s, x, now)
  }

  lemma ExpiriesTail(order: seq<TaskId>)
    requires |order| > 0
    ensures Expiries(order)[0] == Settle(order[0], Expire) && Expiries(order)[1..] == Expiries(order[1..])
  {}

  lemma LapsedEnabled(s: State, tid: TaskId, now: Time)
    requires Inv(s) && Lapsed(s, tid, now)
    ensures Enabled(s, Settle(tid, Expire), now)
  {
    hide Inv;
    InvTask(s, tid);
  }

  lemma LapsedFrame(s: State, now: Time, order: seq<TaskId>)
    requires |order| > 0 && AllLapsed(s, now, order) && Enabled(s, Settle(order[0], Expire), now)
    ensures AllLapsed(Do(s, Settle(order[0], Expire), now), now, order[1..])
  {
    SettleEffect(s, order[0], Expire, now);
    hide Enabled;
    var s' := Do(s, Settle(order[0], Expire), now);
    hide Do;
    forall x | x in order[1..] ensures Lapsed(s', x, now) {
      var i :| 0 <= i < |order[1..]| && order[1..][i] == x;
      assert order[i + 1] == x && order[0] != order[i + 1];
      assert x in order;
    }
  }

  function SweptTask(t: Task, swept: bool, now: Time): Task {
    if swept then Settled(t, Expire, now) else t
  }

  function SweptLease(l: Lease, swept: bool): Lease {
    if swept && l.status == LeaseActive then l.(status := LeaseExpired) else l
  }

  function SweptAttempt(a: Attempt, swept: bool): Attempt {
    if swept && Live(a) then a.(status := AttemptExpired) else a
  }

  /** `s'` is `s` with the tasks of `order` expired: each task, lease and attempt separately. */
  predicate Swept(s: State, s': State, order: seq<TaskId>, now: Time) {
    && s'.tasks.Keys == s.tasks.Keys && s'.leases.Keys == s.leases.Keys && s'.attempts.Keys == s.attempts.Keys
    && s'.runs.Keys == s.runs.Keys && s'.used == s.used && s'.completions == s.completions
    && (forall r | r in s.runs :: s'.runs[r].status == RunCancelled <==> s.runs[r].status == RunCancelled)
    && (forall x | x in s.tasks :: s'.tasks[x] == SweptTask(s.tasks[x], x in order, now))
    && (forall x | x in s.leases :: s'.leases[x] == SweptLease(s.leases[x], s.leases[x].taskId in order))
    && (forall x | x in s.attempts :: s'.attempts[x] == SweptAttempt(s.attempts[x], s.attempts[x].taskId in order))
  }

  lemma SettleLeasesSwept(s: State, tid: TaskId)
    requires LeasesOk(s) && tid in s.tasks && TaskOk(s, tid) && Held(s.tasks[tid])
    ensures forall x | x in s.leases ::
              s.leases[LeaseIdOf(s, tid) := s.leases[LeaseIdOf(s, tid)].(status := LeaseExpired)][x]
              == SweptLease(s.leases[x], s.leases[x].taskId in [tid])
  {
    forall x | x in s.leases ensures s.leases[x].status == LeaseActive && s.leases[x].taskId == tid <==> x == LeaseIdOf(s, tid) {
      assert LeaseOk(s, x);
    }
  }

  lemma SettleAttemptsSwept(s: State, tid: TaskId)
    requires AttemptsOk(s) && tid in s.tasks && TaskOk(s, tid) && Held(s.tasks[tid])
    ensures forall x | x in s.attempts ::
              s.attempts[AttemptIdOf(s, tid) := s.attempts[AttemptIdOf(s, tid)].(status := AttemptExpired)][x]
              == SweptAttempt(s.attempts[x], s.attempts[x].taskId in [tid])
  {
    forall x | x in s.attempts ensures Live(s.attempts[x]) && s.attempts[x].taskId == tid <==> x == AttemptIdOf(s, tid) {
      assert AttemptOk(s, x);
    }
  }

  lemma LapsedHeld(s: State, tid: TaskId, now: Time)
    requires Inv(s) && Lapsed(s, tid, now)
    ensures tid in s.tasks && TaskOk(s, tid) && Held(s.tasks[tid]) && LeasesOk(s) && AttemptsOk(s)
    ensures SettledLease(Expire) == LeaseExpired && SettledAttempt(Expire) == AttemptExpired
  {
    hide Inv, TaskOk, LeasesOk, AttemptsOk;
    InvTables(s);
    InvTask(s, tid);
  }

  lemma ExpireSwept(s: State, tid: TaskId, now: Time)
    requires Inv(s) && Lapsed(s, tid, now) && Enabled(s, Settle(tid, Expire), now)
    ensures Swept(s, Do(s, Settle(tid, Expire), now), [tid], now)
  {
    hide *;
    LapsedHeld(s, tid, now);
    SettleEffect(s, tid, Expire, now);
    SettleCancelled(s, tid, Expire, now);
    LetGoSwept(s, Do(s, Settle(tid, Expire), now), tid, now);
  }

  lemma SettleRuns(s: State, tid: TaskId, how: Settlement, now: Time)
    requires Enabled(s, Settle(tid, how), now)
    ensures tid in s.tasks && Raw(s, Settle(tid, how), now).runs == s.runs && s.tasks[tid].spec.runId in s.runs
    ensures Do(s, Settle(tid, how), now) == Recompute(Raw(s, Settle(tid, how), now), s.tasks[tid].spec.runId, now)
  {
    hide Lapsed, Settled, SettledPayload, Recompute;
  }

  lemma RecomputeRuns(s: State, rid: RunId, now: Time)
    requires rid in s.runs
    ensures var s' := Recompute(s, rid, now);
            s'.runs.Keys == s.runs.Keys && forall r | r in s.runs && r != rid :: s'.runs[r] == s.runs[r]
  {
    hide DeriveFrom, StatusesOf;
  }

  lemma SettleCancelled(s: State, tid: TaskId, how: Settlement, now: Time)
    requires Inv(s) && Enabled(s, Settle(tid, how), now)
    ensures var s' := Do(s, Settle(tid, how), now);
            && s'.runs.Keys == s.runs.Keys
            && forall r | r in s.runs :: s'.runs[r].status == RunCancelled <==> s.runs[r].status == RunCancelled
  {
    hide Inv, Raw, Enabled, Do, TasksOk, LeasesOk, AttemptsOk, CompletionsOk, Unique, LogOk, Recompute, StatusesOf;
    InvTables(s);
    RawCore(s, Settle(tid, how), now);
    SettleRuns(s, tid, how, now);
    RecomputeRuns(Raw(s, Settle(tid, how), now), s.tasks[tid].spec.runId, now);
    RecomputeStatus(Raw(s, Settle(tid, how), now), s.tasks[tid].spec.runId, now);
  }

  lemma LetGoSwept(s: State, s': State, tid: TaskId, now: Time)
    requires LeasesOk(s) && AttemptsOk(s) && tid in s.tasks && TaskOk(s, tid) && Held(s.tasks[tid])
    requires s'.tasks == s.tasks[tid := Settled(s.tasks[tid], Expire, now)]
    requires s'.leases == s.leases[LeaseIdOf(s, tid) := s.leases[LeaseIdOf(s, tid)].(status := LeaseExpired)]
    requires s'.attempts == s.attempts[AttemptIdOf(s, tid) := s.attempts[AttemptIdOf(s, tid)].(status := AttemptExpired)]
    requires s'.completions == s.completions && s'.used == s.used && s'.runs.Keys == s.runs.Keys
    requires forall r | r in s.runs :: s'.runs[r].status == RunCancelled <==> s.runs[r].status == RunCancelled
    ensures Swept(s, s', [tid], now)
  {
    SettleLeasesSwept(s, tid);
    SettleAttemptsSwept(s, tid);
    hide LeasesOk, AttemptsOk, TaskOk, Settled, SweptLease, SweptAttempt;
  }

  lemma SweptTrans(s: State, s1: State, s2: State, order: seq<TaskId>, now: Time)
    requires |order| > 0 && NoDuplicates(order) && Swept(s, s1, [order[0]], now) && Swept(s1, s2, order[1..], now)
    ensures Swept(s, s2, order, now)
  {
    hide Settled;
    assert forall x :: x in order <==> x == order[0] || x in order[1..];
    assert order[0] !in order[1..];
  }

  lemma ExpireFirst(s: State, now: Time, order: seq<TaskId>)
    requires Inv(s) && |order| > 0 && AllLapsed(s, now, order)
    ensures Lapsed(s, order[0], now) && Enabled(s, Settle(order[0], Expire), now)
    ensures var s1 := Do(s, Settle(order[0], Expire), now); Inv(s1) && AllLapsed(s1, now, order[1..])
    ensures Expiries(order)[0] == Settle(order[0], Expire) && Expiries(order)[1..] == Expiries(order[1..])
  {
    assert order[0] in order;
    hide Inv, Enabled, Do, Lapsed;
    LapsedEnabled(s, order[0], now);
    DoInv(s, Settle(order[0], Expire), now);
    LapsedFrame(s, now, order);
    ExpiriesTail(order);
  }

  lemma {:induction false} SweepRuns(s: State, now: Time, order: seq<TaskId>)
    requires Inv(s) && AllLapsed(s, now, order)
    ensures EnabledAll(s, Expiries(order), now) && Inv(DoAll(s, Expiries(order), now))
    decreases |order|
  {
    hide Inv, Enabled, Do, Lapsed, AllLapsed;
    if |order| > 0 {
      ExpireFirst(s, now, order);
      SweepRuns(Do(s, Settle(order[0], Expire), now), now, order[1..]);
    }
  }

  lemma {:induction false} SweepSweeps(s: State, now: Time, order: seq<TaskId>)
    requires Inv(s) && AllLapsed(s, now, order) && EnabledAll(s, Expiries(order), now)
    ensures Swept(s, DoAll(s, Expiries(order), now), order, now)
    decreases |order|
  {
    hide Inv, Enabled, Do, Lapsed;
    if |order| > 0 {
      hide Swept;
      ExpireFirst(s, now, order);
      ExpireSwept(s, order[0], now);
      var s1 := Do(s, Settle(order[0], Expire), now);
      SweepSweeps(s1, now, order[1..]);
      SweptTrans(s, s1, DoAll(s1, Expiries(order[1..]), now), order, now);
    }
  }

  /** A sweep can always be carried out, in any order, and does to each lapsed task exactly what the
      store does to it alone. */
  lemma SweepEffect(s: State, now: Time, order: seq<TaskId>)
    requires Inv(s) && AllLapsed(s, now, order)
    ensures EnabledAll(s, Expiries(order), now)
    ensures Inv(DoAll(s, Expiries(order), now))
    ensures Swept(s, DoAll(s, Expiries(order), now), order, now)
  {
    hide *;
    SweepRuns(s, now, order);
    SweepSweeps(s, now, order);
  }

  lemma GrantEnabled(s: State, op: Op, now: Time)
    requires Inv(s) && op.Claim? && ChoiceOk(s, op, now) && op.pick.Some?
    requires !(op.clientToken.Some? && TokenUsed(s, op.clientToken.value))
    ensures Enabled(DoAll(s, Expiries(op.order), now),
                    Grant(op.pick.value, op.newLease, op.newAttempt, op.worker, now + op.leaseMs, op.clientToken), now)
  {
    hide Inv;
    SweepEffect(s, now, op.order);
  }

  lemma CheckedLease(s: State, tid: TaskId, lid: Uuid, worker: WorkerId, now: Time)
    requires Inv(s) && CheckLease(s, tid, lid, worker, now).None?
    ensures HasLease(s, tid) && LeaseIdOf(s, tid) == lid && s.tasks[tid].leasedBy == Some(worker)
    ensures s.tasks[tid].spec.runId in s.runs && !Lapsed(s, tid, now)
  {
    hide Inv;
    InvTask(s, tid);
  }

  lemma PlanClaimEnabled(s: State, op: Op, now: Time)
    requires Inv(s) && op.Claim? && ChoiceOk(s, op, now)
    ensures EnabledAll(s, Plan(s, op, now).value, now)
  {
    hide Inv, Enabled, Do;
    if !(op.clientToken.Some? && TokenUsed(s, op.clientToken.value)) {
      SweepEffect(s, now, op.order);
      if op.pick.Some? {
        GrantEnabled(s, op, now);
        DoAllAppend(s, Expiries(op.order),
                    Grant(op.pick.value, op.newLease, op.newAttempt, op.worker, now + op.leaseMs, op.clientToken), now);
      }
    }
  }

  lemma {:induction false} PurgesEnabled(s: State, chosen: seq<RunId>, now: Time)
    requires NoDuplicates(chosen) && forall r | r in chosen :: r in s.runs
    ensures EnabledAll(s, Purges(chosen), now)
    ensures DoAll(s, Purges(chosen), now).runs == map r | r in s.runs && r !in chosen :: s.runs[r]
    decreases |chosen|
  {
    if |chosen| > 0 {
      var s1 := Do(s, Purge(chosen[0]), now);
      assert Purges(chosen)[1..] == Purges(chosen[1..]);
      assert forall x :: x in chosen <==> x == chosen[0] || x in chosen[1..];
      PurgesEnabled(s1, chosen[1..], now);
    }
  }

  /** Counting the rows of the dependency query is the same as checking each dependency, as long as
      none is listed twice. */
  lemma DependencyRowsCount(s: State, rid: RunId, deps: seq<TaskId>)
    ensures |DependencyRows(s, rid, deps)| == |deps| <==>
            NoDuplicates(deps) && forall d | d in deps :: InRun(s, d, rid)
  {
    CountDistinct(deps);
    var rows, all := DependencyRows(s, rid, deps), Elements(deps);
    assert rows <= all;
    if rows == all {
      assert forall d | d in deps :: d in rows;
    } else {
      var d :| d in all && d !in rows;
      assert rows <= all - {d};
      SubsetSize(rows, all - {d});
    }
  }

  lemma {:induction false} SubsetSize<T>(a: set<T>, b: set<T>)
    requires a <= b
    ensures |a| <= |b|
  {
    if a != {} {
      var x :| x in a;
      SubsetSize(a - {x}, b - {x});
    }
  }

  lemma {:induction false} CountDistinct<T>(xs: seq<T>)
    ensures |Elements(xs)| <= |xs|
    ensures |Elements(xs)| == |xs| <==> NoDuplicates(xs)
    decreases |xs|
  {
    if |xs| > 0 {
      var rest := xs[1..];
      CountDistinct(rest);
      if xs[0] in rest {
        assert Elements(xs) == Elements(rest);
        var j :| 0 <= j < |rest| && rest[j] == xs[0];
        assert xs[j + 1] == xs[0];
      } else {
        assert Elements(xs) == {xs[0]} + Elements(rest);
        assert forall i | 0 <= i < |rest| :: rest[i] == xs[i + 1];
        if NoDuplicates(rest) {
          forall i, j | 0 <= i < j < |xs| ensures xs[i] != xs[j] {
            assert xs[j] in rest;
            if i > 0 {
              assert rest[i - 1] != rest[j - 1];
            }
          }
        }
      }
    }
  }

  lemma PlanEnqueueEnabled(s: State, tid: TaskId, o: EnqueueOptions, now: Time)
    requires PlanEnqueue(s, tid, o).Ok?
    ensures EnabledAll(s, PlanEnqueue(s, tid, o).value, now)
  {
    DependencyRowsCount(s, o.runId, o.deps);
    DoAllOne(s, AddTask(tid, SpecOf(o)), now);
  }

  lemma UnderLeaseEnabled(s: State, tid: TaskId, lid: Uuid, worker: WorkerId, now: Time, to_: TaskStatus, w: Write)
    requires Inv(s) && UnderLease(s, tid, lid, worker, now, to_, [w]).Ok?
    requires (w == Begin(tid) && to_ == Running)
             || (w.Settle? && w.tid == tid && !w.how.Expire? && (w.how.Park? ==> WaitingStatus(w.how.status)))
    ensures Enabled(s, w, now)
  {
    hide Inv, CheckLease, Lapsed, HasLease;
    CheckedLease(s, tid, lid, worker, now);
  }

  lemma HeartbeatEnabled(s: State, tid: TaskId, lid: Uuid, worker: WorkerId, now: Time, expiresAt: Time)
    requires Inv(s) && CheckLease(s, tid, lid, worker, now).None?
    ensures Enabled(s, Extend(tid, expiresAt), now)
  {
    CheckedLease(s, tid, lid, worker, now);
    hide Inv, CheckLease, Lapsed;
  }

  lemma SettledRecordable(s: State, tid: TaskId, how: Settlement, token: Token, outcome: Outcome, now: Time)
    requires Inv(s) && Enabled(s, Settle(tid, how), now) && token !in s.completions
    requires (how.Finish? && outcome == OutcomeCompleted) || (how.GiveUp? && outcome == OutcomeFailed)
    ensures Enabled(Do(s, Settle(tid, how), now), Record(token, tid, outcome), now)
  {
    hide Inv, Do;
    InvTask(s, tid);
    SettleEffect(s, tid, how, now);
  }

  lemma SettleRecordEnabled(s: State, tid: TaskId, how: Settlement, token: Token, outcome: Outcome, now: Time)
    requires Inv(s) && Enabled(s, Settle(tid, how), now) && token !in s.completions
    requires (how.Finish? && outcome == OutcomeCompleted) || (how.GiveUp? && outcome == OutcomeFailed)
    ensures EnabledAll(s, [Settle(tid, how), Record(token, tid, outcome)], now)
  {
    hide Inv, Do, Enabled;
    DoAllOne(s, Settle(tid, how), now);
    SettledRecordable(s, tid, how, token, outcome, now);
    DoAllAppend(s, [Settle(tid, how)], Record(token, tid, outcome), now);
    assert [Settle(tid, how)] + [Record(token, tid, outcome)] == [Settle(tid, how), Record(token, tid, outcome)];
  }

  lemma PlanOutcomeEnabled(s: State, tid: TaskId, lid: Uuid, worker: WorkerId, now: Time,
                           clientToken: Option<Token>, outcome: Outcome, how: Settlement)
    requires Inv(s) && PlanOutcome(s, tid, lid, worker, now, clientToken, outcome, how).Ok?
    requires (how.Finish? && outcome == OutcomeCompleted) || (how.GiveUp? && outcome == OutcomeFailed)
    ensures EnabledAll(s, PlanOutcome(s, tid, lid, worker, now, clientToken, outcome, how).value, now)
  {
    hide Inv, Do, Enabled, CheckLease;
    var ws := PlanOutcome(s, tid, lid, worker, now, clientToken, outcome, how).value;
    if |ws| > 0 {
      UnderLeaseEnabled(s, tid, lid, worker, now, OutcomeStatus(outcome), Settle(tid, how));
      if clientToken.None? {
        DoAllOne(s, Settle(tid, how), now);
      } else {
        SettleRecordEnabled(s, tid, how, clientToken.value, outcome, now);
      }
    }
  }

  lemma PlanLeaseEnabled(s: State, op: Op, now: Time)
    requires Inv(s) && (op.Heartbeat? || op.MarkRunning? || op.Pause? || op.Release?) && Plan(s, op, now).Ok?
    ensures EnabledAll(s, Plan(s, op, now).value, now)
  {
    hide Inv, Do, Enabled, CheckLease;
    match op {
      case Heartbeat(tid, lid, worker, leaseMs) => HeartbeatEnabled(s, tid, lid, worker, now, now + leaseMs);
      case MarkRunning(tid, lid, worker) => UnderLeaseEnabled(s, tid, lid, worker, now, Running, Begin(tid));
      case Pause(tid, lid, worker, needsInput) =>
        UnderLeaseEnabled(s, tid, lid, worker, now, PauseStatus(needsInput), Settle(tid, Park(PauseStatus(needsInput))));
      case Release(tid, lid, worker) => UnderLeaseEnabled(s, tid, lid, worker, now, Queued, Settle(tid, HandBack));
    }
    DoAllOne(s, Plan(s, op, now).value[0], now);
  }

  lemma PlanQueueEnabled(s: State, op: Op, now: Time)
    requires Inv(s) && (op.Resume? || op.RequeueDead?) && Plan(s, op, now).Ok?
    ensures EnabledAll(s, Plan(s, op, now).value, now)
  {
    TaskRunsExist(s, op.tid);
    hide Inv;
    DoAllOne(s, Plan(s, op, now).value[0], now);
  }

  /** Whenever an operation does not fail, all its writes can be performed. */
  lemma PlanEnabled(s: State, op: Op, now: Time)
    requires Inv(s) && ChoiceOk(s, op, now) && Plan(s, op, now).Ok?
    ensures EnabledAll(s, Plan(s, op, now).value, now)
  {
    hide Inv, Enabled, Do;
    match op
    case CreateRun(rid) => CreateRunEnabled(s, rid, now);
    case Enqueue(tid, options) => PlanEnqueueEnabled(s, tid, options, now);
    case Claim(_, _, _, _, _, _, _, _) => PlanClaimEnabled(s, op, now);
    case Heartbeat(_, _, _, _) => PlanLeaseEnabled(s, op, now);
    case MarkRunning(_, _, _) => PlanLeaseEnabled(s, op, now);
    case Pause(_, _, _, _) => PlanLeaseEnabled(s, op, now);
    case Resume(_) => PlanQueueEnabled(s, op, now);
    case Complete(tid, lid, worker, clientToken) =>
      PlanOutcomeEnabled(s, tid, lid, worker, now, clientToken, OutcomeCompleted, Finish);
    case Fail(tid, lid, worker, error, clientToken) =>
      PlanOutcomeEnabled(s, tid, lid, worker, now, clientToken, OutcomeFailed, GiveUp(error));
    case Release(_, _, _) => PlanLeaseEnabled(s, op, now);
    case CancelRun(rid) => CancelRunEnabled(s, rid, now);
    case Sweep(order) => SweepEffect(s, now, order);
    case RequeueDead(_, _, _) => PlanQueueEnabled(s, op, now);
    case Prune(statuses, cutoff, take, chosen) => PurgesEnabled(s, chosen, now);
  }

  lemma CreateRunEnabled(s: State, rid: RunId, now: Time)
    requires rid !in s.runs
    ensures EnabledAll(s, [OpenRun(rid)], now)
  {
    DoAllOne(s, OpenRun(rid), now);
  }

  lemma CancelRunEnabled(s: State, rid: RunId, now: Time)
    requires Plan(s, CancelRun(rid), now).Ok?
    ensures EnabledAll(s, Plan(s, CancelRun(rid), now).value, now)
  {
    if s.runs[rid].status != RunCancelled {
      DoAllOne(s, CancelAll(rid), now);
    }
  }

  // ---- Reachable states ----

  lemma NextInv(s: State, step: Step, s': State)
    requires Inv(s) && Next(s, step, s')
    ensures Inv(s')
  {
    hide Inv, Enabled, Do;
    if Plan(s, step.op, step.now).Ok? {
      DoAllInv(s, Plan(s, step.op, step.now).value, step.now);
    }
  }

  /** The invariant holds in every state of every behaviour. */
  lemma {:induction false} ReachableInv(states: seq<State>, steps: seq<Step>, i: nat)
    requires Behaviour(states, steps) && i < |states|
    ensures Inv(states[i])
  {
    hide Inv, Next;
    if i == 0 {
      EmptyInv();
    } else {
      ReachableInv(states, steps, i - 1);
      NextInv(states[i - 1], steps[i - 1], states[i]);
    }
  }

  /** No reachable state blocks an operation: it either fails or has a next state. */
  lemma NextExists(s: State, step: Step)
    requires Inv(s) && ChoiceOk(s, step.op, step.now)
    ensures exists s' :: Next(s, step, s')
  {
    hide Inv, Enabled, Do;
    match Plan(s, step.op, step.now)
    case Err(_) => assert Next(s, step, s);
    case Ok(ws) =>
      PlanEnabled(s, step.op, step.now);
      assert Next(s, step, DoAll(s, ws, step.now));
  }
}
