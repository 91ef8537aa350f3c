/** The writes a transaction is made of.  One write changes the rows of one task (or one run), appends
    the event that reports it and, where the source does so, recomputes the status of the run. */
module Writes {
  import opened Records
  import opened StateMachine

  const MAX_ATTEMPTS_EXCEEDED := "max_attempts_exceeded"

  /** How a lease ends other than by cancellation. */
  datatype Settlement =
    | Park(status: TaskStatus)
    | Finish
    | GiveUp(error: string)
    | HandBack
    | Expire

  datatype Write =
    | OpenRun(rid: RunId)
    | AddTask(tid: TaskId, spec: TaskSpec)
    | Grant(tid: TaskId, lid: Uuid, aid: Uuid, worker: WorkerId, expiresAt: Time, clientToken: Option<Token>)
    | Extend(tid: TaskId, expiresAt: Time)
    | Begin(tid: TaskId)
    | Settle(tid: TaskId, how: Settlement)
    | Revive(tid: TaskId)
    | Redrive(tid: TaskId, reset: bool, notBefore: Option<Time>)
    | Record(token: Token, tid: TaskId, outcome: Outcome)
    | CancelAll(rid: RunId)
    | Purge(rid: RunId)

  // ---- Arithmetic of retries ----

  function Pow2(n: nat): nat {
    if n == 0 then 1 else 2 * Pow2(n - 1)
  }

  /** The delay before the next attempt once `attempt` attempts have been made, if there is one. */
  function RetryDelay(retry: Retry, attempt: nat): Option<int> {
    if retry.delayMs.None? || retry.delayMs.value <= 0 then None
    else
      var n := if attempt < 1 then 1 else attempt;
      var delay := if retry.exponential then retry.delayMs.value * Pow2(n - 1) else retry.delayMs.value;
      if retry.maxDelayMs.Some? && retry.maxDelayMs.value > 0 && retry.maxDelayMs.value < delay
      then Some(retry.maxDelayMs.value)
      else Some(delay)
  }

  /** `computeNotBefore`. */
  function ComputeNotBefore(t: Task, now: Time): Option<Time> {
    match RetryDelay(t.spec.retry, t.attemptCount)
    case None => None
    case Some(delay) => Some(now + delay)
  }

  // ---- Queries ----

  predicate InRun(s: State, tid: TaskId, rid: RunId) {
    tid in s.tasks && s.tasks[tid].spec.runId == rid
  }

  function StatusesOf(s: State, rid: RunId): set<TaskStatus> {
    set tid | tid in s.tasks && InRun(s, tid, rid) :: s.tasks[tid].status
  }

  predicate HasBudget(t: Task) {
    t.spec.maxAttempts.None? || t.attemptCount < t.spec.maxAttempts.value
  }

  predicate DepsCompleted(s: State, t: Task) {
    forall d | d in t.spec.deps :: d in s.tasks && s.tasks[d].status == Completed
  }

  predicate TokenUsed(s: State, token: Token) {
    exists lid | lid in s.leases :: s.leases[lid].clientToken == Some(token)
  }

  predicate KeyTaken(s: State, rid: RunId, key: Key) {
    exists tid | tid in s.tasks :: s.tasks[tid].spec.runId == rid && s.tasks[tid].spec.key == Some(key)
  }

  /** The task is held and its three records are there to be updated. */
  predicate HasLease(s: State, tid: TaskId) {
    && tid in s.tasks && Held(s.tasks[tid])
    && s.tasks[tid].leaseId.Some? && s.tasks[tid].leasedBy.Some? && s.tasks[tid].leaseExpiresAt.Some?
    && s.tasks[tid].leaseId.value in s.leases
    && s.leases[s.tasks[tid].leaseId.value].attemptId in s.attempts
  }

  function LeaseIdOf(s: State, tid: TaskId): Uuid
    requires HasLease(s, tid)
  {
    s.tasks[tid].leaseId.value
  }

  function AttemptIdOf(s: State, tid: TaskId): Uuid
    requires HasLease(s, tid)
  {
    s.leases[LeaseIdOf(s, tid)].attemptId
  }

  predicate Lapsed(s: State, tid: TaskId, now: Time) {
    tid in s.tasks && Held(s.tasks[tid]) && s.tasks[tid].leaseExpiresAt.Some? && s.tasks[tid].leaseExpiresAt.value < now
  }

  predicate Exhausted(t: Task) {
    t.spec.maxAttempts.Some? && t.attemptCount >= t.spec.maxAttempts.value
  }

  // ---- Row updates ----

  function Emit(s: State, rid: RunId, tid: Option<TaskId>, aid: Option<Uuid>, payload: Payload, now: Time): State {
    s.(log := s.log + [Event(s.seqNo + 1, rid, tid, aid, payload, now)], seqNo := s.seqNo + 1)
  }

  /** `recomputeRunStatus`. */
  function Recompute(s: State, rid: RunId, now: Time): State
    requires rid in s.runs
  {
    var current := s.runs[rid].status;
    var next := DeriveFrom(current, StatusesOf(s, rid));
    var written := s.(runs := s.runs[rid := Run(next, now)]);
    if next != current then Emit(written, rid, None, None, RunStatusChanged(current, next), now) else written
  }

  function NewTask(s: State, spec: TaskSpec, now: Time): Task {
    Task(spec, now, s.seqNo, Queued, 0, None, None, None, None, None, false)
  }

  function Unleased(t: Task, status: TaskStatus): Task {
    t.(status := status, leaseId := None, leasedBy := None, leaseExpiresAt := None)
  }

  function Granted(t: Task, lid: Uuid, worker: WorkerId, expiresAt: Time): Task {
    t.(status := Leased, attemptCount := t.attemptCount + 1, leaseId := Some(lid), leasedBy := Some(worker),
       leaseExpiresAt := Some(expiresAt), notBefore := None)
  }

  function Settled(t: Task, how: Settlement, now: Time): Task {
    match how
    case Park(status) => Unleased(t, status)
    case Finish => Unleased(t, Completed)
    case GiveUp(error) => Unleased(t, Failed).(error := Some(error))
    case HandBack => Unleased(t, Queued)
    case Expire =>
      if Exhausted(t)
      then Unleased(t, Failed).(error := Some(MAX_ATTEMPTS_EXCEEDED), notBefore := None, dead := true)
      else Unleased(t, Queued).(notBefore := ComputeNotBefore(t, now))
  }

  function SettledAttempt(how: Settlement): AttemptStatus {
    match how
    case Park(_) => AttemptReleased
    case Finish => AttemptCompleted
    case GiveUp(_) => AttemptFailed
    case HandBack => AttemptReleased
    case Expire => AttemptExpired
  }

  function SettledLease(how: Settlement): LeaseStatus {
    if how.Expire? then LeaseExpired else LeaseReleased
  }

  function SettledPayload(t: Task, how: Settlement, now: Time): Payload
    requires t.leasedBy.Some? && t.leaseId.Some?
  {
    match how
    case Park(status) => TaskPaused(status, t.leasedBy.value)
    case Finish => TaskCompleted(t.leasedBy.value)
    case GiveUp(error) => TaskFailed(t.leasedBy.value, error)
    case HandBack => TaskReleased(t.leasedBy.value)
    case Expire =>
      if Exhausted(t) then TaskFailed(t.leasedBy.value, MAX_ATTEMPTS_EXCEEDED)
      else TaskLeaseExpired(t.leasedBy.value, t.status, t.leaseId.value, ComputeNotBefore(t, now))
  }

  function GrantRows(s: State, tid: TaskId, lid: Uuid, aid: Uuid, worker: WorkerId, expiresAt: Time, token: Option<Token>): State
    requires tid in s.tasks
  {
    var t := s.tasks[tid];
    s.(tasks := s.tasks[tid := Granted(t, lid, worker, expiresAt)],
       attempts := s.attempts[aid := Attempt(t.spec.runId, tid, worker, AttemptLeased, expiresAt)],
       leases := s.leases[lid := Lease(t.spec.runId, tid, aid, worker, LeaseActive, expiresAt, token)],
       used := s.used + {lid, aid})
  }

  function ExtendRows(s: State, tid: TaskId, expiresAt: Time): State
    requires HasLease(s, tid)
  {
    var lid, aid := LeaseIdOf(s, tid), AttemptIdOf(s, tid);
    s.(tasks := s.tasks[tid := s.tasks[tid].(leaseExpiresAt := Some(expiresAt))],
       attempts := s.attempts[aid := s.attempts[aid].(expiresAt := expiresAt)],
       leases := s.leases[lid := s.leases[lid].(expiresAt := expiresAt)])
  }

  function BeginRows(s: State, tid: TaskId): State
    requires HasLease(s, tid)
  {
    var aid := AttemptIdOf(s, tid);
    s.(tasks := s.tasks[tid := s.tasks[tid].(status := Running)],
       attempts := s.attempts[aid := s.attempts[aid].(status := AttemptRunning)])
  }

  function SettleRows(s: State, tid: TaskId, how: Settlement, now: Time): State
    requires HasLease(s, tid)
  {
    var lid, aid := LeaseIdOf(s, tid), AttemptIdOf(s, tid);
    s.(tasks := s.tasks[tid := Settled(s.tasks[tid], how, now)],
       attempts := s.attempts[aid := s.attempts[aid].(status := SettledAttempt(how))],
       leases := s.leases[lid := s.leases[lid].(status := SettledLease(how))])
  }

  function Redriven(t: Task, reset: bool, notBefore: Option<Time>): Task {
    Unleased(t, Queued).(dead := false, error := None, notBefore := notBefore,
                         attemptCount := if reset then 0 else t.attemptCount)
  }

  function CancelTask(t: Task): Task {
    if t.status == Completed || t.status == Failed || t.status == Cancelled then t else Unleased(t, Cancelled)
  }

  function CancelAttempt(a: Attempt): Attempt {
    if Live(a) then a.(status := AttemptCancelled) else a
  }

  function CancelLease(l: Lease): Lease {
    if l.status == LeaseActive then l.(status := LeaseCancelled) else l
  }

  function CancelRows(s: State, rid: RunId, now: Time): State
    requires rid in s.runs
  {
    s.(runs := s.runs[rid := Run(RunCancelled, now)],
       tasks := map x | x in s.tasks :: if s.tasks[x].spec.runId == rid then CancelTask(s.tasks[x]) else s.tasks[x],
       attempts := map x | x in s.attempts :: if s.attempts[x].runId == rid then CancelAttempt(s.attempts[x]) else s.attempts[x],
       leases := map x | x in s.leases :: if s.leases[x].runId == rid then CancelLease(s.leases[x]) else s.leases[x])
  }

  function DropRun(log: seq<Event>, rid: RunId): seq<Event> {
    if |log| == 0 then []
    else
      var rest := DropRun(log[..|log| - 1], rid);
      if log[|log| - 1].runId == rid then rest else rest + [log[|log| - 1]]
  }

  function PurgeRows(s: State, rid: RunId): State {
    s.(runs := map x | x in s.runs && x != rid :: s.runs[x],
       tasks := map x | x in s.tasks && s.tasks[x].spec.runId != rid :: s.tasks[x],
       attempts := map x | x in s.attempts && s.attempts[x].runId != rid :: s.attempts[x],
       leases := map x | x in s.leases && s.leases[x].runId != rid :: s.leases[x],
       completions := map x | x in s.completions && s.completions[x].runId != rid :: s.completions[x],
       log := DropRun(s.log, rid))
  }

  // ---- Writes ----

  /** The circumstances in which the store performs a write.  Every transaction checks them before it
      writes; `Transactions.PlanEnabled` proves so. */
  predicate Enabled(s: State, w: Write, now: Time) {
    match w
    case OpenRun(rid) => rid !in s.runs
    case AddTask(tid, spec) =>
      && tid !in s.tasks
      && spec.runId in s.runs && !TerminalRun(s.runs[spec.runId].status)
      && tid !in spec.deps
      && (forall d | d in spec.deps :: InRun(s, d, spec.runId))
      && (spec.key.Some? ==> !KeyTaken(s, spec.runId, spec.key.value))
    case Grant(tid, lid, aid, worker, expiresAt, token) =>
      && Claimable(s, tid, now)
      && lid !in s.used && aid !in s.used && lid != aid
      && (token.Some? ==> !TokenUsed(s, token.value))
    case Extend(tid, expiresAt) => HasLease(s, tid) && s.tasks[tid].spec.runId in s.runs
    case Begin(tid) => HasLease(s, tid) && s.tasks[tid].status == Leased && s.tasks[tid].spec.runId in s.runs
    case Settle(tid, how) =>
      && HasLease(s, tid) && s.tasks[tid].spec.runId in s.runs
      && (how.Park? ==> WaitingStatus(how.status))
      && (how.Expire? ==> Lapsed(s, tid, now))
    case Revive(tid) => tid in s.tasks && WaitingStatus(s.tasks[tid].status) && s.tasks[tid].spec.runId in s.runs
    case Redrive(tid, reset, notBefore) => tid in s.tasks && s.tasks[tid].dead && s.tasks[tid].spec.runId in s.runs
    case Record(token, tid, outcome) =>
      && token !in s.completions
      && tid in s.tasks && s.tasks[tid].status == OutcomeStatus(outcome) && !s.tasks[tid].dead
    case CancelAll(rid) => rid in s.runs && s.runs[rid].status != RunCancelled
    case Purge(rid) => rid in s.runs
  }

  /** The WHERE clause of the claim query, apart from the filter on kinds. */
  predicate Claimable(s: State, tid: TaskId, now: Time) {
    && tid in s.tasks && s.tasks[tid].status == Queued
    && s.tasks[tid].spec.runId in s.runs && !TerminalRun(s.runs[s.tasks[tid].spec.runId].status)
    && (s.tasks[tid].notBefore.Some? ==> s.tasks[tid].notBefore.value <= now)
    && HasBudget(s.tasks[tid])
    && DepsCompleted(s, s.tasks[tid])
  }

  /** The row updates and task events of a write, before the run status is recomputed. */
  function Raw(s: State, w: Write, now: Time): State
    requires Enabled(s, w, now)
  {
    match w
    case OpenRun(rid) => Emit(s.(runs := s.runs[rid := Run(RunPending, now)]), rid, None, None, RunCreated, now)
    case AddTask(tid, spec) =>
      Emit(s.(tasks := s.tasks[tid := NewTask(s, spec, now)]), spec.runId, Some(tid), None,
           TaskEnqueued(spec.kind, spec.priority, spec.deps), now)
    case Grant(tid, lid, aid, worker, expiresAt, token) =>
      Emit(GrantRows(s, tid, lid, aid, worker, expiresAt, token), s.tasks[tid].spec.runId, Some(tid), Some(aid),
           TaskClaimed(worker, lid, expiresAt), now)
    case Extend(tid, expiresAt) =>
      Emit(ExtendRows(s, tid, expiresAt), s.tasks[tid].spec.runId, Some(tid), Some(AttemptIdOf(s, tid)),
           TaskHeartbeat(s.tasks[tid].leasedBy.value, LeaseIdOf(s, tid), expiresAt), now)
    case Begin(tid) =>
      Emit(BeginRows(s, tid), s.tasks[tid].spec.runId, Some(tid), Some(AttemptIdOf(s, tid)),
           TaskRunning(s.tasks[tid].leasedBy.value, LeaseIdOf(s, tid)), now)
    case Settle(tid, how) =>
      var t := s.tasks[tid];
      var told := Emit(SettleRows(s, tid, how, now), t.spec.runId, Some(tid), Some(AttemptIdOf(s, tid)),
                       SettledPayload(t, how, now), now);
      if how.Expire? && Exhausted(t) then
        Emit(told, t.spec.runId, Some(tid), Some(AttemptIdOf(s, tid)),
             TaskDeadLettered(t.leasedBy.value, t.attemptCount, t.spec.maxAttempts.value), now)
      else told
    case Revive(tid) =>
      Emit(s.(tasks := s.tasks[tid := s.tasks[tid].(status := Queued)]), s.tasks[tid].spec.runId, Some(tid), None,
           TaskResumed, now)
    case Redrive(tid, reset, notBefore) =>
      Emit(s.(tasks := s.tasks[tid := Redriven(s.tasks[tid], reset, notBefore)]), s.tasks[tid].spec.runId, Some(tid), None,
           TaskRequeued(reset, notBefore, s.tasks[tid].attemptCount), now)
    case Record(token, tid, outcome) =>
      s.(completions := s.completions[token := Completion(tid, s.tasks[tid].spec.runId, outcome)])
    case CancelAll(rid) => Emit(CancelRows(s, rid, now), rid, None, None, RunCancelledByCaller, now)
    case Purge(rid) => PurgeRows(s, rid)
  }

  /** The run whose status is recomputed after the write. */
  function RecomputedRun(s: State, w: Write): Option<RunId>
  {
    match w
    case AddTask(_, spec) => Some(spec.runId)
    case Grant(tid, _, _, _, _, _) => if tid in s.tasks then Some(s.tasks[tid].spec.runId) else None
    case Begin(tid) => if tid in s.tasks then Some(s.tasks[tid].spec.runId) else None
    case Settle(tid, _) => if tid in s.tasks then Some(s.tasks[tid].spec.runId) else None
    case Revive(tid) => if tid in s.tasks then Some(s.tasks[tid].spec.runId) else None
    case Redrive(tid, _, _) => if tid in s.tasks then Some(s.tasks[tid].spec.runId) else None
    case _ => None
  }

  function Do(s: State, w: Write, now: Time): State
    requires Enabled(s, w, now)
  {
    var raw := Raw(s, w, now);
    match RecomputedRun(s, w)
    case None => raw
    case Some(rid) => Recompute(raw, rid, now)
  }

  predicate EnabledAll(s: State, ws: seq<Write>, now: Time)
    decreases |ws|
  {
    |ws| == 0 || (Enabled(s, ws[0], now) && EnabledAll(Do(s, ws[0], now), ws[1..], now))
  }

  function DoAll(s: State, ws: seq<Write>, now: Time): State
    requires EnabledAll(s, ws, now)
    decreases |ws|
  {
    if |ws| == 0 then s else DoAll(Do(s, ws[0], now), ws[1..], now)
  }

  lemma DoAllAppend(s: State, ws: seq<Write>, w: Write, now: Time)
    requires EnabledAll(s, ws, now) && Enabled(DoAll(s, ws, now), w, now)
    ensures EnabledAll(s, ws + [w], now)
    ensures DoAll(s, ws + [w], now) == Do(DoAll(s, ws, now), w, now)
    decreases |ws|
  {
    if |ws| == 0 {
      assert [] + [w] == [w];
      assert ws + [w] == [w];
    } else {
      DoAllAppend(Do(s, ws[0], now), ws[1..], w, now);
      assert (ws + [w])[1..] == ws[1..] + [w];
    }
  }

  lemma DoAllOne(s: State, w: Write, now: Time)
    requires Enabled(s, w, now)
    ensures EnabledAll(s, [w], now) && DoAll(s, [w], now) == Do(s, w, now)
  {
    assert [w][1..] == [];
  }
}
