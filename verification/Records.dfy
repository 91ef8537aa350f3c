/** The rows of the store: runs, tasks, attempts, leases, completion tokens and the event log.

    Ids are natural numbers and times are integers in milliseconds.  Of each row only the columns
    that decide a transition, an ordering or a reply are kept. */
module Records {

  datatype Option<+T> = None | Some(value: T)

  type RunId = nat
  type TaskId = nat
  /** Lease and attempt ids, which the store draws with `randomUUID`. */
  type Uuid = nat
  type WorkerId = nat
  type Token = nat
  type Kind = nat
  type Key = nat
  type Time = int

  datatype TaskStatus = Queued | Leased | Running | Blocked | WaitingInput | Completed | Failed | Cancelled

  datatype RunStatus = RunPending | RunActive | RunWaiting | RunCompleted | RunFailed | RunCancelled

  datatype AttemptStatus =
    AttemptLeased | AttemptRunning | AttemptReleased | AttemptCompleted | AttemptFailed | AttemptExpired | AttemptCancelled

  datatype LeaseStatus = LeaseActive | LeaseReleased | LeaseExpired | LeaseCancelled

  datatype Outcome = OutcomeCompleted | OutcomeFailed

  datatype Retry = Retry(delayMs: Option<int>, exponential: bool, maxDelayMs: Option<int>)

  /** What a task is given when it is enqueued and keeps for life. */
  datatype TaskSpec = TaskSpec(
    runId: RunId, key: Option<Key>, kind: Kind, priority: int, maxAttempts: Option<int>, retry: Retry, deps: set<TaskId>)

  /** `row` is the insertion stamp of the row: later rows have larger stamps. */
  datatype Task = Task(
    spec: TaskSpec, createdAt: Time, row: nat,
    status: TaskStatus, attemptCount: nat, notBefore: Option<Time>, error: Option<string>,
    leaseId: Option<Uuid>, leasedBy: Option<WorkerId>, leaseExpiresAt: Option<Time>, dead: bool)

  datatype Run = Run(status: RunStatus, updatedAt: Time)

  datatype Attempt = Attempt(runId: RunId, taskId: TaskId, worker: WorkerId, status: AttemptStatus, expiresAt: Time)

  datatype Lease = Lease(
    runId: RunId, taskId: TaskId, attemptId: Uuid, worker: WorkerId, status: LeaseStatus, expiresAt: Time,
    clientToken: Option<Token>)

  datatype Completion = Completion(taskId: TaskId, runId: RunId, outcome: Outcome)

  datatype Payload =
    | RunCreated
    | RunStatusChanged(from: RunStatus, to: RunStatus)
    | RunCancelledByCaller
    | TaskEnqueued(kind: Kind, priority: int, deps: set<TaskId>)
    | TaskClaimed(worker: WorkerId, leaseId: Uuid, expiresAt: Time)
    | TaskHeartbeat(worker: WorkerId, leaseId: Uuid, expiresAt: Time)
    | TaskRunning(worker: WorkerId, leaseId: Uuid)
    | TaskPaused(to_: TaskStatus, worker: WorkerId)
    | TaskResumed
    | TaskCompleted(worker: WorkerId)
    | TaskFailed(worker: WorkerId, error: string)
    | TaskReleased(worker: WorkerId)
    | TaskLeaseExpired(worker: WorkerId, previous: TaskStatus, leaseId: Uuid, notBefore: Option<Time>)
    | TaskDeadLettered(worker: WorkerId, attemptCount: nat, maxAttempts: int)
    | TaskRequeued(reset: bool, notBefore: Option<Time>, previousAttemptCount: nat)

  datatype Event = Event(
    id: nat, runId: RunId, taskId: Option<TaskId>, attemptId: Option<Uuid>, payload: Payload, at: Time)

  /** All tables.  `seqNo` is the last event id given out; `used` holds every lease and attempt id ever
      drawn, so that a fresh id is new for good and not merely absent from the tables. */
  datatype State = State(
    runs: map<RunId, Run>, tasks: map<TaskId, Task>, attempts: map<Uuid, Attempt>, leases: map<Uuid, Lease>,
    completions: map<Token, Completion>, log: seq<Event>, seqNo: nat, used: set<Uuid>)

  const EMPTY := State(map[], map[], map[], map[], map[], [], 0, {})

  datatype StoreError =
    | NotFound | LeaseConflict | LeaseLapsed | RunTerminal | DuplicateTaskKey | DependencyCycle | ForeignDependency
    | InvalidTransition | TokenReused | OutcomeMismatch | IdTaken

  /** What a method returns: `Err` stands for the exception it throws. */
  datatype Result<+T> = Ok(value: T) | Err(error: StoreError) {
    predicate IsFailure() {
      Err?
    }

    function PropagateFailure<U>(): Result<U>
      requires Err?
    {
      Err(error)
    }

    function Extract(): T
      requires Ok?
    {
      value
    }
  }

  /** The lease columns of a task are in use exactly in these two statuses. */
  predicate HeldStatus(status: TaskStatus) {
    status == Leased || status == Running
  }

  predicate Held(t: Task) {
    HeldStatus(t.status)
  }

  predicate TerminalRun(status: RunStatus) {
    status == RunCompleted || status == RunFailed || status == RunCancelled
  }

  predicate Live(a: Attempt) {
    a.status == AttemptLeased || a.status == AttemptRunning
  }

  predicate Decided(a: Attempt) {
    a.status == AttemptCompleted || a.status == AttemptFailed
  }

  function OutcomeStatus(o: Outcome): TaskStatus {
    match o
    case OutcomeCompleted => Completed
    case OutcomeFailed => Failed
  }
}
