/** The transition table of tasks and the derived status of runs (src/state-machine.ts). */
module StateMachine {
  import opened Records

  /** TASK_TRANSITIONS: the statuses a task may move to. */
  function Transitions(from: TaskStatus): set<TaskStatus> {
    match from
    case Queued => {Leased, Cancelled}
    case Leased => {Running, Queued, Blocked, WaitingInput, Completed, Failed, Cancelled}
    case Running => {Queued, Blocked, WaitingInput, Completed, Failed, Cancelled}
    case Blocked => {Queued, Cancelled}
    case WaitingInput => {Queued, Cancelled}
    case Completed => {}
    case Failed => {}
    case Cancelled => {}
  }

  predicate CanMove(from: TaskStatus, to_: TaskStatus) {
    to_ in Transitions(from)
  }

  /** The documented diagram: nothing leaves a finished status, everything else can be cancelled, only a queued task is
      leased, only a leased one is started, and a held one can end in every way; what waits goes back to the queue. */
  lemma TableDeclared(from: TaskStatus, to_: TaskStatus)
    ensures from == Completed || from == Failed || from == Cancelled ==> !CanMove(from, to_)
    ensures CanMove(from, Cancelled) <==> !(from == Completed || from == Failed || from == Cancelled)
    ensures CanMove(from, Leased) <==> from == Queued
    ensures CanMove(from, Running) <==> from == Leased
    ensures to_ == Blocked || to_ == WaitingInput || to_ == Completed || to_ == Failed ==>
              (CanMove(from, to_) <==> from == Leased || from == Running)
    ensures CanMove(from, Queued) <==> from == Leased || from == Running || from == Blocked || from == WaitingInput
  {}

  predicate ActiveStatus(s: TaskStatus) {
    s == Queued || s == Leased || s == Running
  }

  predicate WaitingStatus(s: TaskStatus) {
    s == Blocked || s == WaitingInput
  }

  /** `deriveRunStatus`, with the value of its last `return` as a parameter. */
  function DeriveOr(current: RunStatus, statuses: seq<TaskStatus>, last: RunStatus): RunStatus {
    if current == RunCancelled && !(exists x | x in statuses :: x == Leased || x == Running) then RunCancelled
    else if |statuses| == 0 then RunPending
    else if forall x | x in statuses :: x == Cancelled then RunCancelled
    else if forall x | x in statuses :: x == Completed || x == Cancelled then
      if exists x | x in statuses :: x == Completed then RunCompleted else RunCancelled
    else if exists x | x in statuses :: ActiveStatus(x) then RunActive
    else if exists x | x in statuses :: WaitingStatus(x) then RunWaiting
    else if exists x | x in statuses :: x == Failed then RunFailed
    else last
  }

  function DeriveRunStatus(current: RunStatus, statuses: seq<TaskStatus>): RunStatus {
    DeriveOr(current, statuses, current)
  }

  /** What the documentation promises of a run that nobody cancelled and that has no cancelled task. */
  function RunStatusTable(present: set<TaskStatus>): RunStatus {
    if present == {} then RunPending
    else if present == {Completed} then RunCompleted
    else if Queued in present || Leased in present || Running in present then RunActive
    else if Blocked in present || WaitingInput in present then RunWaiting
    else RunFailed
  }

  /** The derived status as a function of the statuses present. */
  function DeriveFrom(current: RunStatus, present: set<TaskStatus>): RunStatus {
    if current == RunCancelled && Leased !in present && Running !in present then RunCancelled
    else if present == {} then RunPending
    else if present <= {Cancelled} then RunCancelled
    else if present <= {Completed, Cancelled} then RunCompleted
    else if Queued in present || Leased in present || Running in present then RunActive
    else if Blocked in present || WaitingInput in present then RunWaiting
    else RunFailed
  }

  function Present(statuses: seq<TaskStatus>): set<TaskStatus> {
    set x | x in statuses
  }

  /** The documented table, row by row, cancelled tasks included.  `cancelled` comes first: it stays unless a task is
      held, and it is what a run of cancelled tasks is. */
  lemma DeriveDeclared(current: RunStatus, statuses: seq<TaskStatus>)
    ensures var result := DeriveRunStatus(current, statuses);
            var held := exists x | x in statuses :: x == Leased || x == Running;
            var active := held || Queued in statuses;
            var waiting := Blocked in statuses || WaitingInput in statuses;
            var cancelled := (current == RunCancelled && !held) || (|statuses| > 0 && forall x | x in statuses :: x == Cancelled);
            && (result == RunCancelled <==> cancelled)
            && (result == RunPending <==> !cancelled && |statuses| == 0)
            && (result == RunActive <==> !cancelled && active)
            && (result == RunWaiting <==> !cancelled && !active && waiting)
            && (result == RunFailed <==> !cancelled && !active && !waiting && Failed in statuses)
            && (result == RunCompleted <==> !cancelled && !active && !waiting && Failed !in statuses && Completed in statuses)
  {
    if |statuses| > 0 {
      assert statuses[0] in statuses;
    }
    forall x | x in statuses
      ensures x == Queued || x == Leased || x == Running || x == Blocked || x == WaitingInput || x == Completed || x == Failed || x == Cancelled {}
  }

  /** Only which statuses occur matters: not their order, nor how often. */
  lemma DeriveByPresence(current: RunStatus, statuses: seq<TaskStatus>, last: RunStatus)
    ensures DeriveOr(current, statuses, last) == DeriveFrom(current, Present(statuses))
  {
    var present := Present(statuses);
    assert forall x :: x in statuses <==> x in present;
    if |statuses| == 0 {
      assert present == {};
    } else {
      assert statuses[0] in present;
    }
  }

  /** The last `return` of `deriveRunStatus` is never reached. */
  lemma LastReturnUnreachable(current: RunStatus, statuses: seq<TaskStatus>, last: RunStatus)
    ensures DeriveOr(current, statuses, last) == DeriveRunStatus(current, statuses)
  {
    DeriveByPresence(current, statuses, last);
    DeriveByPresence(current, statuses, current);
  }

  lemma DerivePermutationInvariant(current: RunStatus, xs: seq<TaskStatus>, ys: seq<TaskStatus>)
    requires multiset(xs) == multiset(ys)
    ensures DeriveRunStatus(current, xs) == DeriveRunStatus(current, ys)
  {
    DeriveByPresence(current, xs, current);
    DeriveByPresence(current, ys, current);
    assert forall x :: x in xs <==> x in multiset(xs);
    assert forall x :: x in ys <==> x in multiset(ys);
    assert Present(xs) == Present(ys);
  }

  lemma DeriveIdempotent(current: RunStatus, xs: seq<TaskStatus>)
    ensures DeriveRunStatus(DeriveRunStatus(current, xs), xs) == DeriveRunStatus(current, xs)
  {
    var once := DeriveRunStatus(current, xs);
    DeriveByPresence(current, xs, current);
    DeriveByPresence(once, xs, once);
  }

  /** Without cancellation the derived status is the documented table. */
  lemma DeriveIsTable(current: RunStatus, present: set<TaskStatus>)
    requires current != RunCancelled && Cancelled !in present
    ensures DeriveFrom(current, present) == RunStatusTable(present)
    ensures DeriveFrom(current, present) != RunCancelled
  {
    if present != {} {
      var x :| x in present;
      assert present <= {Completed, Cancelled} <==> present == {Completed};
    }
  }
}
