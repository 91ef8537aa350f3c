/** Attempt budgets: how often a task can change status, and where its attempt rows come from. */
module Budget {
  import opened Records
  import opened StateMachine
  import opened Writes
  import opened Invariant
  import opened Preservation
  import opened Transactions
  import opened Lifecycle
  import opened EventLog

  // ---- Counting status changes in the log ----

  predicate ChangesStatus(before: RunView, after: RunView, x: TaskId) {
    x in before.tasks && x in after.tasks && before.tasks[x].status != after.tasks[x].status
  }

  /** How many events of run `rid` changed the status of task `x`. */
  function Changes(log: seq<Event>, rid: RunId, x: TaskId): nat {
    if |log| == 0 then 0
    else
      var rest := log[..|log| - 1];
      Changes(rest, rid, x) + if ChangesStatus(Replay(rest, rid), Replay(log, rid), x) then 1 else 0
  }

  lemma ChangesSnoc(log: seq<Event>, e: Event, rid: RunId, x: TaskId)
    ensures Changes(log + [e], rid, x)
         == Changes(log, rid, x) + if ChangesStatus(Replay(log, rid), Replay(log + [e], rid), x) then 1 else 0
  {
    assert (log + [e])[..|log + [e]| - 1] == log;
  }

  /** The event says nothing about task `x` of run `rid`. */
  predicate Elsewhere(e: Event, rid: RunId, x: TaskId) {
    e.runId == rid ==> !e.payload.RunCreated? && !e.payload.RunCancelledByCaller? && e.taskId != Some(x)
  }

  lemma ElsewhereChanges(log: seq<Event>, e: Event, rid: RunId, x: TaskId)
    requires Elsewhere(e, rid, x)
    ensures Changes(log + [e], rid, x) == Changes(log, rid, x)
    ensures x in Replay(log + [e], rid).tasks <==> x in Replay(log, rid).tasks
    ensures x in Replay(log, rid).tasks ==> Replay(log + [e], rid).tasks[x] == Replay(log, rid).tasks[x]
  {
    ReplaySnoc(log, e, rid);
    ChangesSnoc(log, e, rid, x);
  }

  lemma {:induction false} ChangesDropRun(log: seq<Event>, rid: RunId, r: RunId, x: TaskId)
    requires r != rid
    ensures Changes(DropRun(log, rid), r, x) == Changes(log, r, x)
  {
    if |log| > 0 {
      var rest, last := log[..|log| - 1], log[|log| - 1];
      ChangesDropRun(rest, rid, r, x);
      ReplayDropRun(rest, rid, r);
      ReplayDropRun(log, rid, r);
      if last.runId != rid {
        ChangesSnoc(DropRun(rest, rid), last, r, x);
      }
    }
  }

  // ---- The measure ----

  function Rank(status: TaskStatus): nat {
    match status
    case Leased => 4
    case Running => 3
    case Blocked => 2
    case WaitingInput => 2
    case Queued => 1
    case _ => 0
  }

  function Remaining(t: Task): nat
    requires t.spec.maxAttempts.Some?
  {
    if t.attemptCount < t.spec.maxAttempts.value then t.spec.maxAttempts.value - t.attemptCount else 0
  }

  /** Four changes for each attempt left, and what the current status still allows. */
  function Potential(t: Task): nat
    requires t.spec.maxAttempts.Some?
  {
    4 * Remaining(t) + Rank(t.status)
  }

  /** Status changes are paid for by the measure. */
  predicate Paid(s: State, s': State, x: TaskId) {
    && x in s.tasks && x in s'.tasks && s'.tasks[x].spec == s.tasks[x].spec
    && (s.tasks[x].spec.maxAttempts.Some? ==>
          var r := s.tasks[x].spec.runId;
          Changes(s'.log, r, x) + Potential(s'.tasks[x]) <= Changes(s.log, r, x) + Potential(s.tasks[x]))
  }

  lemma ElsewherePaid(s: State, s': State, x: TaskId)
    requires x in s.tasks && x in s'.tasks && s'.tasks[x] == s.tasks[x]
    requires Changes(s'.log, s.tasks[x].spec.runId, x) == Changes(s.log, s.tasks[x].spec.runId, x)
    ensures Paid(s, s', x)
  {}

  /** One event about the task itself: at most one change, and then the measure drops. */
  lemma EventPaid(s: State, s': State, x: TaskId, e: Event)
    requires x in s.tasks && s.tasks[x].spec.runId in s.runs && Faithful(s, s.tasks[x].spec.runId)
    requires x in s'.tasks && s'.tasks[x].spec == s.tasks[x].spec && s.tasks[x].spec.runId in s'.runs
    requires Faithful(s', s.tasks[x].spec.runId) && s'.log == s.log + [e]
    requires s.tasks[x].spec.maxAttempts.Some? ==>
               Potential(s'.tasks[x]) + (if s'.tasks[x].status != s.tasks[x].status then 1 else 0) <= Potential(s.tasks[x])
    ensures Paid(s, s', x)
  {
    var r := s.tasks[x].spec.runId;
    ChangesSnoc(s.log, e, r, x);
    assert InRun(s, x, r) && InRun(s', x, r);
    assert ViewOf(s, r).tasks[x].status == s.tasks[x].status;
    assert ViewOf(s', r).tasks[x].status == s'.tasks[x].status;
  }

  lemma PaidTrans(a: State, b: State, c: State, x: TaskId)
    requires Paid(a, b, x) && Paid(b, c, x)
    ensures Paid(a, c, x)
  {}

  lemma RecomputePaid(s: State, rid: RunId, now: Time, x: TaskId)
    requires rid in s.runs && x in s.tasks
    ensures Paid(s, Recompute(s, rid, now), x)
  {
    var s' := Recompute(s, rid, now);
    if |s'.log| > |s.log| {
      ElsewhereChanges(s.log, s'.log[|s.log|], s.tasks[x].spec.runId, x);
    }
    hide Changes;
    ElsewherePaid(s, s', x);
  }

  // ---- Writes ----

  /** Writes that neither name the task nor cancel its run. */
  lemma BystanderPaid(s: State, w: Write, now: Time, x: TaskId)
    requires Enabled(s, w, now) && x in s.tasks && w != Purge(s.tasks[x].spec.runId) && w != CancelAll(s.tasks[x].spec.runId)
    requires w != OpenRun(s.tasks[x].spec.runId)
    requires (w.Grant? || w.Extend? || w.Begin? || w.Settle? || w.Revive? || w.Redrive?) ==> w.tid != x
    ensures Paid(s, Raw(s, w, now), x)
  {
    var s', r := Raw(s, w, now), s.tasks[x].spec.runId;
    hide HasLease, Lapsed, Settled, SettledPayload;
    if w.Purge? {
      ChangesDropRun(s.log, w.rid, r, x);
    } else if w.Settle? && w.how.Expire? && Exhausted(s.tasks[w.tid]) {
      ElsewhereChanges(s.log, s'.log[|s.log|], r, x);
      ElsewhereChanges(s.log + [s'.log[|s.log|]], s'.log[|s.log| + 1], r, x);
    } else if !w.Record? {
      ElsewhereChanges(s.log, s'.log[|s.log|], r, x);
    }
    hide Changes;
    ElsewherePaid(s, s', x);
  }

  lemma CancelPaid(s: State, now: Time, x: TaskId)
    requires x in s.tasks && Enabled(s, CancelAll(s.tasks[x].spec.runId), now)
    requires Faithful(s, s.tasks[x].spec.runId)
    ensures Paid(s, Raw(s, CancelAll(s.tasks[x].spec.runId), now), x)
  {
    var r := s.tasks[x].spec.runId;
    var s' := Raw(s, CancelAll(r), now);
    CancelFaithful(s, r, now);
    hide Faithful;
    EventPaid(s, s', x, s'.log[|s.log|]);
  }

  lemma OneTaskPaid(s: State, w: Write, now: Time)
    requires Enabled(s, w, now) && (w.Grant? || w.Extend? || w.Begin? || w.Revive?)
    requires Faithful(s, s.tasks[w.tid].spec.runId)
    ensures Paid(s, Raw(s, w, now), w.tid)
  {
    var s' := Raw(s, w, now);
    OneTaskFaithful(s, w, now);
    hide Faithful;
    EventPaid(s, s', w.tid, s'.log[|s.log|]);
  }

  lemma SettlePaid(s: State, tid: TaskId, how: Settlement, now: Time)
    requires Enabled(s, Settle(tid, how), now) && TaskOk(s, tid) && Faithful(s, s.tasks[tid].spec.runId)
    requires !(how.Expire? && Exhausted(s.tasks[tid]))
    ensures Paid(s, Raw(s, Settle(tid, how), now), tid)
  {
    var s' := Raw(s, Settle(tid, how), now);
    SettleFaithful(s, tid, how, now);
    hide Faithful, TaskOk;
    EventPaid(s, s', tid, s'.log[|s.log|]);
  }

  /** The dead-letter case reports two events, of which only the first changes the status. */
  lemma DeadLetterPaid(s: State, tid: TaskId, now: Time)
    requires Enabled(s, Settle(tid, Expire), now) && TaskOk(s, tid) && Faithful(s, s.tasks[tid].spec.runId)
    requires Exhausted(s.tasks[tid])
    ensures Paid(s, Raw(s, Settle(tid, Expire), now), tid)
  {
    var s', r, t := Raw(s, Settle(tid, Expire), now), s.tasks[tid].spec.runId, s.tasks[tid];
    var first := s'.log[|s.log|];
    var alive := Settled(t, Expire, now).(dead := t.dead);
    var told := s.(tasks := s.tasks[tid := alive], log := s.log + [first]);
    TaskEventFaithful(s, told, r, tid, alive, first);
    SettleFaithful(s, tid, Expire, now);
    hide Faithful, TaskOk, Paid, HasLease, Lapsed;
    EventPaid(s, told, tid, first);
    EventPaid(told, s', tid, s'.log[|s.log| + 1]);
    PaidTrans(s, told, s', tid);
  }

  lemma RawPaid(s: State, w: Write, now: Time, x: TaskId)
    requires Inv(s) && Replayed(s) && Enabled(s, w, now) && x in s.tasks && w != Purge(s.tasks[x].spec.runId)
    requires w.Redrive? ==> w.tid != x
    ensures Paid(s, Raw(s, w, now), x)
  {
    hide Inv, Raw, Faithful, Paid, HasLease, Lapsed, Claimable;
    InvTask(s, x);
    if w == CancelAll(s.tasks[x].spec.runId) {
      CancelPaid(s, now, x);
    } else if w.Settle? && w.tid == x {
      if w.how.Expire? && Exhausted(s.tasks[x]) {
        DeadLetterPaid(s, x, now);
      } else {
        SettlePaid(s, x, w.how, now);
      }
    } else if (w.Grant? || w.Extend? || w.Begin? || w.Revive?) && w.tid == x {
      OneTaskPaid(s, w, now);
    } else {
      BystanderPaid(s, w, now, x);
    }
  }

  lemma DoPaid(s: State, w: Write, now: Time, x: TaskId)
    requires Inv(s) && Replayed(s) && Enabled(s, w, now) && x in s.tasks && w != Purge(s.tasks[x].spec.runId)
    requires w.Redrive? ==> w.tid != x
    ensures Paid(s, Do(s, w, now), x)
  {
    RawPaid(s, w, now, x);
    RecomputedIsWritten(s, w, now);
    hide Inv, Enabled, Raw, WriteRun, RecomputedRun;
    assert x in Raw(s, w, now).tasks;
    if RecomputedRun(s, w).Some? {
      RecomputePaid(Raw(s, w, now), RecomputedRun(s, w).value, now, x);
      hide Paid;
      PaidTrans(s, Raw(s, w, now), Do(s, w, now), x);
    }
  }

  predicate NoRedrive(ws: seq<Write>, x: TaskId) {
    forall i | 0 <= i < |ws| :: ws[i].Redrive? ==> ws[i].tid != x
  }

  lemma {:induction false} DoAllPaid(s: State, ws: seq<Write>, now: Time, x: TaskId)
    requires Inv(s) && Replayed(s) && EnabledAll(s, ws, now)
    requires x in s.tasks && Spares(ws, s.tasks[x].spec.runId) && NoRedrive(ws, x)
    ensures Paid(s, DoAll(s, ws, now), x)
    decreases |ws|
  {
    if |ws| > 0 {
      var s1 := Do(s, ws[0], now);
      assert ws[0] != Purge(s.tasks[x].spec.runId);
      hide Inv, Enabled, Do, Replayed, Changes;
      DoInv(s, ws[0], now);
      DoReplayed(s, ws[0], now);
      DoPaid(s, ws[0], now, x);
      DoAllPaid(s1, ws[1..], now, x);
      PaidTrans(s, s1, DoAll(s, ws, now), x);
    }
  }

  lemma PlanNoRedrive(s: State, op: Op, now: Time, x: TaskId)
    requires Plan(s, op, now).Ok? && (op.RequeueDead? ==> op.tid != x)
    ensures NoRedrive(Plan(s, op, now).value, x)
  {
    hide CheckLease, TokenUsed;
  }

  lemma NextPaid(s: State, step: Step, s': State, x: TaskId)
    requires Inv(s) && Replayed(s) && Next(s, step, s') && x in s.tasks && s.tasks[x].spec.runId in s'.runs
    requires step.op.RequeueDead? ==> step.op.tid != x
    ensures Paid(s, s', x)
  {
    hide Inv, Enabled, Do, ChoiceOk, Plan, Replayed;
    if Plan(s, step.op, step.now).Ok? {
      PlanSpares(s, step.op, step.now, s.tasks[x].spec.runId);
      PlanNoRedrive(s, step.op, step.now, x);
      DoAllPaid(s, Plan(s, step.op, step.now).value, step.now, x);
    }
  }

  /** From `i` to `j` the run of `x` is kept and nobody takes `x` out of the dead-letter queue. */
  predicate Undisturbed(states: seq<State>, steps: seq<Step>, i: nat, j: nat, x: TaskId) {
    && |states| == |steps| + 1 && i <= j < |states|
    && x in states[i].tasks && Kept(states, i, j, states[i].tasks[x].spec.runId)
    && forall k | i <= k < j :: steps[k].op.RequeueDead? ==> steps[k].op.tid != x
  }

  /** Whatever the callers do, a task with an attempt limit changes status at most as often as its measure
      allows: four times per attempt left, and once more. */
  lemma {:induction false} BoundedChanges(states: seq<State>, steps: seq<Step>, i: nat, j: nat, x: TaskId)
    requires Behaviour(states, steps) && Undisturbed(states, steps, i, j, x)
    ensures Paid(states[i], states[j], x)
    decreases j - i
  {
    if i < j {
      hide Inv, Next, Paid, Replayed;
      BoundedChanges(states, steps, i, j - 1, x);
      ReachableInv(states, steps, j - 1);
      ReachableReplayed(states, steps, j - 1);
      PaidSpec(states[i], states[j - 1], x);
      NextPaid(states[j - 1], steps[j - 1], states[j], x);
      PaidTrans(states[i], states[j - 1], states[j], x);
    }
  }

  lemma PaidSpec(s: State, s': State, x: TaskId)
    requires Paid(s, s', x)
    ensures x in s.tasks && x in s'.tasks && s'.tasks[x].spec == s.tasks[x].spec
  {}

  // ---- All tasks together ----

  function SumChanges(before: State, after: State, xs: seq<TaskId>): int
    requires forall x | x in xs :: x in before.tasks
  {
    if |xs| == 0 then 0
    else
      var r := before.tasks[xs[0]].spec.runId;
      Changes(after.log, r, xs[0]) - Changes(before.log, r, xs[0]) + SumChanges(before, after, xs[1..])
  }

  function SumPotential(s: State, xs: seq<TaskId>): nat
    requires forall x | x in xs :: x in s.tasks && s.tasks[x].spec.maxAttempts.Some?
  {
    if |xs| == 0 then 0 else Potential(s.tasks[xs[0]]) + SumPotential(s, xs[1..])
  }

  /** Summed over any tasks, the status changes between two states of a behaviour are bounded by the sum of
      the measures, so a system that is fed no new work comes to rest. */
  lemma {:induction false} BoundedTotal(states: seq<State>, steps: seq<Step>, i: nat, j: nat, xs: seq<TaskId>)
    requires Behaviour(states, steps) && i <= j < |states|
    requires forall x | x in xs :: x in states[i].tasks && states[i].tasks[x].spec.maxAttempts.Some?
    requires forall x | x in xs :: Undisturbed(states, steps, i, j, x)
    ensures SumChanges(states[i], states[j], xs) <= SumPotential(states[i], xs)
    decreases |xs|
  {
    if |xs| > 0 {
      assert xs[0] in xs;
      BoundedChanges(states, steps, i, j, xs[0]);
      BoundedTotal(states, steps, i, j, xs[1..]);
    }
  }

  /** A task that was just enqueued can change status at most 4 * maxAttempts + 1 times. */
  lemma FreshPotential(t: Task)
    requires t.status == Queued && t.attemptCount == 0 && t.spec.maxAttempts.Some? && t.spec.maxAttempts.value >= 0
    ensures Potential(t) == 4 * t.spec.maxAttempts.value + 1
  {}
}
