/** What a sweep makes of a lapsed task, column by column: the due time of its retry, or its death. */
module Sweeping {
  import opened Records
  import opened StateMachine
  import opened Writes
  import opened Invariant
  import opened Preservation
  import opened Transactions
  import opened Lifecycle
  import opened Liveness
  import opened Guarantees
  import opened Effects

  // ---- Rows ----

  /** A sweep and the row of a task.  A lapsed task with an attempt left is queued, due after the delay of its retry
      policy: fixed, or doubled with each attempt, and never above a positive cap.  One without is dead. */
  lemma SweepRow(s: State, step: Step, s': State, x: TaskId)
    requires Inv(s) && Next(s, step, s') && step.op.Sweep? && x in s.tasks
    ensures x in s'.tasks
    ensures var t, t', now, retry := s.tasks[x], s'.tasks[x], step.now, s.tasks[x].spec.retry;
            var lapsed := t.status in {Leased, Running} && t.leaseExpiresAt.Some? && t.leaseExpiresAt.value < now;
            if !lapsed then t' == t
            else if t.spec.maxAttempts.Some? && t.attemptCount >= t.spec.maxAttempts.value then
              t' == t.(status := Failed, error := Some("max_attempts_exceeded"), dead := true, notBefore := None,
                       leaseId := None, leasedBy := None, leaseExpiresAt := None)
            else
              && t' == t.(status := Queued, notBefore := t'.notBefore, leaseId := None, leasedBy := None, leaseExpiresAt := None)
              && t.attemptCount >= 1
              && if retry.delayMs.None? || retry.delayMs.value <= 0 then t'.notBefore.None?
                 else
                   var delay := if retry.exponential then retry.delayMs.value * Pow2(t.attemptCount - 1) else retry.delayMs.value;
                   t'.notBefore == Some(now + if retry.maxDelayMs.Some? && retry.maxDelayMs.value > 0 && retry.maxDelayMs.value < delay
                                              then retry.maxDelayMs.value else delay)
  {
    hide Inv, Next, Swept;
    SweepIsExact(s, step.op.order, step.now, s');
    InvTask(s, x);
    hide DepsEarlier;
  }

  /** The leases and attempts that a sweep ends are those of the lapsed tasks. */
  lemma SweepHolds(s: State, step: Step, s': State)
    requires Inv(s) && Next(s, step, s') && step.op.Sweep?
    ensures s'.leases.Keys == s.leases.Keys && s'.attempts.Keys == s.attempts.Keys && s'.tasks.Keys == s.tasks.Keys
    ensures s'.completions == s.completions && s'.used == s.used && s'.runs.Keys == s.runs.Keys
    ensures forall lid | lid in s.leases && s.leases[lid].taskId in s.tasks ::
              s'.leases[lid] == if s.leases[lid].status == LeaseActive && Lapsed(s, s.leases[lid].taskId, step.now)
                                then s.leases[lid].(status := LeaseExpired) else s.leases[lid]
    ensures forall aid | aid in s.attempts && s.attempts[aid].taskId in s.tasks ::
              s'.attempts[aid] == if s.attempts[aid].status in {AttemptLeased, AttemptRunning} && Lapsed(s, s.attempts[aid].taskId, step.now)
                                  then s.attempts[aid].(status := AttemptExpired) else s.attempts[aid]
  {
    hide Inv, Next, Lapsed;
    SweepIsExact(s, step.op.order, step.now, s');
    hide SweptTask;
  }

  // ---- Runs and events ----

  /** What the log tells about a task. */
  function Story(log: seq<Event>, x: TaskId): seq<Payload> {
    if |log| == 0 then []
    else
      var rest, e := Story(log[..|log| - 1], x), log[|log| - 1];
      if e.taskId == Some(x) then rest + [e.payload] else rest
  }

  lemma StorySnoc(log: seq<Event>, e: Event, x: TaskId)
    ensures Story(log + [e], x) == Story(log, x) + if e.taskId == Some(x) then [e.payload] else []
  {
    assert (log + [e])[..|log + [e]| - 1] == log;
  }

  lemma RecomputeStory(s: State, r: RunId, now: Time, x: TaskId)
    requires r in s.runs
    ensures Story(Recompute(s, r, now).log, x) == Story(s.log, x)
  {
    hide DeriveFrom, StatusesOf, Story;
    var s' := Recompute(s, r, now);
    if |s'.log| > |s.log| {
      StorySnoc(s.log, s'.log[|s.log|], x);
    }
  }

  /** What the sweep tells about a lapsed task. */
  function Ending(t: Task, now: Time): seq<Payload>
    requires t.leasedBy.Some? && t.leaseId.Some?
  {
    if t.spec.maxAttempts.Some? && t.attemptCount >= t.spec.maxAttempts.value then
      [TaskFailed(t.leasedBy.value, "max_attempts_exceeded"), TaskDeadLettered(t.leasedBy.value, t.attemptCount, t.spec.maxAttempts.value)]
    else [TaskLeaseExpired(t.leasedBy.value, t.status, t.leaseId.value, Settled(t, Expire, now).notBefore)]
  }

  lemma RawExpiryStory(s: State, tid: TaskId, now: Time, x: TaskId)
    requires Enabled(s, Settle(tid, Expire), now)
    ensures Story(Raw(s, Settle(tid, Expire), now).log, x) == Story(s.log, x) + if x == tid then Ending(s.tasks[tid], now) else []
  {
    var log := Raw(s, Settle(tid, Expire), now).log;
    hide Story, ComputeNotBefore, Lapsed;
    StorySnoc(s.log, log[|s.log|], x);
    if Exhausted(s.tasks[tid]) {
      StorySnoc(s.log + [log[|s.log|]], log[|s.log| + 1], x);
    }
  }

  lemma ExpiryTells(s: State, tid: TaskId, now: Time, x: TaskId)
    requires Enabled(s, Settle(tid, Expire), now)
    ensures var s' := Do(s, Settle(tid, Expire), now);
            && Stamped(s, s', s.tasks[tid].spec.runId, now)
            && Story(s'.log, x) == Story(s.log, x) + if x == tid then Ending(s.tasks[tid], now) else []
  {
    hide Story, Ending, Enabled, Raw, Recompute;
    RawExpiryStory(s, tid, now, x);
    SettleRuns(s, tid, Expire, now);
    RecomputeStory(Raw(s, Settle(tid, Expire), now), s.tasks[tid].spec.runId, now, x);
    RecomputeStamps(Raw(s, Settle(tid, Expire), now), s.tasks[tid].spec.runId, now);
  }

  lemma RecomputeStamps(s: State, r: RunId, now: Time)
    requires r in s.runs
    ensures Stamped(s, Recompute(s, r, now), r, now)
  {
    hide DeriveFrom, StatusesOf;
  }

  /** Some task of the run is among those expired. */
  predicate Hit(s: State, order: seq<TaskId>, r: RunId) {
    exists x | x in order :: InRun(s, x, r)
  }

  lemma ExpiryKeeps(s: State, tid: TaskId, now: Time)
    requires Enabled(s, Settle(tid, Expire), now)
    ensures var s' := Do(s, Settle(tid, Expire), now);
            && s'.tasks.Keys == s.tasks.Keys && tid in s.tasks && (forall x | x in s.tasks && x != tid :: s'.tasks[x] == s.tasks[x])
            && s'.tasks[tid].spec == s.tasks[tid].spec
  {
    SettleEffect(s, tid, Expire, now);
    hide Do, Enabled, ComputeNotBefore;
  }

  lemma {:induction false} SweepTells(s: State, now: Time, order: seq<TaskId>, x: TaskId, r: RunId)
    requires Inv(s) && AllLapsed(s, now, order) && EnabledAll(s, Expiries(order), now) && r in s.runs
    requires x in s.tasks && (x in order ==> s.tasks[x].leasedBy.Some? && s.tasks[x].leaseId.Some?)
    ensures var s' := DoAll(s, Expiries(order), now);
            && r in s'.runs && (if Hit(s, order, r) then s'.runs[r].updatedAt == now else s'.runs[r] == s.runs[r])
            && Story(s'.log, x) == Story(s.log, x) + if x in order then Ending(s.tasks[x], now) else []
    decreases |order|
  {
    hide Inv, Enabled, Do, Lapsed, Story, Ending;
    if |order| > 0 {
      ExpireFirst(s, now, order);
      var tid, s1 := order[0], Do(s, Settle(order[0], Expire), now);
      ExpiryTells(s, tid, now, x);
      ExpiryKeeps(s, tid, now);
      SplitHit(s, s1, order, r);
      SplitOrder(order, x);
      hide AllLapsed, Hit;
      SweepTells(s1, now, order[1..], x, r);
    }
  }

  lemma SplitOrder(order: seq<TaskId>, x: TaskId)
    requires |order| > 0 && NoDuplicates(order)
    ensures x in order <==> x == order[0] || x in order[1..]
    ensures order[0] !in order[1..]
  {}

  lemma SplitHit(s: State, s1: State, order: seq<TaskId>, r: RunId)
    requires |order| > 0 && s1.tasks.Keys == s.tasks.Keys && forall y | y in s.tasks :: s1.tasks[y].spec == s.tasks[y].spec
    ensures Hit(s, order, r) <==> InRun(s, order[0], r) || Hit(s1, order[1..], r)
  {
    assert forall y :: y in order <==> y == order[0] || y in order[1..];
  }

  lemma LapsedHolder(s: State, x: TaskId, now: Time)
    requires Inv(s) && Lapsed(s, x, now)
    ensures HasLease(s, x) && s.attempts[AttemptIdOf(s, x)].taskId == x
    ensures s.tasks[x].leasedBy.Some? && s.tasks[x].leaseId.Some?
  {
    hide Inv;
    InvTask(s, x);
  }

  /** A sweep stamps the runs of the lapsed tasks and tells of each of these what has become of it. */
  lemma SweepLog(s: State, step: Step, s': State, x: TaskId, r: RunId)
    requires Inv(s) && Next(s, step, s') && step.op.Sweep? && x in s.tasks && x in s'.tasks && r in s.runs
    ensures r in s'.runs
    ensures if exists y | y in s.tasks :: s.tasks[y].spec.runId == r && Lapsed(s, y, step.now)
            then s'.runs[r].updatedAt == step.now else s'.runs[r] == s.runs[r]
    ensures var t, told := s.tasks[x], Story(s'.log, x);
            if !Lapsed(s, x, step.now) then told == Story(s.log, x)
            else
              && t.leasedBy.Some? && t.leaseId.Some?
              && told == Story(s.log, x) +
                         if t.spec.maxAttempts.Some? && t.attemptCount >= t.spec.maxAttempts.value then
                           [TaskFailed(t.leasedBy.value, "max_attempts_exceeded"),
                            TaskDeadLettered(t.leasedBy.value, t.attemptCount, t.spec.maxAttempts.value)]
                         else [TaskLeaseExpired(t.leasedBy.value, t.status, t.leaseId.value, s'.tasks[x].notBefore)]
  {
    hide Inv, Lapsed, Story, EnabledAll, DoAll, Swept, Settled;
    var order := step.op.order;
    SweepIsExact(s, order, step.now, s');
    if Lapsed(s, x, step.now) { LapsedHolder(s, x, step.now); }
    SweepTells(s, step.now, order, x, r);
    HitsLapsed(s, order, step.now, r);
  }

  lemma HitsLapsed(s: State, order: seq<TaskId>, now: Time, r: RunId)
    requires forall x | x in s.tasks :: x in order <==> Lapsed(s, x, now)
    ensures Hit(s, order, r) <==> exists y | y in s.tasks :: s.tasks[y].spec.runId == r && Lapsed(s, y, now)
  {
    hide Lapsed;
    if y :| y in s.tasks && s.tasks[y].spec.runId == r && Lapsed(s, y, now) {
      assert y in order && InRun(s, y, r);
    }
  }

  // ---- Retrying ----

  /** The task with its due time can be claimed from that time on, without one at any time: for as long as its row is
      what the sweep made of it and its run is neither cancelled nor pruned. */
  lemma RetryDue(states: seq<State>, steps: seq<Step>, i: nat, j: nat, x: TaskId, later: Time)
    requires Behaviour(states, steps) && i < j < |states| && steps[i].op.Sweep? && Lapsed(states[i], x, steps[i].now)
    requires var t := states[i].tasks[x]; t.spec.maxAttempts.None? || t.attemptCount < t.spec.maxAttempts.value
    requires Kept(states, i, j, states[i].tasks[x].spec.runId) && states[j].runs[states[i].tasks[x].spec.runId].status != RunCancelled
    requires x in states[i + 1].tasks && x in states[j].tasks && states[j].tasks[x] == states[i + 1].tasks[x]
    ensures var due := states[i + 1].tasks[x].notBefore; Claimable(states[j], x, later) <==> due.None? || due.value <= later
  {
    hide Inv, Next, Lapsed, Kept, DepsCompleted;
    ReachableInv(states, steps, i);
    ReachableInv(states, steps, j);
    assert Next(states[i], steps[i], states[i + 1]);
    LapsedHolder(states[i], x, steps[i].now);
    HoldersRun(states[i], x);
    DependencySafety(states, steps, i, j, AttemptIdOf(states[i], x));
    hide Behaviour;
    SweptQueued(states[i], steps[i], states[i + 1], x);
    QueuedNotOver(states[j], x);
  }

  lemma SweptQueued(s: State, step: Step, s': State, x: TaskId)
    requires Inv(s) && Next(s, step, s') && step.op.Sweep? && Lapsed(s, x, step.now)
    requires s.tasks[x].spec.maxAttempts.None? || s.tasks[x].attemptCount < s.tasks[x].spec.maxAttempts.value
    ensures x in s'.tasks && s'.tasks[x].status == Queued && s'.tasks[x].spec == s.tasks[x].spec && HasBudget(s'.tasks[x])
  {
    hide Inv, Next;
    SweepRow(s, step, s', x);
  }
}
