/** Retry delays over whole behaviours: a task whose attempts all ended by lease expiry is not claimed again
    before the delays of all its retries have gone by. */
module Backoff {
  import opened Records
  import opened StateMachine
  import opened Writes
  import opened Invariant
  import opened Preservation
  import opened Transactions

  // ---- The history of a task, read from the log ----

  /** `clean`: since it was enqueued the task was only claimed, kept alive, started and expired.  `first` and
      `last` are the times of its first and latest claim, `expiries` how often its lease ran out. */
  datatype History = History(clean: bool, first: Option<Time>, last: Time, expiries: nat)

  function Continue(h: History, e: Event, rid: RunId, x: TaskId): History {
    if e.runId != rid then h
    else if e.payload.RunCancelledByCaller? then h.(clean := false)
    else if e.taskId != Some(x) then h
    else
      match e.payload
      case TaskEnqueued(_, _, _) => History(true, None, 0, 0)
      case TaskClaimed(_, _, _) => h.(first := if h.first.None? then Some(e.at) else h.first, last := e.at)
      case TaskHeartbeat(_, _, _) => h
      case TaskRunning(_, _) => h
      case TaskLeaseExpired(_, _, _, _) => h.(expiries := h.expiries + 1)
      case _ => h.(clean := false)
  }

  function HistoryOf(log: seq<Event>, rid: RunId, x: TaskId): History {
    if |log| == 0 then History(false, None, 0, 0)
    else Continue(HistoryOf(log[..|log| - 1], rid, x), log[|log| - 1], rid, x)
  }

  lemma HistorySnoc(log: seq<Event>, e: Event, rid: RunId, x: TaskId)
    ensures HistoryOf(log + [e], rid, x) == Continue(HistoryOf(log, rid, x), e, rid, x)
  {
    assert (log + [e])[..|log + [e]| - 1] == log;
  }

  lemma {:induction false} HistoryDropRun(log: seq<Event>, rid: RunId, r: RunId, x: TaskId)
    requires r != rid
    ensures HistoryOf(DropRun(log, rid), r, x) == HistoryOf(log, r, x)
  {
    if |log| > 0 {
      var rest, last := log[..|log| - 1], log[|log| - 1];
      HistoryDropRun(rest, rid, r, x);
      if last.runId != rid {
        HistorySnoc(DropRun(rest, rid), last, r, x);
      }
    }
  }

  // ---- The delays that must have gone by ----

  function DelayOf(retry: Retry, attempt: nat): int {
    match RetryDelay(retry, attempt)
    case None => 0
    case Some(delay) => delay
  }

  /** The delays after the first `k` attempts. */
  function TotalDelay(retry: Retry, k: nat): int {
    if k == 0 then 0 else TotalDelay(retry, k - 1) + DelayOf(retry, k)
  }

  function TaskHistory(s: State, x: TaskId): History
    requires x in s.tasks
  {
    HistoryOf(s.log, s.tasks[x].spec.runId, x)
  }

  predicate Waited(t: Task, h: History, clock: Time) {
    h.clean ==>
      match h.first
      case None => t.status == Queued && t.attemptCount == 0 && h.expiries == 0
      case Some(first) =>
        var due := first + TotalDelay(t.spec.retry, h.expiries);
        if Held(t) then t.attemptCount == h.expiries + 1 && due <= h.last <= clock
        else
          && t.status == Queued && t.attemptCount == h.expiries
          && (match t.notBefore case None => due <= clock case Some(time) => due <= time)
  }

  predicate AllWaited(s: State, clock: Time) {
    forall x | x in s.tasks :: Waited(s.tasks[x], TaskHistory(s, x), clock)
  }

  // ---- Writes ----

  lemma SettleElsewhere(s: State, tid: TaskId, how: Settlement, now: Time, x: TaskId)
    requires Enabled(s, Settle(tid, how), now) && x in s.tasks && tid != x
    ensures x in Raw(s, Settle(tid, how), now).tasks && Raw(s, Settle(tid, how), now).tasks[x] == s.tasks[x]
    ensures TaskHistory(Raw(s, Settle(tid, how), now), x) == TaskHistory(s, x)
  {
    var s', r := Raw(s, Settle(tid, how), now), s.tasks[x].spec.runId;
    hide Lapsed, Settled, HistoryOf;
    HistorySnoc(s.log, s'.log[|s.log|], r, x);
    if how.Expire? && Exhausted(s.tasks[tid]) {
      HistorySnoc(s.log + [s'.log[|s.log|]], s'.log[|s.log| + 1], r, x);
    }
  }

  lemma PurgeElsewhere(s: State, rid: RunId, x: TaskId)
    requires x in s.tasks && s.tasks[x].spec.runId != rid
    ensures x in PurgeRows(s, rid).tasks && PurgeRows(s, rid).tasks[x] == s.tasks[x]
    ensures TaskHistory(PurgeRows(s, rid), x) == TaskHistory(s, x)
  {
    HistoryDropRun(s.log, rid, s.tasks[x].spec.runId, x);
  }

  lemma WriteElsewhere(s: State, w: Write, now: Time, x: TaskId)
    requires Enabled(s, w, now) && x in s.tasks && !w.Purge? && !w.Settle?
    requires w != CancelAll(s.tasks[x].spec.runId)
    requires (w.Grant? || w.Extend? || w.Begin? || w.Revive? || w.Redrive?) ==> w.tid != x
    ensures x in Raw(s, w, now).tasks && Raw(s, w, now).tasks[x] == s.tasks[x]
    ensures TaskHistory(Raw(s, w, now), x) == TaskHistory(s, x)
  {
    hide HistoryOf, DepsCompleted, TokenUsed, KeyTaken, InRun;
    var s', r := Raw(s, w, now), s.tasks[x].spec.runId;
    if !w.Record? {
      HistorySnoc(s.log, s'.log[|s.log|], r, x);
    }
  }

  /** Writes that do not name the task and do not cancel or purge its run. */
  lemma BystanderHistory(s: State, w: Write, now: Time, x: TaskId)
    requires Enabled(s, w, now) && x in s.tasks && w != Purge(s.tasks[x].spec.runId)
    requires w != CancelAll(s.tasks[x].spec.runId)
    requires (w.Grant? || w.Extend? || w.Begin? || w.Settle? || w.Revive? || w.Redrive?) ==> w.tid != x
    ensures x in Raw(s, w, now).tasks && Raw(s, w, now).tasks[x] == s.tasks[x]
    ensures TaskHistory(Raw(s, w, now), x) == TaskHistory(s, x)
  {
    if w.Purge? {
      hide PurgeRows, TaskHistory;
      PurgeElsewhere(s, w.rid, x);
    } else {
      hide Enabled, Raw, TaskHistory;
      if w.Settle? {
        SettleElsewhere(s, w.tid, w.how, now, x);
      } else {
        WriteElsewhere(s, w, now, x);
      }
    }
  }

  lemma GrantWaited(s: State, w: Write, now: Time)
    requires w.Grant? && Enabled(s, w, now) && Waited(s.tasks[w.tid], TaskHistory(s, w.tid), now)
    ensures Waited(Raw(s, w, now).tasks[w.tid], TaskHistory(Raw(s, w, now), w.tid), now)
  {
    var s' := Raw(s, w, now);
    hide HistoryOf;
    HistorySnoc(s.log, s'.log[|s.log|], s.tasks[w.tid].spec.runId, w.tid);
  }

  lemma ExpireWaited(s: State, x: TaskId, now: Time)
    requires Enabled(s, Settle(x, Expire), now) && Waited(s.tasks[x], TaskHistory(s, x), now) && !Exhausted(s.tasks[x])
    ensures Waited(Raw(s, Settle(x, Expire), now).tasks[x], TaskHistory(Raw(s, Settle(x, Expire), now), x), now)
  {
    var s' := Raw(s, Settle(x, Expire), now);
    hide HistoryOf, RetryDelay, Lapsed;
    HistorySnoc(s.log, s'.log[|s.log|], s.tasks[x].spec.runId, x);
  }

  /** After these the history is no longer clean. */
  lemma UncleanSettle(s: State, x: TaskId, how: Settlement, now: Time)
    requires Enabled(s, Settle(x, how), now) && !(how.Expire? && !Exhausted(s.tasks[x]))
    ensures x in Raw(s, Settle(x, how), now).tasks && !TaskHistory(Raw(s, Settle(x, how), now), x).clean
  {
    var s', r := Raw(s, Settle(x, how), now), s.tasks[x].spec.runId;
    hide HistoryOf, Lapsed;
    HistorySnoc(s.log, s'.log[|s.log|], r, x);
    if how.Expire? {
      HistorySnoc(s.log + [s'.log[|s.log|]], s'.log[|s.log| + 1], r, x);
    }
  }

  lemma UncleanOther(s: State, w: Write, now: Time, x: TaskId)
    requires Enabled(s, w, now) && x in s.tasks
    requires w == CancelAll(s.tasks[x].spec.runId) || ((w.Revive? || w.Redrive?) && w.tid == x)
    ensures x in Raw(s, w, now).tasks && !TaskHistory(Raw(s, w, now), x).clean
  {
    var s' := Raw(s, w, now);
    hide HistoryOf;
    HistorySnoc(s.log, s'.log[|s.log|], s.tasks[x].spec.runId, x);
  }

  lemma KeepAliveWaited(s: State, w: Write, now: Time)
    requires (w.Extend? || w.Begin?) && Enabled(s, w, now) && Waited(s.tasks[w.tid], TaskHistory(s, w.tid), now)
    ensures Waited(Raw(s, w, now).tasks[w.tid], TaskHistory(Raw(s, w, now), w.tid), now)
  {
    var s' := Raw(s, w, now);
    hide HistoryOf;
    HistorySnoc(s.log, s'.log[|s.log|], s.tasks[w.tid].spec.runId, w.tid);
  }

  lemma AddTaskWaited(s: State, tid: TaskId, spec: TaskSpec, now: Time)
    requires Enabled(s, AddTask(tid, spec), now)
    ensures Waited(Raw(s, AddTask(tid, spec), now).tasks[tid], TaskHistory(Raw(s, AddTask(tid, spec), now), tid), now)
  {
    var s' := Raw(s, AddTask(tid, spec), now);
    hide HistoryOf;
    HistorySnoc(s.log, s'.log[|s.log|], spec.runId, tid);
  }

  lemma RawWaited(s: State, w: Write, now: Time, x: TaskId)
    requires Enabled(s, w, now) && x in s.tasks && w != Purge(s.tasks[x].spec.runId)
    requires Waited(s.tasks[x], TaskHistory(s, x), now)
    ensures x in Raw(s, w, now).tasks && Waited(Raw(s, w, now).tasks[x], TaskHistory(Raw(s, w, now), x), now)
  {
    RawTaskStays(s, w, now, x);
    hide Raw, HistoryOf, HasLease, Lapsed, Claimable, DepsCompleted, InRun;
    if w == CancelAll(s.tasks[x].spec.runId) || ((w.Revive? || w.Redrive?) && w.tid == x) {
      UncleanOther(s, w, now, x);
    } else if w.Settle? && w.tid == x {
      if w.how.Expire? && !Exhausted(s.tasks[x]) {
        ExpireWaited(s, x, now);
      } else {
        UncleanSettle(s, x, w.how, now);
      }
    } else if w.Grant? && w.tid == x {
      GrantWaited(s, w, now);
    } else if (w.Extend? || w.Begin?) && w.tid == x {
      KeepAliveWaited(s, w, now);
    } else {
      BystanderHistory(s, w, now, x);
    }
  }

  lemma RecomputeHistory(s: State, rid: RunId, now: Time, x: TaskId)
    requires rid in s.runs && x in s.tasks
    ensures TaskHistory(Recompute(s, rid, now), x) == TaskHistory(s, x)
  {
    var s' := Recompute(s, rid, now);
    hide HistoryOf, DeriveFrom, StatusesOf;
    if |s'.log| > |s.log| {
      HistorySnoc(s.log, s'.log[|s.log|], s.tasks[x].spec.runId, x);
    }
  }

  lemma DoWaited(s: State, w: Write, now: Time)
    requires Enabled(s, w, now) && AllWaited(s, now)
    ensures AllWaited(Do(s, w, now), now)
  {
    var raw, s' := Raw(s, w, now), Do(s, w, now);
    RecomputedIsWritten(s, w, now);
    DoRows(s, w, now);
    hide Enabled, Raw, WriteRun, RecomputedRun, Waited, HistoryOf;
    forall x | x in s'.tasks ensures Waited(s'.tasks[x], TaskHistory(s', x), now) {
      RawTaskOrigin(s, w, now, x);
      if w.AddTask? && w.tid == x {
        AddTaskWaited(s, x, w.spec, now);
      } else {
        RawWaited(s, w, now, x);
      }
      if RecomputedRun(s, w).Some? {
        RecomputeHistory(raw, RecomputedRun(s, w).value, now, x);
      }
    }
  }

  lemma {:induction false} DoAllWaited(s: State, ws: seq<Write>, now: Time)
    requires EnabledAll(s, ws, now) && AllWaited(s, now)
    ensures AllWaited(DoAll(s, ws, now), now)
    decreases |ws|
  {
    hide Enabled, Do, AllWaited;
    if |ws| > 0 {
      DoWaited(s, ws[0], now);
      DoAllWaited(Do(s, ws[0], now), ws[1..], now);
    }
  }

  lemma LaterWaited(s: State, clock: Time, now: Time)
    requires AllWaited(s, clock) && clock <= now
    ensures AllWaited(s, now)
  {
    hide HistoryOf;
    forall x | x in s.tasks ensures Waited(s.tasks[x], TaskHistory(s, x), now) {
      assert Waited(s.tasks[x], TaskHistory(s, x), clock);
    }
  }

  // ---- Behaviours with a clock that does not run backwards ----

  predicate Timed(steps: seq<Step>) {
    forall i, j | 0 <= i < j < |steps| :: steps[i].now <= steps[j].now
  }

  lemma {:induction false} ReachableWaited(states: seq<State>, steps: seq<Step>, i: nat)
    requires Behaviour(states, steps) && Timed(steps) && 0 < i < |states|
    ensures AllWaited(states[i], steps[i - 1].now)
  {
    var s, step := states[i - 1], steps[i - 1];
    assert Next(s, step, states[i]);
    hide Enabled, Do, Plan, ChoiceOk;
    if i == 1 {
      assert AllWaited(EMPTY, step.now);
    } else {
      ReachableWaited(states, steps, i - 1);
      LaterWaited(s, steps[i - 2].now, step.now);
    }
    hide AllWaited;
    if Plan(s, step.op, step.now).Ok? {
      DoAllWaited(s, Plan(s, step.op, step.now).value, step.now);
    }
  }

  /** A held task whose first `k` attempts all ended by lease expiry was last claimed no earlier than its
      first claim plus the delays of all `k` retries. */
  lemma ReclaimedNoEarlier(states: seq<State>, steps: seq<Step>, i: nat, x: TaskId)
    requires Behaviour(states, steps) && Timed(steps) && i < |states| && x in states[i].tasks && Held(states[i].tasks[x])
    requires TaskHistory(states[i], x).clean
    ensures var t, h := states[i].tasks[x], TaskHistory(states[i], x);
            h.first.Some? && t.attemptCount == h.expiries + 1 && h.last >= h.first.value + TotalDelay(t.spec.retry, h.expiries)
  {
    if i > 0 {
      ReachableWaited(states, steps, i);
      hide Behaviour, Timed, HistoryOf, TotalDelay;
      assert Waited(states[i].tasks[x], TaskHistory(states[i], x), steps[i - 1].now);
    }
  }

  // ---- Closed forms ----

  lemma {:induction false} ExponentialTotal(retry: Retry, d: int, k: nat)
    requires retry.delayMs == Some(d) && d > 0 && retry.exponential
    requires retry.maxDelayMs.None? || retry.maxDelayMs.value <= 0
    ensures TotalDelay(retry, k) == d * (Pow2(k) - 1)
  {
    if k > 0 {
      ExponentialTotal(retry, d, k - 1);
      assert DelayOf(retry, k) == d * Pow2(k - 1);
      assert d * (Pow2(k) - 1) == d * (Pow2(k - 1) - 1) + d * Pow2(k - 1);
    }
  }

  function SumCapped(d: int, cap: int, k: nat): int {
    if k == 0 then 0
    else SumCapped(d, cap, k - 1) + if d * Pow2(k - 1) < cap then d * Pow2(k - 1) else cap
  }

  lemma {:induction false} CappedTotal(retry: Retry, d: int, cap: int, k: nat)
    requires retry.delayMs == Some(d) && d > 0 && retry.exponential && retry.maxDelayMs == Some(cap) && cap > 0
    ensures TotalDelay(retry, k) == SumCapped(d, cap, k)
  {
    if k > 0 {
      CappedTotal(retry, d, cap, k - 1);
    }
  }

  lemma {:induction false} FixedTotal(retry: Retry, d: int, k: nat)
    requires retry.delayMs == Some(d) && d > 0 && !retry.exponential
    requires retry.maxDelayMs.None? || retry.maxDelayMs.value <= 0
    ensures TotalDelay(retry, k) == d * k
  {
    if k > 0 {
      FixedTotal(retry, d, k - 1);
    }
  }

  /** With uncapped exponential retries the (k + 1)-st claim comes at least d * (2^k - 1) after the first. */
  lemma ExponentialBackoff(states: seq<State>, steps: seq<Step>, i: nat, x: TaskId, d: int)
    requires Behaviour(states, steps) && Timed(steps) && i < |states| && x in states[i].tasks && Held(states[i].tasks[x])
    requires TaskHistory(states[i], x).clean
    requires var retry := states[i].tasks[x].spec.retry;
             retry.delayMs == Some(d) && d > 0 && retry.exponential && (retry.maxDelayMs.None? || retry.maxDelayMs.value <= 0)
    ensures var h := TaskHistory(states[i], x);
            h.first.Some? && h.last >= h.first.value + d * (Pow2(h.expiries) - 1)
  {
    ReclaimedNoEarlier(states, steps, i, x);
    ExponentialTotal(states[i].tasks[x].spec.retry, d, TaskHistory(states[i], x).expiries);
  }

  /** With a cap the bound is the sum of the capped delays. */
  lemma CappedBackoff(states: seq<State>, steps: seq<Step>, i: nat, x: TaskId, d: int, cap: int)
    requires Behaviour(states, steps) && Timed(steps) && i < |states| && x in states[i].tasks && Held(states[i].tasks[x])
    requires TaskHistory(states[i], x).clean
    requires states[i].tasks[x].spec.retry == Retry(Some(d), true, Some(cap)) && d > 0 && cap > 0
    ensures var h := TaskHistory(states[i], x);
            h.first.Some? && h.last >= h.first.value + SumCapped(d, cap, h.expiries)
  {
    ReclaimedNoEarlier(states, steps, i, x);
    CappedTotal(states[i].tasks[x].spec.retry, d, cap, TaskHistory(states[i], x).expiries);
  }
}
