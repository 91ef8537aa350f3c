/** The attempt ledger: every attempt row of a task is accounted for by its attempt count and by the counts
    that dead-letter requeues have reset. */
module Ledger {
  import opened Records
  import opened StateMachine
  import opened Writes
  import opened Invariant
  import opened Preservation
  import opened Transactions

  function AttemptRows(s: State, x: TaskId): set<Uuid> {
    set aid | aid in s.attempts && s.attempts[aid].taskId == x
  }

  function ResetBy(e: Event, rid: RunId, x: TaskId): nat {
    if e.runId == rid && e.taskId == Some(x) && e.payload.TaskRequeued? && e.payload.reset
    then e.payload.previousAttemptCount else 0
  }

  /** The sum of `previousAttemptCount` over the resetting requeues of `x`. */
  function ResetSum(log: seq<Event>, rid: RunId, x: TaskId): nat {
    if |log| == 0 then 0 else ResetSum(log[..|log| - 1], rid, x) + ResetBy(log[|log| - 1], rid, x)
  }

  predicate Balanced(s: State, x: TaskId)
    requires x in s.tasks
  {
    |AttemptRows(s, x)| == s.tasks[x].attemptCount + ResetSum(s.log, s.tasks[x].spec.runId, x)
  }

  /** No event about a task outlives it. */
  predicate EventsOwned(s: State) {
    forall i | 0 <= i < |s.log| :: s.log[i].taskId.Some? ==> InRun(s, s.log[i].taskId.value, s.log[i].runId)
  }

  predicate LedgerOk(s: State) {
    EventsOwned(s) && forall x | x in s.tasks :: Balanced(s, x)
  }

  lemma ResetSumSnoc(log: seq<Event>, e: Event, rid: RunId, x: TaskId)
    ensures ResetSum(log + [e], rid, x) == ResetSum(log, rid, x) + ResetBy(e, rid, x)
  {
    assert (log + [e])[..|log + [e]| - 1] == log;
  }

  lemma {:induction false} ResetSumDropRun(log: seq<Event>, rid: RunId, r: RunId, x: TaskId)
    requires r != rid
    ensures ResetSum(DropRun(log, rid), r, x) == ResetSum(log, r, x)
  {
    if |log| > 0 {
      var rest, last := log[..|log| - 1], log[|log| - 1];
      ResetSumDropRun(rest, rid, r, x);
      if last.runId != rid {
        ResetSumSnoc(DropRun(rest, rid), last, r, x);
      }
    }
  }

  lemma {:induction false} ResetSumUnseen(log: seq<Event>, rid: RunId, x: TaskId)
    requires forall i | 0 <= i < |log| :: log[i].taskId != Some(x)
    ensures ResetSum(log, rid, x) == 0
  {
    if |log| > 0 {
      ResetSumUnseen(log[..|log| - 1], rid, x);
    }
  }

  // ---- Writes ----

  lemma RawEventsOwned(s: State, w: Write, now: Time)
    requires EventsOwned(s) && LogOk(s) && Enabled(s, w, now)
    ensures EventsOwned(Raw(s, w, now))
  {
    var s' := Raw(s, w, now);
    hide HasLease, Lapsed, Claimable;
    if w.Purge? {
      DropRunLog(s.log, w.rid, s.seqNo);
      forall i | 0 <= i < |s'.log| && s'.log[i].taskId.Some? ensures InRun(s', s'.log[i].taskId.value, s'.log[i].runId) {
        assert s'.log[i] in s.log;
      }
    }
  }

  lemma SettleResetSum(s: State, tid: TaskId, how: Settlement, now: Time, r: RunId, x: TaskId)
    requires Enabled(s, Settle(tid, how), now)
    ensures ResetSum(Raw(s, Settle(tid, how), now).log, r, x) == ResetSum(s.log, r, x)
  {
    var s' := Raw(s, Settle(tid, how), now);
    hide Lapsed, Settled, ResetSum;
    ResetSumSnoc(s.log, s'.log[|s.log|], r, x);
    if how.Expire? && Exhausted(s.tasks[tid]) {
      ResetSumSnoc(s.log + [s'.log[|s.log|]], s'.log[|s.log| + 1], r, x);
    }
  }

  /** Writes that append exactly one event. */
  lemma OneEventResetSum(s: State, w: Write, now: Time, x: TaskId)
    requires Enabled(s, w, now) && x in s.tasks && !w.Purge? && !w.Settle? && !w.Record?
    ensures ResetSum(Raw(s, w, now).log, s.tasks[x].spec.runId, x)
         == ResetSum(s.log, s.tasks[x].spec.runId, x)
            + if w.Redrive? && w.tid == x && w.reset then s.tasks[x].attemptCount else 0
  {
    var s', r := Raw(s, w, now), s.tasks[x].spec.runId;
    hide HasLease, Claimable, KeyTaken, InRun, ResetSum;
    ResetSumSnoc(s.log, s'.log[|s.log|], r, x);
  }

  lemma RawResetSum(s: State, w: Write, now: Time, x: TaskId)
    requires Enabled(s, w, now) && x in s.tasks && w != Purge(s.tasks[x].spec.runId)
    ensures ResetSum(Raw(s, w, now).log, s.tasks[x].spec.runId, x)
         == ResetSum(s.log, s.tasks[x].spec.runId, x)
            + if w.Redrive? && w.tid == x && w.reset then s.tasks[x].attemptCount else 0
  {
    hide ResetSum, Enabled;
    if w.Purge? {
      ResetSumDropRun(s.log, w.rid, s.tasks[x].spec.runId, x);
    } else if w.Settle? {
      hide Raw;
      SettleResetSum(s, w.tid, w.how, now, s.tasks[x].spec.runId, x);
    } else if !w.Record? {
      hide Raw;
      OneEventResetSum(s, w, now, x);
    }
  }

  lemma PurgeAttemptRows(s: State, rid: RunId, x: TaskId)
    requires AttemptsOk(s) && x in s.tasks && s.tasks[x].spec.runId != rid
    ensures AttemptRows(PurgeRows(s, rid), x) == AttemptRows(s, x)
  {
    forall aid | aid in AttemptRows(s, x) ensures s.attempts[aid].runId != rid {
      assert AttemptOk(s, aid);
    }
    hide AttemptsOk, AttemptOk;
  }

  lemma RawAttemptRows(s: State, w: Write, now: Time, x: TaskId)
    requires AttemptsOk(s) && Enabled(s, w, now) && x in s.tasks && w != Purge(s.tasks[x].spec.runId)
    ensures AttemptRows(Raw(s, w, now), x)
         == AttemptRows(s, x) + if w.Grant? && w.tid == x then {w.aid} else {}
    ensures w.Grant? ==> w.aid !in AttemptRows(s, x)
  {
    if w.Purge? {
      PurgeAttemptRows(s, w.rid, x);
    } else {
      if w.Grant? { FreshAttempt(s, w.aid); }
      hide AttemptsOk, Lapsed, Claimable, Settled, SettledPayload;
      if w.Extend? || w.Begin? || w.Settle? {
        HeldAttemptRows(s, w, now, x);
      }
    }
  }

  lemma HeldAttemptRows(s: State, w: Write, now: Time, x: TaskId)
    requires Enabled(s, w, now) && (w.Extend? || w.Begin? || w.Settle?)
    ensures AttemptRows(Raw(s, w, now), x) == AttemptRows(s, x)
  {
    hide Lapsed, Settled, SettledPayload;
  }

  lemma FreshAttempt(s: State, aid: Uuid)
    requires AttemptsOk(s) && aid !in s.used
    ensures aid !in s.attempts
  {
    assert aid in s.attempts ==> AttemptOk(s, aid);
  }

  lemma RawAttemptCount(s: State, w: Write, now: Time, x: TaskId)
    requires Enabled(s, w, now) && x in s.tasks && w != Purge(s.tasks[x].spec.runId)
    ensures var s' := Raw(s, w, now);
            && x in s'.tasks && s'.tasks[x].spec == s.tasks[x].spec
            && s'.tasks[x].attemptCount
               == if w.Grant? && w.tid == x then s.tasks[x].attemptCount + 1
                  else if w.Redrive? && w.tid == x && w.reset then 0
                  else s.tasks[x].attemptCount
  {}

  lemma RawBalanced(s: State, w: Write, now: Time, x: TaskId)
    requires Core(s) && Enabled(s, w, now) && x in s.tasks && w != Purge(s.tasks[x].spec.runId) && Balanced(s, x)
    ensures x in Raw(s, w, now).tasks && Balanced(Raw(s, w, now), x)
  {
    hide Enabled, Raw, AttemptRows, TasksOk, LeasesOk, AttemptsOk, CompletionsOk, Unique, LogOk;
    RawResetSum(s, w, now, x);
    RawAttemptRows(s, w, now, x);
    RawAttemptCount(s, w, now, x);
  }

  lemma NewTaskBalanced(s: State, tid: TaskId, spec: TaskSpec, now: Time)
    requires AttemptsOk(s) && EventsOwned(s) && Enabled(s, AddTask(tid, spec), now)
    ensures Balanced(Raw(s, AddTask(tid, spec), now), tid)
  {
    var s' := Raw(s, AddTask(tid, spec), now);
    ResetSumUnseen(s.log, spec.runId, tid);
    ResetSumSnoc(s.log, s'.log[|s.log|], spec.runId, tid);
    forall aid | aid in s'.attempts ensures s'.attempts[aid].taskId != tid {
      assert AttemptOk(s, aid);
    }
    assert AttemptRows(s', tid) == {};
  }

  lemma RawLedger(s: State, w: Write, now: Time)
    requires Core(s) && LedgerOk(s) && Enabled(s, w, now)
    ensures LedgerOk(Raw(s, w, now))
  {
    RawEventsOwned(s, w, now);
    var s' := Raw(s, w, now);
    hide Enabled, Raw, EventsOwned, TasksOk, LeasesOk, AttemptsOk, CompletionsOk, Unique, LogOk, Balanced;
    forall x | x in s'.tasks ensures Balanced(s', x) {
      RawTaskOrigin(s, w, now, x);
      if w.AddTask? && w.tid == x {
        NewTaskBalanced(s, x, w.spec, now);
      } else {
        RawBalanced(s, w, now, x);
      }
    }
  }

  lemma RecomputeLedger(s: State, rid: RunId, now: Time)
    requires LedgerOk(s) && rid in s.runs
    ensures LedgerOk(Recompute(s, rid, now))
  {
    var s' := Recompute(s, rid, now);
    hide DeriveFrom, StatusesOf;
    forall x | x in s'.tasks ensures Balanced(s', x) {
      assert Balanced(s, x);
      assert AttemptRows(s', x) == AttemptRows(s, x);
      if |s'.log| > |s.log| {
        ResetSumSnoc(s.log, s'.log[|s.log|], s.tasks[x].spec.runId, x);
      }
    }
  }

  lemma DoLedger(s: State, w: Write, now: Time)
    requires Inv(s) && LedgerOk(s) && Enabled(s, w, now)
    ensures LedgerOk(Do(s, w, now))
  {
    hide Inv, Core, Enabled, Raw, WriteRun, RecomputedRun, LedgerOk;
    InvTables(s);
    RawLedger(s, w, now);
    RecomputedIsWritten(s, w, now);
    if RecomputedRun(s, w).Some? {
      RecomputeLedger(Raw(s, w, now), RecomputedRun(s, w).value, now);
    }
  }

  lemma {:induction false} DoAllLedger(s: State, ws: seq<Write>, now: Time)
    requires Inv(s) && LedgerOk(s) && EnabledAll(s, ws, now)
    ensures LedgerOk(DoAll(s, ws, now))
    decreases |ws|
  {
    hide Inv, Enabled, Do, LedgerOk;
    if |ws| > 0 {
      DoInv(s, ws[0], now);
      DoLedger(s, ws[0], now);
      DoAllLedger(Do(s, ws[0], now), ws[1..], now);
    }
  }

  /** In every reachable state the attempt rows of a task number its attempt count plus the counts that
      dead-letter requeues have reset. */
  lemma {:induction false} ReachableLedger(states: seq<State>, steps: seq<Step>, i: nat)
    requires Behaviour(states, steps) && i < |states|
    ensures LedgerOk(states[i])
  {
    hide Inv, Enabled, Do;
    if i > 0 {
      ReachableLedger(states, steps, i - 1);
      ReachableInv(states, steps, i - 1);
      var s, step := states[i - 1], steps[i - 1];
      assert Next(s, step, states[i]);
      if Plan(s, step.op, step.now).Ok? {
        DoAllLedger(s, Plan(s, step.op, step.now).value, step.now);
      }
    }
  }

  /** With a limit of at least 0 the count never exceeds it, and a dead task is a failed one whose count is
      exactly the limit.  With a negative limit a task is never attempted. */
  lemma AttemptsWithinBudget(states: seq<State>, steps: seq<Step>, i: nat, x: TaskId)
    requires Behaviour(states, steps) && i < |states| && x in states[i].tasks
    ensures var t := states[i].tasks[x];
            && (t.spec.maxAttempts.Some? && t.spec.maxAttempts.value >= 0 ==> t.attemptCount <= t.spec.maxAttempts.value)
            && (t.spec.maxAttempts.Some? && t.spec.maxAttempts.value < 0 ==> t.attemptCount == 0 && !Held(t))
            && (t.dead ==> t.status == Failed && t.spec.maxAttempts == Some(t.attemptCount))
  {
    ReachableInv(states, steps, i);
    hide Inv, Behaviour;
    InvTask(states[i], x);
  }

  /** A task that has been attempted has all its dependencies completed. */
  lemma AttemptedDeps(states: seq<State>, steps: seq<Step>, i: nat, x: TaskId)
    requires Behaviour(states, steps) && i < |states| && x in states[i].tasks && states[i].tasks[x].attemptCount >= 1
    ensures DepsCompleted(states[i], states[i].tasks[x])
  {
    hide Inv, Behaviour;
    ReachableLedger(states, steps, i);
    ReachableInv(states, steps, i);
    var s := states[i];
    SomeAttempt(s, x);
    var aid :| aid in AttemptRows(s, x);
    InvTables(s);
    hide Core, TasksOk, LeasesOk, CompletionsOk, Unique, LogOk;
    assert AttemptOk(s, aid);
  }

  lemma SomeAttempt(s: State, x: TaskId)
    requires LedgerOk(s) && x in s.tasks && s.tasks[x].attemptCount >= 1
    ensures exists aid :: aid in AttemptRows(s, x)
  {
    assert Balanced(s, x);
    assert |AttemptRows(s, x)| > 0;
  }
}
