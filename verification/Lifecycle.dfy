/** What stays true for life: finished tasks, ended attempts, spent leases, recorded tokens. */
module Lifecycle {
  import opened Records
  import opened StateMachine
  import opened Writes
  import opened Invariant
  import opened Preservation
  import opened Transactions

  /** No transition leaves these.  (A dead task is failed, but can be requeued.) */
  predicate Final(t: Task) {
    t.status == Completed || t.status == Cancelled || (t.status == Failed && !t.dead)
  }

  predicate TaskOnward(t: Task, t': Task) {
    t'.spec == t.spec && t'.row == t.row && t'.createdAt == t.createdAt && (Final(t) ==> t' == t)
  }

  predicate AttemptOnward(a: Attempt, a': Attempt) {
    a'.taskId == a.taskId && a'.runId == a.runId && a'.worker == a.worker && (!Live(a) ==> a' == a)
  }

  predicate LeaseOnward(l: Lease, l': Lease) {
    && l'.taskId == l.taskId && l'.runId == l.runId && l'.attemptId == l.attemptId && l'.worker == l.worker
    && l'.clientToken == l.clientToken && (l.status != LeaseActive ==> l' == l)
  }

  /** Everything that belongs to run `r` is still there, and whatever was over has not changed. */
  predicate Onward(s: State, s': State, r: RunId) {
    && r in s.runs && r in s'.runs
    && (s.runs[r].status == RunCancelled ==> s'.runs[r].status == RunCancelled)
    && (forall x | x in s.tasks && s.tasks[x].spec.runId == r :: x in s'.tasks && TaskOnward(s.tasks[x], s'.tasks[x]))
    && (forall x | x in s.attempts && s.attempts[x].runId == r :: x in s'.attempts && AttemptOnward(s.attempts[x], s'.attempts[x]))
    && (forall x | x in s.leases && s.leases[x].runId == r :: x in s'.leases && LeaseOnward(s.leases[x], s'.leases[x]))
    && (forall x | x in s.completions && s.completions[x].runId == r :: x in s'.completions && s'.completions[x] == s.completions[x])
  }

  lemma OnwardTrans(a: State, b: State, c: State, r: RunId)
    requires Onward(a, b, r) && Onward(b, c, r)
    ensures Onward(a, c, r)
  {}

  /** A lease id that was drawn and is not active. */
  predicate Spent(s: State, lid: Uuid) {
    lid in s.used && (lid in s.leases ==> s.leases[lid].status != LeaseActive)
  }

  // ---- One write ----

  lemma RawRunsOnward(s: State, w: Write, now: Time, r: RunId)
    requires Enabled(s, w, now) && w != Purge(r) && r in s.runs
    ensures var s' := Raw(s, w, now);
            r in s'.runs && (s.runs[r].status == RunCancelled ==> s'.runs[r].status == RunCancelled)
  {}

  lemma RawTaskOnward(s: State, w: Write, now: Time, x: TaskId)
    requires Enabled(s, w, now) && x in s.tasks && BudgetOk(s.tasks[x]) && w != Purge(s.tasks[x].spec.runId)
    ensures var s' := Raw(s, w, now); x in s'.tasks && TaskOnward(s.tasks[x], s'.tasks[x])
  {}

  /** Whatever a write does to the status of a task, the transition table allows it; only a dead task is requeued past
      the table. */
  lemma DoFollowsTable(s: State, w: Write, now: Time, x: TaskId)
    requires Inv(s) && Enabled(s, w, now) && x in s.tasks && x in Do(s, w, now).tasks
    ensures var from, to_ := s.tasks[x].status, Do(s, w, now).tasks[x].status;
            from == to_ || CanMove(from, to_) || (w.Redrive? && w.tid == x && s.tasks[x].dead && to_ == Queued)
  {
    hide Inv, Do;
    DoRows(s, w, now);
    RawFollowsTable(s, w, now, x);
    hide Raw, Enabled;
  }

  lemma RawFollowsTable(s: State, w: Write, now: Time, x: TaskId)
    requires Enabled(s, w, now) && x in s.tasks && x in Raw(s, w, now).tasks
    ensures var from, to_ := s.tasks[x].status, Raw(s, w, now).tasks[x].status;
            from == to_ || CanMove(from, to_) || (w.Redrive? && w.tid == x && s.tasks[x].dead && to_ == Queued)
  {
    hide Lapsed, KeyTaken, TokenUsed, DepsCompleted, HasBudget, Exhausted, ComputeNotBefore, SettledPayload;
  }

  lemma HeldActive(s: State, tid: TaskId)
    requires Inv(s) && HasLease(s, tid)
    ensures Live(s.attempts[AttemptIdOf(s, tid)]) && s.leases[LeaseIdOf(s, tid)].status == LeaseActive
  {
    hide Inv;
    InvTask(s, tid);
  }

  /** Writes under a lease change its own attempt and lease only. */
  lemma UnderLeaseOnward(s: State, w: Write, now: Time, x: Uuid)
    requires Enabled(s, w, now) && (w.Extend? || w.Begin? || w.Settle?)
    requires Live(s.attempts[AttemptIdOf(s, w.tid)]) && s.leases[LeaseIdOf(s, w.tid)].status == LeaseActive
    ensures var s' := Raw(s, w, now);
            && (x in s.attempts ==> x in s'.attempts && AttemptOnward(s.attempts[x], s'.attempts[x]))
            && (x in s.leases ==> x in s'.leases && LeaseOnward(s.leases[x], s'.leases[x]))
  {
    hide Lapsed, Settled, SettledPayload;
  }

  lemma OtherWriteOnward(s: State, w: Write, now: Time, x: Uuid)
    requires Enabled(s, w, now) && !w.Extend? && !w.Begin? && !w.Settle?
    requires w.Grant? ==> w.lid !in s.leases && w.aid !in s.attempts
    ensures var s' := Raw(s, w, now);
            && (x in s.attempts && w != Purge(s.attempts[x].runId) ==> x in s'.attempts && AttemptOnward(s.attempts[x], s'.attempts[x]))
            && (x in s.leases && w != Purge(s.leases[x].runId) ==> x in s'.leases && LeaseOnward(s.leases[x], s'.leases[x]))
  {
    hide HasLease, Claimable;
  }

  lemma RawHoldOnward(s: State, w: Write, now: Time, x: Uuid)
    requires Inv(s) && Enabled(s, w, now)
    ensures var s' := Raw(s, w, now);
            && (x in s.attempts && w != Purge(s.attempts[x].runId) ==> x in s'.attempts && AttemptOnward(s.attempts[x], s'.attempts[x]))
            && (x in s.leases && w != Purge(s.leases[x].runId) ==> x in s'.leases && LeaseOnward(s.leases[x], s'.leases[x]))
  {
    hide Inv, Raw, AttemptOnward, LeaseOnward, Live, HasLease, Lapsed;
    InvTables(s);
    hide Core, TasksOk, LeasesOk, AttemptsOk, CompletionsOk, Unique, LogOk;
    if w.Extend? || w.Begin? || w.Settle? {
      HeldActive(s, w.tid);
      UnderLeaseOnward(s, w, now, x);
    } else {
      if w.Grant? {
        FreshIds(s, w.aid);
        FreshIds(s, w.lid);
      }
      OtherWriteOnward(s, w, now, x);
    }
  }

  lemma RawCompletionOnward(s: State, w: Write, now: Time, x: Token)
    requires Enabled(s, w, now) && x in s.completions && w != Purge(s.completions[x].runId)
    ensures var s' := Raw(s, w, now); x in s'.completions && s'.completions[x] == s.completions[x]
  {}

  lemma RawOnward(s: State, w: Write, now: Time, r: RunId)
    requires Inv(s) && Enabled(s, w, now) && w != Purge(r) && r in s.runs
    ensures Onward(s, Raw(s, w, now), r)
  {
    hide Inv, Enabled, Raw, TaskOnward, AttemptOnward, LeaseOnward;
    var s' := Raw(s, w, now);
    RawRunsOnward(s, w, now, r);
    forall x | x in s.tasks && s.tasks[x].spec.runId == r ensures x in s'.tasks && TaskOnward(s.tasks[x], s'.tasks[x]) {
      InvTask(s, x);
      RawTaskOnward(s, w, now, x);
    }
    forall x | x in s.attempts && s.attempts[x].runId == r ensures x in s'.attempts && AttemptOnward(s.attempts[x], s'.attempts[x]) {
      RawHoldOnward(s, w, now, x);
    }
    forall x | x in s.leases && s.leases[x].runId == r ensures x in s'.leases && LeaseOnward(s.leases[x], s'.leases[x]) {
      RawHoldOnward(s, w, now, x);
    }
    forall x | x in s.completions && s.completions[x].runId == r ensures x in s'.completions && s'.completions[x] == s.completions[x] {
      RawCompletionOnward(s, w, now, x);
    }
  }

  lemma DoCancelled(s: State, w: Write, now: Time, r: RunId)
    requires Inv(s) && Enabled(s, w, now) && w != Purge(r) && r in s.runs
    ensures var s' := Do(s, w, now); r in s'.runs && (s.runs[r].status == RunCancelled ==> s'.runs[r].status == RunCancelled)
  {
    hide Inv, Enabled, Raw, RecomputedRun, WriteRun;
    RawRunsOnward(s, w, now, r);
    RawCore(s, w, now) by { InvTables(s); }
    RecomputedIsWritten(s, w, now);
    var raw := Raw(s, w, now);
    hide TasksOk, LeasesOk, AttemptsOk, CompletionsOk, Unique, LogOk;
    if RecomputedRun(s, w) == Some(r) {
      RecomputeStatus(raw, r, now);
    }
  }

  lemma DoOnward(s: State, w: Write, now: Time, r: RunId)
    requires Inv(s) && Enabled(s, w, now) && w != Purge(r) && r in s.runs
    ensures Onward(s, Do(s, w, now), r)
  {
    hide Inv, Enabled, Raw, Do, TaskOnward, AttemptOnward, LeaseOnward;
    RawOnward(s, w, now, r);
    DoRows(s, w, now);
    DoCancelled(s, w, now, r);
  }

  lemma DoSpent(s: State, w: Write, now: Time, lid: Uuid)
    requires Inv(s) && Enabled(s, w, now) && Spent(s, lid)
    ensures Spent(Do(s, w, now), lid)
  {
    hide Do, Inv, Enabled, Raw;
    DoRows(s, w, now);
    RawUsed(s, w, now, lid);
    RawHoldOnward(s, w, now, lid);
  }

  /** Ids stay drawn, and only a grant of a fresh id adds a lease. */
  lemma RawUsed(s: State, w: Write, now: Time, lid: Uuid)
    requires Enabled(s, w, now) && lid in s.used
    ensures lid in Raw(s, w, now).used
    ensures lid in Raw(s, w, now).leases ==> lid in s.leases && w != Purge(s.leases[lid].runId)
  {}

  // ---- Operations ----

  predicate Spares(ws: seq<Write>, r: RunId) {
    forall i | 0 <= i < |ws| :: ws[i] != Purge(r)
  }

  lemma {:induction false} DoAllOnward(s: State, ws: seq<Write>, now: Time, r: RunId)
    requires Inv(s) && EnabledAll(s, ws, now) && Spares(ws, r) && r in s.runs
    ensures Onward(s, DoAll(s, ws, now), r)
    decreases |ws|
  {
    if |ws| > 0 {
      assert ws[0] != Purge(r);
      var s1 := Do(s, ws[0], now);
      hide Inv, Enabled, Do, TaskOnward, AttemptOnward, LeaseOnward;
      DoInv(s, ws[0], now);
      DoOnward(s, ws[0], now, r);
      DoAllOnward(s1, ws[1..], now, r);
      hide Onward;
      OnwardTrans(s, s1, DoAll(s, ws, now), r);
    }
  }

  lemma PruneSpares(s: State, chosen: seq<RunId>, now: Time, r: RunId)
    requires NoDuplicates(chosen) && (forall x | x in chosen :: x in s.runs)
    requires EnabledAll(s, Purges(chosen), now) && r in DoAll(s, Purges(chosen), now).runs
    ensures Spares(Purges(chosen), r)
  {
    hide EnabledAll, DoAll;
    PurgesEnabled(s, chosen, now);
  }

  lemma PlanSpares(s: State, op: Op, now: Time, r: RunId)
    requires Plan(s, op, now).Ok? && ChoiceOk(s, op, now)
    requires EnabledAll(s, Plan(s, op, now).value, now) && r in DoAll(s, Plan(s, op, now).value, now).runs
    ensures Spares(Plan(s, op, now).value, r)
  {
    hide EnabledAll, DoAll, CheckLease, TokenUsed, KeyTaken, DependencyRows, LookupCompletion, CanMove;
    if op.Prune? {
      PruneSpares(s, op.chosen, now, r);
    }
  }

  lemma NextOnward(s: State, step: Step, s': State, r: RunId)
    requires Inv(s) && Next(s, step, s') && r in s.runs && r in s'.runs
    ensures Onward(s, s', r)
  {
    hide Inv, Enabled, Do, ChoiceOk, Plan;
    if Plan(s, step.op, step.now).Ok? {
      PlanSpares(s, step.op, step.now, r);
      DoAllOnward(s, Plan(s, step.op, step.now).value, step.now, r);
    }
  }

  lemma {:induction false} DoAllSpent(s: State, ws: seq<Write>, now: Time, lid: Uuid)
    requires Inv(s) && EnabledAll(s, ws, now) && Spent(s, lid)
    ensures Spent(DoAll(s, ws, now), lid)
    decreases |ws|
  {
    hide Inv, Enabled, Do, Spent;
    if |ws| > 0 {
      DoInv(s, ws[0], now);
      DoSpent(s, ws[0], now, lid);
      DoAllSpent(Do(s, ws[0], now), ws[1..], now, lid);
    }
  }

  // ---- Behaviours ----

  /** Run `r` is in the store in every state from `i` to `j`: it is not pruned in between. */
  predicate Kept(states: seq<State>, i: nat, j: nat, r: RunId) {
    i <= j < |states| && forall k | i <= k <= j :: r in states[k].runs
  }

  lemma {:induction false} KeptOnward(states: seq<State>, steps: seq<Step>, i: nat, j: nat, r: RunId)
    requires Behaviour(states, steps) && Kept(states, i, j, r)
    ensures Onward(states[i], states[j], r)
    decreases j - i
  {
    if i < j {
      hide Inv, Next, Onward;
      KeptOnward(states, steps, i, j - 1, r);
      ReachableInv(states, steps, j - 1);
      assert Next(states[j - 1], steps[j - 1], states[j]);
      hide Behaviour;
      NextOnward(states[j - 1], steps[j - 1], states[j], r);
      OnwardTrans(states[i], states[j - 1], states[j], r);
    }
  }

  lemma {:induction false} SpentForever(states: seq<State>, steps: seq<Step>, i: nat, j: nat, lid: Uuid)
    requires Behaviour(states, steps) && i <= j < |states| && Spent(states[i], lid)
    ensures Spent(states[j], lid)
    decreases j - i
  {
    if i < j {
      hide Inv, Next, Spent;
      SpentForever(states, steps, i, j - 1, lid);
      ReachableInv(states, steps, j - 1);
      assert Next(states[j - 1], steps[j - 1], states[j]);
      hide Behaviour;
      NextSpent(states[j - 1], steps[j - 1], states[j], lid);
    }
  }

  lemma NextSpent(s: State, step: Step, s': State, lid: Uuid)
    requires Inv(s) && Next(s, step, s') && Spent(s, lid)
    ensures Spent(s', lid)
  {
    hide Inv, EnabledAll, DoAll, Plan, ChoiceOk, Spent;
    if Plan(s, step.op, step.now).Ok? {
      DoAllSpent(s, Plan(s, step.op, step.now).value, step.now, lid);
    }
  }
}
