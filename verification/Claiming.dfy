/** Which task a claim takes, by its columns, and what it writes. */
module Claiming {
  import opened Records
  import opened StateMachine
  import opened Writes
  import opened Invariant
  import opened Preservation
  import opened Transactions
  import opened Lifecycle
  import opened Guarantees
  import opened Liveness
  import opened Effects
  import opened Sweeping
  import Divergences

  // ---- What a claim writes ----

  lemma GrantTells(s: State, w: Write, now: Time)
    requires w.Grant? && Enabled(s, w, now)
    ensures w.tid in s.tasks && s.tasks[w.tid].spec.runId in s.runs
    ensures var s', t, r := Do(s, w, now), s.tasks[w.tid], s.tasks[w.tid].spec.runId;
            && s'.tasks == s.tasks[w.tid := t.(status := Leased, attemptCount := t.attemptCount + 1, leaseId := Some(w.lid),
                                               leasedBy := Some(w.worker), leaseExpiresAt := Some(w.expiresAt), notBefore := None)]
            && s'.leases == s.leases[w.lid := Lease(r, w.tid, w.aid, w.worker, LeaseActive, w.expiresAt, w.clientToken)]
            && s'.attempts == s.attempts[w.aid := Attempt(r, w.tid, w.worker, AttemptLeased, w.expiresAt)]
            && s'.completions == s.completions && Stamped(s, s', r, now)
            && Told(s, s', Event(s.seqNo + 1, r, Some(w.tid), Some(w.aid), TaskClaimed(w.worker, w.lid, w.expiresAt), now), now)
  {
    var r := s.tasks[w.tid].spec.runId;
    DoRows(s, w, now);
    DoTells(s, w, now, r, Event(s.seqNo + 1, r, Some(w.tid), Some(w.aid), TaskClaimed(w.worker, w.lid, w.expiresAt), now));
    hide Do, Stamped, Told, HasBudget, DepsCompleted, TokenUsed;
  }

  /** A claim that is no retry is a sweep followed, if there is a task to pick, by the hand-over: the task gets the lease
      until now + leaseMs and one more attempt, with a lease row that carries the claim token and an attempt row. */
  lemma ClaimWrites(s: State, step: Step, s': State) returns (s1: State)
    requires Inv(s) && Next(s, step, s') && step.op.Claim?
    requires step.op.clientToken.Some? ==> forall lid | lid in s.leases :: s.leases[lid].clientToken != step.op.clientToken
    ensures Next(s, Step(Sweep(step.op.order), step.now), s1)
    ensures step.op.pick.None? ==> s' == s1
    ensures step.op.pick.Some? ==>
              var op, x, due := step.op, step.op.pick.value, step.now + step.op.leaseMs;
              && x in s1.tasks && op.newLease !in s.leases && op.newAttempt !in s.attempts
              && var t, r := s1.tasks[x], s1.tasks[x].spec.runId;
              && s'.tasks == s1.tasks[x := t.(status := Leased, attemptCount := t.attemptCount + 1, leaseId := Some(op.newLease),
                                              leasedBy := Some(op.worker), leaseExpiresAt := Some(due), notBefore := None)]
              && s'.leases == s1.leases[op.newLease := Lease(r, x, op.newAttempt, op.worker, LeaseActive, due, op.clientToken)]
              && s'.attempts == s1.attempts[op.newAttempt := Attempt(r, x, op.worker, AttemptLeased, due)]
              && s'.completions == s.completions && Stamped(s1, s', r, step.now)
              && Told(s1, s', Event(s1.seqNo + 1, r, Some(x), Some(op.newAttempt), TaskClaimed(op.worker, op.newLease, due), step.now), step.now)
  {
    var op, now := step.op, step.now;
    hide *;
    NewToken(s, op);
    ClaimChoice(s, step, s');
    s1 := ClaimSweeps(s, op, now);
    if op.pick.Some? {
      var grant := Grant(op.pick.value, op.newLease, op.newAttempt, op.worker, now + op.leaseMs, op.clientToken);
      ClaimGrants(s, step, s', s1, grant);
      GrantTells(s1, grant, now);
    }
  }

  lemma NewToken(s: State, op: Op)
    requires op.Claim? && (op.clientToken.Some? ==> forall lid | lid in s.leases :: s.leases[lid].clientToken != op.clientToken)
    ensures !(op.clientToken.Some? && TokenUsed(s, op.clientToken.value))
  {}

  lemma ClaimChoice(s: State, step: Step, s': State)
    requires Next(s, step, s') && step.op.Claim? && !(step.op.clientToken.Some? && TokenUsed(s, step.op.clientToken.value))
    ensures ChoiceOk(s, step.op, step.now)
    ensures step.op.pick.None? ==> EnabledAll(s, Expiries(step.op.order), step.now) && s' == DoAll(s, Expiries(step.op.order), step.now)
  {
    hide TokenUsed, BestPick, IsSweepOrder, EnabledAll, DoAll;
  }

  lemma ClaimSweeps(s: State, op: Op, now: Time) returns (s1: State)
    requires Inv(s) && op.Claim? && ChoiceOk(s, op, now) && !(op.clientToken.Some? && TokenUsed(s, op.clientToken.value))
    ensures Next(s, Step(Sweep(op.order), now), s1) && Inv(s1)
    ensures EnabledAll(s, Expiries(op.order), now) && s1 == DoAll(s, Expiries(op.order), now)
    ensures BestPick(s1, op.kinds, now, op.pick) && s1.completions == s.completions
  {
    hide Inv, BestPick, EnabledAll, DoAll, TokenUsed;
    s1 := DoAll(s, Expiries(op.order), now);
    SweepEffect(s, now, op.order);
    hide Swept;
    SweptTokens(s, s1, op.order, now);
  }

  lemma SweptTokens(s: State, s1: State, order: seq<TaskId>, now: Time)
    requires Swept(s, s1, order, now)
    ensures s1.completions == s.completions && s1.used == s.used
  {}

  lemma ClaimGrants(s: State, step: Step, s': State, s1: State, grant: Write)
    requires Inv(s) && Next(s, step, s') && step.op.Claim? && step.op.pick.Some?
    requires !(step.op.clientToken.Some? && TokenUsed(s, step.op.clientToken.value))
    requires EnabledAll(s, Expiries(step.op.order), step.now) && s1 == DoAll(s, Expiries(step.op.order), step.now)
    requires var op := step.op; grant == Grant(op.pick.value, op.newLease, op.newAttempt, op.worker, step.now + op.leaseMs, op.clientToken)
    ensures Enabled(s1, grant, step.now) && s' == Do(s1, grant, step.now)
    ensures step.op.newLease !in s.leases && step.op.newAttempt !in s.attempts
  {
    var op, now := step.op, step.now;
    hide Inv, BestPick, EnabledAll, DoAll, Enabled, Do, TokenUsed;
    GrantEnabled(s, op, now);
    DoAllAppend(s, Expiries(op.order), grant, now);
    InvTables(s);
    FreshIds(s, op.newLease);
    FreshIds(s, op.newAttempt);
  }

  // ---- Which task ----

  lemma SweptRun(s: State, step: Step, s1: State, r: RunId)
    requires Inv(s) && Next(s, step, s1) && step.op.Sweep? && r in s.runs
    ensures r in s1.runs && (s1.runs[r].status == RunCancelled <==> s.runs[r].status == RunCancelled)
  {
    hide Inv, Next, SweptTask, SweptLease, SweptAttempt, Lapsed;
    SweepIsExact(s, step.op.order, step.now, s1);
  }

  lemma SweptDeps(s: State, step: Step, s1: State, deps: set<TaskId>)
    requires Inv(s) && Next(s, step, s1) && step.op.Sweep?
    ensures (forall d | d in deps :: d in s1.tasks && s1.tasks[d].status == Completed)
       <==> (forall d | d in deps :: d in s.tasks && s.tasks[d].status == Completed)
  {
    hide Inv, Next, Swept;
    SweepHolds(s, step, s1);
    forall d | d in s.tasks ensures d in s1.tasks && (s1.tasks[d].status == Completed <==> s.tasks[d].status == Completed) {
      SweepRow(s, step, s1, d);
    }
  }

  /** The run of a task that is queued or held is open, unless it was cancelled. */
  lemma RunOpen(s: State, x: TaskId)
    requires Inv(s) && x in s.tasks && s.tasks[x].status in {Queued, Leased, Running}
    ensures var r := s.tasks[x].spec.runId;
            r in s.runs && (s.runs[r].status in {RunCompleted, RunFailed, RunCancelled} <==> s.runs[r].status == RunCancelled)
    ensures s.tasks[x].status != Queued ==> s.runs[s.tasks[x].spec.runId].status != RunCancelled && DepsCompleted(s, s.tasks[x])
    ensures s.tasks[x].status != Queued ==> s.tasks[x].attemptCount >= 1
  {
    var r := s.tasks[x].spec.runId;
    InvTask(s, x);
    if s.tasks[x].status != Queued { HeldDeps(s, x); }
    assert Agrees(s, r);
    hide Core, DepsCompleted;
    assert InRun(s, x, r);
    assert s.tasks[x].status in StatusesOf(s, r);
  }

  lemma HeldDeps(s: State, x: TaskId)
    requires Inv(s) && HasLease(s, x)
    ensures DepsCompleted(s, s.tasks[x])
  {
    hide Inv, DepsCompleted;
    InvTask(s, x);
    InvTables(s);
    hide Core, TasksOk, LeasesOk, CompletionsOk, Unique, LogOk;
    assert AttemptOk(s, AttemptIdOf(s, x));
  }

  /** What can be claimed after the sweep: a task that was queued and due before, or one that has lapsed, with an
      attempt left and no delay. */
  lemma CandidateColumns(s: State, step: Step, s1: State, kinds: seq<Kind>, x: TaskId)
    requires Inv(s) && Inv(s1) && Next(s, step, s1) && step.op.Sweep? && x in s.tasks
    ensures x in s1.tasks && s1.tasks[x].spec == s.tasks[x].spec && s1.tasks[x].createdAt == s.tasks[x].createdAt
    ensures var t, now := s.tasks[x], step.now;
            Candidate(s1, x, kinds, now) <==>
              && (|kinds| == 0 || t.spec.kind in kinds)
              && (t.spec.maxAttempts.None? || t.attemptCount < t.spec.maxAttempts.value)
              && (forall d | d in t.spec.deps :: d in s.tasks && s.tasks[d].status == Completed)
              && t.spec.runId in s.runs && s.runs[t.spec.runId].status !in {RunCompleted, RunFailed, RunCancelled}
              && if t.status == Queued then t.notBefore.None? || t.notBefore.value <= now
                 else
                   && t.status in {Leased, Running} && t.leaseExpiresAt.Some? && t.leaseExpiresAt.value < now
                   && (t.spec.retry.delayMs.None? || t.spec.retry.delayMs.value <= 0)
  {
    hide Inv, Next;
    SweepRow(s, step, s1, x);
    SweptDeps(s, step, s1, s.tasks[x].spec.deps);
    if s.tasks[x].status in {Queued, Leased, Running} {
      RunOpen(s, x);
      SweptRun(s, step, s1, s.tasks[x].spec.runId);
    }
    if s1.tasks[x].status == Queued { RunOpen(s1, x); }
    if s.tasks[x].attemptCount >= 1 { Divergences.Pow2Positive(s.tasks[x].attemptCount - 1); }
  }

  /** Exactly what a claim that is no retry may take, in every state of every behaviour.  It takes nothing only if
      there is nothing to take; otherwise it takes a task of the highest priority and, of these, the one created
      first. */
  lemma ClaimExact(states: seq<State>, steps: seq<Step>, i: nat, step: Step, s': State, x: TaskId)
    requires Behaviour(states, steps) && i < |states| && step.op.Claim? && Next(states[i], step, s') && x in states[i].tasks
    requires step.op.clientToken.Some? ==> forall lid | lid in states[i].leases :: states[i].leases[lid].clientToken != step.op.clientToken
    ensures var s, t, op, now := states[i], states[i].tasks[x], step.op, step.now;
            var open :=
              && (|op.kinds| == 0 || t.spec.kind in op.kinds)
              && (t.spec.maxAttempts.None? || t.attemptCount < t.spec.maxAttempts.value)
              && (forall d | d in t.spec.deps :: d in s.tasks && s.tasks[d].status == Completed)
              && t.spec.runId in s.runs && s.runs[t.spec.runId].status !in {RunCompleted, RunFailed, RunCancelled}
              && if t.status == Queued then t.notBefore.None? || t.notBefore.value <= now
                 else
                   && t.status in {Leased, Running} && t.leaseExpiresAt.Some? && t.leaseExpiresAt.value < now
                   && (t.spec.retry.delayMs.None? || t.spec.retry.delayMs.value <= 0);
            && (op.pick == Some(x) ==> open)
            && (open ==>
                  && op.pick.Some? && op.pick.value in s.tasks
                  && var p := s.tasks[op.pick.value];
                  && t.spec.priority <= p.spec.priority && (t.spec.priority == p.spec.priority ==> p.createdAt <= t.createdAt))
  {
    ReachableInv(states, steps, i);
    hide *;
    var s, op, now := states[i], step.op, step.now;
    NewToken(s, op);
    ClaimChoice(s, step, s');
    var s1 := ClaimSweeps(s, op, now);
    var sweep := Step(Sweep(op.order), now);
    SweepHolds(s, sweep, s1);
    CandidateColumns(s, sweep, s1, op.kinds, x);
    PickFirst(s1, op.kinds, now, op.pick, x);
    if op.pick.Some? && op.pick.value in s.tasks {
      CandidateColumns(s, sweep, s1, op.kinds, op.pick.value);
    }
  }

  lemma PickFirst(s: State, kinds: seq<Kind>, now: Time, pick: Option<TaskId>, x: TaskId)
    requires BestPick(s, kinds, now, pick) && x in s.tasks
    ensures pick == Some(x) ==> Candidate(s, x, kinds, now)
    ensures pick.Some? ==> pick.value in s.tasks
    ensures Candidate(s, x, kinds, now) ==>
              && pick.Some?
              && var t, p := s.tasks[x], s.tasks[pick.value];
              && t.spec.priority <= p.spec.priority && (t.spec.priority == p.spec.priority ==> p.createdAt <= t.createdAt)
  {
    hide HasBudget, DepsCompleted;
  }

  // ---- Until when ----

  /** Nothing disturbs the holder from `i` to `j`: no step comes after `due`, it does not write itself, and its run is
      neither cancelled nor pruned. */
  predicate Undisturbed(states: seq<State>, steps: seq<Step>, i: nat, j: nat, x: TaskId, lid: Uuid, r: RunId, due: Time)
    requires |states| == |steps| + 1
  {
    && Kept(states, i, j, r)
    && forall k | i <= k < j :: steps[k].now <= due && HolderSilent(steps[k].op, x, lid) && steps[k].op != CancelRun(r)
  }

  lemma HoldsUntil(states: seq<State>, steps: seq<Step>, i: nat, j: nat, x: TaskId, lid: Uuid, worker: WorkerId, due: Time, later: Time)
    requires Behaviour(states, steps) && i <= j < |states| && x in states[i].tasks && Held(states[i].tasks[x])
    requires states[i].tasks[x].leaseId == Some(lid) && states[i].tasks[x].leasedBy == Some(worker)
    requires states[i].tasks[x].leaseExpiresAt == Some(due)
    requires Undisturbed(states, steps, i, j, x, lid, states[i].tasks[x].spec.runId, due)
    ensures CheckLease(states[j], x, lid, worker, later).None? <==> later <= due
  {
    hide Inv, Next, HolderSilent, CheckLease;
    LiveHolderKeepsTask(states, steps, i, j, x, lid, due);
    ReachableInv(states, steps, j);
    hide Behaviour, Undisturbed, Kept;
    CheckReply(states[j], x, lid, worker, later);
  }

  /** A claim gives the worker its task until now + leaseMs: undisturbed, its calls are let through up to that time and
      not after it. */
  lemma ClaimHolds(states: seq<State>, steps: seq<Step>, i: nat, j: nat, r: RunId, later: Time)
    requires Behaviour(states, steps) && i < j < |states| && steps[i].op.Claim? && steps[i].op.pick.Some?
    requires steps[i].op.clientToken.Some? ==> forall lid | lid in states[i].leases :: states[i].leases[lid].clientToken != steps[i].op.clientToken
    requires InRun(states[i + 1], steps[i].op.pick.value, r)
    requires Undisturbed(states, steps, i + 1, j, steps[i].op.pick.value, steps[i].op.newLease, r, steps[i].now + steps[i].op.leaseMs)
    ensures CheckLease(states[j], steps[i].op.pick.value, steps[i].op.newLease, steps[i].op.worker, later).None?
       <==> later <= steps[i].now + steps[i].op.leaseMs
  {
    hide Inv, Next, CheckLease, Undisturbed;
    ReachableInv(states, steps, i);
    assert Next(states[i], steps[i], states[i + 1]);
    var s1 := ClaimWrites(states[i], steps[i], states[i + 1]);
    HoldsUntil(states, steps, i + 1, j, steps[i].op.pick.value, steps[i].op.newLease, steps[i].op.worker,
               steps[i].now + steps[i].op.leaseMs, later);
  }

  /** A heartbeat that goes through does the same, from its own time on. */
  lemma HeartbeatHolds(states: seq<State>, steps: seq<Step>, i: nat, j: nat, r: RunId, later: Time)
    requires Behaviour(states, steps) && i < j < |states| && steps[i].op.Heartbeat? && Plan(states[i], steps[i].op, steps[i].now).Ok?
    requires InRun(states[i + 1], steps[i].op.tid, r)
    requires Undisturbed(states, steps, i + 1, j, steps[i].op.tid, steps[i].op.lid, r, steps[i].now + steps[i].op.leaseMs)
    ensures CheckLease(states[j], steps[i].op.tid, steps[i].op.lid, steps[i].op.worker, later).None?
       <==> later <= steps[i].now + steps[i].op.leaseMs
  {
    hide Inv, Next, CheckLease, Undisturbed, Plan;
    ReachableInv(states, steps, i);
    ReachableInv(states, steps, i + 1);
    assert Next(states[i], steps[i], states[i + 1]);
    HeartbeatEffect(states[i], steps[i], states[i + 1]);
    InvTask(states[i + 1], steps[i].op.tid);
    HoldsUntil(states, steps, i + 1, j, steps[i].op.tid, steps[i].op.lid, steps[i].op.worker,
               steps[i].now + steps[i].op.leaseMs, later);
  }
}
