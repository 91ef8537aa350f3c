/** Completed, failed and cancelled runs: exactly when a step takes a run out of its terminal status. */
module Terminal {
  import opened Records
  import opened StateMachine
  import opened Writes
  import opened Invariant
  import opened Preservation
  import opened Transactions
  import opened Lifecycle
  import opened Guarantees
  import opened Liveness
  import opened Divergences
  import opened Effects

  // ---- The tasks of a run that is over ----

  lemma OverTasks(s: State, r: RunId, x: TaskId)
    requires Inv(s) && InRun(s, x, r) && r in s.runs
    ensures s.runs[r].status == RunCompleted ==> s.tasks[x].status == Completed
    ensures s.runs[r].status == RunFailed ==> s.tasks[x].status == Completed || s.tasks[x].status == Failed
  {
    if s.runs[r].status == RunCompleted || s.runs[r].status == RunFailed {
      NoCancelledTask(s, r);
      assert Agrees(s, r);
      hide Core;
      assert s.tasks[x].status in StatusesOf(s, r);
    }
  }

  /** No task of a run that is over is held or waiting. */
  lemma OverIdle(s: State, r: RunId, x: TaskId)
    requires Inv(s) && InRun(s, x, r) && r in s.runs && TerminalRun(s.runs[r].status)
    ensures !Held(s.tasks[x]) && !WaitingStatus(s.tasks[x].status)
  {
    hide Inv;
    OverTasks(s, r, x);
    InvTask(s, x);
  }

  // ---- Writes ----

  predicate Disturbs(s: State, w: Write, r: RunId) {
    w == Purge(r) || w == CancelAll(r) || (w.Redrive? && InRun(s, w.tid, r))
  }

  /** Of the writes that belong to the run only recording a token can still happen, and that leaves the run alone. */
  lemma OnlyRecords(s: State, w: Write, now: Time, r: RunId)
    requires Inv(s) && Enabled(s, w, now) && r in s.runs && TerminalRun(s.runs[r].status) && !Disturbs(s, w, r)
    ensures WriteRun(s, w, now) == r ==> w.Record?
  {
    hide Inv, DepsCompleted, KeyTaken, TokenUsed;
    if (w.Extend? || w.Begin? || w.Settle? || w.Revive?) && InRun(s, w.tid, r) {
      OverIdle(s, r, w.tid);
    }
  }

  lemma DoTerminal(s: State, w: Write, now: Time, r: RunId)
    requires Inv(s) && Enabled(s, w, now) && r in s.runs && TerminalRun(s.runs[r].status) && !Disturbs(s, w, r)
    ensures r in Do(s, w, now).runs && Do(s, w, now).runs[r].status == s.runs[r].status
  {
    OnlyRecords(s, w, now, r);
    hide Inv, Disturbs;
    if WriteRun(s, w, now) != r {
      hide Enabled, Raw, WriteRun, RecomputedRun;
      OtherRunKept(s, w, now, r);
    }
  }

  lemma OtherRunKept(s: State, w: Write, now: Time, r: RunId)
    requires Enabled(s, w, now) && r in s.runs && WriteRun(s, w, now) != r
    ensures r in Do(s, w, now).runs && Do(s, w, now).runs[r] == s.runs[r]
  {
    hide Enabled, Raw, WriteRun, RecomputedRun, Recompute;
    RawOthers(s, w, now);
    RecomputedIsWritten(s, w, now);
    if RecomputedRun(s, w).Some? {
      RecomputeRuns(Raw(s, w, now), RecomputedRun(s, w).value, now);
    }
  }

  /** No write of the list purges or cancels the run, or requeues a dead task. */
  predicate Calm(ws: seq<Write>, r: RunId) {
    forall i | 0 <= i < |ws| :: ws[i] != Purge(r) && ws[i] != CancelAll(r) && !ws[i].Redrive?
  }

  lemma {:induction false} DoAllTerminal(s: State, ws: seq<Write>, now: Time, r: RunId)
    requires Inv(s) && EnabledAll(s, ws, now) && Calm(ws, r) && r in s.runs && TerminalRun(s.runs[r].status)
    ensures r in DoAll(s, ws, now).runs && DoAll(s, ws, now).runs[r].status == s.runs[r].status
    decreases |ws|
  {
    if |ws| > 0 {
      assert !Disturbs(s, ws[0], r);
      hide Inv, Enabled, Do, Disturbs;
      DoInv(s, ws[0], now);
      DoTerminal(s, ws[0], now, r);
      DoAllTerminal(Do(s, ws[0], now), ws[1..], now, r);
    }
  }

  // ---- Steps ----

  /** The caller cancels a run that is not cancelled yet. */
  predicate Cancels(s: State, op: Op, r: RunId) {
    op == CancelRun(r) && r in s.runs && s.runs[r].status != RunCancelled
  }

  /** The caller takes a dead task of a failed run out of the dead-letter queue. */
  predicate Reopens(s: State, op: Op, r: RunId) {
    && op.RequeueDead? && InRun(s, op.tid, r) && s.tasks[op.tid].dead
    && r in s.runs && s.runs[r].status == RunFailed
  }

  lemma PlanCalm(s: State, op: Op, now: Time, r: RunId)
    requires Plan(s, op, now).Ok? && !op.RequeueDead? && r in s.runs && !Cancels(s, op, r) && Spares(Plan(s, op, now).value, r)
    ensures Calm(Plan(s, op, now).value, r)
  {
    hide CheckLease, TokenUsed, KeyTaken, DependencyRows, LookupCompletion, CanMove;
  }

  lemma RedriveTerminal(s: State, tid: TaskId, reset: bool, notBefore: Option<Time>, now: Time, r: RunId)
    requires Inv(s) && Enabled(s, Redrive(tid, reset, notBefore), now) && r in s.runs && TerminalRun(s.runs[r].status)
    ensures var s' := Do(s, Redrive(tid, reset, notBefore), now);
            && r in s'.runs
            && s'.runs[r].status == if InRun(s, tid, r) && s.runs[r].status == RunFailed then RunActive else s.runs[r].status
  {
    var w := Redrive(tid, reset, notBefore);
    assert tid in s.tasks && s.tasks[tid].dead;
    hide Inv, Enabled, Do;
    DoInv(s, w, now);
    if InRun(s, tid, r) {
      Requeued(s, tid, reset, notBefore, now, Do(s, w, now));
      DeadFailed(s, tid);
      OverTasks(s, r, tid);
      QueuedActive(Do(s, w, now), tid);
    } else {
      DoTerminal(s, w, now, r);
    }
  }

  lemma RequeueTerminal(s: State, step: Step, s': State, r: RunId)
    requires Inv(s) && Next(s, step, s') && step.op.RequeueDead? && r in s.runs && TerminalRun(s.runs[r].status)
    ensures r in s'.runs
    ensures s'.runs[r].status == if Reopens(s, step.op, r) then RunActive else s.runs[r].status
  {
    hide Inv, Enabled, EnabledAll, DoAll, Do;
    var op := step.op;
    if Plan(s, op, step.now).Ok? {
      NextOne(s, step, s', Redrive(op.tid, op.reset, op.notBefore));
      RedriveTerminal(s, op.tid, op.reset, op.notBefore, step.now, r);
    }
  }

  lemma DeadFailed(s: State, x: TaskId)
    requires Inv(s) && x in s.tasks && s.tasks[x].dead
    ensures s.tasks[x].status == Failed
  {
    hide Inv;
    InvTask(s, x);
  }

  /** A run that is completed, failed or cancelled keeps its status in every step, except exactly these: its caller
      cancels it, or one of its dead tasks is requeued while it is failed, which makes it active again. */
  lemma TerminalStep(s: State, step: Step, s': State, r: RunId)
    requires Inv(s) && Next(s, step, s') && r in s.runs && r in s'.runs && TerminalRun(s.runs[r].status)
    ensures s'.runs[r].status == s.runs[r].status <==> !Cancels(s, step.op, r) && !Reopens(s, step.op, r)
    ensures Cancels(s, step.op, r) ==> s'.runs[r].status == RunCancelled
    ensures Reopens(s, step.op, r) ==> s'.runs[r].status == RunActive
  {
    if Cancels(s, step.op, r) {
      hide Inv, Next, Enabled, Do;
      NextOne(s, step, s', CancelAll(r));
      CancelEffect(s, r, step.now);
    } else if step.op.RequeueDead? {
      hide Inv, Next;
      RequeueTerminal(s, step, s', r);
    } else {
      hide Inv, EnabledAll, DoAll, Plan, ChoiceOk, Cancels;
      if Plan(s, step.op, step.now).Ok? {
        PlanSpares(s, step.op, step.now, r);
        PlanCalm(s, step.op, step.now, r);
        DoAllTerminal(s, Plan(s, step.op, step.now).value, step.now, r);
      }
    }
  }

  // ---- Behaviours ----

  lemma StepOf(states: seq<State>, steps: seq<Step>, k: nat)
    requires Behaviour(states, steps) && k + 1 < |states|
    ensures |states| == |steps| + 1 && Inv(states[k]) && Next(states[k], steps[k], states[k + 1])
  {
    hide Inv, Next;
    ReachableInv(states, steps, k);
  }

  /** Nobody cancels the run or reopens it from `i` to `j`. */
  predicate LeftAlone(states: seq<State>, steps: seq<Step>, i: nat, j: nat, r: RunId)
    requires |states| == |steps| + 1 && i <= j < |states|
  {
    forall k | i <= k < j :: !Cancels(states[k], steps[k].op, r) && !Reopens(states[k], steps[k].op, r)
  }

  /** So a run that is over stays as it is until it is cancelled, reopened or pruned. */
  lemma {:induction false} TerminalForLife(states: seq<State>, steps: seq<Step>, i: nat, j: nat, r: RunId)
    requires Behaviour(states, steps) && Kept(states, i, j, r) && TerminalRun(states[i].runs[r].status)
    ensures LeftAlone(states, steps, i, j, r) ==> states[j].runs[r].status == states[i].runs[r].status
    decreases j - i
  {
    hide Inv, Next, Cancels, Reopens;
    if i < j && LeftAlone(states, steps, i, j, r) {
      StepOf(states, steps, j - 1);
      hide Behaviour;
      assert Kept(states, i, j - 1, r) && LeftAlone(states, steps, i, j - 1, r);
      assert r in states[j - 1].runs && r in states[j].runs;
      hide Kept;
      TerminalForLife(states, steps, i, j - 1, r);
      TerminalStep(states[j - 1], steps[j - 1], states[j], r);
    }
  }

  lemma CompletedStep(s: State, step: Step, s': State, r: RunId)
    requires Inv(s) && Next(s, step, s') && r in s.runs && r in s'.runs && s.runs[r].status == RunCompleted
    requires !Cancels(s, step.op, r)
    ensures s'.runs[r].status == RunCompleted
  {
    hide Inv, Next, Cancels;
    TerminalStep(s, step, s', r);
  }

  predicate NotCancelled(states: seq<State>, steps: seq<Step>, i: nat, j: nat, r: RunId)
    requires |states| == |steps| + 1 && i <= j < |states|
  {
    forall k | i <= k < j :: !Cancels(states[k], steps[k].op, r)
  }

  /** A completed one cannot be reopened: it stays completed until it is cancelled or pruned. */
  lemma {:induction false} CompletedForLife(states: seq<State>, steps: seq<Step>, i: nat, j: nat, r: RunId)
    requires Behaviour(states, steps) && Kept(states, i, j, r) && states[i].runs[r].status == RunCompleted
    ensures NotCancelled(states, steps, i, j, r) ==> states[j].runs[r].status == RunCompleted
    decreases j - i
  {
    hide Inv, Next, Cancels;
    if i < j && NotCancelled(states, steps, i, j, r) {
      StepOf(states, steps, j - 1);
      hide Behaviour;
      assert Kept(states, i, j - 1, r) && NotCancelled(states, steps, i, j - 1, r);
      assert r in states[j - 1].runs && r in states[j].runs && !Cancels(states[j - 1], steps[j - 1].op, r);
      hide Kept, NotCancelled;
      CompletedForLife(states, steps, i, j - 1, r);
      CompletedStep(states[j - 1], steps[j - 1], states[j], r);
    }
  }

  /** And if the status is a different one later, one of the two exceptions came in between. */
  lemma TerminalLeft(states: seq<State>, steps: seq<Step>, i: nat, j: nat, r: RunId) returns (k: nat)
    requires Behaviour(states, steps) && Kept(states, i, j, r) && TerminalRun(states[i].runs[r].status)
    requires states[j].runs[r].status != states[i].runs[r].status
    ensures i <= k < j && (Cancels(states[k], steps[k].op, r) || Reopens(states[k], steps[k].op, r))
  {
    hide Next, Inv, Cancels, Reopens;
    TerminalForLife(states, steps, i, j, r);
    k :| i <= k < j && (Cancels(states[k], steps[k].op, r) || Reopens(states[k], steps[k].op, r));
  }
}
