/** The event log is complete: folding the events of a run rebuilds the run's status and, of each of its
    tasks, status, lease, holder, expiry, attempt count, not-before, error and dead flag. */
module EventLog {
  import opened Records
  import opened StateMachine
  import opened Writes
  import opened Invariant
  import opened Preservation
  import opened Transactions

  datatype TaskView = TaskView(
    status: TaskStatus, leaseId: Option<Uuid>, leasedBy: Option<WorkerId>, leaseExpiresAt: Option<Time>,
    attemptCount: nat, notBefore: Option<Time>, error: Option<string>, dead: bool)

  datatype RunView = RunView(status: Option<RunStatus>, tasks: map<TaskId, TaskView>)

  const BLANK := RunView(None, map[])
  const ENQUEUED := TaskView(Queued, None, None, None, 0, None, None, false)

  // ---- Reading events ----

  function LetGo(v: TaskView, status: TaskStatus): TaskView {
    v.(status := status, leaseId := None, leasedBy := None, leaseExpiresAt := None)
  }

  function ApplyTask(v: TaskView, payload: Payload): TaskView {
    match payload
    case TaskClaimed(worker, leaseId, expiresAt) =>
      v.(status := Leased, leaseId := Some(leaseId), leasedBy := Some(worker), leaseExpiresAt := Some(expiresAt),
         attemptCount := v.attemptCount + 1, notBefore := None)
    case TaskHeartbeat(_, _, expiresAt) => v.(leaseExpiresAt := Some(expiresAt))
    case TaskRunning(_, _) => v.(status := Running)
    case TaskPaused(status, _) => LetGo(v, status)
    case TaskResumed => v.(status := Queued)
    case TaskCompleted(_) => LetGo(v, Completed)
    case TaskFailed(_, error) => LetGo(v, Failed).(error := Some(error))
    case TaskReleased(_) => LetGo(v, Queued)
    case TaskLeaseExpired(_, _, _, notBefore) => LetGo(v, Queued).(notBefore := notBefore)
    case TaskDeadLettered(_, _, _) => v.(dead := true)
    case TaskRequeued(reset, notBefore, _) =>
      LetGo(v, Queued).(dead := false, error := None, notBefore := notBefore,
                        attemptCount := if reset then 0 else v.attemptCount)
    case _ => v
  }

  function CancelView(v: TaskView): TaskView {
    if v.status == Completed || v.status == Failed || v.status == Cancelled then v else LetGo(v, Cancelled)
  }

  function ApplyEvent(v: RunView, e: Event): RunView {
    match e.payload
    case RunCreated => RunView(Some(RunPending), map[])
    case RunStatusChanged(_, next) => v.(status := Some(next))
    case RunCancelledByCaller => RunView(Some(RunCancelled), map x | x in v.tasks :: CancelView(v.tasks[x]))
    case TaskEnqueued(_, _, _) => if e.taskId.Some? then v.(tasks := v.tasks[e.taskId.value := ENQUEUED]) else v
    case _ =>
      if e.taskId.Some? && e.taskId.value in v.tasks
      then v.(tasks := v.tasks[e.taskId.value := ApplyTask(v.tasks[e.taskId.value], e.payload)])
      else v
  }

  /** Fold the events of one run, in log order. */
  function Replay(log: seq<Event>, rid: RunId): RunView {
    if |log| == 0 then BLANK
    else
      var v := Replay(log[..|log| - 1], rid);
      if log[|log| - 1].runId == rid then ApplyEvent(v, log[|log| - 1]) else v
  }

  // ---- Reading tables ----

  function ViewTask(t: Task): TaskView {
    TaskView(t.status, t.leaseId, t.leasedBy, t.leaseExpiresAt, t.attemptCount, t.notBefore, t.error, t.dead)
  }

  function ViewOf(s: State, rid: RunId): RunView
    requires rid in s.runs
  {
    RunView(Some(s.runs[rid].status), map x | x in s.tasks && InRun(s, x, rid) :: ViewTask(s.tasks[x]))
  }

  predicate Faithful(s: State, rid: RunId)
    requires rid in s.runs
  {
    Replay(s.log, rid) == ViewOf(s, rid)
  }

  predicate Replayed(s: State) {
    forall rid | rid in s.runs :: Faithful(s, rid)
  }

  // ---- One event ----

  lemma ReplaySnoc(log: seq<Event>, e: Event, rid: RunId)
    ensures Replay(log + [e], rid) == if e.runId == rid then ApplyEvent(Replay(log, rid), e) else Replay(log, rid)
  {
    assert (log + [e])[..|log + [e]| - 1] == log;
  }

  lemma OthersFaithful(s: State, s': State, rid: RunId, r: RunId)
    requires OthersKept(s, s', rid) && r != rid && r in s.runs && r in s'.runs && Faithful(s, r)
    requires Replay(s'.log, r) == Replay(s.log, r)
    ensures Faithful(s', r)
  {
    assert forall x | x in s.tasks || x in s'.tasks :: InRun(s, x, r) <==> InRun(s', x, r);
    assert ViewOf(s', r).tasks == ViewOf(s, r).tasks;
  }

  lemma ViewUpdate(s: State, s': State, rid: RunId, tid: TaskId, t: Task)
    requires rid in s.runs && rid in s'.runs && s'.tasks == s.tasks[tid := t] && t.spec.runId == rid
    requires tid in s.tasks ==> s.tasks[tid].spec.runId == rid
    ensures ViewOf(s', rid).tasks == ViewOf(s, rid).tasks[tid := ViewTask(t)]
    ensures tid in s.tasks ==> tid in ViewOf(s, rid).tasks && ViewOf(s, rid).tasks[tid] == ViewTask(s.tasks[tid])
  {}

  /** A write to one task is reported faithfully when the event, read back, gives the new row. */
  lemma TaskEventFaithful(s: State, s': State, rid: RunId, tid: TaskId, t: Task, e: Event)
    requires rid in s.runs && Faithful(s, rid)
    requires s'.runs == s.runs && s'.tasks == s.tasks[tid := t] && s'.log == s.log + [e]
    requires tid in s.tasks && s.tasks[tid].spec.runId == rid && t.spec.runId == rid
    requires e.runId == rid && e.taskId == Some(tid)
    requires !e.payload.RunCreated? && !e.payload.RunStatusChanged? && !e.payload.RunCancelledByCaller? && !e.payload.TaskEnqueued?
    requires ViewTask(t) == ApplyTask(ViewTask(s.tasks[tid]), e.payload)
    ensures Faithful(s', rid)
  {
    ReplaySnoc(s.log, e, rid);
    ViewUpdate(s, s', rid, tid, t);
  }

  lemma ViewFrame(s: State, s': State, rid: RunId)
    requires rid in s.runs && s'.runs == s.runs && s'.tasks == s.tasks
    ensures ViewOf(s', rid) == ViewOf(s, rid)
  {}

  lemma RunRowView(s: State, rid: RunId, run: Run, r: RunId)
    requires rid in s.runs && r in s.runs
    ensures ViewOf(s.(runs := s.runs[rid := run]), r)
         == if r == rid then ViewOf(s, r).(status := Some(run.status)) else ViewOf(s, r)
  {
    assert ViewOf(s.(runs := s.runs[rid := run]), r).tasks == ViewOf(s, r).tasks;
  }

  lemma RecomputeFaithful(s: State, rid: RunId, now: Time, r: RunId)
    requires rid in s.runs && r in s.runs && Faithful(s, r)
    ensures Faithful(Recompute(s, rid, now), r)
  {
    hide StatusesOf;
    var next := DeriveFrom(s.runs[rid].status, StatusesOf(s, rid));
    hide DeriveFrom, Replay;
    RunRowView(s, rid, Run(next, now), r);
    ReplaySnoc(s.log, Event(s.seqNo + 1, rid, None, None, RunStatusChanged(s.runs[rid].status, next), now), r);
    ViewFrame(s.(runs := s.runs[rid := Run(next, now)]), Recompute(s, rid, now), r);
    hide ViewOf;
  }

  // ---- Writes ----

  lemma {:induction false} ReplayDropRun(log: seq<Event>, rid: RunId, r: RunId)
    requires r != rid
    ensures Replay(DropRun(log, rid), r) == Replay(log, r)
  {
    if |log| > 0 {
      var rest, last := log[..|log| - 1], log[|log| - 1];
      ReplayDropRun(rest, rid, r);
      if last.runId != rid {
        ReplaySnoc(DropRun(rest, rid), last, r);
      }
    }
  }

  /** The events a write appends all belong to its run. */
  lemma RawLog(s: State, w: Write, now: Time, r: RunId)
    requires Enabled(s, w, now) && r != WriteRun(s, w, now)
    ensures Replay(Raw(s, w, now).log, r) == Replay(s.log, r)
  {
    var s' := Raw(s, w, now);
    if w.Purge? {
      ReplayDropRun(s.log, w.rid, r);
    } else if w.Settle? && w.how.Expire? && Exhausted(s.tasks[w.tid]) {
      ReplaySnoc(s.log, s'.log[|s.log|], r);
      ReplaySnoc(s.log + [s'.log[|s.log|]], s'.log[|s.log| + 1], r);
    } else if !w.Record? {
      ReplaySnoc(s.log, s'.log[|s.log|], r);
    }
  }

  /** The two events of a task that is dead-lettered: it fails first, and is marked dead next. */
  lemma DeadLetterFaithful(s: State, tid: TaskId, now: Time)
    requires Enabled(s, Settle(tid, Expire), now) && TaskOk(s, tid) && Faithful(s, s.tasks[tid].spec.runId)
    requires Exhausted(s.tasks[tid])
    ensures Faithful(Raw(s, Settle(tid, Expire), now), s.tasks[tid].spec.runId)
  {
    var t, rid := s.tasks[tid], s.tasks[tid].spec.runId;
    var s' := Raw(s, Settle(tid, Expire), now);
    assert !t.dead && t.notBefore.None?;
    hide Faithful, TaskOk, Lapsed;
    DeadLetterEvents(s, s', tid, rid, t, Settled(t, Expire, now), s'.log[|s.log|], s'.log[|s.log| + 1]);
  }

  lemma DeadLetterEvents(s: State, s': State, tid: TaskId, rid: RunId, t: Task, t': Task, e: Event, f: Event)
    requires tid in s.tasks && s.tasks[tid] == t && t.spec.runId == rid && rid in s.runs && Faithful(s, rid)
    requires !t.dead && t.notBefore.None?
    requires t' == Unleased(t, Failed).(error := Some(MAX_ATTEMPTS_EXCEEDED), notBefore := None, dead := true)
    requires s'.tasks == s.tasks[tid := t'] && s'.runs == s.runs && s'.log == s.log + [e, f]
    requires e.runId == f.runId == rid && e.taskId == f.taskId == Some(tid)
    requires e.payload.TaskFailed? && e.payload.error == MAX_ATTEMPTS_EXCEEDED && f.payload.TaskDeadLettered?
    ensures Faithful(s', rid)
  {
    var alive := t'.(dead := false);
    var told := s.(tasks := s.tasks[tid := alive], log := s.log + [e]);
    TaskEventFaithful(s, told, rid, tid, alive, e);
    assert s'.tasks == told.tasks[tid := t'];
    assert s'.log == told.log + [f];
    TaskEventFaithful(told, s', rid, tid, t', f);
  }

  lemma SettleFaithful(s: State, tid: TaskId, how: Settlement, now: Time)
    requires Enabled(s, Settle(tid, how), now) && TaskOk(s, tid) && Faithful(s, s.tasks[tid].spec.runId)
    ensures Faithful(Raw(s, Settle(tid, how), now), s.tasks[tid].spec.runId)
  {
    var t, rid := s.tasks[tid], s.tasks[tid].spec.runId;
    if how.Expire? && Exhausted(t) {
      hide Enabled, Raw, TaskOk, Faithful;
      DeadLetterFaithful(s, tid, now);
    } else {
      var s' := Raw(s, Settle(tid, how), now);
      TaskEventFaithful(s, s', rid, tid, Settled(t, how, now), s'.log[|s.log|]);
    }
  }

  lemma OneTaskFaithful(s: State, w: Write, now: Time)
    requires Enabled(s, w, now) && (w.Grant? || w.Extend? || w.Begin? || w.Revive? || w.Redrive?)
    requires s.tasks[w.tid].spec.runId in s.runs && Faithful(s, s.tasks[w.tid].spec.runId)
    ensures Faithful(Raw(s, w, now), s.tasks[w.tid].spec.runId)
  {
    var s' := Raw(s, w, now);
    TaskEventFaithful(s, s', s.tasks[w.tid].spec.runId, w.tid, s'.tasks[w.tid], s'.log[|s.log|]);
  }

  lemma AddTaskFaithful(s: State, tid: TaskId, spec: TaskSpec, now: Time)
    requires Enabled(s, AddTask(tid, spec), now) && Faithful(s, spec.runId)
    ensures Faithful(Raw(s, AddTask(tid, spec), now), spec.runId)
  {
    var s' := Raw(s, AddTask(tid, spec), now);
    ReplaySnoc(s.log, s'.log[|s.log|], spec.runId);
    ViewUpdate(s, s', spec.runId, tid, NewTask(s, spec, now));
  }

  lemma OpenRunFaithful(s: State, rid: RunId, now: Time)
    requires Enabled(s, OpenRun(rid), now) && TasksOk(s)
    ensures Faithful(Raw(s, OpenRun(rid), now), rid)
  {
    var s' := Raw(s, OpenRun(rid), now);
    forall x | x in s'.tasks ensures !InRun(s', x, rid) {
      TaskRunsExist(s, x);
    }
    ReplaySnoc(s.log, s'.log[|s.log|], rid);
    assert ViewOf(s', rid).tasks == map[];
  }

  /** Cancelling a run does to its rows what the event says. */
  lemma CancelledView(s: State, rid: RunId, now: Time)
    requires rid in s.runs
    ensures ViewOf(CancelRows(s, rid, now), rid)
         == RunView(Some(RunCancelled), map x | x in ViewOf(s, rid).tasks :: CancelView(ViewOf(s, rid).tasks[x]))
  {
    var v, s' := ViewOf(s, rid), CancelRows(s, rid, now);
    assert ViewOf(s', rid).tasks == map x | x in v.tasks :: CancelView(v.tasks[x]);
  }

  lemma CancelFaithful(s: State, rid: RunId, now: Time)
    requires Enabled(s, CancelAll(rid), now) && Faithful(s, rid)
    ensures Faithful(Raw(s, CancelAll(rid), now), rid)
  {
    var s' := Raw(s, CancelAll(rid), now);
    CancelledView(s, rid, now);
    hide CancelRows;
    ReplaySnoc(s.log, s'.log[|s.log|], rid);
    ViewFrame(CancelRows(s, rid, now), s', rid);
    hide Replay, ViewOf;
  }

  lemma RawFaithful(s: State, w: Write, now: Time)
    requires Inv(s) && Replayed(s) && Enabled(s, w, now)
    requires WriteRun(s, w, now) in Raw(s, w, now).runs
    ensures Faithful(Raw(s, w, now), WriteRun(s, w, now))
  {
    hide Inv, Faithful, Lapsed;
    InvTables(s);
    hide Core, TasksOk, LeasesOk, AttemptsOk, CompletionsOk, Unique, LogOk;
    if w.OpenRun? {
      OpenRunFaithful(s, w.rid, now);
    } else if w.AddTask? {
      AddTaskFaithful(s, w.tid, w.spec, now);
    } else if w.CancelAll? {
      CancelFaithful(s, w.rid, now);
    } else if w.Settle? {
      InvTask(s, w.tid);
      SettleFaithful(s, w.tid, w.how, now);
    } else if w.Record? {
      RecordFaithful(s, w.token, w.tid, w.outcome, now);
    } else if !w.Purge? {
      OneTaskFaithful(s, w, now);
    }
  }

  lemma RecordFaithful(s: State, token: Token, tid: TaskId, outcome: Outcome, now: Time)
    requires Enabled(s, Record(token, tid, outcome), now)
    requires s.tasks[tid].spec.runId in s.runs ==> Faithful(s, s.tasks[tid].spec.runId)
    ensures s.tasks[tid].spec.runId in s.runs ==> Faithful(Raw(s, Record(token, tid, outcome), now), s.tasks[tid].spec.runId)
  {
    var rid, s' := s.tasks[tid].spec.runId, Raw(s, Record(token, tid, outcome), now);
    if rid in s.runs {
      assert forall x | x in s.tasks :: InRun(s, x, rid) <==> InRun(s', x, rid);
      assert ViewOf(s', rid).tasks == ViewOf(s, rid).tasks;
    }
  }

  lemma RawReplayed(s: State, w: Write, now: Time)
    requires Inv(s) && Replayed(s) && Enabled(s, w, now)
    ensures Replayed(Raw(s, w, now))
  {
    hide Inv, Enabled, Raw, WriteRun, Faithful;
    var raw, rid := Raw(s, w, now), WriteRun(s, w, now);
    RawOthers(s, w, now);
    forall r | r in raw.runs ensures Faithful(raw, r) {
      if r == rid {
        RawFaithful(s, w, now);
      } else {
        RawLog(s, w, now, r);
        OthersFaithful(s, raw, rid, r);
      }
    }
  }

  lemma RecomputeReplayed(s: State, rid: RunId, now: Time)
    requires Replayed(s) && rid in s.runs
    ensures Replayed(Recompute(s, rid, now))
  {
    hide Faithful;
    forall r | r in s.runs ensures Faithful(Recompute(s, rid, now), r) {
      RecomputeFaithful(s, rid, now, r);
    }
  }

  lemma DoReplayed(s: State, w: Write, now: Time)
    requires Inv(s) && Replayed(s) && Enabled(s, w, now)
    ensures Replayed(Do(s, w, now))
  {
    hide Inv, Enabled, Raw, WriteRun, RecomputedRun, Replayed;
    RawReplayed(s, w, now);
    RecomputedIsWritten(s, w, now);
    if RecomputedRun(s, w).Some? {
      RecomputeReplayed(Raw(s, w, now), RecomputedRun(s, w).value, now);
    }
  }

  lemma {:induction false} DoAllReplayed(s: State, ws: seq<Write>, now: Time)
    requires Inv(s) && Replayed(s) && EnabledAll(s, ws, now)
    ensures Replayed(DoAll(s, ws, now))
    decreases |ws|
  {
    hide Inv, Enabled, Do, Replayed;
    if |ws| > 0 {
      DoInv(s, ws[0], now);
      DoReplayed(s, ws[0], now);
      DoAllReplayed(Do(s, ws[0], now), ws[1..], now);
    }
  }

  /** In every state of every behaviour the log of each run rebuilds the run. */
  lemma {:induction false} ReachableReplayed(states: seq<State>, steps: seq<Step>, i: nat)
    requires Behaviour(states, steps) && i < |states|
    ensures Replayed(states[i])
  {
    hide Inv, Enabled, Do;
    if i > 0 {
      ReachableReplayed(states, steps, i - 1);
      ReachableInv(states, steps, i - 1);
      var s, step := states[i - 1], steps[i - 1];
      assert Next(s, step, states[i]);
      if Plan(s, step.op, step.now).Ok? {
        DoAllReplayed(s, Plan(s, step.op, step.now).value, step.now);
      }
    }
  }

  // ---- The log of one run ----

  /** `listRunEvents`. */
  function RunEvents(log: seq<Event>, rid: RunId): seq<Event> {
    if |log| == 0 then []
    else
      var rest := RunEvents(log[..|log| - 1], rid);
      if log[|log| - 1].runId == rid then rest + [log[|log| - 1]] else rest
  }

  /** Nothing outside a run's own events is needed to rebuild it. */
  lemma {:induction false} ReplayRunEvents(log: seq<Event>, rid: RunId)
    ensures Replay(RunEvents(log, rid), rid) == Replay(log, rid)
  {
    if |log| > 0 {
      var rest, last := log[..|log| - 1], log[|log| - 1];
      ReplayRunEvents(rest, rid);
      if last.runId == rid {
        ReplaySnoc(RunEvents(rest, rid), last, rid);
      }
    }
  }
}
