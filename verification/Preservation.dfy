/** Every enabled write keeps the invariant. */
module Preservation {
  import opened Records
  import opened StateMachine
  import opened Writes
  import opened Invariant

  // ---- Revive and Redrive: one task goes back to the queue ----

  function Retask(s: State, tid: TaskId, t: Task): State {
    s.(tasks := s.tasks[tid := t])
  }

  predicate RetaskOk(s: State, tid: TaskId, t: Task) {
    && tid in s.tasks && !Held(s.tasks[tid]) && s.tasks[tid].status != Completed
    && (s.tasks[tid].status == Failed ==> s.tasks[tid].dead)
    && t.spec == s.tasks[tid].spec && t.row == s.tasks[tid].row
    && t.status == Queued && t.leaseId.None? && t.leasedBy.None? && t.leaseExpiresAt.None? && BudgetOk(t)
  }

  lemma RetaskTaskOk(s: State, tid: TaskId, t: Task, x: TaskId)
    requires RetaskOk(s, tid, t) && TaskOk(s, tid) && x in s.tasks && TaskOk(s, x)
    ensures TaskOk(Retask(s, tid, t), x)
  {}

  lemma RetaskTasksOk(s: State, tid: TaskId, t: Task)
    requires TasksOk(s) && RetaskOk(s, tid, t)
    ensures TasksOk(Retask(s, tid, t))
  {
    hide TaskOk;
    forall x | x in s.tasks ensures TaskOk(Retask(s, tid, t), x) {
      RetaskTaskOk(s, tid, t, x);
    }
  }

  lemma RetaskAttemptOk(s: State, tid: TaskId, t: Task, x: Uuid)
    requires RetaskOk(s, tid, t) && x in s.attempts && AttemptOk(s, x)
    ensures AttemptOk(Retask(s, tid, t), x)
  {
    var s' := Retask(s, tid, t);
    assert DepsCompleted(s', s'.tasks[s.attempts[x].taskId]);
  }

  lemma RetaskRestOk(s: State, tid: TaskId, t: Task)
    requires AttemptsOk(s) && LeasesOk(s) && CompletionsOk(s) && RetaskOk(s, tid, t)
    ensures AttemptsOk(Retask(s, tid, t)) && LeasesOk(Retask(s, tid, t)) && CompletionsOk(Retask(s, tid, t))
  {
    var s' := Retask(s, tid, t);
    forall x | x in s'.attempts ensures AttemptOk(s', x) {
      RetaskAttemptOk(s, tid, t, x);
    }
    hide AttemptOk;
    forall x | x in s'.leases ensures LeaseOk(s', x) {
      assert LeaseOk(s, x);
    }
    forall x | x in s'.completions ensures CompletionOk(s', x) {
      assert CompletionOk(s, x);
    }
  }

  lemma RetaskCore(s: State, tid: TaskId, t: Task)
    requires Core(s) && RetaskOk(s, tid, t)
    ensures Core(Retask(s, tid, t))
  {
    var s' := Retask(s, tid, t);
    assert LogOk(s');
    assert Unique(s');
    hide TasksOk, LeasesOk, AttemptsOk, CompletionsOk, Unique, LogOk, RetaskOk;
    RetaskTasksOk(s, tid, t);
    RetaskRestOk(s, tid, t);
  }

  // ---- AddTask ----

  lemma AddTaskRowsOk(s: State, tid: TaskId, spec: TaskSpec, now: Time)
    requires TasksOk(s) && Enabled(s, AddTask(tid, spec), now)
    ensures TasksOk(Raw(s, AddTask(tid, spec), now))
  {
    var s' := Raw(s, AddTask(tid, spec), now);
    forall x | x in s'.tasks ensures TaskOk(s', x) {
      if x != tid {
        assert TaskOk(s, x);
      } else {
        forall d | d in spec.deps ensures s.tasks[d].row < s.seqNo {
          assert InRun(s, d, spec.runId);
          assert TaskOk(s, d);
        }
      }
    }
  }

  lemma AddTaskAttemptOk(s: State, tid: TaskId, spec: TaskSpec, now: Time, x: Uuid)
    requires Enabled(s, AddTask(tid, spec), now) && x in s.attempts && AttemptOk(s, x)
    ensures AttemptOk(Raw(s, AddTask(tid, spec), now), x)
  {
    var s' := Raw(s, AddTask(tid, spec), now);
    assert DepsCompleted(s', s'.tasks[s.attempts[x].taskId]);
  }

  lemma AddTaskRestOk(s: State, tid: TaskId, spec: TaskSpec, now: Time)
    requires AttemptsOk(s) && LeasesOk(s) && CompletionsOk(s) && Enabled(s, AddTask(tid, spec), now)
    ensures var s' := Raw(s, AddTask(tid, spec), now); AttemptsOk(s') && LeasesOk(s') && CompletionsOk(s')
  {
    var s' := Raw(s, AddTask(tid, spec), now);
    forall x | x in s'.attempts ensures AttemptOk(s', x) {
      AddTaskAttemptOk(s, tid, spec, now, x);
    }
    hide AttemptOk;
    forall x | x in s'.leases ensures LeaseOk(s', x) {
      assert LeaseOk(s, x);
    }
    forall x | x in s'.completions ensures CompletionOk(s', x) {
      assert CompletionOk(s, x);
    }
  }

  lemma AddTaskUnique(s: State, tid: TaskId, spec: TaskSpec, now: Time)
    requires Unique(s) && Enabled(s, AddTask(tid, spec), now)
    ensures Unique(Raw(s, AddTask(tid, spec), now))
  {}

  lemma AddTaskCore(s: State, tid: TaskId, spec: TaskSpec, now: Time)
    requires Core(s) && Enabled(s, AddTask(tid, spec), now)
    ensures Core(Raw(s, AddTask(tid, spec), now))
  {
    var s' := Raw(s, AddTask(tid, spec), now);
    assert LogOk(s.(tasks := s'.tasks));
    EmitLogOk(s.(tasks := s'.tasks), spec.runId, Some(tid), None, TaskEnqueued(spec.kind, spec.priority, spec.deps), now);
    hide TasksOk, LeasesOk, AttemptsOk, CompletionsOk, Unique, LogOk;
    AddTaskRowsOk(s, tid, spec, now);
    AddTaskRestOk(s, tid, spec, now);
    AddTaskUnique(s, tid, spec, now);
  }

  // ---- Grant ----

  predicate GrantOk(s: State, tid: TaskId, lid: Uuid, aid: Uuid, token: Option<Token>, now: Time) {
    && Claimable(s, tid, now) && lid !in s.used && aid !in s.used && lid != aid
    && (token.Some? ==> !TokenUsed(s, token.value))
  }

  /** An id that was never drawn names no row. */
  lemma FreshIds(s: State, x: Uuid)
    requires LeasesOk(s) && AttemptsOk(s) && x !in s.used
    ensures x !in s.leases && x !in s.attempts
  {
    assert x in s.leases ==> LeaseOk(s, x);
    assert x in s.attempts ==> AttemptOk(s, x);
  }

  lemma GrantTaskOk(s: State, tid: TaskId, lid: Uuid, aid: Uuid, worker: WorkerId, expiresAt: Time, token: Option<Token>, now: Time, x: TaskId)
    requires GrantOk(s, tid, lid, aid, token, now) && lid !in s.leases && aid !in s.attempts
    requires TaskOk(s, tid) && x in s.tasks && TaskOk(s, x)
    ensures TaskOk(GrantRows(s, tid, lid, aid, worker, expiresAt, token), x)
  {}

  lemma GrantTasksOk(s: State, tid: TaskId, lid: Uuid, aid: Uuid, worker: WorkerId, expiresAt: Time, token: Option<Token>, now: Time)
    requires GrantOk(s, tid, lid, aid, token, now) && lid !in s.leases && aid !in s.attempts
    requires TasksOk(s)
    ensures TasksOk(GrantRows(s, tid, lid, aid, worker, expiresAt, token))
  {
    assert tid in s.tasks;
    hide TaskOk, GrantOk;
    forall x | x in s.tasks ensures TaskOk(GrantRows(s, tid, lid, aid, worker, expiresAt, token), x) {
      GrantTaskOk(s, tid, lid, aid, worker, expiresAt, token, now, x);
    }
  }

  lemma GrantLeasesOk(s: State, tid: TaskId, lid: Uuid, aid: Uuid, worker: WorkerId, expiresAt: Time, token: Option<Token>, now: Time)
    requires GrantOk(s, tid, lid, aid, token, now) && lid !in s.leases && aid !in s.attempts
    requires LeasesOk(s)
    ensures LeasesOk(GrantRows(s, tid, lid, aid, worker, expiresAt, token))
  {
    var s' := GrantRows(s, tid, lid, aid, worker, expiresAt, token);
    forall x | x in s'.leases ensures LeaseOk(s', x) {
      if x != lid {
        assert LeaseOk(s, x);
      }
    }
  }

  lemma GrantAttemptOk(s: State, tid: TaskId, lid: Uuid, aid: Uuid, worker: WorkerId, expiresAt: Time, token: Option<Token>, now: Time, x: Uuid)
    requires GrantOk(s, tid, lid, aid, token, now) && lid !in s.leases && aid !in s.attempts
    requires x in s.attempts && AttemptOk(s, x)
    ensures AttemptOk(GrantRows(s, tid, lid, aid, worker, expiresAt, token), x)
  {
    var s' := GrantRows(s, tid, lid, aid, worker, expiresAt, token);
    assert DepsCompleted(s', s'.tasks[s.attempts[x].taskId]);
  }

  lemma GrantAttemptsOk(s: State, tid: TaskId, lid: Uuid, aid: Uuid, worker: WorkerId, expiresAt: Time, token: Option<Token>, now: Time)
    requires GrantOk(s, tid, lid, aid, token, now) && lid !in s.leases && aid !in s.attempts
    requires AttemptsOk(s)
    ensures AttemptsOk(GrantRows(s, tid, lid, aid, worker, expiresAt, token))
  {
    var s' := GrantRows(s, tid, lid, aid, worker, expiresAt, token);
    assert DepsCompleted(s', s'.tasks[tid]);
    assert AttemptOk(s', aid);
    hide AttemptOk, GrantOk;
    forall x | x in s'.attempts ensures AttemptOk(s', x) {
      if x != aid {
        GrantAttemptOk(s, tid, lid, aid, worker, expiresAt, token, now, x);
      }
    }
  }

  lemma GrantCompletionsOk(s: State, tid: TaskId, lid: Uuid, aid: Uuid, worker: WorkerId, expiresAt: Time, token: Option<Token>, now: Time)
    requires GrantOk(s, tid, lid, aid, token, now)
    requires CompletionsOk(s)
    ensures CompletionsOk(GrantRows(s, tid, lid, aid, worker, expiresAt, token))
  {
    var s' := GrantRows(s, tid, lid, aid, worker, expiresAt, token);
    forall x | x in s'.completions ensures CompletionOk(s', x) {
      assert CompletionOk(s, x);
    }
  }

  lemma GrantUnique(s: State, tid: TaskId, lid: Uuid, aid: Uuid, worker: WorkerId, expiresAt: Time, token: Option<Token>, now: Time)
    requires GrantOk(s, tid, lid, aid, token, now) && lid !in s.leases && aid !in s.attempts
    requires Unique(s)
    ensures Unique(GrantRows(s, tid, lid, aid, worker, expiresAt, token))
  {
    var s' := GrantRows(s, tid, lid, aid, worker, expiresAt, token);
    assert OneOutcome(s');
    assert TokensUnique(s');
    assert KeysUnique(s');
  }

  lemma GrantCore(s: State, tid: TaskId, lid: Uuid, aid: Uuid, worker: WorkerId, expiresAt: Time, token: Option<Token>, now: Time)
    requires Core(s) && GrantOk(s, tid, lid, aid, token, now)
    ensures Core(GrantRows(s, tid, lid, aid, worker, expiresAt, token))
  {
    var s' := GrantRows(s, tid, lid, aid, worker, expiresAt, token);
    assert LogOk(s');
    hide TasksOk, LeasesOk, AttemptsOk, CompletionsOk, Unique, LogOk, GrantRows;
    FreshIds(s, lid);
    FreshIds(s, aid);
    GrantTasksOk(s, tid, lid, aid, worker, expiresAt, token, now);
    GrantLeasesOk(s, tid, lid, aid, worker, expiresAt, token, now);
    GrantAttemptsOk(s, tid, lid, aid, worker, expiresAt, token, now);
    GrantCompletionsOk(s, tid, lid, aid, worker, expiresAt, token, now);
    GrantUnique(s, tid, lid, aid, worker, expiresAt, token, now);
  }

  // ---- CancelAll ----

  lemma CancelTaskOk(s: State, rid: RunId, now: Time, x: TaskId)
    requires rid in s.runs && LeasesOk(s) && AttemptsOk(s)
    requires x in s.tasks && TaskOk(s, x)
    ensures TaskOk(CancelRows(s, rid, now), x)
  {
    var s' := CancelRows(s, rid, now);
    if Held(s.tasks[x]) && s.tasks[x].spec.runId != rid {
      assert LeaseOk(s, LeaseIdOf(s, x));
      assert AttemptOk(s, AttemptIdOf(s, x));
      assert Holds(s', x);
    }
    assert DepsEarlier(s', x) by {
      forall d | d in s'.tasks[x].spec.deps ensures InRun(s', d, s'.tasks[x].spec.runId) && s'.tasks[d].row < s'.tasks[x].row {
        assert InRun(s, d, s.tasks[x].spec.runId);
      }
    }
  }

  lemma CancelTasksOk(s: State, rid: RunId, now: Time)
    requires rid in s.runs && LeasesOk(s) && AttemptsOk(s) && TasksOk(s)
    ensures TasksOk(CancelRows(s, rid, now))
  {
    hide TaskOk, LeasesOk, AttemptsOk;
    forall x | x in s.tasks ensures TaskOk(CancelRows(s, rid, now), x) {
      CancelTaskOk(s, rid, now, x);
    }
  }

  lemma CancelLeasesOk(s: State, rid: RunId, now: Time)
    requires rid in s.runs && LeasesOk(s)
    ensures LeasesOk(CancelRows(s, rid, now))
  {
    var s' := CancelRows(s, rid, now);
    forall x | x in s'.leases ensures LeaseOk(s', x) {
      assert LeaseOk(s, x);
    }
  }

  lemma CancelAttemptOk(s: State, rid: RunId, now: Time, x: Uuid)
    requires rid in s.runs && LeasesOk(s)
    requires x in s.attempts && AttemptOk(s, x)
    ensures AttemptOk(CancelRows(s, rid, now), x)
  {
    var s' := CancelRows(s, rid, now);
    var y := s.attempts[x].taskId;
    assert DepsCompleted(s', s'.tasks[y]);
  }

  lemma CancelAttemptsOk(s: State, rid: RunId, now: Time)
    requires rid in s.runs && LeasesOk(s) && AttemptsOk(s)
    ensures AttemptsOk(CancelRows(s, rid, now))
  {
    hide AttemptOk, LeasesOk;
    forall x | x in s.attempts ensures AttemptOk(CancelRows(s, rid, now), x) {
      CancelAttemptOk(s, rid, now, x);
    }
  }

  lemma CancelCompletionsOk(s: State, rid: RunId, now: Time)
    requires rid in s.runs && CompletionsOk(s)
    ensures CompletionsOk(CancelRows(s, rid, now))
  {
    var s' := CancelRows(s, rid, now);
    forall x | x in s'.completions ensures CompletionOk(s', x) {
      assert CompletionOk(s, x);
    }
  }

  lemma CancelUnique(s: State, rid: RunId, now: Time)
    requires rid in s.runs && Unique(s)
    ensures Unique(CancelRows(s, rid, now))
  {
    var s' := CancelRows(s, rid, now);
    assert OneOutcome(s');
    assert TokensUnique(s');
    assert KeysUnique(s');
  }

  lemma CancelCore(s: State, rid: RunId, now: Time)
    requires rid in s.runs && Core(s)
    ensures Core(CancelRows(s, rid, now))
  {
    var s' := CancelRows(s, rid, now);
    assert LogOk(s');
    hide TasksOk, LeasesOk, AttemptsOk, CompletionsOk, Unique, LogOk, CancelRows;
    CancelTasksOk(s, rid, now);
    CancelLeasesOk(s, rid, now);
    CancelAttemptsOk(s, rid, now);
    CancelCompletionsOk(s, rid, now);
    CancelUnique(s, rid, now);
  }

  // ---- Purge ----

  lemma PurgeDeps(s: State, rid: RunId, x: TaskId)
    requires x in s.tasks && s.tasks[x].spec.runId != rid && DepsEarlier(s, x)
    ensures x in PurgeRows(s, rid).tasks && DepsEarlier(PurgeRows(s, rid), x)
  {
    var s' := PurgeRows(s, rid);
    forall d | d in s'.tasks[x].spec.deps ensures InRun(s', d, s'.tasks[x].spec.runId) && s'.tasks[d].row < s'.tasks[x].row {
      assert InRun(s, d, s.tasks[x].spec.runId);
    }
  }

  lemma PurgeTaskOk(s: State, rid: RunId, x: TaskId)
    requires LeasesOk(s) && AttemptsOk(s)
    requires x in s.tasks && s.tasks[x].spec.runId != rid && TaskOk(s, x)
    ensures TaskOk(PurgeRows(s, rid), x)
  {
    var s' := PurgeRows(s, rid);
    PurgeDeps(s, rid, x);
    hide DepsEarlier, DropRun;
    if Held(s.tasks[x]) {
      assert LeaseOk(s, LeaseIdOf(s, x));
      assert AttemptOk(s, AttemptIdOf(s, x));
      assert Holds(s', x);
    }
  }

  lemma PurgeTasksOk(s: State, rid: RunId)
    requires LeasesOk(s) && AttemptsOk(s) && TasksOk(s)
    ensures TasksOk(PurgeRows(s, rid))
  {
    hide TaskOk, LeasesOk, AttemptsOk;
    forall x | x in s.tasks && s.tasks[x].spec.runId != rid ensures TaskOk(PurgeRows(s, rid), x) {
      PurgeTaskOk(s, rid, x);
    }
  }

  lemma PurgeLeasesOk(s: State, rid: RunId)
    requires LeasesOk(s) && AttemptsOk(s)
    ensures LeasesOk(PurgeRows(s, rid))
  {
    var s' := PurgeRows(s, rid);
    forall x | x in s'.leases ensures LeaseOk(s', x) {
      assert LeaseOk(s, x);
      assert AttemptOk(s, s.leases[x].attemptId);
    }
  }

  lemma PurgeAttemptOk(s: State, rid: RunId, x: Uuid)
    requires x in s.attempts && s.attempts[x].runId != rid && AttemptOk(s, x)
    requires TaskOk(s, s.attempts[x].taskId)
    requires Live(s.attempts[x]) ==> LeaseOk(s, LeaseIdOf(s, s.attempts[x].taskId))
    ensures AttemptOk(PurgeRows(s, rid), x)
  {
    var s' := PurgeRows(s, rid);
    var y := s.attempts[x].taskId;
    forall d | d in s.tasks[y].spec.deps ensures d in s'.tasks && s'.tasks[d].status == Completed {
      assert InRun(s, d, s.tasks[y].spec.runId);
    }
  }

  lemma PurgeAttemptsOk(s: State, rid: RunId)
    requires LeasesOk(s) && AttemptsOk(s) && TasksOk(s)
    ensures AttemptsOk(PurgeRows(s, rid))
  {
    hide TaskOk, LeaseOk, DepsCompleted;
    forall x | x in s.attempts && s.attempts[x].runId != rid ensures AttemptOk(PurgeRows(s, rid), x) {
      assert AttemptOk(s, x);
      PurgeAttemptOk(s, rid, x);
    }
  }

  lemma PurgeCompletionsOk(s: State, rid: RunId)
    requires CompletionsOk(s)
    ensures CompletionsOk(PurgeRows(s, rid))
  {
    var s' := PurgeRows(s, rid);
    forall x | x in s'.completions ensures CompletionOk(s', x) {
      assert CompletionOk(s, x);
    }
  }

  lemma PurgeUnique(s: State, rid: RunId)
    requires Unique(s)
    ensures Unique(PurgeRows(s, rid))
  {
    var s' := PurgeRows(s, rid);
    assert OneOutcome(s');
    assert TokensUnique(s');
    assert KeysUnique(s');
  }

  predicate IdsIncrease(log: seq<Event>, upTo: nat) {
    && (forall i | 0 <= i < |log| :: log[i].id <= upTo)
    && (forall i, j | 0 <= i < j < |log| :: log[i].id < log[j].id)
  }

  lemma {:induction false} DropRunLog(log: seq<Event>, rid: RunId, upTo: nat)
    requires IdsIncrease(log, upTo)
    ensures IdsIncrease(DropRun(log, rid), upTo)
    ensures forall i | 0 <= i < |DropRun(log, rid)| :: DropRun(log, rid)[i] in log && DropRun(log, rid)[i].runId != rid
  {
    if |log| > 0 {
      DropRunLog(log[..|log| - 1], rid, upTo);
      var rest := DropRun(log[..|log| - 1], rid);
      forall i | 0 <= i < |rest| ensures rest[i].id < log[|log| - 1].id {
        assert rest[i] in log[..|log| - 1];
      }
    }
  }

  lemma PurgeLogOk(s: State, rid: RunId)
    requires LogOk(s)
    ensures LogOk(PurgeRows(s, rid))
  {
    DropRunLog(s.log, rid, s.seqNo);
    var log := DropRun(s.log, rid);
    forall i | 0 <= i < |log| ensures log[i].runId in s.runs {
      assert log[i] in s.log;
    }
  }

  lemma PurgeCore(s: State, rid: RunId)
    requires Core(s)
    ensures Core(PurgeRows(s, rid))
  {
    hide TasksOk, LeasesOk, AttemptsOk, CompletionsOk, Unique, LogOk, PurgeRows;
    PurgeTasksOk(s, rid);
    PurgeLeasesOk(s, rid);
    PurgeAttemptsOk(s, rid);
    PurgeCompletionsOk(s, rid);
    PurgeUnique(s, rid);
    PurgeLogOk(s, rid);
  }

  // ---- OpenRun and Record ----

  lemma OpenRunCore(s: State, rid: RunId, now: Time)
    requires Core(s) && rid !in s.runs
    ensures Core(s.(runs := s.runs[rid := Run(RunPending, now)]))
  {
    var s' := s.(runs := s.runs[rid := Run(RunPending, now)]);
    assert LogOk(s');
    hide TasksOk, LeasesOk, AttemptsOk, CompletionsOk, Unique, LogOk;
    SameCompletionsOk(s, s');
    SameCore(s, s');
  }

  lemma RecordCompletionsOk(s: State, token: Token, tid: TaskId, outcome: Outcome, now: Time)
    requires CompletionsOk(s) && Enabled(s, Record(token, tid, outcome), now)
    ensures CompletionsOk(Raw(s, Record(token, tid, outcome), now))
  {
    var s' := Raw(s, Record(token, tid, outcome), now);
    forall x | x in s'.completions ensures CompletionOk(s', x) {
      if x != token {
        assert CompletionOk(s, x);
      }
    }
  }

  lemma RecordCore(s: State, token: Token, tid: TaskId, outcome: Outcome, now: Time)
    requires Core(s) && Enabled(s, Record(token, tid, outcome), now)
    ensures Core(Raw(s, Record(token, tid, outcome), now))
  {
    var s' := Raw(s, Record(token, tid, outcome), now);
    assert LogOk(s');
    hide TasksOk, LeasesOk, AttemptsOk, CompletionsOk, Unique, LogOk;
    RecordCompletionsOk(s, token, tid, outcome, now);
    SameCore(s, s');
  }

  // ---- The row updates of any write ----

  lemma EmitCore(s: State, rid: RunId, tid: Option<TaskId>, aid: Option<Uuid>, payload: Payload, now: Time)
    requires Core(s) && rid in s.runs
    ensures Core(Emit(s, rid, tid, aid, payload, now))
  {
    var s' := Emit(s, rid, tid, aid, payload, now);
    EmitLogOk(s, rid, tid, aid, payload, now);
    hide TasksOk, LeasesOk, AttemptsOk, CompletionsOk, Unique, LogOk;
    SameCompletionsOk(s, s');
    SameCore(s, s');
  }

  lemma ExtendRewriteOk(s: State, tid: TaskId, expiresAt: Time)
    requires HasLease(s, tid) && TaskOk(s, tid)
    ensures var lid, aid := LeaseIdOf(s, tid), AttemptIdOf(s, tid);
            RewriteOk(s, tid, s.tasks[tid].(leaseExpiresAt := Some(expiresAt)), lid, s.leases[lid].(expiresAt := expiresAt),
                      aid, s.attempts[aid].(expiresAt := expiresAt))
  {}

  lemma BeginRewriteOk(s: State, tid: TaskId)
    requires HasLease(s, tid) && TaskOk(s, tid)
    ensures var lid, aid := LeaseIdOf(s, tid), AttemptIdOf(s, tid);
            RewriteOk(s, tid, s.tasks[tid].(status := Running), lid, s.leases[lid], aid, s.attempts[aid].(status := AttemptRunning))
  {}

  lemma SettleRewriteOk(s: State, tid: TaskId, how: Settlement, now: Time)
    requires Enabled(s, Settle(tid, how), now) && TaskOk(s, tid)
    ensures var lid, aid := LeaseIdOf(s, tid), AttemptIdOf(s, tid);
            RewriteOk(s, tid, Settled(s.tasks[tid], how, now), lid, s.leases[lid].(status := SettledLease(how)),
                      aid, s.attempts[aid].(status := SettledAttempt(how)))
  {}

  lemma ExtendCore(s: State, tid: TaskId, expiresAt: Time)
    requires Core(s) && HasLease(s, tid)
    ensures Core(ExtendRows(s, tid, expiresAt))
  {
    var lid, aid := LeaseIdOf(s, tid), AttemptIdOf(s, tid);
    assert TaskOk(s, tid);
    hide Core, RewriteOk, TaskOk;
    ExtendRewriteOk(s, tid, expiresAt);
    RewriteCore(s, tid, s.tasks[tid].(leaseExpiresAt := Some(expiresAt)), lid, s.leases[lid].(expiresAt := expiresAt),
                aid, s.attempts[aid].(expiresAt := expiresAt));
  }

  lemma BeginCore(s: State, tid: TaskId)
    requires Core(s) && HasLease(s, tid)
    ensures Core(BeginRows(s, tid))
  {
    var lid, aid := LeaseIdOf(s, tid), AttemptIdOf(s, tid);
    assert TaskOk(s, tid);
    hide Core, RewriteOk, TaskOk, Rewrite, BeginRows;
    BeginRewriteOk(s, tid);
    BeginIsRewrite(s, tid);
    RewriteCore(s, tid, s.tasks[tid].(status := Running), lid, s.leases[lid], aid, s.attempts[aid].(status := AttemptRunning));
  }

  lemma BeginIsRewrite(s: State, tid: TaskId)
    requires HasLease(s, tid)
    ensures var lid, aid := LeaseIdOf(s, tid), AttemptIdOf(s, tid);
            BeginRows(s, tid) == Rewrite(s, tid, s.tasks[tid].(status := Running), lid, s.leases[lid],
                                         aid, s.attempts[aid].(status := AttemptRunning))
  {
    var lid := LeaseIdOf(s, tid);
    assert s.leases[lid := s.leases[lid]] == s.leases;
  }

  lemma SettleCore(s: State, tid: TaskId, how: Settlement, now: Time)
    requires Core(s) && Enabled(s, Settle(tid, how), now)
    ensures Core(SettleRows(s, tid, how, now))
  {
    var lid, aid := LeaseIdOf(s, tid), AttemptIdOf(s, tid);
    assert TaskOk(s, tid);
    hide Core, RewriteOk, TaskOk, Settled;
    SettleRewriteOk(s, tid, how, now);
    RewriteCore(s, tid, Settled(s.tasks[tid], how, now), lid, s.leases[lid].(status := SettledLease(how)),
                aid, s.attempts[aid].(status := SettledAttempt(how)));
  }

  lemma RawLeaseCore(s: State, w: Write, now: Time)
    requires Core(s) && Enabled(s, w, now) && (w.Extend? || w.Begin? || w.Settle?)
    ensures Core(Raw(s, w, now))
  {
    hide Core;
    match w {
      case Extend(tid, expiresAt) =>
        ExtendCore(s, tid, expiresAt);
        EmitCore(ExtendRows(s, tid, expiresAt), s.tasks[tid].spec.runId, Some(tid), Some(AttemptIdOf(s, tid)),
                 TaskHeartbeat(s.tasks[tid].leasedBy.value, LeaseIdOf(s, tid), expiresAt), now);
      case Begin(tid) =>
        BeginCore(s, tid);
        EmitCore(BeginRows(s, tid), s.tasks[tid].spec.runId, Some(tid), Some(AttemptIdOf(s, tid)),
                 TaskRunning(s.tasks[tid].leasedBy.value, LeaseIdOf(s, tid)), now);
      case Settle(tid, how) =>
        var t := s.tasks[tid];
        SettleCore(s, tid, how, now);
        EmitCore(SettleRows(s, tid, how, now), t.spec.runId, Some(tid), Some(AttemptIdOf(s, tid)), SettledPayload(t, how, now), now);
        if how.Expire? && Exhausted(t) {
          var told := Emit(SettleRows(s, tid, how, now), t.spec.runId, Some(tid), Some(AttemptIdOf(s, tid)), SettledPayload(t, how, now), now);
          EmitCore(told, t.spec.runId, Some(tid), Some(AttemptIdOf(s, tid)),
                   TaskDeadLettered(t.leasedBy.value, t.attemptCount, t.spec.maxAttempts.value), now);
        }
    }
  }

  lemma RetaskIs(s: State, tid: TaskId, t: Task)
    ensures Retask(s, tid, t) == s.(tasks := s.tasks[tid := t])
  {}

  lemma ReviveCore(s: State, tid: TaskId, now: Time)
    requires Core(s) && Enabled(s, Revive(tid), now)
    ensures Core(Raw(s, Revive(tid), now))
  {
    hide LeasesOk, AttemptsOk, CompletionsOk, Unique, LogOk, Retask;
    assert TaskOk(s, tid);
    hide Core;
    RetaskCore(s, tid, s.tasks[tid].(status := Queued));
    RetaskIs(s, tid, s.tasks[tid].(status := Queued));
    EmitCore(Retask(s, tid, s.tasks[tid].(status := Queued)), s.tasks[tid].spec.runId, Some(tid), None, TaskResumed, now);
  }

  lemma RedriveCore(s: State, tid: TaskId, reset: bool, notBefore: Option<Time>, now: Time)
    requires Core(s) && Enabled(s, Redrive(tid, reset, notBefore), now)
    ensures Core(Raw(s, Redrive(tid, reset, notBefore), now))
  {
    hide LeasesOk, AttemptsOk, CompletionsOk, Unique, LogOk, Retask;
    assert TaskOk(s, tid);
    hide Core;
    var t := Redriven(s.tasks[tid], reset, notBefore);
    RetaskCore(s, tid, t);
    RetaskIs(s, tid, t);
    EmitCore(Retask(s, tid, t), s.tasks[tid].spec.runId, Some(tid), None,
             TaskRequeued(reset, notBefore, s.tasks[tid].attemptCount), now);
  }

  lemma RawCore(s: State, w: Write, now: Time)
    requires Core(s) && Enabled(s, w, now)
    ensures Core(Raw(s, w, now))
  {
    hide Core;
    match w {
      case OpenRun(rid) =>
        OpenRunCore(s, rid, now);
        EmitCore(s.(runs := s.runs[rid := Run(RunPending, now)]), rid, None, None, RunCreated, now);
      case AddTask(tid, spec) => AddTaskCore(s, tid, spec, now);
      case Record(token, tid, outcome) => RecordCore(s, token, tid, outcome, now);
      case CancelAll(rid) =>
        CancelCore(s, rid, now);
        EmitCore(CancelRows(s, rid, now), rid, None, None, RunCancelledByCaller, now);
      case Purge(rid) => PurgeCore(s, rid);
      case Extend(_, _) => RawLeaseCore(s, w, now);
      case Begin(_) => RawLeaseCore(s, w, now);
      case Settle(_, _) => RawLeaseCore(s, w, now);
      case Grant(tid, lid, aid, worker, expiresAt, token) =>
        GrantCore(s, tid, lid, aid, worker, expiresAt, token, now);
        EmitCore(GrantRows(s, tid, lid, aid, worker, expiresAt, token), s.tasks[tid].spec.runId, Some(tid), Some(aid),
                 TaskClaimed(worker, lid, expiresAt), now);
      case Revive(tid) => ReviveCore(s, tid, now);
      case Redrive(tid, reset, notBefore) => RedriveCore(s, tid, reset, notBefore, now);
    }
  }

  // ---- The run a write belongs to ----

  /** The one run a write reads and changes. */
  function WriteRun(s: State, w: Write, now: Time): RunId
    requires Enabled(s, w, now)
  {
    match w
    case OpenRun(rid) => rid
    case AddTask(_, spec) => spec.runId
    case Grant(tid, _, _, _, _, _) => s.tasks[tid].spec.runId
    case Extend(tid, _) => s.tasks[tid].spec.runId
    case Begin(tid) => s.tasks[tid].spec.runId
    case Settle(tid, _) => s.tasks[tid].spec.runId
    case Revive(tid) => s.tasks[tid].spec.runId
    case Redrive(tid, _, _) => s.tasks[tid].spec.runId
    case Record(_, tid, _) => s.tasks[tid].spec.runId
    case CancelAll(rid) => rid
    case Purge(rid) => rid
  }

  /** Runs and tasks of other runs are left as they were. */
  predicate OthersKept(s: State, s': State, rid: RunId) {
    && (forall r | r in s.runs && r != rid :: r in s'.runs && s'.runs[r] == s.runs[r])
    && (forall r | r in s'.runs && r != rid :: r in s.runs)
    && (forall x | x in s.tasks && s.tasks[x].spec.runId != rid :: x in s'.tasks && s'.tasks[x] == s.tasks[x])
    && (forall x | x in s'.tasks && s'.tasks[x].spec.runId != rid :: x in s.tasks && s.tasks[x] == s'.tasks[x])
  }

  lemma RawOthers(s: State, w: Write, now: Time)
    requires Enabled(s, w, now)
    ensures OthersKept(s, Raw(s, w, now), WriteRun(s, w, now))
  {
    hide DepsCompleted, KeyTaken, TokenUsed, SettledPayload, DropRun, Lapsed, RetryDelay;
  }

  lemma RawTaskStays(s: State, w: Write, now: Time, x: TaskId)
    requires Enabled(s, w, now) && x in s.tasks && w != Purge(s.tasks[x].spec.runId)
    ensures x in Raw(s, w, now).tasks
  {}

  /** Only AddTask brings a task into the store. */
  lemma RawTaskOrigin(s: State, w: Write, now: Time, x: TaskId)
    requires Enabled(s, w, now) && x in Raw(s, w, now).tasks
    ensures (w.AddTask? && w.tid == x) || (x in s.tasks && w != Purge(s.tasks[x].spec.runId))
  {}

  lemma OthersAgree(s: State, s': State, rid: RunId, r: RunId)
    requires OthersKept(s, s', rid) && r != rid && r in s.runs && r in s'.runs && Agrees(s, r)
    ensures Agrees(s', r)
  {
    StatusesFrame(s, s', r);
  }

  lemma RawAgrees(s: State, w: Write, now: Time, r: RunId)
    requires Inv(s) && Enabled(s, w, now) && r in Raw(s, w, now).runs
    requires r != WriteRun(s, w, now)
    ensures Agrees(Raw(s, w, now), r)
  {
    var rid := WriteRun(s, w, now);
    var s' := Raw(s, w, now);
    hide Core, Raw, Enabled, Agrees, WriteRun;
    RawOthers(s, w, now);
    OthersAgree(s, s', rid, r);
  }

  lemma TaskRunsExist(s: State, x: TaskId)
    requires TasksOk(s) && x in s.tasks
    ensures s.tasks[x].spec.runId in s.runs
  {
    assert TaskOk(s, x);
  }

  lemma OpenRunAgrees(s: State, rid: RunId, now: Time)
    requires TasksOk(s) && Enabled(s, OpenRun(rid), now)
    ensures Agrees(Raw(s, OpenRun(rid), now), rid)
  {
    var s' := Raw(s, OpenRun(rid), now);
    forall x | x in s'.tasks ensures !InRun(s', x, rid) {
      TaskRunsExist(s, x);
    }
    assert StatusesOf(s', rid) == {};
  }

  lemma KeptStatusesAgree(s: State, s': State, rid: RunId)
    requires rid in s.runs && Agrees(s, rid) && s'.runs == s.runs && s'.tasks.Keys == s.tasks.Keys
    requires forall x | x in s.tasks :: s'.tasks[x].spec == s.tasks[x].spec && s'.tasks[x].status == s.tasks[x].status
    ensures Agrees(s', rid)
  {
    StatusesFrame(s, s', rid);
  }

  lemma ExtendAgrees(s: State, tid: TaskId, expiresAt: Time, now: Time)
    requires Enabled(s, Extend(tid, expiresAt), now) && Agrees(s, s.tasks[tid].spec.runId)
    ensures Agrees(Raw(s, Extend(tid, expiresAt), now), s.tasks[tid].spec.runId)
  {
    KeptStatusesAgree(s, Raw(s, Extend(tid, expiresAt), now), s.tasks[tid].spec.runId);
  }

  lemma RecordAgrees(s: State, token: Token, tid: TaskId, outcome: Outcome, now: Time)
    requires Enabled(s, Record(token, tid, outcome), now)
    requires s.tasks[tid].spec.runId in s.runs && Agrees(s, s.tasks[tid].spec.runId)
    ensures Agrees(Raw(s, Record(token, tid, outcome), now), s.tasks[tid].spec.runId)
  {
    KeptStatusesAgree(s, Raw(s, Record(token, tid, outcome), now), s.tasks[tid].spec.runId);
  }

  /** The writes after which no status is recomputed leave their own run in agreement. */
  lemma RawAgreesSelf(s: State, w: Write, now: Time)
    requires Inv(s) && Enabled(s, w, now) && RecomputedRun(s, w).None?
    requires WriteRun(s, w, now) in Raw(s, w, now).runs
    ensures Agrees(Raw(s, w, now), WriteRun(s, w, now))
  {
    var rid := WriteRun(s, w, now);
    hide Agrees, TasksOk, LeasesOk, AttemptsOk, CompletionsOk, Unique, LogOk, HasLease, Lapsed;
    if w.OpenRun? {
      OpenRunAgrees(s, rid, now);
    } else if w.CancelAll? {
      CancelledAgrees(Raw(s, w, now), rid);
    } else if w.Extend? {
      ExtendAgrees(s, w.tid, w.expiresAt, now);
    } else if w.Record? {
      TaskRunsExist(s, w.tid);
      RecordAgrees(s, w.token, w.tid, w.outcome, now);
    }
  }

  lemma CancelledAgrees(s: State, rid: RunId)
    requires rid in s.runs && s.runs[rid].status == RunCancelled
    ensures Agrees(s, rid)
  {}

  lemma RecomputedIsWritten(s: State, w: Write, now: Time)
    requires Enabled(s, w, now)
    ensures RecomputedRun(s, w).Some? ==> RecomputedRun(s, w).value == WriteRun(s, w, now)
    ensures RecomputedRun(s, w).Some? ==> RecomputedRun(s, w).value in Raw(s, w, now).runs
  {}

  lemma DoInv(s: State, w: Write, now: Time)
    requires Inv(s) && Enabled(s, w, now)
    ensures Inv(Do(s, w, now))
  {
    RawCore(s, w, now);
    RecomputedIsWritten(s, w, now);
    var s' := Raw(s, w, now);
    hide Core, Raw, Enabled, Agrees, WriteRun, RecomputedRun;
    forall r | r in s'.runs && r != WriteRun(s, w, now) ensures Agrees(s', r) {
      RawAgrees(s, w, now, r);
    }
    match RecomputedRun(s, w) {
      case Some(rid) => RecomputeInv(s', rid, now);
      case None =>
        if WriteRun(s, w, now) in s'.runs {
          RawAgreesSelf(s, w, now);
        }
    }
  }

  lemma {:induction false} DoAllInv(s: State, ws: seq<Write>, now: Time)
    requires Inv(s) && EnabledAll(s, ws, now)
    ensures Inv(DoAll(s, ws, now))
    decreases |ws|
  {
    hide Inv, Enabled;
    if |ws| > 0 {
      DoInv(s, ws[0], now);
      DoAllInv(Do(s, ws[0], now), ws[1..], now);
    }
  }

  lemma EmptyInv()
    ensures Inv(EMPTY)
  {}
}
