/** The log and the tables count alike: the events about a task, by type, and its attempt rows, by status. */
module Tally {
  import opened Records
  import opened StateMachine
  import opened Writes
  import opened Invariant
  import opened Preservation
  import opened Transactions
  import opened Lifecycle
  import opened Paging
  import opened Ledger

  /** The kinds of events about a task. */
  datatype Tag =
    | EnqueuedTag | ClaimedTag | HeartbeatTag | RunningTag | ResumedTag | RequeuedTag | WaitingTag
    | BlockedTag | CompletedTag | FailedTag | ReleasedTag | DeadTag | ExpiredTag | OtherTag

  function TagOf(payload: Payload): Tag {
    match payload
    case TaskEnqueued(_, _, _) => EnqueuedTag
    case TaskClaimed(_, _, _) => ClaimedTag
    case TaskHeartbeat(_, _, _) => HeartbeatTag
    case TaskRunning(_, _) => RunningTag
    case TaskPaused(status, _) => if status == WaitingInput then WaitingTag else BlockedTag
    case TaskResumed => ResumedTag
    case TaskCompleted(_) => CompletedTag
    case TaskFailed(_, _) => FailedTag
    case TaskReleased(_) => ReleasedTag
    case TaskLeaseExpired(_, _, _, _) => ExpiredTag
    case TaskDeadLettered(_, _, _) => DeadTag
    case TaskRequeued(_, _, _) => RequeuedTag
    case _ => OtherTag
  }

  /** How many events of this kind the run's log has about the task. */
  function Tagged(log: seq<Event>, rid: RunId, x: TaskId, tag: Tag): nat {
    if |log| == 0 then 0
    else
      var e := log[|log| - 1];
      Tagged(log[..|log| - 1], rid, x, tag) + if e.runId == rid && e.taskId == Some(x) && TagOf(e.payload) == tag then 1 else 0
  }

  /** The attempts of the task in this status. */
  function AttemptsIn(s: State, x: TaskId, status: AttemptStatus): set<Uuid> {
    Among(s.attempts, x, status)
  }

  function Among(attempts: map<Uuid, Attempt>, x: TaskId, status: AttemptStatus): set<Uuid> {
    set aid | aid in attempts && attempts[aid].taskId == x && attempts[aid].status == status
  }

  function Count(s: State, x: TaskId, tag: Tag): nat
    requires x in s.tasks
  {
    Tagged(s.log, s.tasks[x].spec.runId, x, tag)
  }

  predicate Tallied(s: State, x: TaskId)
    requires x in s.tasks
  {
    && Count(s, x, EnqueuedTag) == 1
    && Count(s, x, CompletedTag) == |AttemptsIn(s, x, AttemptCompleted)|
    && Count(s, x, FailedTag) == |AttemptsIn(s, x, AttemptFailed)| + Count(s, x, DeadTag)
    && Count(s, x, ReleasedTag) + Count(s, x, WaitingTag) + Count(s, x, BlockedTag)
       == |AttemptsIn(s, x, AttemptReleased)|
    && Count(s, x, ExpiredTag) + Count(s, x, DeadTag) == |AttemptsIn(s, x, AttemptExpired)|
    && Count(s, x, DeadTag) == Count(s, x, RequeuedTag) + (if s.tasks[x].dead then 1 else 0)
  }

  predicate ClaimsTold(s: State, x: TaskId)
    requires x in s.tasks
  {
    Count(s, x, ClaimedTag) == |AttemptRows(s, x)|
  }

  lemma TaggedSnoc(log: seq<Event>, e: Event, rid: RunId, x: TaskId, tag: Tag)
    ensures Tagged(log + [e], rid, x, tag)
         == Tagged(log, rid, x, tag) + if e.runId == rid && e.taskId == Some(x) && TagOf(e.payload) == tag then 1 else 0
  {
    assert (log + [e])[..|log + [e]| - 1] == log;
  }

  lemma {:induction false} TaggedDropRun(log: seq<Event>, rid: RunId, r: RunId, x: TaskId, tag: Tag)
    requires r != rid
    ensures Tagged(DropRun(log, rid), r, x, tag) == Tagged(log, r, x, tag)
  {
    if |log| > 0 {
      var rest, last := log[..|log| - 1], log[|log| - 1];
      TaggedDropRun(rest, rid, r, x, tag);
      if last.runId != rid {
        TaggedSnoc(DropRun(rest, rid), last, r, x, tag);
      }
    }
  }

  lemma {:induction false} TaggedUnseen(log: seq<Event>, rid: RunId, x: TaskId, tag: Tag)
    requires forall i | 0 <= i < |log| :: log[i].taskId != Some(x)
    ensures Tagged(log, rid, x, tag) == 0
  {
    if |log| > 0 {
      TaggedUnseen(log[..|log| - 1], rid, x, tag);
    }
  }

  // ---- What a write tells ----

  /** Whether the write appends an event of this kind about the task. */
  predicate Tells(s: State, w: Write, x: TaskId, tag: Tag) {
    match w
    case AddTask(tid, _) => tid == x && tag.EnqueuedTag?
    case Grant(tid, _, _, _, _, _) => tid == x && tag.ClaimedTag?
    case Extend(tid, _) => tid == x && tag.HeartbeatTag?
    case Begin(tid) => tid == x && tag.RunningTag?
    case Revive(tid) => tid == x && tag.ResumedTag?
    case Redrive(tid, _, _) => tid == x && tag.RequeuedTag?
    case Settle(tid, how) =>
      && tid == x && x in s.tasks
      && (match how
          case Park(status) => if status == WaitingInput then tag.WaitingTag? else tag.BlockedTag?
          case Finish => tag.CompletedTag?
          case GiveUp(_) => tag.FailedTag?
          case HandBack => tag.ReleasedTag?
          case Expire => if Exhausted(s.tasks[x]) then tag.FailedTag? || tag.DeadTag? else tag.ExpiredTag?)
    case _ => false
  }

  /** The write belongs to the task, which is there or just added, and to its run. */
  predicate About(s: State, w: Write, x: TaskId, r: RunId) {
    if x in s.tasks then s.tasks[x].spec.runId == r && w != Purge(r) else w.AddTask? && w.tid == x && w.spec.runId == r
  }

  lemma SettleLog(s: State, w: Write, now: Time)
    requires w.Settle? && Enabled(s, w, now)
    ensures var log, t, dies := Raw(s, w, now).log, s.tasks[w.tid], w.how.Expire? && Exhausted(s.tasks[w.tid]);
            && t.leasedBy.Some? && t.leaseId.Some?
            && |log| == |s.log| + (if dies then 2 else 1) && log[..|s.log|] == s.log
            && (forall i | |s.log| <= i < |log| :: log[i].runId == t.spec.runId && log[i].taskId == Some(w.tid))
            && log[|s.log|].payload == SettledPayload(t, w.how, now) && (dies ==> log[|s.log| + 1].payload.TaskDeadLettered?)
  {
    hide Settled, Lapsed, ComputeNotBefore, SettledPayload;
  }

  lemma SettledTag(s: State, w: Write, now: Time, tag: Tag)
    requires w.Settle? && w.tid in s.tasks && s.tasks[w.tid].leasedBy.Some? && s.tasks[w.tid].leaseId.Some?
    ensures var t, dies := s.tasks[w.tid], w.how.Expire? && Exhausted(s.tasks[w.tid]);
            var told := TagOf(SettledPayload(t, w.how, now));
            && (dies ==> told.FailedTag?)
            && (Tells(s, w, w.tid, tag) <==> told == tag || (dies && tag.DeadTag?))
  {
    hide Exhausted, ComputeNotBefore;
  }

  lemma SettleTold(s: State, w: Write, now: Time, x: TaskId, tag: Tag)
    requires w.Settle? && Enabled(s, w, now)
    ensures var log, rid, dies := Raw(s, w, now).log, s.tasks[w.tid].spec.runId, w.how.Expire? && Exhausted(s.tasks[w.tid]);
            && |log| == |s.log| + (if dies then 2 else 1) && log[..|s.log|] == s.log
            && (forall i | |s.log| <= i < |log| :: log[i].runId == rid && log[i].taskId == Some(w.tid))
            && (dies ==> TagOf(log[|s.log|].payload) != TagOf(log[|s.log| + 1].payload))
            && (w.tid == x ==> (Tells(s, w, x, tag) <==> TagOf(log[|s.log|].payload) == tag || (dies && TagOf(log[|s.log| + 1].payload) == tag)))
            && (w.tid != x ==> !Tells(s, w, x, tag))
  {
    SettleLog(s, w, now);
    SettledTag(s, w, now, tag);
    assert w.tid != x ==> !Tells(s, w, x, tag);
    hide Raw, Enabled, SettledPayload, Exhausted, Tells;
  }

  lemma SettleTagged(s: State, w: Write, now: Time, x: TaskId, r: RunId, tag: Tag)
    requires w.Settle? && Enabled(s, w, now) && About(s, w, x, r)
    ensures Tagged(Raw(s, w, now).log, r, x, tag) == Tagged(s.log, r, x, tag) + if Tells(s, w, x, tag) then 1 else 0
  {
    SettleTold(s, w, now, x, tag);
    var log := Raw(s, w, now).log;
    hide Tagged, Raw, Tells, Enabled, TagOf, Exhausted;
    TaggedSnoc(s.log, log[|s.log|], r, x, tag);
    if |log| == |s.log| + 2 {
      TaggedSnoc(s.log + [log[|s.log|]], log[|s.log| + 1], r, x, tag);
      assert log == s.log + [log[|s.log|]] + [log[|s.log| + 1]];
    } else {
      assert log == s.log + [log[|s.log|]];
    }
  }

  /** The one event of a write other than a settlement. */
  predicate OneEvent(s: State, w: Write, now: Time, x: TaskId, r: RunId, tag: Tag)
    requires Enabled(s, w, now)
  {
    var log := Raw(s, w, now).log;
    && |log| == |s.log| + 1 && log == s.log + [log[|s.log|]]
    && var e := log[|s.log|]; Tells(s, w, x, tag) <==> e.runId == r && e.taskId == Some(x) && TagOf(e.payload) == tag
  }

  lemma HoldTold(s: State, w: Write, now: Time, x: TaskId, r: RunId, tag: Tag)
    requires (w.Grant? || w.Extend? || w.Begin?) && Enabled(s, w, now) && About(s, w, x, r)
    ensures OneEvent(s, w, now, x, r, tag)
  {
    hide Claimable, TokenUsed;
  }

  lemma PlainTold(s: State, w: Write, now: Time, x: TaskId, r: RunId, tag: Tag)
    requires (w.OpenRun? || w.AddTask? || w.Revive? || w.Redrive? || w.CancelAll?) && Enabled(s, w, now) && About(s, w, x, r)
    ensures OneEvent(s, w, now, x, r, tag)
  {
    hide KeyTaken, CancelTask, CancelAttempt, CancelLease;
  }

  lemma OneTagged(s: State, w: Write, now: Time, x: TaskId, r: RunId, tag: Tag)
    requires !w.Settle? && !w.Purge? && !w.Record? && Enabled(s, w, now) && About(s, w, x, r)
    ensures Tagged(Raw(s, w, now).log, r, x, tag) == Tagged(s.log, r, x, tag) + if Tells(s, w, x, tag) then 1 else 0
  {
    if w.Grant? || w.Extend? || w.Begin? { HoldTold(s, w, now, x, r, tag); } else { PlainTold(s, w, now, x, r, tag); }
    hide Tagged, Raw, Tells, Enabled, TagOf, About;
    TaggedSnoc(s.log, Raw(s, w, now).log[|s.log|], r, x, tag);
  }

  lemma RawTagged(s: State, w: Write, now: Time, x: TaskId, r: RunId, tag: Tag)
    requires Enabled(s, w, now) && About(s, w, x, r)
    ensures Tagged(Raw(s, w, now).log, r, x, tag) == Tagged(s.log, r, x, tag) + if Tells(s, w, x, tag) then 1 else 0
  {
    hide Enabled, Tagged;
    if w.Settle? {
      hide Raw, Tells;
      SettleTagged(s, w, now, x, r, tag);
    } else if w.Purge? {
      TaggedDropRun(s.log, w.rid, r, x, tag);
    } else if !w.Record? {
      hide Raw, Tells;
      OneTagged(s, w, now, x, r, tag);
    }
  }

  // ---- What a write does to the attempts ----

  predicate EndStatus(status: AttemptStatus) {
    status != AttemptLeased && status != AttemptRunning && status != AttemptCancelled
  }

  lemma SettleAttempts(s: State, w: Write, now: Time, x: TaskId, status: AttemptStatus)
    requires Enabled(s, w, now) && w.Settle? && Live(s.attempts[AttemptIdOf(s, w.tid)])
    requires s.attempts[AttemptIdOf(s, w.tid)].taskId == w.tid && EndStatus(status)
    ensures |AttemptsIn(Raw(s, w, now), x, status)|
         == |AttemptsIn(s, x, status)| + if w.tid == x && SettledAttempt(w.how) == status then 1 else 0
  {
    var s', aid := Raw(s, w, now), AttemptIdOf(s, w.tid);
    assert s'.attempts == s.attempts[aid := s.attempts[aid].(status := SettledAttempt(w.how))] by {
      hide Settled, SettledPayload, Lapsed;
    }
    hide Enabled, Raw;
    EndedOne(s, s', aid, SettledAttempt(w.how), x, status);
  }

  lemma EndedOne(s: State, s': State, aid: Uuid, end: AttemptStatus, x: TaskId, status: AttemptStatus)
    requires aid in s.attempts && Live(s.attempts[aid]) && EndStatus(status)
    requires s'.attempts == s.attempts[aid := s.attempts[aid].(status := end)]
    ensures |AttemptsIn(s', x, status)| == |AttemptsIn(s, x, status)| + if s.attempts[aid].taskId == x && end == status then 1 else 0
  {
    var was, now := s.attempts, s'.attempts;
    assert now.Keys == was.Keys && now[aid] == was[aid].(status := end) && forall y | y in was && y != aid :: now[y] == was[y];
    OneMore(was, now, aid, x, status);
  }

  lemma OneMore(was: map<Uuid, Attempt>, now: map<Uuid, Attempt>, aid: Uuid, x: TaskId, status: AttemptStatus)
    requires now.Keys == was.Keys && aid in was && (forall y | y in was && y != aid :: now[y] == was[y])
    requires was[aid].status != status
    ensures |Among(now, x, status)| == |Among(was, x, status)| + if now[aid].taskId == x && now[aid].status == status then 1 else 0
  {
    var more := if now[aid].taskId == x && now[aid].status == status then {aid} else {};
    forall y ensures y in Among(now, x, status) <==> y in Among(was, x, status) || y in more {
      if y in was && y != aid { assert now[y] == was[y]; }
    }
    assert aid !in Among(was, x, status);
    hide Among;
    assert Among(now, x, status) == Among(was, x, status) + more;
  }

  lemma HoldAttempts(s: State, w: Write, now: Time, x: TaskId, status: AttemptStatus)
    requires Enabled(s, w, now) && (w.Extend? || w.Begin?) && Live(s.attempts[AttemptIdOf(s, w.tid)]) && EndStatus(status)
    ensures AttemptsIn(Raw(s, w, now), x, status) == AttemptsIn(s, x, status)
  {}

  lemma GrantAttempts(s: State, w: Write, now: Time, x: TaskId, status: AttemptStatus)
    requires Enabled(s, w, now) && w.Grant? && w.aid !in s.attempts && EndStatus(status)
    ensures AttemptsIn(Raw(s, w, now), x, status) == AttemptsIn(s, x, status)
  {
    hide Claimable, TokenUsed;
  }

  lemma PurgeAttempts(s: State, w: Write, now: Time, x: TaskId, status: AttemptStatus)
    requires AttemptsOk(s) && Enabled(s, w, now) && w.Purge? && x in s.tasks && s.tasks[x].spec.runId != w.rid
    ensures AttemptsIn(Raw(s, w, now), x, status) == AttemptsIn(s, x, status)
  {
    forall aid | aid in AttemptsIn(s, x, status) ensures s.attempts[aid].runId != w.rid {
      assert AttemptOk(s, aid);
    }
    hide AttemptsOk, AttemptOk;
  }

  lemma RawAttempts(s: State, w: Write, now: Time, x: TaskId, status: AttemptStatus)
    requires Inv(s) && Enabled(s, w, now) && x in s.tasks && w != Purge(s.tasks[x].spec.runId) && EndStatus(status)
    ensures |AttemptsIn(Raw(s, w, now), x, status)|
         == |AttemptsIn(s, x, status)| + if w.Settle? && w.tid == x && SettledAttempt(w.how) == status then 1 else 0
  {
    InvTables(s);
    hide Inv, Core, TasksOk, LeasesOk, AttemptsOk, CompletionsOk, Unique, LogOk, AttemptsIn;
    if w.Settle? || w.Extend? || w.Begin? {
      HeldActive(s, w.tid);
      HoldersAttempt(s, w.tid);
      if w.Settle? { SettleAttempts(s, w, now, x, status); } else { HoldAttempts(s, w, now, x, status); }
    } else if w.Grant? {
      FreshIds(s, w.aid);
      GrantAttempts(s, w, now, x, status);
    } else if w.Purge? {
      PurgeAttempts(s, w, now, x, status);
    } else {
      PlainAttempts(s, w, now, x, status);
    }
  }

  lemma HoldersAttempt(s: State, x: TaskId)
    requires Inv(s) && HasLease(s, x)
    ensures s.attempts[AttemptIdOf(s, x)].taskId == x
  {
    hide Inv;
    InvTask(s, x);
  }

  lemma PlainAttempts(s: State, w: Write, now: Time, x: TaskId, status: AttemptStatus)
    requires Enabled(s, w, now) && EndStatus(status)
    requires w.OpenRun? || w.AddTask? || w.Revive? || w.Redrive? || w.Record? || w.CancelAll?
    ensures AttemptsIn(Raw(s, w, now), x, status) == AttemptsIn(s, x, status)
  {
    hide KeyTaken, CancelTask, CancelLease;
  }

  // ---- The laws ----

  lemma RawDead(s: State, w: Write, now: Time, x: TaskId)
    requires Enabled(s, w, now) && x in s.tasks && w != Purge(s.tasks[x].spec.runId)
    ensures var s' := Raw(s, w, now);
            && x in s'.tasks && s'.tasks[x].spec.runId == s.tasks[x].spec.runId
            && s'.tasks[x].dead == (if w.Redrive? && w.tid == x then false
                                    else s.tasks[x].dead || (w.Settle? && w.tid == x && w.how.Expire? && Exhausted(s.tasks[x])))
    ensures w.Redrive? && w.tid == x ==> s.tasks[x].dead
  {
    hide HasLease, Lapsed, KeyTaken, TokenUsed, DepsCompleted, Exhausted, ComputeNotBefore, SettledPayload;
  }

  lemma SettledAlive(s: State, w: Write, now: Time)
    requires Inv(s) && Enabled(s, w, now) && w.Settle?
    ensures !s.tasks[w.tid].dead
  {
    hide Inv;
    InvTask(s, w.tid);
  }

  lemma RawCount(s: State, w: Write, now: Time, x: TaskId, tag: Tag)
    requires Enabled(s, w, now) && x in s.tasks && w != Purge(s.tasks[x].spec.runId)
    ensures x in Raw(s, w, now).tasks && Count(Raw(s, w, now), x, tag) == Count(s, x, tag) + (if Tells(s, w, x, tag) then 1 else 0)
  {
    RawDead(s, w, now, x);
    RawTagged(s, w, now, x, s.tasks[x].spec.runId, tag);
    hide Raw, Enabled, Tagged, Tells;
  }

  /** The counts after the write, from those before. */
  ghost predicate Counted(s: State, w: Write, s': State, x: TaskId) {
    && x in s.tasks && x in s'.tasks
    && (forall tag: Tag :: Count(s', x, tag) == Count(s, x, tag) + (if Tells(s, w, x, tag) then 1 else 0))
    && (forall status: AttemptStatus | EndStatus(status) ::
          |AttemptsIn(s', x, status)| == |AttemptsIn(s, x, status)| + if w.Settle? && w.tid == x && SettledAttempt(w.how) == status then 1 else 0)
  }

  lemma RawCounted(s: State, w: Write, now: Time, x: TaskId)
    requires Inv(s) && Enabled(s, w, now) && x in s.tasks && w != Purge(s.tasks[x].spec.runId)
    ensures Counted(s, w, Raw(s, w, now), x)
  {
    hide Inv, Enabled, Raw, Count, Tells, AttemptsIn;
    RawDead(s, w, now, x);
    forall tag: Tag ensures Count(Raw(s, w, now), x, tag) == Count(s, x, tag) + (if Tells(s, w, x, tag) then 1 else 0) {
      RawCount(s, w, now, x, tag);
    }
    forall status: AttemptStatus | EndStatus(status)
      ensures |AttemptsIn(Raw(s, w, now), x, status)|
           == |AttemptsIn(s, x, status)| + if w.Settle? && w.tid == x && SettledAttempt(w.how) == status then 1 else 0 {
      RawAttempts(s, w, now, x, status);
    }
  }

  lemma RawTallied(s: State, w: Write, now: Time, x: TaskId)
    requires Inv(s) && Enabled(s, w, now) && x in s.tasks && w != Purge(s.tasks[x].spec.runId) && Tallied(s, x)
    ensures x in Raw(s, w, now).tasks && Tallied(Raw(s, w, now), x)
  {
    assert w.AddTask? ==> w.tid != x;
    hide Inv, Enabled, Raw, Tallied, Counted;
    RawDead(s, w, now, x);
    RawCounted(s, w, now, x);
    if w.Settle? && w.tid == x {
      SettledAlive(s, w, now);
      SettleTallied(s, w, Raw(s, w, now), x);
    } else {
      OtherTallied(s, w, Raw(s, w, now), x);
    }
  }

  lemma SettleTallied(s: State, w: Write, s': State, x: TaskId)
    requires x in s.tasks && w.Settle? && w.tid == x && Counted(s, w, s', x) && Tallied(s, x) && !s.tasks[x].dead
    requires s'.tasks[x].dead == (w.how.Expire? && Exhausted(s.tasks[x]))
    ensures Tallied(s', x)
  {
    hide Count, AttemptsIn, Exhausted;
  }

  lemma OtherTallied(s: State, w: Write, s': State, x: TaskId)
    requires x in s.tasks && !(w.Settle? && w.tid == x) && !(w.AddTask? && w.tid == x) && Counted(s, w, s', x) && Tallied(s, x)
    requires s'.tasks[x].dead == (if w.Redrive? && w.tid == x then false else s.tasks[x].dead) && (w.Redrive? && w.tid == x ==> s.tasks[x].dead)
    ensures Tallied(s', x)
  {
    hide Count, AttemptsIn;
  }

  lemma ClaimTells(s: State, w: Write, x: TaskId)
    ensures Tells(s, w, x, ClaimedTag) <==> w.Grant? && w.tid == x
  {}

  lemma RawClaimsTold(s: State, w: Write, now: Time, x: TaskId)
    requires Inv(s) && Enabled(s, w, now) && x in s.tasks && w != Purge(s.tasks[x].spec.runId) && ClaimsTold(s, x)
    ensures x in Raw(s, w, now).tasks && ClaimsTold(Raw(s, w, now), x)
  {
    hide Inv, Core, TasksOk, LeasesOk, AttemptsOk, CompletionsOk, Unique, LogOk, Enabled, Raw, Count, AttemptRows, Tells;
    InvTables(s);
    RawCount(s, w, now, x, ClaimedTag);
    ClaimTells(s, w, x);
    RawAttemptRows(s, w, now, x);
  }

  lemma AddTold(s: State, tid: TaskId, spec: TaskSpec, now: Time)
    requires Inv(s) && EventsOwned(s) && Enabled(s, AddTask(tid, spec), now)
    ensures var s' := Raw(s, AddTask(tid, spec), now); tid in s'.tasks && Tallied(s', tid) && ClaimsTold(s', tid)
  {
    var s' := Raw(s, AddTask(tid, spec), now);
    assert tid !in s.tasks && tid in s'.tasks && s'.tasks[tid].spec.runId == spec.runId && !s'.tasks[tid].dead && s'.attempts == s.attempts;
    hide Inv, Raw, Enabled, Tagged, EventsOwned;
    forall tag: Tag ensures Tagged(s'.log, spec.runId, tid, tag) == if tag == EnqueuedTag then 1 else 0 {
      AddTagged(s, tid, spec, now, tag);
    }
    NoAttempts(s, tid);
    FreshTallied(s', tid);
  }

  lemma FreshTallied(s: State, tid: TaskId)
    requires tid in s.tasks && !s.tasks[tid].dead && forall aid | aid in s.attempts :: s.attempts[aid].taskId != tid
    requires forall tag: Tag :: Tagged(s.log, s.tasks[tid].spec.runId, tid, tag) == if tag == EnqueuedTag then 1 else 0
    ensures Tallied(s, tid) && ClaimsTold(s, tid)
  {
    hide Tagged;
    assert AttemptRows(s, tid) == {};
    forall status: AttemptStatus ensures AttemptsIn(s, tid, status) == {} {}
    hide AttemptsIn, AttemptRows;
  }

  lemma AddTagged(s: State, tid: TaskId, spec: TaskSpec, now: Time, tag: Tag)
    requires EventsOwned(s) && Enabled(s, AddTask(tid, spec), now)
    ensures Tagged(Raw(s, AddTask(tid, spec), now).log, spec.runId, tid, tag) == if tag == EnqueuedTag then 1 else 0
  {
    var w := AddTask(tid, spec);
    assert tid !in s.tasks;
    TaggedUnseen(s.log, spec.runId, tid, tag);
    RawTagged(s, w, now, tid, spec.runId, tag);
    hide Tagged, Raw, Enabled;
  }

  lemma NoAttempts(s: State, tid: TaskId)
    requires Inv(s) && tid !in s.tasks
    ensures forall aid | aid in s.attempts :: s.attempts[aid].taskId != tid
  {
    hide Inv;
    InvTables(s);
    hide Core, TasksOk, LeasesOk, CompletionsOk, Unique, LogOk;
    forall aid | aid in s.attempts ensures s.attempts[aid].taskId != tid {
      assert AttemptOk(s, aid);
    }
  }

  ghost predicate AllTallied(s: State) {
    forall x | x in s.tasks :: Tallied(s, x) && ClaimsTold(s, x)
  }

  lemma RecomputeTallied(s: State, r: RunId, now: Time)
    requires r in s.runs && AllTallied(s)
    ensures AllTallied(Recompute(s, r, now))
  {
    var s' := Recompute(s, r, now);
    assert s'.tasks == s.tasks && s'.attempts == s.attempts && (s'.log == s.log || (s'.log == s.log + [s'.log[|s.log|]] && s'.log[|s.log|].taskId.None?)) by {
      hide DeriveFrom, StatusesOf;
    }
    hide Recompute;
    forall x | x in s.tasks ensures Tallied(s', x) && ClaimsTold(s', x) {
      assert Tallied(s, x) && ClaimsTold(s, x);
      SameTally(s, s', x);
    }
  }

  lemma SameTally(s: State, s': State, x: TaskId)
    requires x in s.tasks && s'.tasks == s.tasks && s'.attempts == s.attempts && Tallied(s, x) && ClaimsTold(s, x)
    requires s'.log == s.log || (|s'.log| == |s.log| + 1 && s'.log == s.log + [s'.log[|s.log|]] && s'.log[|s.log|].taskId.None?)
    ensures Tallied(s', x) && ClaimsTold(s', x)
  {
    assert AttemptRows(s', x) == AttemptRows(s, x);
    forall status: AttemptStatus ensures AttemptsIn(s', x, status) == AttemptsIn(s, x, status) {}
    hide AttemptsIn, AttemptRows, Tagged;
    forall tag: Tag ensures Count(s', x, tag) == Count(s, x, tag) {
      if |s'.log| > |s.log| {
        TaggedSnoc(s.log, s'.log[|s.log|], s.tasks[x].spec.runId, x, tag);
      }
    }
    hide Count;
  }

  lemma DoTallied(s: State, w: Write, now: Time)
    requires Inv(s) && EventsOwned(s) && AllTallied(s) && Enabled(s, w, now)
    ensures AllTallied(Do(s, w, now))
  {
    hide Inv, Enabled, Raw, WriteRun, RecomputedRun, EventsOwned, Tallied, ClaimsTold;
    var raw := Raw(s, w, now);
    forall x | x in raw.tasks ensures Tallied(raw, x) && ClaimsTold(raw, x) {
      RawTaskOrigin(s, w, now, x);
      if w.AddTask? && w.tid == x {
        AddTold(s, x, w.spec, now);
      } else {
        RawTallied(s, w, now, x);
        RawClaimsTold(s, w, now, x);
      }
    }
    RecomputedIsWritten(s, w, now);
    if RecomputedRun(s, w).Some? {
      RecomputeTallied(raw, RecomputedRun(s, w).value, now);
    }
  }

  lemma {:induction false} DoAllTallied(s: State, ws: seq<Write>, now: Time)
    requires Inv(s) && LedgerOk(s) && AllTallied(s) && EnabledAll(s, ws, now)
    ensures AllTallied(DoAll(s, ws, now))
    decreases |ws|
  {
    hide Inv, Enabled, Do, AllTallied, EventsOwned;
    if |ws| > 0 {
      DoInv(s, ws[0], now);
      DoLedger(s, ws[0], now);
      DoTallied(s, ws[0], now);
      DoAllTallied(Do(s, ws[0], now), ws[1..], now);
    }
  }

  lemma {:induction false} AllReachable(states: seq<State>, steps: seq<Step>, i: nat)
    requires Behaviour(states, steps) && i < |states|
    ensures AllTallied(states[i])
  {
    hide Inv, LedgerOk, Tallied, ClaimsTold;
    if i > 0 {
      hide AllTallied, Next;
      AllReachable(states, steps, i - 1);
      ReachableLedger(states, steps, i - 1);
      ReachableInv(states, steps, i - 1);
      assert Next(states[i - 1], steps[i - 1], states[i]);
      hide Behaviour;
      NextTallied(states[i - 1], steps[i - 1], states[i]);
    }
  }

  lemma NextTallied(s: State, step: Step, s': State)
    requires Inv(s) && LedgerOk(s) && AllTallied(s) && Next(s, step, s')
    ensures AllTallied(s')
  {
    hide Inv, LedgerOk, AllTallied, EnabledAll, DoAll, Plan, ChoiceOk;
    if Plan(s, step.op, step.now).Ok? {
      DoAllTallied(s, Plan(s, step.op, step.now).value, step.now);
    }
  }

  // ---- By name ----

  /** How often the run's log has an event of this type about the task. */
  function Named(log: seq<Event>, rid: RunId, x: TaskId, name: string): nat {
    if |log| == 0 then 0
    else
      var e := log[|log| - 1];
      Named(log[..|log| - 1], rid, x, name) + if e.runId == rid && e.taskId == Some(x) && TypeOf(e.payload) == name then 1 else 0
  }

  function NameOf(tag: Tag): string
    requires !tag.OtherTag?
  {
    match tag
    case EnqueuedTag => "task.enqueued"
    case ClaimedTag => "task.claimed"
    case HeartbeatTag => "task.lease_heartbeat"
    case RunningTag => "task.running"
    case ResumedTag => "task.resumed"
    case RequeuedTag => "task.requeued_from_dlq"
    case WaitingTag => "task.waiting_input"
    case BlockedTag => "task.blocked"
    case CompletedTag => "task.completed"
    case FailedTag => "task.failed"
    case ReleasedTag => "task.released"
    case DeadTag => "task.dead_lettered"
    case ExpiredTag => "task.lease_expired"
  }

  lemma TagNames(p: Payload, tag: Tag)
    requires !tag.OtherTag?
    ensures TypeOf(p) == NameOf(tag) <==> TagOf(p) == tag
  {
    TypeNames(p);
    hide TypeOf;
  }

  lemma {:induction false} NamedTagged(log: seq<Event>, rid: RunId, x: TaskId, tag: Tag)
    requires !tag.OtherTag?
    ensures Named(log, rid, x, NameOf(tag)) == Tagged(log, rid, x, tag)
  {
    hide TypeOf, TagOf, NameOf;
    if |log| > 0 {
      NamedTagged(log[..|log| - 1], rid, x, tag);
      TagNames(log[|log| - 1].payload, tag);
    }
  }

  function Times(s: State, x: TaskId, name: string): nat
    requires x in s.tasks
  {
    Named(s.log, s.tasks[x].spec.runId, x, name)
  }

  lemma TimesOf(s: State, x: TaskId, tag: Tag)
    requires x in s.tasks && !tag.OtherTag?
    ensures Times(s, x, NameOf(tag)) == Count(s, x, tag)
  {
    NamedTagged(s.log, s.tasks[x].spec.runId, x, tag);
    hide NameOf, Named, Tagged;
  }

  /** In every reachable state, of every task: it was enqueued once, and each claim made an attempt.  Each attempt that
      was completed, failed, let go or expired was told as such, the last one of a task that died by two events.  A
      task that died is dead until it is requeued. */
  lemma ReachableTallied(states: seq<State>, steps: seq<Step>, i: nat, x: TaskId)
    requires Behaviour(states, steps) && i < |states| && x in states[i].tasks
    ensures var s := states[i];
            && Times(s, x, "task.enqueued") == 1
            && Times(s, x, "task.claimed") == |AttemptRows(s, x)|
            && Times(s, x, "task.completed") == |AttemptsIn(s, x, AttemptCompleted)|
            && Times(s, x, "task.failed") == |AttemptsIn(s, x, AttemptFailed)| + Times(s, x, "task.dead_lettered")
            && Times(s, x, "task.released") + Times(s, x, "task.waiting_input") + Times(s, x, "task.blocked")
               == |AttemptsIn(s, x, AttemptReleased)|
            && Times(s, x, "task.lease_expired") + Times(s, x, "task.dead_lettered") == |AttemptsIn(s, x, AttemptExpired)|
            && Times(s, x, "task.dead_lettered") == Times(s, x, "task.requeued_from_dlq") + (if s.tasks[x].dead then 1 else 0)
  {
    AllReachable(states, steps, i);
    hide Behaviour, Times, Count, AttemptsIn, AttemptRows;
    assert Tallied(states[i], x) && ClaimsTold(states[i], x);
    EndingsByName(states[i], x);
    OthersByName(states[i], x);
  }

  lemma EndingsByName(s: State, x: TaskId)
    requires x in s.tasks
    ensures Times(s, x, "task.completed") == Count(s, x, CompletedTag) && Times(s, x, "task.failed") == Count(s, x, FailedTag)
    ensures Times(s, x, "task.released") == Count(s, x, ReleasedTag) && Times(s, x, "task.waiting_input") == Count(s, x, WaitingTag)
    ensures Times(s, x, "task.blocked") == Count(s, x, BlockedTag)
  {
    hide Times, Count;
    TimesOf(s, x, CompletedTag);
    TimesOf(s, x, FailedTag);
    TimesOf(s, x, ReleasedTag);
    TimesOf(s, x, WaitingTag);
    TimesOf(s, x, BlockedTag);
  }

  lemma OthersByName(s: State, x: TaskId)
    requires x in s.tasks
    ensures Times(s, x, "task.enqueued") == Count(s, x, EnqueuedTag) && Times(s, x, "task.claimed") == Count(s, x, ClaimedTag)
    ensures Times(s, x, "task.lease_expired") == Count(s, x, ExpiredTag) && Times(s, x, "task.dead_lettered") == Count(s, x, DeadTag)
    ensures Times(s, x, "task.requeued_from_dlq") == Count(s, x, RequeuedTag)
  {
    hide Times, Count;
    TimesOf(s, x, EnqueuedTag);
    TimesOf(s, x, ClaimedTag);
    TimesOf(s, x, ExpiredTag);
    TimesOf(s, x, DeadTag);
    TimesOf(s, x, RequeuedTag);
  }
}
