/** Pruning removes exactly the chosen runs, with everything that belongs to them and nothing else. */
module Pruning {
  import opened Records
  import opened StateMachine
  import opened Writes
  import opened Invariant
  import opened Preservation
  import opened Transactions
  import opened EventLog

  function DropRuns(log: seq<Event>, gone: set<RunId>): seq<Event> {
    if |log| == 0 then []
    else
      var rest := DropRuns(log[..|log| - 1], gone);
      if log[|log| - 1].runId in gone then rest else rest + [log[|log| - 1]]
  }

  /** The store without the runs in `gone`. */
  function Without(s: State, gone: set<RunId>): State {
    s.(runs := map x | x in s.runs && x !in gone :: s.runs[x],
       tasks := map x | x in s.tasks && s.tasks[x].spec.runId !in gone :: s.tasks[x],
       attempts := map x | x in s.attempts && s.attempts[x].runId !in gone :: s.attempts[x],
       leases := map x | x in s.leases && s.leases[x].runId !in gone :: s.leases[x],
       completions := map x | x in s.completions && s.completions[x].runId !in gone :: s.completions[x],
       log := DropRuns(s.log, gone))
  }

  lemma {:induction false} DropNone(log: seq<Event>)
    ensures DropRuns(log, {}) == log
  {
    if |log| > 0 {
      DropNone(log[..|log| - 1]);
    }
  }

  lemma DropRunsSnoc(log: seq<Event>, e: Event, gone: set<RunId>)
    ensures DropRuns(log + [e], gone) == DropRuns(log, gone) + if e.runId in gone then [] else [e]
  {
    assert (log + [e])[..|log + [e]| - 1] == log;
  }

  lemma {:induction false} DropOneMore(log: seq<Event>, rid: RunId, gone: set<RunId>)
    ensures DropRuns(DropRun(log, rid), gone) == DropRuns(log, {rid} + gone)
  {
    if |log| > 0 {
      var rest, last := log[..|log| - 1], log[|log| - 1];
      DropOneMore(rest, rid, gone);
      if last.runId != rid {
        DropRunsSnoc(DropRun(rest, rid), last, gone);
      }
    }
  }

  lemma WithoutNone(s: State)
    ensures Without(s, {}) == s
  {
    DropNone(s.log);
    assert Without(s, {}).runs == s.runs;
    assert Without(s, {}).tasks == s.tasks;
    assert Without(s, {}).attempts == s.attempts;
    assert Without(s, {}).leases == s.leases;
    assert Without(s, {}).completions == s.completions;
  }

  lemma WithoutOneMore(s: State, rid: RunId, gone: set<RunId>)
    ensures Without(PurgeRows(s, rid), gone) == Without(s, {rid} + gone)
  {
    DropOneMore(s.log, rid, gone);
    hide DropRun, DropRuns;
    hide Without, PurgeRows;
    WithoutOneMoreTasks(s, rid, gone);
    WithoutOneMoreHolds(s, rid, gone);
    WithoutOneMoreTokens(s, rid, gone);
    WithoutLog(PurgeRows(s, rid), gone);
    WithoutLog(s, {rid} + gone);
    PurgeLog(s, rid);
  }

  lemma WithoutLog(s: State, gone: set<RunId>)
    ensures Without(s, gone).log == DropRuns(s.log, gone) && Without(s, gone).seqNo == s.seqNo && Without(s, gone).used == s.used
  {
    hide DropRuns;
  }

  lemma PurgeLog(s: State, rid: RunId)
    ensures PurgeRows(s, rid).log == DropRun(s.log, rid) && PurgeRows(s, rid).seqNo == s.seqNo && PurgeRows(s, rid).used == s.used
  {
    hide DropRun;
  }

  lemma WithoutOneMoreTasks(s: State, rid: RunId, gone: set<RunId>)
    ensures var a, b := Without(PurgeRows(s, rid), gone), Without(s, {rid} + gone); a.runs == b.runs && a.tasks == b.tasks
  {
    hide DropRun, DropRuns;
    var a, b := Without(PurgeRows(s, rid), gone), Without(s, {rid} + gone);
    assert a.runs == b.runs;
    assert a.tasks == b.tasks;
  }

  lemma WithoutOneMoreHolds(s: State, rid: RunId, gone: set<RunId>)
    ensures var a, b := Without(PurgeRows(s, rid), gone), Without(s, {rid} + gone);
            a.attempts == b.attempts && a.leases == b.leases
  {
    hide DropRun, DropRuns;
    var a, b := Without(PurgeRows(s, rid), gone), Without(s, {rid} + gone);
    assert a.attempts == b.attempts;
    assert a.leases == b.leases;
  }

  lemma WithoutOneMoreTokens(s: State, rid: RunId, gone: set<RunId>)
    ensures Without(PurgeRows(s, rid), gone).completions == Without(s, {rid} + gone).completions
  {
    hide DropRun, DropRuns;
  }

  lemma {:induction false} PurgesWithout(s: State, chosen: seq<RunId>, now: Time)
    requires EnabledAll(s, Purges(chosen), now)
    ensures DoAll(s, Purges(chosen), now) == Without(s, Elements(chosen))
    decreases |chosen|
  {
    if |chosen| == 0 {
      assert Elements(chosen) == {};
      WithoutNone(s);
    } else {
      hide Without, PurgeRows, Enabled, Do, EnabledAll, DoAll;
      PurgeFirst(s, chosen, now);
      PurgesWithout(PurgeRows(s, chosen[0]), chosen[1..], now);
      WithoutOneMore(s, chosen[0], Elements(chosen[1..]));
      assert chosen == [chosen[0]] + chosen[1..];
      assert Elements(chosen) == {chosen[0]} + Elements(chosen[1..]);
    }
  }

  lemma PurgeFirst(s: State, chosen: seq<RunId>, now: Time)
    requires |chosen| > 0 && EnabledAll(s, Purges(chosen), now)
    ensures EnabledAll(PurgeRows(s, chosen[0]), Purges(chosen[1..]), now)
    ensures DoAll(s, Purges(chosen), now) == DoAll(PurgeRows(s, chosen[0]), Purges(chosen[1..]), now)
  {
    assert Purges(chosen)[0] == Purge(chosen[0]) && Purges(chosen)[1..] == Purges(chosen[1..]);
    assert Do(s, Purge(chosen[0]), now) == PurgeRows(s, chosen[0]);
    hide PurgeRows, Enabled, Do;
  }

  lemma {:induction false} DropRunsKeeps(log: seq<Event>, gone: set<RunId>, r: RunId)
    ensures forall i | 0 <= i < |DropRuns(log, gone)| :: DropRuns(log, gone)[i].runId !in gone
    ensures r !in gone ==> RunEvents(DropRuns(log, gone), r) == RunEvents(log, r)
  {
    if |log| > 0 {
      var rest, last := log[..|log| - 1], log[|log| - 1];
      DropRunsKeeps(rest, gone, r);
      if last.runId !in gone {
        var kept := DropRuns(rest, gone);
        assert (kept + [last])[..|kept + [last]| - 1] == kept;
      }
    }
  }

  /** A prune takes out the chosen runs and all their records and events.  Of the other runs every record and
      the sequence of events are as before, and every invariant still holds, so no surviving record refers to
      one that is gone. */
  lemma PruneExact(s: State, op: Op, now: Time, s': State, r: RunId)
    requires Inv(s) && op.Prune? && Next(s, Step(op, now), s')
    ensures s' == Without(s, Elements(op.chosen)) && Inv(s')
    ensures forall i | 0 <= i < |s'.log| :: s'.log[i].runId !in op.chosen
    ensures r !in op.chosen ==> RunEvents(s'.log, r) == RunEvents(s.log, r)
  {
    hide Inv, EnabledAll, DoAll;
    PurgesWithout(s, op.chosen, now);
    NextInv(s, Step(op, now), s');
    DropRunsKeeps(s.log, Elements(op.chosen), r);
  }

  /** Which runs a prune takes, by their columns.  Each was last updated before the cutoff and has one of the statuses
      asked for, by default a terminal one.  There are no more than the limit; and a run that is due stays only if
      the limit is reached by runs that are no younger.  A run that stays keeps all its rows and events, of one that
      is gone none is left. */
  lemma PruneColumns(s: State, step: Step, s': State, r: RunId)
    requires Inv(s) && Next(s, step, s') && step.op.Prune? && r in s.runs
    ensures var op, run := step.op, s.runs[r];
            var gone := set q | q in s.runs && q !in s'.runs;
            var asked := if |op.statuses| == 0 then run.status == RunCompleted || run.status == RunFailed || run.status == RunCancelled
                         else run.status in op.statuses;
            && |gone| <= op.take
            && (r in gone ==> run.updatedAt < op.cutoff && asked)
            && (r !in gone && run.updatedAt < op.cutoff && asked ==>
                  |gone| == op.take && forall q | q in gone :: s.runs[q].updatedAt <= run.updatedAt)
            && (r !in gone ==> s'.runs[r] == run && RunEvents(s'.log, r) == RunEvents(s.log, r))
  {
    hide Inv, Next, Without, RunEvents;
    PruneExact(s, step.op, step.now, s', r);
    ChosenOnes(s, step, s');
    GoneRuns(s, Elements(step.op.chosen));
    CountDistinct(step.op.chosen);
    assert (set q | q in s.runs && q !in s'.runs) == Elements(step.op.chosen);
    var due := PruneCandidates(s, step.op.statuses, step.op.cutoff);
    assert forall q | q in Elements(step.op.chosen) :: q in due;
    if r in due && r !in step.op.chosen {
      SubsetSize(Elements(step.op.chosen), due - {r});
    }
  }

  lemma ChosenOnes(s: State, step: Step, s': State)
    requires Next(s, step, s') && step.op.Prune?
    ensures PruneChoice(s, step.op.statuses, step.op.cutoff, step.op.take, step.op.chosen)
    ensures forall q | q in step.op.chosen :: q in s.runs
  {
    hide Plan, EnabledAll, DoAll;
  }

  lemma GoneRuns(s: State, gone: set<RunId>)
    requires gone <= s.runs.Keys
    ensures (set q | q in s.runs && q !in Without(s, gone).runs) == gone
    ensures forall q | q in s.runs && q !in gone :: q in Without(s, gone).runs && Without(s, gone).runs[q] == s.runs[q]
  {
    hide DropRuns;
  }

  /** The rows of the runs that stay, and nothing else. */
  lemma PruneRows(s: State, step: Step, s': State)
    requires Inv(s) && Next(s, step, s') && step.op.Prune?
    ensures s'.tasks == map x | x in s.tasks && s.tasks[x].spec.runId in s'.runs :: s.tasks[x]
    ensures s'.attempts == map x | x in s.attempts && s.attempts[x].runId in s'.runs :: s.attempts[x]
    ensures s'.leases == map x | x in s.leases && s.leases[x].runId in s'.runs :: s.leases[x]
    ensures s'.completions == map x | x in s.completions && s.completions[x].runId in s'.runs :: s.completions[x]
    ensures s'.seqNo == s.seqNo && s'.used == s.used
  {
    hide Inv, Next, Without, RunEvents;
    RowsHaveRuns(s);
    PruneExact(s, step.op, step.now, s', 0);
    KeptRows(s, Elements(step.op.chosen));
    KeptHolds(s, Elements(step.op.chosen));
  }

  lemma KeptRows(s: State, gone: set<RunId>)
    requires forall x | x in s.tasks :: s.tasks[x].spec.runId in s.runs
    requires forall x | x in s.completions :: s.completions[x].runId in s.runs
    ensures var s' := Without(s, gone);
            && s'.tasks == (map x | x in s.tasks && s.tasks[x].spec.runId in s'.runs :: s.tasks[x])
            && s'.completions == (map x | x in s.completions && s.completions[x].runId in s'.runs :: s.completions[x])
            && s'.seqNo == s.seqNo && s'.used == s.used
  {
    hide DropRuns;
  }

  lemma KeptHolds(s: State, gone: set<RunId>)
    requires forall x | x in s.attempts :: s.attempts[x].runId in s.runs
    requires forall x | x in s.leases :: s.leases[x].runId in s.runs
    ensures var s' := Without(s, gone);
            && s'.attempts == (map x | x in s.attempts && s.attempts[x].runId in s'.runs :: s.attempts[x])
            && s'.leases == (map x | x in s.leases && s.leases[x].runId in s'.runs :: s.leases[x])
  {
    hide DropRuns;
  }

  lemma RowsHaveRuns(s: State)
    requires Inv(s)
    ensures forall x | x in s.tasks :: s.tasks[x].spec.runId in s.runs
    ensures forall x | x in s.attempts :: s.attempts[x].runId in s.runs
    ensures forall x | x in s.leases :: s.leases[x].runId in s.runs
    ensures forall x | x in s.completions :: s.completions[x].runId in s.runs
  {
    hide Inv;
    InvTables(s);
    hide Core;
    forall x | x in s.tasks ensures s.tasks[x].spec.runId in s.runs { assert TaskOk(s, x); }
    hide TasksOk, TaskOk;
    forall x | x in s.attempts ensures s.attempts[x].runId in s.runs { assert AttemptOk(s, x); }
    forall x | x in s.leases ensures s.leases[x].runId in s.runs { assert LeaseOk(s, x); }
    forall x | x in s.completions ensures s.completions[x].runId in s.runs { assert CompletionOk(s, x); }
  }
}
