/** Reading the event log page by page with a cursor, while it grows. */
module Paging {
  import opened Records
  import opened StateMachine
  import opened Writes
  import opened Invariant
  import opened Preservation
  import opened Transactions

  function TypeOf(payload: Payload): string {
    match payload
    case RunCreated => "run.created"
    case RunStatusChanged(_, _) => "run.status.changed"
    case RunCancelledByCaller => "run.cancelled"
    case TaskEnqueued(_, _, _) => "task.enqueued"
    case TaskClaimed(_, _, _) => "task.claimed"
    case TaskHeartbeat(_, _, _) => "task.lease_heartbeat"
    case TaskRunning(_, _) => "task.running"
    case TaskPaused(status, _) => if status == WaitingInput then "task.waiting_input" else "task.blocked"
    case TaskResumed => "task.resumed"
    case TaskCompleted(_) => "task.completed"
    case TaskFailed(_, _) => "task.failed"
    case TaskReleased(_) => "task.released"
    case TaskLeaseExpired(_, _, _, _) => "task.lease_expired"
    case TaskDeadLettered(_, _, _) => "task.dead_lettered"
    case TaskRequeued(_, _, _) => "task.requeued_from_dlq"
  }

  datatype Query = Query(runId: Option<RunId>, types: seq<string>, limit: int)

  predicate Matches(e: Event, q: Query) {
    (q.runId.None? || e.runId == q.runId.value) && (|q.types| == 0 || TypeOf(e.payload) in q.types)
  }

  predicate Above(id: int, after: Option<int>) {
    after.None? || id > after.value
  }

  /** The matching events after the cursor, in log order. */
  function Select(log: seq<Event>, after: Option<int>, q: Query): seq<Event> {
    if |log| == 0 then []
    else
      var rest, e := Select(log[..|log| - 1], after, q), log[|log| - 1];
      if Above(e.id, after) && Matches(e, q) then rest + [e] else rest
  }

  function PageSize(q: Query, available: nat): nat {
    var limit := if q.limit < 1 then 1 else q.limit;
    if available < limit then available else limit
  }

  /** `listEventsSince`: the events of the page and the cursor to continue from. */
  function Page(log: seq<Event>, after: Option<int>, q: Query): (seq<Event>, Option<int>) {
    var rows := Select(log, after, q);
    var events := rows[..PageSize(q, |rows|)];
    (events, if |events| > 0 then Some(events[|events| - 1].id) else after)
  }

  /** The matching events after one cursor and up to another: what a reader between the two must have seen. */
  function Seen(log: seq<Event>, from: Option<int>, upTo: Option<int>, q: Query): seq<Event> {
    if |log| == 0 then []
    else
      var rest, e := Seen(log[..|log| - 1], from, upTo, q), log[|log| - 1];
      if Above(e.id, from) && !Above(e.id, upTo) && Matches(e, q) then rest + [e] else rest
  }

  /** The built-in `filter`. */
  function Filter<T>(xs: seq<T>, keep: T -> bool): seq<T> {
    if |xs| == 0 then []
    else
      var rest, x := Filter(xs[..|xs| - 1], keep), xs[|xs| - 1];
      if keep(x) then rest + [x] else rest
  }

  lemma {:induction false} DropRunIsFilter(log: seq<Event>, rid: RunId, keep: Event -> bool)
    requires forall e | e in log :: keep(e) <==> e.runId != rid
    ensures Filter(log, keep) == DropRun(log, rid)
  {
    if |log| > 0 {
      DropRunIsFilter(log[..|log| - 1], rid, keep);
    }
  }

  predicate Increasing(log: seq<Event>) {
    forall i, j | 0 <= i < j < |log| :: log[i].id < log[j].id
  }

  predicate CursorLeq(a: Option<int>, b: Option<int>) {
    a.None? || (b.Some? && a.value <= b.value)
  }

  lemma {:induction false} SelectFacts(log: seq<Event>, after: Option<int>, q: Query)
    requires Increasing(log)
    ensures Increasing(Select(log, after, q))
    ensures forall i | 0 <= i < |Select(log, after, q)| ::
              Select(log, after, q)[i] in log && Above(Select(log, after, q)[i].id, after) && Matches(Select(log, after, q)[i], q)
    ensures |Select(log, after, q)| <= |log|
  {
    if |log| > 0 {
      var init, e := log[..|log| - 1], log[|log| - 1];
      SelectFacts(init, after, q);
      var rest := Select(init, after, q);
      forall i | 0 <= i < |rest| ensures rest[i].id < e.id {
        assert rest[i] in init;
      }
    }
  }

  /** The first rows of a selection are the matching events up to the last of them. */
  lemma {:induction false} SeenIsPrefix(log: seq<Event>, after: Option<int>, q: Query, n: nat)
    requires Increasing(log) && 0 < n <= |Select(log, after, q)|
    ensures Seen(log, after, Some(Select(log, after, q)[n - 1].id), q) == Select(log, after, q)[..n]
  {
    var init, e := log[..|log| - 1], log[|log| - 1];
    var rows, rest := Select(log, after, q), Select(init, after, q);
    SelectFacts(init, after, q);
    if n <= |rest| {
      SeenIsPrefix(init, after, q, n);
      assert rest[n - 1] in init;
      assert rows[..n] == rest[..n];
    } else {
      SeenAll(init, after, e.id, q);
      assert rows[..n] == rows;
    }
  }

  lemma {:induction false} SeenAll(log: seq<Event>, after: Option<int>, bound: int, q: Query)
    requires forall i | 0 <= i < |log| :: log[i].id <= bound
    ensures Seen(log, after, Some(bound), q) == Select(log, after, q)
  {
    if |log| > 0 {
      SeenAll(log[..|log| - 1], after, bound, q);
    }
  }

  lemma {:induction false} SeenNothing(log: seq<Event>, from: Option<int>, q: Query)
    ensures Seen(log, from, from, q) == []
  {
    if |log| > 0 {
      SeenNothing(log[..|log| - 1], from, q);
    }
  }

  lemma {:induction false} SeenSplit(log: seq<Event>, a: Option<int>, b: Option<int>, c: Option<int>, q: Query)
    requires Increasing(log) && CursorLeq(a, b) && CursorLeq(b, c)
    ensures Seen(log, a, c, q) == Seen(log, a, b, q) + Seen(log, b, c, q)
  {
    if |log| > 0 {
      var init, e := log[..|log| - 1], log[|log| - 1];
      SeenSplit(init, a, b, c, q);
      if !Above(e.id, b) {
        SeenNothingBelow(init, b, c, e.id, q);
      }
    }
  }

  /** In an increasing log, nothing before an event that is not above `b` is above `b`. */
  lemma {:induction false} SeenNothingBelow(log: seq<Event>, b: Option<int>, c: Option<int>, bound: int, q: Query)
    requires forall i | 0 <= i < |log| :: log[i].id < bound
    requires !Above(bound, b)
    ensures Seen(log, b, c, q) == []
  {
    if |log| > 0 {
      SeenNothingBelow(log[..|log| - 1], b, c, bound, q);
    }
  }

  /** Events appended later have larger ids, so they are not among those already seen. */
  lemma {:induction false} SeenOfLonger(log: seq<Event>, more: seq<Event>, from: Option<int>, upTo: Option<int>, q: Query)
    requires forall i | 0 <= i < |more| :: Above(more[i].id, upTo)
    ensures Seen(log + more, from, upTo, q) == Seen(log, from, upTo, q)
    decreases |more|
  {
    if |more| == 0 {
      assert log + more == log;
    } else {
      var init := more[..|more| - 1];
      assert (log + more)[..|log + more| - 1] == log + init;
      SeenOfLonger(log, init, from, upTo, q);
    }
  }

  lemma {:induction false} SelectAll(log: seq<Event>, after: Option<int>, q: Query, e: Event)
    requires e in log && (after.None? || e.id > after.value)
    requires (q.runId.None? || e.runId == q.runId.value) && (|q.types| == 0 || TypeOf(e.payload) in q.types)
    ensures e in Select(log, after, q)
  {
    var rest := log[..|log| - 1];
    if e in rest {
      SelectAll(rest, after, q, e);
    } else {
      assert e == log[|log| - 1];
    }
  }

  /** What is on a page, by the columns of the events: the first ones after the cursor of the run and the types asked
      for, in the order of their ids, as many as the limit, which counts as 1 if it is less. */
  lemma PageColumns(log: seq<Event>, after: Option<int>, q: Query, e: Event)
    requires Increasing(log)
    ensures var (events, next) := Page(log, after, q);
            var limit := if q.limit < 1 then 1 else q.limit;
            var asked := (after.None? || e.id > after.value) && (q.runId.None? || e.runId == q.runId.value)
                         && (|q.types| == 0 || TypeOf(e.payload) in q.types);
            && Increasing(events) && |events| <= limit
            && (e in events ==> e in log && asked)
            && (e in log && asked && e !in events ==> |events| == limit && events[limit - 1].id < e.id)
            && next == if |events| == 0 then after else Some(events[|events| - 1].id)
  {
    SelectFacts(log, after, q);
    var rows := Select(log, after, q);
    var (events, next) := Page(log, after, q);
    assert e in events ==> e in rows;
    if e in log && (after.None? || e.id > after.value) && Matches(e, q) {
      SelectAll(log, after, q, e);
      var i :| 0 <= i < |rows| && rows[i] == e;
      if i < |events| {
        assert events[i] == e;
      }
    }
    hide Select;
  }

  /** The documented name of each kind of event. */
  lemma TypeNames(p: Payload)
    ensures TypeOf(p) == "run.created" <==> p.RunCreated?
    ensures TypeOf(p) == "run.status.changed" <==> p.RunStatusChanged?
    ensures TypeOf(p) == "run.cancelled" <==> p.RunCancelledByCaller?
    ensures TypeOf(p) == "task.enqueued" <==> p.TaskEnqueued?
    ensures TypeOf(p) == "task.claimed" <==> p.TaskClaimed?
    ensures TypeOf(p) == "task.lease_heartbeat" <==> p.TaskHeartbeat?
    ensures TypeOf(p) == "task.running" <==> p.TaskRunning?
    ensures TypeOf(p) == "task.waiting_input" <==> p.TaskPaused? && p.to_ == WaitingInput
    ensures TypeOf(p) == "task.blocked" <==> p.TaskPaused? && p.to_ != WaitingInput
    ensures TypeOf(p) == "task.resumed" <==> p.TaskResumed?
    ensures TypeOf(p) == "task.completed" <==> p.TaskCompleted?
    ensures TypeOf(p) == "task.failed" <==> p.TaskFailed?
    ensures TypeOf(p) == "task.released" <==> p.TaskReleased?
    ensures TypeOf(p) == "task.lease_expired" <==> p.TaskLeaseExpired?
    ensures TypeOf(p) == "task.dead_lettered" <==> p.TaskDeadLettered?
    ensures TypeOf(p) == "task.requeued_from_dlq" <==> p.TaskRequeued?
  {}

  /** One call: the page continues what has been seen, without gap or repeat. */
  lemma PageContinues(log: seq<Event>, start: Option<int>, cursor: Option<int>, q: Query)
    requires Increasing(log) && CursorLeq(start, cursor)
    ensures var (events, next) := Page(log, cursor, q);
            && CursorLeq(cursor, next)
            && Seen(log, start, next, q) == Seen(log, start, cursor, q) + events
            && (events == [] <==> Select(log, cursor, q) == [])
  {
    hide Select, Seen, Matches;
    var rows := Select(log, cursor, q);
    var n := PageSize(q, |rows|);
    SelectFacts(log, cursor, q);
    var (events, next) := Page(log, cursor, q);
    if n > 0 {
      SeenIsPrefix(log, cursor, q, n);
      assert events[n - 1] == rows[n - 1];
      SeenSplit(log, start, cursor, next, q);
    }
  }

  // ---- Polling a growing log ----

  /** Successive calls, each on the log as it is then and from the cursor the previous call returned. */
  function Poll(logs: seq<seq<Event>>, start: Option<int>, q: Query): (seq<Event>, Option<int>) {
    if |logs| == 0 then ([], start)
    else
      var (sofar, cursor) := Poll(logs[..|logs| - 1], start, q);
      var (events, next) := Page(logs[|logs| - 1], cursor, q);
      (sofar + events, next)
  }

  predicate Extends(longer: seq<Event>, log: seq<Event>) {
    |log| <= |longer| && longer[..|log|] == log
  }

  predicate Growing(logs: seq<seq<Event>>) {
    && (forall i | 0 <= i < |logs| :: Increasing(logs[i]))
    && (forall i | 0 <= i < |logs| - 1 :: Extends(logs[i + 1], logs[i]))
  }

  /** A cursor other than the starting one is the id of an event of the log. */
  lemma {:induction false} PollCursor(logs: seq<seq<Event>>, start: Option<int>, q: Query)
    requires Growing(logs)
    ensures var cursor := Poll(logs, start, q).1;
            && CursorLeq(start, cursor)
            && (cursor == start || (|logs| > 0 && cursor.Some? && exists e :: e in logs[|logs| - 1] && e.id == cursor.value))
  {
    if |logs| > 0 {
      var before := logs[..|logs| - 1];
      PollCursor(before, start, q);
      var cursor := Poll(before, start, q).1;
      var log := logs[|logs| - 1];
      SelectFacts(log, cursor, q);
      PageContinues(log, start, cursor, q);
      var (events, next) := Page(log, cursor, q);
      if |events| > 0 {
        assert events[|events| - 1] in log;
      } else if cursor != start {
        var e: Event :| e in before[|before| - 1] && e.id == cursor.value;
        assert Extends(log, before[|before| - 1]);
        assert e in log[..|before[|before| - 1]|];
      }
    }
  }

  lemma AppendedAbove(log: seq<Event>, longer: seq<Event>, cursor: Option<int>)
    requires Increasing(longer) && Extends(longer, log)
    requires cursor.Some? ==> exists e :: e in log && e.id == cursor.value
    ensures forall i | 0 <= i < |longer[|log|..]| :: Above(longer[|log|..][i].id, cursor)
  {
    if cursor.Some? {
      var e: Event :| e in log && e.id == cursor.value;
      var k :| 0 <= k < |log| && log[k] == e;
      assert longer[k] == longer[..|log|][k] == e;
      forall i | 0 <= i < |longer[|log|..]| ensures Above(longer[|log|..][i].id, cursor) {
        assert longer[|log|..][i] == longer[|log| + i];
      }
    }
  }

  /** What has been seen of a log does not change when the log grows. */
  lemma SeenStable(log: seq<Event>, longer: seq<Event>, start: Option<int>, cursor: Option<int>, q: Query)
    requires Increasing(longer) && Extends(longer, log)
    requires cursor == start || (cursor.Some? && exists e :: e in log && e.id == cursor.value)
    ensures Seen(longer, start, cursor, q) == Seen(log, start, cursor, q)
  {
    if cursor == start {
      SeenNothing(log, start, q);
      SeenNothing(longer, start, q);
    } else {
      AppendedAbove(log, longer, cursor);
      assert longer == log + longer[|log|..];
      SeenOfLonger(log, longer[|log|..], start, cursor, q);
    }
  }

  /** However the log grows between the calls, the pages concatenated are exactly the matching events from the
      start up to the cursor, in order, with no gap and no repeat. */
  lemma {:induction false} PollExact(logs: seq<seq<Event>>, start: Option<int>, q: Query)
    requires Growing(logs) && |logs| > 0
    ensures Poll(logs, start, q).0 == Seen(logs[|logs| - 1], start, Poll(logs, start, q).1, q)
  {
    var before, log := logs[..|logs| - 1], logs[|logs| - 1];
    PollCursor(before, start, q);
    var (sofar, cursor) := Poll(before, start, q);
    if |before| == 0 {
      SeenNothing(log, start, q);
    } else {
      PollExact(before, start, q);
      assert Extends(log, before[|before| - 1]);
      SeenStable(before[|before| - 1], log, start, cursor, q);
    }
    PageContinues(log, start, cursor, q);
  }

  // ---- Reaching the end of a fixed log ----

  function Repeat(log: seq<Event>, n: nat): seq<seq<Event>> {
    seq(n, i => log)
  }

  lemma {:induction false} SelectShrinks(log: seq<Event>, cursor: Option<int>, q: Query, next: Option<int>)
    requires Increasing(log) && CursorLeq(cursor, next)
    ensures Select(log, cursor, q) == Seen(log, cursor, next, q) + Select(log, next, q)
  {
    if |log| > 0 {
      var init, e := log[..|log| - 1], log[|log| - 1];
      SelectShrinks(init, cursor, q, next);
      if !Above(e.id, next) {
        SelectNothingBelow(init, next, e.id, q);
      }
    }
  }

  lemma {:induction false} SelectNothingBelow(log: seq<Event>, after: Option<int>, bound: int, q: Query)
    requires forall i | 0 <= i < |log| :: log[i].id < bound
    requires !Above(bound, after)
    ensures Select(log, after, q) == []
  {
    if |log| > 0 {
      SelectNothingBelow(log[..|log| - 1], after, bound, q);
    }
  }

  /** What is left to read shrinks by the page. */
  lemma PageShrinks(log: seq<Event>, cursor: Option<int>, q: Query)
    requires Increasing(log)
    ensures var (events, next) := Page(log, cursor, q);
            && CursorLeq(cursor, next)
            && Select(log, cursor, q) == events + Select(log, next, q)
            && (events == [] <==> Select(log, cursor, q) == [])
  {
    var (events, next) := Page(log, cursor, q);
    PageContinues(log, cursor, cursor, q);
    SeenNothing(log, cursor, q);
    SelectShrinks(log, cursor, q, next);
  }

  lemma AddPage(all: seq<Event>, sofar: seq<Event>, left: seq<Event>, page: seq<Event>, rest: seq<Event>, n: nat)
    requires all == sofar + left && left == page + rest && (page == [] <==> left == []) && n > 0
    requires left == [] || |sofar| >= n - 1
    ensures all == (sofar + page) + rest && (rest == [] || |sofar + page| >= n)
    ensures n >= |all| ==> rest == []
  {
    assert sofar + (page + rest) == (sofar + page) + rest;
  }

  /** On a log that stands still, as many calls as there are matching events reach its end. */
  lemma {:induction false} PollReachesEnd(log: seq<Event>, start: Option<int>, q: Query, n: nat)
    requires Increasing(log)
    ensures var (events, cursor) := Poll(Repeat(log, n), start, q);
            && CursorLeq(start, cursor)
            && Select(log, start, q) == events + Select(log, cursor, q)
            && (Select(log, cursor, q) == [] || |events| >= n)
    ensures n >= |Select(log, start, q)| ==> Poll(Repeat(log, n), start, q).0 == Select(log, start, q)
  {
    hide Page, Select, Increasing;
    if n > 0 {
      assert Repeat(log, n)[..n - 1] == Repeat(log, n - 1);
      PollReachesEnd(log, start, q, n - 1);
      var (sofar, cursor) := Poll(Repeat(log, n - 1), start, q);
      PageShrinks(log, cursor, q);
      var (events, next) := Page(log, cursor, q);
      AddPage(Select(log, start, q), sofar, Select(log, cursor, q), events, Select(log, next, q), n);
    }
  }

  // ---- Behaviours ----

  lemma {:induction false} DoAllAppends(s: State, ws: seq<Write>, now: Time)
    requires EnabledAll(s, ws, now) && forall i | 0 <= i < |ws| :: !ws[i].Purge?
    ensures Extends(DoAll(s, ws, now).log, s.log)
    decreases |ws|
  {
    if |ws| > 0 {
      assert !ws[0].Purge?;
      DoAppends(s, ws[0], now);
      hide Do, Enabled;
      DoAllAppends(Do(s, ws[0], now), ws[1..], now);
    }
  }

  lemma DoAppends(s: State, w: Write, now: Time)
    requires Enabled(s, w, now) && !w.Purge?
    ensures Extends(Do(s, w, now).log, s.log)
  {
    var raw := Raw(s, w, now);
    hide HasLease, Lapsed, Claimable, Settled, SettledPayload, DeriveFrom, StatusesOf;
    assert Extends(raw.log, s.log);
    RecomputedIsWritten(s, w, now);
    hide Raw, Enabled;
  }

  lemma NextAppends(s: State, step: Step, s': State)
    requires Next(s, step, s') && !step.op.Prune?
    ensures Extends(s'.log, s.log)
  {
    if Plan(s, step.op, step.now).Ok? {
      PlanNoPurge(s, step.op, step.now);
      hide Enabled, Do, Plan, ChoiceOk;
      DoAllAppends(s, Plan(s, step.op, step.now).value, step.now);
    }
  }

  lemma PlanNoPurge(s: State, op: Op, now: Time)
    requires Plan(s, op, now).Ok? && !op.Prune?
    ensures forall i | 0 <= i < |Plan(s, op, now).value| :: !Plan(s, op, now).value[i].Purge?
  {
    hide CheckLease, TokenUsed, KeyTaken, DependencyRows;
  }

  lemma {:induction false} LogGrows(states: seq<State>, steps: seq<Step>, i: nat, j: nat)
    requires Behaviour(states, steps) && i <= j < |states|
    requires forall k | i <= k < j :: !steps[k].op.Prune?
    ensures Extends(states[j].log, states[i].log)
    decreases j - i
  {
    if i < j {
      hide Next;
      LogGrows(states, steps, i, j - 1);
      NextAppends(states[j - 1], steps[j - 1], states[j]);
    }
  }

  /** A reader that polls at the moments `at` of a behaviour, with any other steps but prunes in between, has
      read exactly the matching events of the log up to its cursor. */
  lemma PollBehaviour(states: seq<State>, steps: seq<Step>, at: seq<nat>, start: Option<int>, q: Query)
    requires Behaviour(states, steps) && |at| > 0
    requires forall k | 0 <= k < |at| :: at[k] < |states|
    requires forall j, k | 0 <= j <= k < |at| :: at[j] <= at[k]
    requires forall k | 0 <= k < |steps| :: at[0] <= k < at[|at| - 1] ==> !steps[k].op.Prune?
    ensures var logs := seq(|at|, k requires 0 <= k < |at| => states[at[k]].log);
            Poll(logs, start, q).0 == Seen(states[at[|at| - 1]].log, start, Poll(logs, start, q).1, q)
  {
    var logs := seq(|at|, k requires 0 <= k < |at| => states[at[k]].log);
    forall k | 0 <= k < |logs| ensures Increasing(logs[k]) {
      ReachableInv(states, steps, at[k]);
      hide Inv, Behaviour;
      InvTables(states[at[k]]);
    }
    forall k | 0 <= k < |logs| - 1 ensures Extends(logs[k + 1], logs[k]) {
      LogGrows(states, steps, at[k], at[k + 1]);
    }
    hide Behaviour;
    PollExact(logs, start, q);
  }

  // ---- Polling a log that is pruned as well ----

  /** What is in the later log was in the earlier one or is newer than anything there ever was. */
  predicate Succeeds(next: seq<Event>, log: seq<Event>, mark: nat) {
    forall e | e in next :: e in log || e.id > mark
  }

  /** Logs at successive moments, each with the largest id given out by then. */
  predicate Pruned(logs: seq<seq<Event>>, marks: seq<nat>) {
    && |marks| == |logs|
    && (forall k | 0 <= k < |logs| :: Increasing(logs[k]))
    && (forall k, e | 0 <= k < |logs| && e in logs[k] :: e.id <= marks[k])
    && (forall k | 0 <= k < |logs| - 1 :: marks[k] <= marks[k + 1] && Succeeds(logs[k + 1], logs[k], marks[k]))
  }

  lemma {:induction false} SeenHas(log: seq<Event>, from: Option<int>, upTo: Option<int>, q: Query, e: Event)
    ensures e in Seen(log, from, upTo, q) <==> e in log && Above(e.id, from) && !Above(e.id, upTo) && Matches(e, q)
  {
    if |log| > 0 {
      SeenHas(log[..|log| - 1], from, upTo, q, e);
      assert log == log[..|log| - 1] + [log[|log| - 1]];
    }
  }

  /** The events of a page: those of the log after the cursor and up to the next one, in order. */
  lemma PageHas(log: seq<Event>, cursor: Option<int>, q: Query)
    requires Increasing(log)
    ensures var (events, next) := Page(log, cursor, q);
            && CursorLeq(cursor, next) && Increasing(events)
            && (forall e :: e in events <==> e in log && Above(e.id, cursor) && !Above(e.id, next) && Matches(e, q))
            && (next == cursor || (next.Some? && exists e :: e in log && e.id == next.value))
  {
    var (events, next) := Page(log, cursor, q);
    PageContinues(log, cursor, cursor, q);
    SeenNothing(log, cursor, q);
    forall e ensures e in events <==> e in log && Above(e.id, cursor) && !Above(e.id, next) && Matches(e, q) {
      SeenHas(log, cursor, next, q, e);
    }
    SelectFacts(log, cursor, q);
    hide Select, Seen, Matches;
    if |events| > 0 {
      assert events[|events| - 1] in log;
    }
  }

  lemma Joined(a: seq<Event>, b: seq<Event>, cursor: Option<int>)
    requires Increasing(a) && Increasing(b)
    requires (forall e | e in a :: !Above(e.id, cursor)) && (forall e | e in b :: Above(e.id, cursor))
    ensures Increasing(a + b)
  {
    forall i, j | 0 <= i < |a| && 0 <= j < |b| ensures a[i].id < b[j].id {
      assert a[i] in a && b[j] in b;
    }
  }

  /** With prunes between the calls no event is read twice, what is read matches, and every matching event up to
      the cursor that is still in the log has been read. */
  lemma {:induction false} PollPruned(logs: seq<seq<Event>>, marks: seq<nat>, start: Option<int>, q: Query)
    requires Pruned(logs, marks)
    ensures var (events, cursor) := Poll(logs, start, q);
            && CursorLeq(start, cursor)
            && (cursor == start || (|logs| > 0 && cursor.Some? && cursor.value <= marks[|logs| - 1]))
            && Increasing(events)
            && (forall e | e in events :: Above(e.id, start) && !Above(e.id, cursor) && Matches(e, q))
            && (|logs| > 0 ==> forall e | e in logs[|logs| - 1] ::
                  Above(e.id, start) && !Above(e.id, cursor) && Matches(e, q) ==> e in events)
  {
    hide Page, Matches;
    if |logs| > 0 {
      var n := |logs| - 1;
      PollPruned(logs[..n], marks[..n], start, q);
      var (sofar, cursor) := Poll(logs[..n], start, q);
      var (events, next) := Page(logs[n], cursor, q);
      PageHas(logs[n], cursor, q);
      Joined(sofar, events, cursor);
      forall e | e in logs[n] && Above(e.id, start) && !Above(e.id, next) && Matches(e, q) ensures e in sofar + events {
        if !Above(e.id, cursor) {
          assert n > 0 && cursor.value <= marks[n - 1];
          assert Succeeds(logs[n], logs[n - 1], marks[n - 1]);
          assert e in logs[..n][n - 1];
        }
      }
    }
  }

  lemma {:induction false} DropRunSubset(log: seq<Event>, rid: RunId)
    ensures forall e | e in DropRun(log, rid) :: e in log
  {
    if |log| > 0 {
      DropRunSubset(log[..|log| - 1], rid);
      assert log == log[..|log| - 1] + [log[|log| - 1]];
    }
  }

  lemma DoSucceeds(s: State, w: Write, now: Time)
    requires Enabled(s, w, now)
    ensures Succeeds(Do(s, w, now).log, s.log, s.seqNo) && s.seqNo <= Do(s, w, now).seqNo
  {
    if w.Purge? {
      DropRunSubset(s.log, w.rid);
    } else {
      hide HasLease, Lapsed, Claimable, Settled, SettledPayload, DeriveFrom, StatusesOf, DropRun;
      RawSucceeds(s, w, now);
      RecomputedIsWritten(s, w, now);
      hide Raw, Enabled;
    }
  }

  lemma RawSucceeds(s: State, w: Write, now: Time)
    requires Enabled(s, w, now) && !w.Purge?
    ensures Succeeds(Raw(s, w, now).log, s.log, s.seqNo) && s.seqNo <= Raw(s, w, now).seqNo
  {
    hide HasLease, Lapsed, Claimable, Settled, SettledPayload, KeyTaken, InRun;
  }

  lemma {:induction false} DoAllSucceeds(s: State, ws: seq<Write>, now: Time)
    requires EnabledAll(s, ws, now)
    ensures Succeeds(DoAll(s, ws, now).log, s.log, s.seqNo) && s.seqNo <= DoAll(s, ws, now).seqNo
    decreases |ws|
  {
    if |ws| > 0 {
      hide Enabled, Do;
      DoSucceeds(s, ws[0], now);
      DoAllSucceeds(Do(s, ws[0], now), ws[1..], now);
    }
  }

  lemma {:induction false} LogSucceeds(states: seq<State>, steps: seq<Step>, i: nat, j: nat)
    requires Behaviour(states, steps) && i <= j < |states|
    ensures Succeeds(states[j].log, states[i].log, states[i].seqNo) && states[i].seqNo <= states[j].seqNo
    decreases j - i
  {
    if i < j {
      LogSucceeds(states, steps, i, j - 1);
      var s, step := states[j - 1], steps[j - 1];
      assert Next(s, step, states[j]);
      hide Plan, ChoiceOk, EnabledAll, DoAll;
      if Plan(s, step.op, step.now).Ok? {
        DoAllSucceeds(s, Plan(s, step.op, step.now).value, step.now);
      }
    }
  }

  /** The same for a reader that polls at the moments `at` of any behaviour, prunes included. */
  lemma PollBehaviourPruned(states: seq<State>, steps: seq<Step>, at: seq<nat>, start: Option<int>, q: Query)
    requires Behaviour(states, steps) && |at| > 0
    requires forall k | 0 <= k < |at| :: at[k] < |states|
    requires forall j, k | 0 <= j <= k < |at| :: at[j] <= at[k]
    ensures var logs := seq(|at|, k requires 0 <= k < |at| => states[at[k]].log);
            var (events, cursor) := Poll(logs, start, q);
            && Increasing(events) && (forall e | e in events :: Above(e.id, start) && !Above(e.id, cursor) && Matches(e, q))
            && forall e | e in states[at[|at| - 1]].log ::
                 Above(e.id, start) && !Above(e.id, cursor) && Matches(e, q) ==> e in events
  {
    var logs := seq(|at|, k requires 0 <= k < |at| => states[at[k]].log);
    var marks := seq(|at|, k requires 0 <= k < |at| => states[at[k]].seqNo);
    forall k | 0 <= k < |logs| ensures Increasing(logs[k]) && forall e: Event | e in logs[k] :: e.id <= marks[k] {
      ReachableInv(states, steps, at[k]);
      hide Inv, Behaviour;
      InvTables(states[at[k]]);
    }
    forall k | 0 <= k < |logs| - 1 ensures marks[k] <= marks[k + 1] && Succeeds(logs[k + 1], logs[k], marks[k]) {
      hide Behaviour;
      LogSucceeds(states, steps, at[k], at[k + 1]);
    }
    hide Behaviour, Poll, Matches;
    PollPruned(logs, marks, start, q);
  }
}
