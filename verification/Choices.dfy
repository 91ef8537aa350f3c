/** What a caller cannot determine can always be chosen: every request has an answer in every reachable state. */
module Choices {
  import opened Records
  import opened StateMachine
  import opened Writes
  import opened Invariant
  import opened Preservation
  import opened Transactions
  import opened Sorting
  import opened Refinement

  /** The operation without the store's choices. */
  function Request(op: Op): Op {
    match op
    case Claim(_, _, _, _, _, _, _, _) => op.(order := [], pick := None, newLease := 0, newAttempt := 0)
    case Sweep(_) => Sweep([])
    case Prune(_, _, _, _) => op.(chosen := [])
    case _ => op
  }

  lemma {:induction false} AboveAll(used: set<Uuid>) returns (next: Uuid)
    ensures forall x | x in used :: x < next
  {
    if used == {} {
      next := 0;
    } else {
      var x :| x in used;
      var rest := AboveAll(used - {x});
      next := if rest > x then rest else x + 1;
      assert forall y | y in used :: y == x || y in used - {x};
    }
  }

  lemma SweepOrderExists(s: State, now: Time) returns (order: seq<TaskId>)
    ensures IsSweepOrder(s, now, order)
  {
    hide Lapsed;
    order := [];
    var todo := s.tasks.Keys;
    while todo != {}
      invariant todo <= s.tasks.Keys && AllLapsed(s, now, order)
      invariant forall x | x in order :: x !in todo
      invariant forall x | x in s.tasks && x !in todo && Lapsed(s, x, now) :: x in order
      decreases |todo|
    {
      var x :| x in todo;
      todo := todo - {x};
      if Lapsed(s, x, now) { order := order + [x]; }
    }
  }

  lemma BestPickExists(s: State, kinds: seq<Kind>, now: Time) returns (pick: Option<TaskId>)
    ensures BestPick(s, kinds, now, pick)
  {
    hide Claimable;
    pick := None;
    var todo := s.tasks.Keys;
    while todo != {}
      invariant todo <= s.tasks.Keys
      invariant pick.None? ==> forall x | x in s.tasks && x !in todo :: !Candidate(s, x, kinds, now)
      invariant pick.Some? ==> pick.value in s.tasks && Candidate(s, pick.value, kinds, now)
      invariant pick.Some? ==> forall x | x in s.tasks && x !in todo && Candidate(s, x, kinds, now) ::
                                 Ranks(s.tasks[pick.value], s.tasks[x])
      decreases |todo|
    {
      var x :| x in todo;
      todo := todo - {x};
      if Candidate(s, x, kinds, now) && (pick.None? || !Ranks(s.tasks[pick.value], s.tasks[x])) { pick := Some(x); }
    }
  }

  lemma DueExists(s: State, statuses: seq<RunStatus>, cutoff: Time) returns (due: seq<(RunId, Run)>)
    ensures DueRuns(s, statuses, cutoff, due)
  {
    due := [];
    var candidates := PruneCandidates(s, statuses, cutoff);
    var todo := candidates;
    while todo != {}
      invariant todo <= candidates && NoDuplicates(due)
      invariant forall e | e in due :: e.0 in candidates && e.0 !in todo && e.1 == s.runs[e.0]
      invariant forall r | r in candidates && r !in todo :: (r, s.runs[r]) in due
      decreases |todo|
    {
      var r :| r in todo;
      todo := todo - {r};
      assert (r, s.runs[r]) !in due;
      due := due + [(r, s.runs[r])];
    }
  }

  lemma PruneChoiceExists(s: State, statuses: seq<RunStatus>, cutoff: Time, take: nat) returns (chosen: seq<RunId>)
    ensures PruneChoice(s, statuses, cutoff, take, chosen)
  {
    var due := DueExists(s, statuses, cutoff);
    var n := if take < |due| then take else |due|;
    hide Sort;
    DueCount(s, statuses, cutoff, due);
    FirstDue(s, statuses, cutoff, due, n);
    chosen := Ids(Sort(due, OlderFirst)[..n]);
    hide DueRuns, PruneCandidates, NoDuplicates;
  }

  lemma ClaimChoiceExists(s: State, op: Op, now: Time) returns (choice: Op)
    requires Inv(s) && op.Claim?
    ensures Request(choice) == Request(op) && ChoiceOk(s, choice, now)
  {
    hide Inv, IsSweepOrder, BestPick, TokenUsed;
    var order := SweepOrderExists(s, now);
    SweepOrderRuns(s, now, order);
    var pick := BestPickExists(DoAll(s, Expiries(order), now), op.kinds, now);
    var next := AboveAll(s.used);
    choice := op.(order := order, pick := pick, newLease := next, newAttempt := next + 1);
    hide EnabledAll, DoAll;
  }

  lemma SweepOrderRuns(s: State, now: Time, order: seq<TaskId>)
    requires Inv(s) && IsSweepOrder(s, now, order)
    ensures EnabledAll(s, Expiries(order), now)
  {
    hide Inv, AllLapsed, EnabledAll, DoAll, Swept;
    SweepEffect(s, now, order);
  }

  lemma ChoiceExists(s: State, op: Op, now: Time) returns (choice: Op)
    requires Inv(s)
    ensures Request(choice) == Request(op) && ChoiceOk(s, choice, now)
  {
    hide Inv, IsSweepOrder, PruneChoice;
    if op.Claim? {
      choice := ClaimChoiceExists(s, op, now);
    } else {
      hide EnabledAll, DoAll;
      if op.Sweep? {
        var order := SweepOrderExists(s, now);
        choice := Sweep(order);
      } else if op.Prune? {
        var chosen := PruneChoiceExists(s, op.statuses, op.cutoff, op.take);
        choice := op.(chosen := chosen);
      } else {
        choice := op;
      }
    }
  }

  /** In every reachable state every request is served: for some choice it has a next state, in which it has either
      failed and changed nothing or performed all its writes. */
  lemma RequestServed(states: seq<State>, steps: seq<Step>, i: nat, op: Op, now: Time) returns (choice: Op, s': State)
    requires Behaviour(states, steps) && i < |states|
    ensures Request(choice) == Request(op) && Next(states[i], Step(choice, now), s')
  {
    hide Inv, Behaviour, ChoiceOk, Next, Request;
    ReachableInv(states, steps, i);
    choice := ChoiceExists(states[i], op, now);
    NextExists(states[i], Step(choice, now));
    s' :| Next(states[i], Step(choice, now), s');
  }
}
