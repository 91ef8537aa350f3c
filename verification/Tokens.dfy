/** From the first call on, a token makes retries harmless. */
module Tokens {
  import opened Records
  import opened StateMachine
  import opened Writes
  import opened Invariant
  import opened Preservation
  import opened Transactions
  import opened Lifecycle
  import opened Guarantees
  import opened Effects
  import opened Sweeping
  import opened Claiming
  import opened Refinement

  /** A call with a token that goes through has its outcome on record afterwards. */
  lemma OutcomeRecorded(s: State, step: Step, s': State)
    requires Inv(s) && Next(s, step, s') && (step.op.Complete? || step.op.Fail?) && step.op.clientToken.Some?
    requires Plan(s, step.op, step.now).Ok?
    ensures step.op.tid in s.tasks && step.op.clientToken.value in s'.completions
    ensures s'.completions[step.op.clientToken.value]
         == Completion(step.op.tid, s.tasks[step.op.tid].spec.runId, if step.op.Complete? then OutcomeCompleted else OutcomeFailed)
  {
    hide Inv, Plan, Next;
    LeaseCallReply(s, step.op, step.now);
    if step.op.clientToken.value in s.completions {
      RetryChangesNothing(s, step, s');
      RecordedRun(s, step.op.clientToken.value);
    } else if step.op.Complete? {
      CompleteEffect(s, step, s');
    } else {
      FailEffect(s, step, s');
    }
  }

  lemma RecordedOnceDone(s: State, op: Op, now: Time, s': State)
    requires Inv(s) && (op.Complete? || op.Fail?) && op.clientToken.Some? && Plan(s, op, now).Ok? && Follows(s, s', Plan(s, op, now), now)
    ensures op.clientToken.value in s'.completions && op.tid in s'.tasks
    ensures s'.completions[op.clientToken.value]
         == Completion(op.tid, s'.tasks[op.tid].spec.runId, if op.Complete? then OutcomeCompleted else OutcomeFailed)
  {
    hide Inv, Plan, Follows, Next;
    FollowsNext(s, op, now, s');
    NextInv(s, Step(op, now), s');
    OutcomeRecorded(s, Step(op, now), s');
    RecordedRun(s', op.clientToken.value);
  }

  lemma RetryChangesNothing(s: State, step: Step, s': State)
    requires Next(s, step, s') && Plan(s, step.op, step.now) == Ok([])
    ensures s' == s
  {
    hide Plan, ChoiceOk;
  }

  lemma RecordedRun(s: State, token: Token)
    requires Inv(s) && token in s.completions
    ensures InRun(s, s.completions[token].taskId, s.completions[token].runId)
  {
    hide Inv;
    RecordedOk(s, token);
  }

  /** After `completeTask` or `failTask` went through with a token, and for as long as the run is kept: the token stands
      for that outcome of that task, which has its status; the same call again, by anybody, is a no-op; the other
      outcome and another task are errors. */
  lemma CompletionTokenStands(states: seq<State>, steps: seq<Step>, i: nat, j: nat, token: Token,
                              tid: TaskId, lid: Uuid, worker: WorkerId, error: string, now: Time)
    requires Behaviour(states, steps) && i < j < |states| && (steps[i].op.Complete? || steps[i].op.Fail?)
    requires steps[i].op.clientToken == Some(token) && Plan(states[i], steps[i].op, steps[i].now).Ok?
    requires steps[i].op.tid in states[i].tasks && Kept(states, i, j, states[i].tasks[steps[i].op.tid].spec.runId)
    ensures var s, op, done := states[j], steps[i].op, steps[i].op.Complete?;
            var complete := Plan(s, Complete(tid, lid, worker, Some(token)), now);
            var fail := Plan(s, Fail(tid, lid, worker, error, Some(token)), now);
            && token in s.completions
            && s.completions[token] == Completion(op.tid, states[i].tasks[op.tid].spec.runId, if done then OutcomeCompleted else OutcomeFailed)
            && op.tid in s.tasks && s.tasks[op.tid].status == (if done then Completed else Failed)
            && (tid == op.tid && done ==> complete == Ok([]) && fail == Err(OutcomeMismatch))
            && (tid == op.tid && !done ==> fail == Ok([]) && complete == Err(OutcomeMismatch))
            && (tid != op.tid ==> complete == Err(TokenReused) && fail == Err(TokenReused))
  {
    hide Inv, Next, Plan, Onward;
    ReachableInv(states, steps, i);
    assert Next(states[i], steps[i], states[i + 1]);
    OutcomeRecorded(states[i], steps[i], states[i + 1]);
    KeptOnward(states, steps, i + 1, j, states[i].tasks[steps[i].op.tid].spec.runId);
    TokenKept(states[i + 1], states[j], token);
    CompletionTokenForLife(states, steps, i + 1, j, token, tid, lid, worker, error, now);
  }

  /** After a claim with a new token took a task, and for as long as the run is kept: the token stands for that one
      lease, of that task and worker, and claiming again with it, by anybody, changes nothing. */
  lemma ClaimTokenStands(states: seq<State>, steps: seq<Step>, i: nat, j: nat, again: Op, now: Time)
    requires Behaviour(states, steps) && i < j < |states| && steps[i].op.Claim? && steps[i].op.clientToken.Some? && steps[i].op.pick.Some?
    requires forall lid | lid in states[i].leases :: states[i].leases[lid].clientToken != steps[i].op.clientToken
    requires steps[i].op.pick.value in states[i + 1].tasks && Kept(states, i + 1, j, states[i + 1].tasks[steps[i].op.pick.value].spec.runId)
    requires again.Claim? && again.clientToken == steps[i].op.clientToken
    ensures var s, op := states[j], steps[i].op;
            && Plan(s, again, now) == Ok([])
            && (set x | x in s.leases && s.leases[x].clientToken == op.clientToken) == {op.newLease}
            && s.leases[op.newLease].taskId == op.pick.value && s.leases[op.newLease].worker == op.worker
            && s.leases[op.newLease].attemptId == op.newAttempt
  {
    hide Inv, Next, Plan, Onward;
    ReachableInv(states, steps, i);
    assert Next(states[i], steps[i], states[i + 1]);
    var s1 := ClaimWrites(states[i], steps[i], states[i + 1]);
    KeptOnward(states, steps, i + 1, j, states[i + 1].tasks[steps[i].op.pick.value].spec.runId);
    LeaseKeptOn(states[i + 1], states[j], steps[i].op.newLease);
    ClaimTokenForLife(states, steps, i + 1, j, steps[i].op.newLease, again, now);
  }

  lemma LeaseKeptOn(s: State, s': State, lid: Uuid)
    requires lid in s.leases && Onward(s, s', s.leases[lid].runId)
    ensures lid in s'.leases && LeaseOnward(s.leases[lid], s'.leases[lid])
  {}
}
