/** What the outputs of work steps are. */
module Results {
  import opened Records
  import opened Runtime
  import opened Invariant
  import opened Tables
  import opened Preserve
  import opened PreserveApprovals
  import opened PreserveDispatch
  import opened History
  import opened Theorems
  import opened Fencing

  predicate IsWork(c: Config, step: Step) {
    step.node in c.nodes && c.nodes[step.node].kind.Work?
  }

  /** Attempt `a` completed step `st` with the output the step has. */
  predicate ProducedBy(s: State, st: nat, a: nat) {
    && st < |s.steps| && a < |s.attempts| && s.attempts[a].step == st
    && s.attempts[a].status == Completed && s.attempts[a].output.Some?
    && s.attempts[a].output == s.steps[st].output
  }

  predicate Produced(s: State, st: nat) {
    exists a :: 0 <= a < |s.attempts| && ProducedBy(s, st, a)
  }

  predicate WorkProduced(c: Config, s: State) {
    forall st :: 0 <= st < |s.steps| && s.steps[st].status == Completed && IsWork(c, s.steps[st]) ==>
      Produced(s, st)
  }

  /** Which work steps a transaction completes, and with what. */
  predicate Completes(c: Config, s: State, t: State) {
    forall st :: 0 <= st < |t.steps| && t.steps[st].status == Completed && IsWork(c, t.steps[st]) ==>
      (st < |s.steps| && s.steps[st].status == Completed) || Produced(t, st)
  }

  lemma NoneNew(c: Config, s: State, t: State)
    requires forall st :: 0 <= st < |t.steps| && t.steps[st].status == Completed ==>
               st < |s.steps| && s.steps[st].status == Completed
    ensures Completes(c, s, t)
  { }

  /** Starting a step leaves the others alone and does not complete it. */
  lemma BeginCompletesNone(c: Config, p: State, j: nat, inputs: Outcome<Input>)
    requires j < |p.jobs| && |p.steps| > 0 && p.steps[|p.steps| - 1].node in c.nodes
    ensures var t := Begin(c, p, j, inputs);
      && |t.steps| == |p.steps| && t.steps[..|p.steps| - 1] == p.steps[..|p.steps| - 1]
      && t.steps[|p.steps| - 1].status in {Running, Waiting, Failed}
  {
    hide WakeTime, NewSnapshot, NewAttempt;
  }

  /** Completed rows of `t` are rows of `s`. */
  predicate OldOnly(s: State, t: State) {
    forall st :: 0 <= st < |t.steps| && t.steps[st].status == Completed ==>
      st < |s.steps| && t.steps[st] == s.steps[st]
  }

  lemma BeginOldOnly(c: Config, s: State, p: State, j: nat, inputs: Outcome<Input>)
    requires j < |p.jobs| && |p.steps| > 0 && p.steps[|p.steps| - 1].node in c.nodes && OldOnly(s, p)
    ensures OldOnly(s, Begin(c, p, j, inputs))
  {
    hide Begin;
    BeginCompletesNone(c, p, j, inputs);
    var t := Begin(c, p, j, inputs);
    forall st | 0 <= st < |t.steps| && t.steps[st].status == Completed
      ensures st < |s.steps| && t.steps[st] == s.steps[st]
    {
      assert t.steps[st] == t.steps[..|p.steps| - 1][st] == p.steps[st];
    }
  }

  lemma PrepareCompletesNone(c: Config, s: State, j: nat, plan: Plan)
    requires j < |s.jobs| && PlanOk(c, s, plan)
    ensures OldOnly(s, Prepare(c, s, j, plan))
  {
    if !Resuming(s) && s.run.retry.None? && plan.choice.Pick? { PickNode(c, s, plan); }
    hide Begin, PlanOk;
    if Resuming(s) {
      if s.steps[|s.steps| - 1].node in c.nodes { BeginOldOnly(c, s, s, j, plan.inputs); }
    } else if s.run.retry.Some? {
      var r := s.run.retry.value;
      if r.node in c.nodes {
        BeginOldOnly(c, s, s.(steps := s.steps + [NewStep(r.node, r.iteration, Pending)]), j, plan.inputs);
      }
    } else if plan.choice.Pick? {
      var rows := s.steps + Skips(plan.skips);
      BeginOldOnly(c, s, s.(steps := rows + [NewStep(plan.choice.node, 0, Pending)]), j, plan.inputs);
    }
  }

  lemma DispatchCompletes(c: Config, s: State, claim: Claim, plan: Plan)
    ensures Completes(c, s, Dispatch(c, s, claim, plan))
  {
    hide PlanOk, NotReady, Prepare, StopAttempts, ClosePending, Completes;
    if Owns(s, claim, false) && PlanOk(c, s, plan) {
      var j := claim.job;
      var p := s.(jobs := s.jobs[j := s.jobs[j].(dispatchedAt := Some(s.clock))],
                  run := Bump(s.run).(status := Running));
      SamePlan(c, s, p, plan);
      PrepareCompletesNone(c, p, j, plan);
    }
    NoneNew(c, s, Dispatch(c, s, claim, plan));
  }

  lemma CommitCompletes(c: Config, s: State, j: nat, work: WorkItem, result: Result, delay: nat)
    requires j < |s.jobs| && Dispatched(s, j, work)
    ensures Completes(c, s, CommitWork(c, s, j, work, result, delay))
  {
    hide RetryDecision;
    var t := CommitWork(c, s, j, work, result, delay);
    if work.step < |t.steps| && t.steps[work.step].status == Completed {
      assert ProducedBy(t, work.step, work.attempt);
    }
  }

  lemma RecoverCompletes(c: Config, s: State, claim: Claim, delay: nat)
    ensures Completes(c, s, Recover(c, s, claim, delay))
  {
    hide RetryDecision, StopJobs, StopAttempts, Completes;
    NoneNew(c, s, Recover(c, s, claim, delay));
  }

  lemma WakeCompletes(c: Config, s: State, st: nat)
    requires Inv(c, s)
    ensures Completes(c, s, Wake(s, st))
  {
    hide Inv, StopJobs, StopAttempts, ClosePending, NextSequence, StepOk, WaitingShape;
    if st < |s.steps| && s.steps[st].status == Waiting && s.steps[st].waiting == ForDelay {
      WaitingFacts(c, s, st);
      DelayStep(c, s);
    }
  }

  lemma DecideCompletes(c: Config, s: State, a: nat, who: Reviewer, request: Request)
    requires Inv(c, s)
    ensures Completes(c, s, Decide(c, s, a, who, request))
  {
    hide Inv, StopJobs, StopAttempts, ClosePending, NextSequence, StepOk, WaitingShape, NewSnapshot, SnapshotOk,
         Decided;
    if Gated(c, s, a) { GatedFacts(c, s, a); }
  }

  lemma ExpiryCompletes(c: Config, s: State, a: nat)
    ensures Completes(c, s, ExpireApproval(c, s, a))
  {
    hide StopJobs, StopAttempts, ClosePending, Completes;
    NoneNew(c, s, ExpireApproval(c, s, a));
  }

  lemma EventCompletes(c: Config, s: State, e: Event)
    requires Inv(c, s)
    ensures Completes(c, s, Perform(c, s, e))
  {
    hide Inv, Dispatch, CommitWork, Recover, Wake, Decide, ExpireApproval, StopJobs, StopAttempts, ClosePending;
    match e
    case DoDispatch(claim, plan) => DispatchCompletes(c, s, claim, plan);
    case DoCommit(claim, work, result, delay) =>
      if Owns(s, claim, false) && Dispatched(s, claim.job, work) {
        CommitCompletes(c, s, claim.job, work, result, delay);
      }
    case DoWatchdog(j, delay) =>
      if j < |s.jobs| && s.jobs[j].attempt.Some? && s.jobs[j].attempt.value < |s.attempts| {
        var a := s.jobs[j].attempt.value;
        var work := WorkItem(s.attempts[a].step, a, s.run.revision);
        if Dispatched(s, j, work) { CommitCompletes(c, s, j, work, Error("attempt_timeout", None), delay); }
      }
    case DoRecover(claim, delay) => RecoverCompletes(c, s, claim, delay);
    case DoWake(st) => WakeCompletes(c, s, st);
    case DoDecide(a, who, request) => DecideCompletes(c, s, a, who, request);
    case DoExpireApproval(a) => ExpiryCompletes(c, s, a);
    case _ =>
  }

  lemma StillProduced(c: Config, s: State, t: State)
    requires WorkProduced(c, s) && Completes(c, s, t)
    requires StepsMove(s.steps, t.steps) && AttemptsMove(s.attempts, t.attempts)
    ensures WorkProduced(c, t)
  {
    forall st | 0 <= st < |t.steps| && t.steps[st].status == Completed && IsWork(c, t.steps[st])
      ensures Produced(t, st)
    {
      if st < |s.steps| && s.steps[st].status == Completed {
        assert t.steps[st] == s.steps[st];
        var a :| 0 <= a < |s.attempts| && ProducedBy(s, st, a);
        assert t.attempts[a] == s.attempts[a];
        assert ProducedBy(t, st, a);
      }
    }
  }

  lemma StepProduces(c: Config, s: State, t: Tick)
    requires Inv(c, s) && WorkProduced(c, s)
    ensures WorkProduced(c, Apply(c, s, t))
  {
    hide Inv, Perform, WorkProduced, Completes, StepsMove, AttemptsMove, JobsMove, ApprovalsMove;
    var now := s.(clock := s.clock + t.after);
    StepMoves(c, s, t);
    TimeOk(c, s, t.after);
    EventCompletes(c, now, t.event);
    SameWorkTables(c, s, now, Apply(c, s, t));
    StillProduced(c, s, Apply(c, s, t));
  }

  lemma {:induction false} ReplayProduces(c: Config, s: State, trace: seq<Tick>)
    requires Inv(c, s) && WorkProduced(c, s)
    ensures WorkProduced(c, Replay(c, s, trace))
  {
    hide Inv, WorkProduced, Apply;
    if trace != [] {
      ReplayProduces(c, s, trace[..|trace| - 1]);
      ReplayOk(c, s, trace[..|trace| - 1]);
      StepProduces(c, Replay(c, s, trace[..|trace| - 1]), trace[|trace| - 1]);
    }
  }

  lemma SameWorkTables(c: Config, s: State, now: State, t: State)
    requires now == s.(clock := now.clock) && Completes(c, now, t)
    ensures Completes(c, s, t)
  { }

  /** Every work step that completed has the output of an attempt of its own, which completed
      with exactly that result; results are never lost, mixed up or overwritten. */
  lemma OutputIsAResult(c: Config, s: State, st: nat) returns (a: nat)
    requires ConfigOk(c) && Reachable(c, s)
    requires st < |s.steps| && s.steps[st].status == Completed && IsWork(c, s.steps[st])
    ensures ProducedBy(s, st, a)
  {
    var deadline: Option<int>, now: int, trace: seq<Tick> :| s == Replay(c, Start(deadline, now), trace);
    assert WorkProduced(c, Start(deadline, now));
    hide Inv, Reachable, Start, WorkProduced;
    StartOk(c, deadline, now);
    ReplayProduces(c, Start(deadline, now), trace);
    AtStep(c, s, st);
    a :| 0 <= a < |s.attempts| && ProducedBy(s, st, a);
  }

  lemma AtStep(c: Config, s: State, st: nat)
    requires WorkProduced(c, s) && st < |s.steps|
    requires s.steps[st].status == Completed && IsWork(c, s.steps[st])
    ensures Produced(s, st)
  { }
}
