/** What happens when: deadlines, retries and delays over every transaction. */
module Deadlines {
  import opened Records
  import opened Runtime
  import opened Invariant
  import opened Tables
  import opened Preserve
  import opened PreserveApprovals
  import opened PreserveDispatch
  import opened History
  import opened Theorems

  // ---------- the run deadline ----------

  /** No attempt was added, and the run is as it was, failed or cancelled. */
  predicate OnlyEnds(s: State, t: State) {
    && |t.attempts| == |s.attempts|
    && (t.run.status == s.run.status || t.run.status in {Failed, Cancelled})
  }

  lemma ExpiredOnlyEnds(s: State)
    ensures OnlyEnds(s, ExpireRun(s))
  { }

  lemma LateDispatch(c: Config, s: State, claim: Claim, plan: Plan)
    requires Reached(s.run.deadline, s.clock)
    ensures OnlyEnds(s, Dispatch(c, s, claim, plan))
  {
    hide PlanOk, Prepare, NotReady;
  }

  lemma LateCommit(c: Config, s: State, j: nat, work: WorkItem, result: Result, delay: nat)
    requires Reached(s.run.deadline, s.clock) && j < |s.jobs| && Dispatched(s, j, work)
    ensures var t := CommitWork(c, s, j, work, result, delay); t == s || (OnlyEnds(s, t) && t.run.status == Failed)
  { }

  lemma LateRecovery(c: Config, s: State, claim: Claim, delay: nat)
    requires Reached(s.run.deadline, s.clock)
    ensures OnlyEnds(s, Recover(c, s, claim, delay))
  {
    hide Requeue;
  }

  lemma LateDecision(c: Config, s: State, a: nat, who: Reviewer, request: Request)
    requires Reached(s.run.deadline, s.clock)
    ensures OnlyEnds(s, Decide(c, s, a, who, request))
  {
    hide ExpireRun, Invalidate, Replace, Resume, TerminateWait, Decided;
    ExpiredOnlyEnds(s);
  }

  lemma LateExpiry(c: Config, s: State, a: nat)
    requires Reached(s.run.deadline, s.clock)
    ensures OnlyEnds(s, ExpireApproval(c, s, a))
  {
    hide ExpireRun, TerminateWait;
    ExpiredOnlyEnds(s);
  }

  /** At or after the run's deadline no transaction starts an attempt, and none completes or
      resumes the run: it can only fail or be cancelled. */
  lemma NothingStartsLate(c: Config, s: State, t: Tick)
    requires Reached(s.run.deadline, s.clock + t.after)
    ensures OnlyEnds(s, Apply(c, s, t))
  {
    var late := s.(clock := s.clock + t.after);
    hide ExpireRun, Dispatch, CommitWork, Recover, Decide, ExpireApproval, StopSteps, StopAttempts, StopJobs,
         ClosePending, NextSequence;
    ExpiredOnlyEnds(late);
    match t.event
    case DoDispatch(claim, plan) => LateDispatch(c, late, claim, plan);
    case DoCommit(claim, work, result, delay) =>
      if Owns(late, claim, false) && Dispatched(late, claim.job, work) {
        LateCommit(c, late, claim.job, work, result, delay);
      }
    case DoRecover(claim, delay) => LateRecovery(c, late, claim, delay);
    case DoDecide(a, who, request) => LateDecision(c, late, a, who, request);
    case DoExpireApproval(a) => LateExpiry(c, late, a);
    case _ =>
  }

  // ---------- attempt deadlines ----------

  /** A running attempt that completes does so before its own deadline. */
  predicate InTime(s: State, t: State, i: nat) {
    (i < |s.attempts| && s.attempts[i].status == Running && i < |t.attempts|
     && t.attempts[i].status == Completed) ==> t.clock < s.attempts[i].deadline
  }

  lemma CommitInTime(c: Config, s: State, j: nat, work: WorkItem, result: Result, delay: nat, i: nat)
    requires j < |s.jobs| && Dispatched(s, j, work)
    ensures InTime(s, CommitWork(c, s, j, work, result, delay), i)
  {
    hide RetryDecision;
  }

  /** Without a commit no running attempt becomes completed. */
  predicate NoneCompleted(s: State, t: State) {
    forall i :: 0 <= i < |s.attempts| && s.attempts[i].status == Running ==>
      i < |t.attempts| && t.attempts[i].status in {Running, Failed, Cancelled}
  }

  lemma BeginAppends(c: Config, p: State, j: nat, inputs: Outcome<Input>)
    requires j < |p.jobs| && |p.steps| > 0 && p.steps[|p.steps| - 1].node in c.nodes
    ensures p.attempts <= Begin(c, p, j, inputs).attempts
  {
    hide WakeTime, NewSnapshot, NewAttempt;
  }

  lemma PrepareAppends(c: Config, s: State, j: nat, plan: Plan)
    requires j < |s.jobs| && PlanOk(c, s, plan)
    ensures s.attempts <= Prepare(c, s, j, plan).attempts
  {
    if plan.choice.Pick? { PickNode(c, s, plan); }
    hide Begin, PlanOk, Skips;
    if Resuming(s) {
      if s.steps[|s.steps| - 1].node in c.nodes { BeginAppends(c, s, j, plan.inputs); }
    } else if s.run.retry.Some? {
      var r := s.run.retry.value;
      if r.node in c.nodes {
        BeginAppends(c, s.(steps := s.steps + [NewStep(r.node, r.iteration, Pending)]), j, plan.inputs);
      }
    } else if plan.choice.Pick? {
      var rows := s.steps + Skips(plan.skips);
      BeginAppends(c, s.(steps := rows + [NewStep(plan.choice.node, 0, Pending)]), j, plan.inputs);
    }
  }

  lemma DispatchCompletesNone(c: Config, s: State, claim: Claim, plan: Plan)
    ensures NoneCompleted(s, Dispatch(c, s, claim, plan))
  {
    hide PlanOk, NotReady, Prepare, StopSteps, ClosePending;
    if Owns(s, claim, false) && PlanOk(c, s, plan) {
      var j := claim.job;
      var p := s.(jobs := s.jobs[j := s.jobs[j].(dispatchedAt := Some(s.clock))],
                  run := Bump(s.run).(status := Running));
      SamePlan(c, s, p, plan);
      PrepareAppends(c, p, j, plan);
    }
  }

  lemma RecoveryCompletesNone(c: Config, s: State, claim: Claim, delay: nat)
    ensures NoneCompleted(s, Recover(c, s, claim, delay))
  {
    hide RetryDecision, RetrySteps, StopSteps, StopJobs;
  }

  lemma DecisionCompletesNone(c: Config, s: State, a: nat, who: Reviewer, request: Request)
    ensures NoneCompleted(s, Decide(c, s, a, who, request))
  {
    hide NewSnapshot, StopJobs, StopSteps, NextSequence, ClosePending;
  }

  lemma ExpiryCompletesNone(c: Config, s: State, a: nat)
    ensures NoneCompleted(s, ExpireApproval(c, s, a))
  {
    hide StopJobs, StopSteps, ClosePending;
  }

  /** No result is accepted for an attempt whose deadline has passed. */
  lemma ResultsAreInTime(c: Config, s: State, t: Tick, i: nat)
    requires i < |s.attempts| && s.attempts[i].status == Running
    ensures InTime(s, Apply(c, s, t), i)
  {
    var now := s.(clock := s.clock + t.after);
    hide CommitWork, Dispatch, Recover, Decide, ExpireApproval, StopSteps, StopJobs, ClosePending, NextSequence;
    match t.event
    case DoDispatch(claim, plan) => DispatchCompletesNone(c, now, claim, plan);
    case DoCommit(claim, work, result, delay) =>
      if Owns(now, claim, false) && Dispatched(now, claim.job, work) {
        CommitInTime(c, now, claim.job, work, result, delay, i);
      }
    case DoWatchdog(j, delay) =>
      if j < |now.jobs| && now.jobs[j].attempt.Some? && now.jobs[j].attempt.value < |now.attempts| {
        var a := now.jobs[j].attempt.value;
        var work := WorkItem(now.attempts[a].step, a, now.run.revision);
        if Dispatched(now, j, work) { CommitInTime(c, now, j, work, Error("attempt_timeout", None), delay, i); }
      }
    case DoRecover(claim, delay) => RecoveryCompletesNone(c, now, claim, delay);
    case DoDecide(a, who, request) => DecisionCompletesNone(c, now, a, who, request);
    case DoExpireApproval(a) => ExpiryCompletesNone(c, now, a);
    case _ =>
  }

  // ---------- nothing happens early ----------

  /** A retry that starts is due: the job was queued for no earlier time. */
  lemma RetriesAreNotEarly(c: Config, s: State, claim: Claim, plan: Plan)
    requires ConfigOk(c) && Reachable(c, s)
    requires Resuming(s) && Dispatch(c, s, claim, plan) != s
    ensures s.steps[|s.steps| - 1].nextAttemptAt.Some?
    ensures s.steps[|s.steps| - 1].nextAttemptAt.value <= s.clock
  {
    hide Inv, Reachable, Prepare, PlanOk, Stop, NotReady;
    ReachableOk(c, s);
    UndispatchedFacts(c, s, claim);
    JobAt(c, s, claim.job);
  }

  /** While a step waits no job is active, so workers, recovery and the watchdog of an
      attempt have nothing to act on. */
  lemma WaitingBlocksJobs(c: Config, s: State, st: nat, e: Event)
    requires Inv(c, s) && st < |s.steps| && s.steps[st].status == Waiting
    requires e.DoClaim? || e.DoRenew? || e.DoDispatch? || e.DoCommit? || e.DoRecover?
    ensures Perform(c, s, e).steps == s.steps
  {
    hide Inv, Prepare, CommitWork, NotReady, PlanOk, StepOk;
    WaitingFacts(c, s, st);
  }

  lemma DecidingADelay(c: Config, s: State, st: nat, a: nat)
    requires Inv(c, s) && st < |s.steps| && s.steps[st].status == Waiting && s.steps[st].waiting == ForDelay
    ensures !Gated(c, s, a)
  {
    hide Inv, StepOk;
    WaitingFacts(c, s, st);
    if Gated(c, s, a) { GatedFacts(c, s, a); }
  }

  /** A delay completes only by its timer and never before its wake time, whatever else
      happens to the run. */
  lemma DelaysAreNotEarly(c: Config, s: State, tick: Tick, st: nat)
    requires ConfigOk(c) && Reachable(c, s)
    requires st < |s.steps| && s.steps[st].status == Waiting && s.steps[st].waiting == ForDelay
    requires var t := Apply(c, s, tick); st < |t.steps| && t.steps[st].status == Completed
    ensures tick.event == DoWake(st)
    ensures s.steps[st].wakeAt.Some? && s.steps[st].wakeAt.value <= s.clock + tick.after
  {
    hide Inv, Reachable, ClaimJob, Renew, Dispatch, Commit, Recover, Decide, CommitWork, NextSequence, StopJobs,
         ClosePending, StopAttempts;
    var now := s.(clock := s.clock + tick.after);
    ReachableOk(c, s);
    TimeOk(c, s, tick.after);
    match tick.event
    case DoDecide(a, who, request) =>
      DecidingADelay(c, now, st, a);
      NotGated(c, now, a, who, request);
    case DoExpireApproval(a) => DecidingADelay(c, now, st, a);
    case DoWatchdog(j, delay) => WaitingFacts(c, now, st);
    case DoWake(w) =>
      WaitingFacts(c, now, st);
    case DoCancel =>
    case DoChangeInput(w, input) =>
    case _ => WaitingBlocksJobs(c, now, st, tick.event);
  }

  lemma NotGated(c: Config, s: State, a: nat, who: Reviewer, request: Request)
    requires !Gated(c, s, a)
    ensures Decide(c, s, a, who, request) == s
  { }
}
