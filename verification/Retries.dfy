/** Every repeated attempt was licensed, over whole runs: it follows a failed attempt of the
    same step whose error the pinned policy lists, or whose worker was lost. */
module Retries {
  import opened Records
  import opened Runtime
  import opened Invariant
  import opened Tables
  import opened Preserve
  import opened PreserveResults
  import opened PreserveDispatch
  import opened History
  import opened Theorems

  /** The attempt failed with an error that may be tried again. */
  predicate Licensed(policy: RetryPolicy, attempt: Attempt) {
    && attempt.status == Failed && attempt.error.Some?
    && attempt.error.value !in Permanent
    && (attempt.error.value in policy.retryable || attempt.error.value == "worker_abandoned")
  }

  predicate LicensedAt(c: Config, s: State, a: nat)
    requires a < |s.attempts|
  {
    && s.attempts[a].step < |s.steps|
    && s.steps[s.attempts[a].step].node in c.nodes
    && Licensed(c.nodes[s.steps[s.attempts[a].step].node].retry, s.attempts[a])
  }

  /** Attempt `a` repeats the attempt before it, which licensed that. */
  predicate Repeats(c: Config, s: State, a: nat)
    requires a < |s.attempts|
  {
    && a > 0 && s.attempts[a - 1].step == s.attempts[a].step
    && s.attempts[a - 1].number == s.attempts[a].number - 1
    && LicensedAt(c, s, a - 1)
  }

  /** The last attempt belongs to the last step and licenses another one. */
  predicate MayRepeat(c: Config, s: State) {
    && |s.attempts| > 0 && s.attempts[|s.attempts| - 1].step == |s.steps| - 1
    && LicensedAt(c, s, |s.attempts| - 1)
  }

  predicate AllLicensed(c: Config, s: State) {
    && (forall a :: 0 <= a < |s.attempts| && s.attempts[a].number > 1 ==> Repeats(c, s, a))
    && (Resuming(s) ==> MayRepeat(c, s))
  }

  // ---------- what each transaction does to attempts ----------

  /** At most one attempt is added; it repeats one only when the last step was to be
      resumed, and the last step comes to retry only after a licensed failure. */
  predicate Continues(c: Config, s: State, t: State) {
    && |s.attempts| <= |t.attempts| <= |s.attempts| + 1
    && (|t.attempts| > |s.attempts| ==>
          var added := t.attempts[|s.attempts|];
          added.number > 1 ==>
            && Resuming(s) && |s.attempts| > 0 && added.step == |s.steps| - 1
            && added.step == s.attempts[|s.attempts| - 1].step
            && added.number == s.attempts[|s.attempts| - 1].number + 1)
    && (Resuming(t) ==>
          || (Resuming(s) && |t.steps| == |s.steps| && |t.attempts| == |s.attempts|)
          || MayRepeat(c, t))
  }

  /** No attempt is added, and no step comes to retry. */
  predicate Quiet(s: State, t: State) {
    && |t.attempts| == |s.attempts|
    && (Resuming(t) ==> Resuming(s) && |t.steps| == |s.steps|)
  }

  lemma QuietContinues(c: Config, s: State, t: State)
    requires Quiet(s, t)
    ensures Continues(c, s, t)
  { }

  lemma ContinuesLicensed(c: Config, s: State, t: State)
    requires AllLicensed(c, s) && Continues(c, s, t)
    requires StepsMove(s.steps, t.steps) && AttemptsMove(s.attempts, t.attempts)
    ensures AllLicensed(c, t)
  {
    hide Licensed;
    forall a | 0 <= a < |s.attempts| && LicensedAt(c, s, a)
      ensures t.attempts[a] == s.attempts[a] && LicensedAt(c, t, a)
    { FailedStays(c, s, t, a); }
    forall a | 0 <= a < |t.attempts| && t.attempts[a].number > 1 ensures Repeats(c, t, a) {
      if a < |s.attempts| {
        assert SameAttempt(s.attempts[a], t.attempts[a]);
        assert Repeats(c, s, a);
      } else {
        assert MayRepeat(c, s);
      }
    }
  }

  lemma FailedStays(c: Config, s: State, t: State, a: nat)
    requires a < |s.attempts| && LicensedAt(c, s, a)
    requires StepsMove(s.steps, t.steps) && AttemptsMove(s.attempts, t.attempts)
    ensures t.attempts[a] == s.attempts[a] && LicensedAt(c, t, a)
  {
    assert Terminal(s.attempts[a].status);
    assert SameIdentity(s.steps[s.attempts[a].step], t.steps[s.attempts[a].step]);
  }

  // ---------- dispatch ----------

  /** A started attempt has number 1 unless the last attempt is of the last step. */
  lemma BeginContinues(c: Config, s: State, p: State, j: nat, inputs: Outcome<Input>)
    requires j < |p.jobs| && |p.steps| > 0 && p.steps[|p.steps| - 1].node in c.nodes
    requires p.attempts == s.attempts
    requires (p.steps == s.steps && Resuming(s))
             || forall a :: 0 <= a < |s.attempts| ==> s.attempts[a].step < |p.steps| - 1
    ensures Continues(c, s, Begin(c, p, j, inputs))
  {
    hide WakeTime, NewSnapshot, MayRepeat;
  }

  lemma PrepareContinues(c: Config, s: State, p: State, j: nat, plan: Plan)
    requires p.steps == s.steps && p.attempts == s.attempts && j < |p.jobs| && PlanOk(c, p, plan)
    requires forall a :: 0 <= a < |s.attempts| ==> s.attempts[a].step < |s.steps|
    ensures Continues(c, s, Prepare(c, p, j, plan))
  {
    if plan.choice.Pick? { PickNode(c, p, plan); }
    hide Begin, PlanOk, Continues, AttemptsOf, NewAttempt;
    var t := Prepare(c, p, j, plan);
    if Resuming(p) && p.steps[|p.steps| - 1].node in c.nodes {
      BeginContinues(c, s, p, j, plan.inputs);
    } else if !Resuming(p) && p.run.retry.Some? && p.run.retry.value.node in c.nodes {
      var r := p.run.retry.value;
      BeginContinues(c, s, p.(steps := p.steps + [NewStep(r.node, r.iteration, Pending)]), j, plan.inputs);
    } else if !Resuming(p) && p.run.retry.None? && plan.choice.Pick? {
      var rows := p.steps + Skips(plan.skips);
      BeginContinues(c, s, p.(steps := rows + [NewStep(plan.choice.node, 0, Pending)]), j, plan.inputs);
    } else {
      QuietContinues(c, s, t);
    }
  }

  lemma DispatchContinues(c: Config, s: State, claim: Claim, plan: Plan)
    requires Inv(c, s)
    ensures Continues(c, s, Dispatch(c, s, claim, plan))
  {
    hide Inv, PlanOk, NotReady, Prepare, Continues, StopAttempts, ClosePending;
    var t := Dispatch(c, s, claim, plan);
    if Quiet(s, t) {
      QuietContinues(c, s, t);
    } else {
      var j := claim.job;
      var p := s.(jobs := s.jobs[j := s.jobs[j].(dispatchedAt := Some(s.clock))],
                  run := Bump(s.run).(status := Running));
      SamePlan(c, s, p, plan);
      forall a | 0 <= a < |s.attempts| ensures s.attempts[a].step < |s.steps| { AttemptAt(c, s, a); }
      PrepareContinues(c, s, p, j, plan);
    }
  }

  // ---------- failures ----------

  lemma GrantedIsListed(policy: RetryPolicy, number: nat, code: string, now: int, deadline: Option<int>,
                        delay: nat, notBefore: Option<int>)
    requires RetryDecision(policy, number, code, now, deadline, false, delay, notBefore).due.Some?
    ensures code !in Permanent && code in policy.retryable
  {
    hide Permanent;
  }

  /** A result either settles the step, or its failure is one the policy lists. */
  lemma CommitContinues(c: Config, s: State, j: nat, work: WorkItem, result: Result, delay: nat)
    requires Inv(c, s) && j < |s.jobs| && Active(s.jobs[j].status) && Dispatched(s, j, work)
    ensures Continues(c, s, CommitWork(c, s, j, work, result, delay))
  {
    hide Inv, RetryDecision, Effective, Permanent;
    ExecutingFacts(c, s, j, work);
    var t := CommitWork(c, s, j, work, result, delay);
    if Resuming(t) {
      var step, attempt := s.steps[work.step], s.attempts[work.attempt];
      match Effective(s, work, result) {
        case Error(code, notBefore) =>
          GrantedIsListed(c.nodes[step.node].retry, attempt.number, code, s.clock, s.run.deadline, delay, notBefore);
        case _ =>
      }
    }
  }

  lemma AbandonedIsNotPermanent()
    ensures "worker_abandoned" !in Permanent
  { }

  /** Recovery makes a step retry after its running attempt was abandoned. */
  lemma RecoverContinues(c: Config, s: State, claim: Claim, delay: nat)
    requires Inv(c, s)
    ensures Continues(c, s, Recover(c, s, claim, delay))
  {
    hide Inv, RetryDecision, StopJobs, Permanent;
    AbandonedIsNotPermanent();
    var t := Recover(c, s, claim, delay);
    if Owns(s, claim, true) { ActiveIsLast(c, s, claim.job); }
    if t != s && |s.steps| > 0 && !Terminal(s.steps[|s.steps| - 1].status) && !Terminal(s.run.status) {
      UnfinishedStep(c, s);
      LiveFacts(c, s);
    }
  }

  lemma DecideQuiet(c: Config, s: State, a: nat, who: Reviewer, request: Request)
    ensures Quiet(s, Decide(c, s, a, who, request))
  {
    hide NewSnapshot, StopJobs, NextSequence, ClosePending, Decided;
  }

  lemma OthersQuiet(c: Config, s: State, e: Event)
    requires !e.DoDispatch? && !e.DoCommit? && !e.DoWatchdog? && !e.DoRecover? && !e.DoDecide?
    ensures Quiet(s, Perform(c, s, e))
  {
    hide StopJobs, NextSequence, ClosePending;
  }

  lemma WatchdogContinues(c: Config, s: State, j: nat, delay: nat)
    requires Inv(c, s)
    ensures Continues(c, s, Watchdog(c, s, j, delay))
  {
    hide Inv, CommitWork, Continues, StopJobs, ClosePending;
    var t := Watchdog(c, s, j, delay);
    if Quiet(s, t) {
      QuietContinues(c, s, t);
    } else {
      var a := s.jobs[j].attempt.value;
      CommitContinues(c, s, j, WorkItem(s.attempts[a].step, a, s.run.revision), Error("attempt_timeout", None), delay);
    }
  }

  lemma EventContinues(c: Config, s: State, e: Event)
    requires Inv(c, s)
    ensures Continues(c, s, Perform(c, s, e))
  {
    hide Inv, Dispatch, CommitWork, Watchdog, Recover, Decide, Continues, Quiet;
    match e
    case DoDispatch(claim, plan) => DispatchContinues(c, s, claim, plan);
    case DoCommit(claim, work, result, delay) =>
      SameQuiet(s);
      QuietContinues(c, s, s);
      if Owns(s, claim, false) && Dispatched(s, claim.job, work) {
        CommitContinues(c, s, claim.job, work, result, delay);
      }
    case DoWatchdog(j, delay) => WatchdogContinues(c, s, j, delay);
    case DoRecover(claim, delay) => RecoverContinues(c, s, claim, delay);
    case DoDecide(a, who, request) =>
      DecideQuiet(c, s, a, who, request);
      QuietContinues(c, s, Perform(c, s, e));
    case _ =>
      OthersQuiet(c, s, e);
      QuietContinues(c, s, Perform(c, s, e));
  }

  lemma SameQuiet(s: State)
    ensures Quiet(s, s)
  { }

  // ---------- over whole runs ----------

  lemma TickLicensed(c: Config, s: State, tick: Tick)
    requires Inv(c, s) && AllLicensed(c, s)
    ensures AllLicensed(c, Apply(c, s, tick))
  {
    hide Inv, Perform, Continues, AllLicensed, StepsMove, AttemptsMove, JobsMove, ApprovalsMove;
    var now := s.(clock := s.clock + tick.after);
    TimeOk(c, s, tick.after);
    StepMoves(c, s, tick);
    EventContinues(c, now, tick.event);
    SameLicensed(c, s, now);
    ContinuesLicensed(c, now, Apply(c, s, tick));
  }

  lemma SameLicensed(c: Config, s: State, now: State)
    requires AllLicensed(c, s) && now == s.(clock := now.clock)
    ensures AllLicensed(c, now)
  {
    hide Licensed;
    forall a | 0 <= a < |now.attempts| && now.attempts[a].number > 1 ensures Repeats(c, now, a) {
      assert Repeats(c, s, a);
    }
  }

  lemma {:induction false} ReplayLicensed(c: Config, s: State, trace: seq<Tick>)
    requires Inv(c, s) && AllLicensed(c, s)
    ensures AllLicensed(c, Replay(c, s, trace))
  {
    hide Inv, Apply, AllLicensed;
    if trace != [] {
      ReplayLicensed(c, s, trace[..|trace| - 1]);
      ReplayOk(c, s, trace[..|trace| - 1]);
      TickLicensed(c, Replay(c, s, trace[..|trace| - 1]), trace[|trace| - 1]);
    }
  }

  lemma StartLicensed(c: Config, deadline: Option<int>, now: int)
    requires ConfigOk(c)
    ensures Inv(c, Start(deadline, now)) && AllLicensed(c, Start(deadline, now))
  { }

  /** In every reachable state an attempt with a number above 1 follows the attempt of the
      same step with the number before it; that one failed, with an error that is not
      permanent and that the pinned policy lists, or because its worker was lost. */
  lemma RetriesAreLicensed(c: Config, s: State, a: nat)
    requires ConfigOk(c) && Reachable(c, s)
    requires a < |s.attempts| && s.attempts[a].number > 1
    ensures Repeats(c, s, a)
  {
    var deadline: Option<int>, now: int, trace: seq<Tick> :| s == Replay(c, Start(deadline, now), trace);
    hide Inv, Reachable, Start, Repeats;
    StartLicensed(c, deadline, now);
    ReplayLicensed(c, Start(deadline, now), trace);
  }
}
