/** Every transaction keeps the invariant. */
module Preserve {
  import opened Records
  import opened Runtime
  import opened Invariant
  import opened Tables

  lemma TimeOk(c: Config, s: State, after: nat)
    requires Inv(c, s)
    ensures Inv(c, s.(clock := s.clock + after))
  {
    var t := s.(clock := s.clock + after);
    assert ShapeOk(c, t) by { hide JobsOk, StepsOk, AttemptsOk, ApprovalsOk; }
    assert JobsOk(c, t.jobs, t.tokens, t.clock) by { hide ShapeOk, StepsOk, AttemptsOk, ApprovalsOk; }
    hide JobsOk, StepsOk, AttemptsOk, ApprovalsOk, ShapeOk;
  }

  // ---------- queue ----------

  /** A live run has its one active job at the end of the table. */
  lemma ActiveIsLast(c: Config, s: State, j: nat)
    requires Inv(c, s) && j < |s.jobs| && Active(s.jobs[j].status)
    ensures j == |s.jobs| - 1
    ensures s.run.status in {Pending, Running} && !s.run.cancelRequested
  {
    hide StepsOk, AttemptsOk, ApprovalsOk, JobOk;
  }

  /** Claiming or renewing changes only who owns the last job, and until when. */
  predicate SameWork(a: Job, b: Job) {
    && Active(b.status) && (a.status == JobRunning ==> b.status == JobRunning)
    && b.dispatchedAt == a.dispatchedAt && b.attempt == a.attempt && b.dueAt == a.dueAt
  }

  lemma OwnerShape(c: Config, s: State, j: nat, job: Job, tokens: nat)
    requires ShapeOk(c, s)
    requires j == |s.jobs| - 1 && Active(s.jobs[j].status) && SameWork(s.jobs[j], job)
    ensures ShapeOk(c, s.(jobs := s.jobs[j := job], tokens := tokens))
  {
    assert !NoActiveJob(s.jobs);
  }

  lemma OwnerOk(c: Config, s: State, j: nat, job: Job, tokens: nat)
    requires Inv(c, s)
    requires j < |s.jobs| && Active(s.jobs[j].status) && SameWork(s.jobs[j], job)
    requires JobOk(c, job, j, tokens, s.clock) && s.tokens <= tokens
    requires job.token in {None, s.jobs[j].token, Some(s.tokens)}
    ensures Inv(c, s.(jobs := s.jobs[j := job], tokens := tokens))
  {
    ActiveIsLast(c, s, j);
    hide ShapeOk, StepsOk, AttemptsOk, ApprovalsOk, JobsOk, JobOk;
    OwnerShape(c, s, j, job, tokens);
    JobsUpdate(c, s.jobs, s.tokens, s.clock, j, job, tokens);
  }

  lemma JobAt(c: Config, s: State, j: nat)
    requires Inv(c, s) && j < |s.jobs|
    ensures JobOk(c, s.jobs[j], j, s.tokens, s.clock)
  {
    hide ShapeOk, StepsOk, AttemptsOk, ApprovalsOk, JobOk;
  }

  lemma ClaimOk(c: Config, s: State, j: nat)
    requires Inv(c, s)
    ensures Inv(c, ClaimJob(c, s, j))
  {
    hide ShapeOk, StepsOk, AttemptsOk, ApprovalsOk, JobsOk, Inv;
    if Claimable(s, j) {
      JobAt(c, s, j);
      ActiveIsLast(c, s, j);
      var job := s.jobs[j].(status := JobRunning, token := Some(s.tokens),
                            lease := Some(s.clock + c.leaseSeconds));
      OwnerOk(c, s, j, job, s.tokens + 1);
    }
  }

  lemma RenewOk(c: Config, s: State, claim: Claim)
    requires Inv(c, s)
    ensures Inv(c, Renew(c, s, claim))
  {
    hide ShapeOk, StepsOk, AttemptsOk, ApprovalsOk, JobsOk, Inv;
    if Holds(s, claim) {
      JobAt(c, s, claim.job);
      var job := s.jobs[claim.job].(lease := Some(s.clock + c.leaseSeconds));
      OwnerOk(c, s, claim.job, job, s.tokens);
    }
  }

  // ---------- stopping a run ----------

  /** All four tables of a stopped run keep their invariants and are terminal. */
  lemma StopOk(c: Config, s: State, status: Status, code: string, close: ApprovalStatus)
    requires Inv(c, s) && status in {Failed, Cancelled}
    requires close in {ApprovalCancelled, ApprovalExpired}
    ensures var t := Stop(s, status, code, close);
      && StepsOk(c, t.steps)
      && AttemptsOk(c, s.run.deadline, t.steps, t.attempts)
      && ApprovalsOk(c, s.run.deadline, t.steps, t.approvals)
      && (forall i :: 0 <= i < |t.steps| ==> Terminal(t.steps[i].status))
      && AttemptsDone(t.attempts) && NoPending(t.approvals)
  {
    var t := Stop(s, status, code, close);
    StopStepsOk(c, s, status, code);
    StopAttemptsOk(c, s, t.steps, status, code);
    hide StepsOk, AttemptsOk, ShapeOk, JobsOk;
    ApprovalsClose(c, s.run.deadline, s.steps, t.steps, s.approvals, close, s.clock);
    hide ApprovalsOk;
  }

  lemma StopStepsOk(c: Config, s: State, status: Status, code: string)
    requires Inv(c, s) && status in {Failed, Cancelled}
    ensures StepsOk(c, StopSteps(s.steps, status, code))
    ensures KeepsDone(c, s.steps, StopSteps(s.steps, status, code), None)
    ensures forall i :: 0 <= i < |s.steps| ==> Terminal(StopSteps(s.steps, status, code)[i].status)
  {
    hide ShapeOk, JobsOk, AttemptsOk, ApprovalsOk;
    StepsStop(c, s.steps, status, code);
  }

  lemma StopAttemptsOk(c: Config, s: State, steps: seq<Step>, status: Status, code: string)
    requires Inv(c, s) && status in {Failed, Cancelled} && Extends(s.steps, steps)
    ensures AttemptsOk(c, s.run.deadline, steps, StopAttempts(s.attempts, status, code))
    ensures AttemptsDone(StopAttempts(s.attempts, status, code))
    ensures forall st :: AttemptsOf(StopAttempts(s.attempts, status, code), st) == AttemptsOf(s.attempts, st)
  {
    hide ShapeOk, JobsOk, StepsOk, ApprovalsOk;
    AttemptsFinish(c, s.run.deadline, s.steps, steps, s.attempts, StopAttempts(s.attempts, status, code));
  }

  lemma StoppedOk(c: Config, s: State, t: State)
    requires Inv(c, s)
    requires t.run.status in {Failed, Cancelled} && t.run.deadline == s.run.deadline
    requires t.run.cancelRequested ==> t.run.status == Cancelled
    requires StepsOk(c, t.steps)
    requires AttemptsOk(c, s.run.deadline, t.steps, t.attempts)
    requires ApprovalsOk(c, s.run.deadline, t.steps, t.approvals)
    requires JobsOk(c, t.jobs, t.tokens, t.clock) && NoActiveJob(t.jobs)
    requires forall i :: 0 <= i < |t.steps| ==> Terminal(t.steps[i].status)
    requires AttemptsDone(t.attempts) && NoPending(t.approvals)
    ensures Inv(c, t)
  {
    hide StepsOk, AttemptsOk, ApprovalsOk, JobsOk;
    assert ShapeOk(c, t) by { hide Inv; }
    hide ShapeOk;
  }

  lemma JobsStopped(c: Config, s: State, status: JobStatus, code: Option<string>)
    requires Inv(c, s) && !Active(status)
    ensures JobsOk(c, StopJobs(s.jobs, status, code, s.clock), s.tokens, s.clock)
    ensures NoActiveJob(StopJobs(s.jobs, status, code, s.clock))
  {
    hide StepsOk, AttemptsOk, ApprovalsOk, JobsOk, ShapeOk;
    JobsStop(c, s.jobs, s.tokens, s.clock, status, code, s.clock);
  }

  lemma ExpireRunOk(c: Config, s: State)
    requires Inv(c, s) && !Terminal(s.run.status)
    ensures Inv(c, ExpireRun(s))
  {
    StopOk(c, s, Failed, "run_deadline", ApprovalExpired);
    assert !s.run.cancelRequested by { hide StepsOk, AttemptsOk, ApprovalsOk, JobsOk; }
    hide StepsOk, AttemptsOk, ApprovalsOk, ShapeOk, JobsOk, Inv;
    JobsStopped(c, s, JobFailed, Some("run_deadline"));
    StoppedOk(c, s, ExpireRun(s));
  }

  lemma CancelOk(c: Config, s: State)
    requires Inv(c, s)
    ensures Inv(c, Cancel(s))
  {
    hide ShapeOk, StepsOk, AttemptsOk, ApprovalsOk, JobsOk, Inv;
    if !Terminal(s.run.status) {
      StopOk(c, s, Cancelled, "cancelled", ApprovalCancelled);
      JobsStopped(c, s, JobCancelled, Some("cancelled"));
      StoppedOk(c, s, Cancel(s));
    }
  }

  // ---------- waking a delay ----------

  lemma WaitingFacts(c: Config, s: State, st: nat)
    requires Inv(c, s) && st < |s.steps| && s.steps[st].status == Waiting
    ensures st == |s.steps| - 1 && s.run.status == Waiting && WaitingShape(s)
    ensures StepOk(c, s.steps[st]) && !s.run.cancelRequested
  {
    hide JobsOk, AttemptsOk, ApprovalsOk, StepOk, HasRow;
    assert s.run.status in {Failed, Cancelled, Completed} ==> AllTerminal(s);
  }

  lemma InvFrom(c: Config, t: State)
    requires ConfigOk(c) && JobsOk(c, t.jobs, t.tokens, t.clock) && StepsOk(c, t.steps)
    requires AttemptsOk(c, t.run.deadline, t.steps, t.attempts)
    requires ApprovalsOk(c, t.run.deadline, t.steps, t.approvals)
    requires ShapeOk(c, t)
    ensures Inv(c, t)
  {
    hide ConfigOk, JobsOk, StepsOk, AttemptsOk, ApprovalsOk, ShapeOk;
  }

  lemma ResumedQueue(c: Config, s: State, t: State, step: Step, retry: Option<Retry>)
    requires WaitingShape(s) && step.status == Completed && StepOk(c, step)
    requires SameIdentity(s.steps[|s.steps| - 1], step)
    requires t.steps == s.steps[|s.steps| - 1 := step] && t.attempts == s.attempts
    requires t.run.retry == retry && NoPending(t.approvals)
    requires t.jobs == s.jobs + [NewJob(|s.jobs|, s.clock, s.clock)]
    requires retry.Some? ==>
      && c.nodes[step.node].kind.Approval?
      && retry.value.node == step.node && retry.value.iteration == step.iteration + 1
      && retry.value.iteration <= c.nodes[step.node].kind.gate.maxReviewRetries
      && (forall i :: 0 <= i < |s.steps| && s.steps[i].node == step.node ==>
            s.steps[i].iteration <= step.iteration)
    ensures QueuedShape(c, t)
  { }

  /** The waiting step completed and its successor is queued. */
  lemma ResumedOk(c: Config, s: State, step: Step, approvals: seq<Snapshot>, retry: Option<Retry>)
    requires Inv(c, s) && s.run.status == Waiting && WaitingShape(s) && !s.run.cancelRequested
    requires step.status == Completed && StepOk(c, step)
    requires SameIdentity(s.steps[|s.steps| - 1], step)
    requires ApprovalsOk(c, s.run.deadline, s.steps[|s.steps| - 1 := step], approvals)
    requires NoPending(approvals)
    requires retry.Some? ==>
      && c.nodes[step.node].kind.Approval?
      && retry.value.node == step.node && retry.value.iteration == step.iteration + 1
      && retry.value.iteration <= c.nodes[step.node].kind.gate.maxReviewRetries
      && (forall i :: 0 <= i < |s.steps| && s.steps[i].node == step.node ==>
            s.steps[i].iteration <= step.iteration)
    ensures Inv(c, s.(steps := s.steps[|s.steps| - 1 := step],
                      run := Bump(s.run.(status := Running, retry := retry)),
                      approvals := approvals,
                      jobs := s.jobs + [NewJob(|s.jobs|, s.clock, s.clock)]))
  {
    var t := s.(steps := s.steps[|s.steps| - 1 := step],
                run := Bump(s.run.(status := Running, retry := retry)),
                approvals := approvals,
                jobs := s.jobs + [NewJob(|s.jobs|, s.clock, s.clock)]);
    hide ApprovalsOk, AttemptsOk, StepsOk, JobsOk, ShapeOk, WaitingShape, QueuedShape, StepOk, Inv;
    InvTables(c, s);
    ResumedQueue(c, s, t, step, retry);
    ResumedTables(c, s, step);
    ResumedShape(c, t);
    InvFrom(c, t);
  }

  lemma ResumedShape(c: Config, t: State)
    requires QueuedShape(c, t) && t.run.status == Running && !t.run.cancelRequested
    ensures ShapeOk(c, t)
  {
    hide QueuedShape, ExecutingShape;
  }

  lemma ResumedTables(c: Config, s: State, step: Step)
    requires Inv(c, s) && WaitingShape(s)
    requires step.status == Completed && StepOk(c, step)
    requires SameIdentity(s.steps[|s.steps| - 1], step)
    ensures var steps := s.steps[|s.steps| - 1 := step];
      && StepsOk(c, steps)
      && AttemptsOk(c, s.run.deadline, steps, s.attempts)
      && JobsOk(c, s.jobs + [NewJob(|s.jobs|, s.clock, s.clock)], s.tokens, s.clock)
      && NextSequence(s.jobs) == |s.jobs|
  {
    hide ApprovalsOk, AttemptsOk, StepsOk, JobsOk, ShapeOk, StepOk;
    StepsSet(c, s.steps, |s.steps| - 1, step);
    AttemptsKeep(c, s.run.deadline, s.steps, s.steps[|s.steps| - 1 := step], s.attempts);
    JobsAppend(c, s.jobs, s.tokens, s.clock, s.clock);
  }

  lemma WakeOk(c: Config, s: State, st: nat)
    requires Inv(c, s)
    ensures Inv(c, Wake(s, st))
  {
    hide ShapeOk, StepsOk, AttemptsOk, ApprovalsOk, JobsOk, Inv, JobOk, WaitingShape;
    if st < |s.steps| && s.steps[st].status == Waiting && s.steps[st].waiting == ForDelay {
      WaitingFacts(c, s, st);
      if Reached(s.run.deadline, s.clock) {
        ExpireRunOk(c, s);
      } else {
        var step := s.steps[st].(status := Completed, output := Some("{}"));
        DelayApprovals(c, s, step);
        WaitTables(c, s);
        ResumedOk(c, s, step, s.approvals, None);
        ResumedTables(c, s, step);
        assert s.run == s.run.(retry := None);
      }
    }
  }

  lemma WaitTables(c: Config, s: State)
    requires WaitingShape(s)
    ensures s.run.retry.None? && NoActiveJob(s.jobs)
  { }

  lemma DelayApprovals(c: Config, s: State, step: Step)
    requires Inv(c, s) && WaitingShape(s)
    requires s.steps[|s.steps| - 1].waiting == ForDelay
    requires step.status == Completed && SameIdentity(s.steps[|s.steps| - 1], step)
    ensures ApprovalsOk(c, s.run.deadline, s.steps[|s.steps| - 1 := step], s.approvals)
    ensures NoPending(s.approvals)
  {
    hide Inv, StepsOk, JobsOk, AttemptsOk, ShapeOk, ApprovalsOk, StepOk;
    DelayStep(c, s);
    assert ApprovalsOk(c, s.run.deadline, s.steps, s.approvals) by { InvTables(c, s); }
    ApprovalsKeep(c, s.run.deadline, s.steps, s.steps[|s.steps| - 1 := step], s.approvals);
  }

  lemma InvTables(c: Config, s: State)
    requires Inv(c, s)
    ensures ConfigOk(c) && JobsOk(c, s.jobs, s.tokens, s.clock) && StepsOk(c, s.steps)
    ensures AttemptsOk(c, s.run.deadline, s.steps, s.attempts)
    ensures ApprovalsOk(c, s.run.deadline, s.steps, s.approvals)
    ensures ShapeOk(c, s)
  {
    hide ConfigOk, JobsOk, StepsOk, AttemptsOk, ApprovalsOk, ShapeOk;
  }

  lemma StepAt(c: Config, s: State, st: nat)
    requires Inv(c, s) && st < |s.steps|
    ensures StepOk(c, s.steps[st])
    ensures st < |s.steps| - 1 ==> Succeeded(s.steps[st].status)
  {
    hide ConfigOk, JobsOk, AttemptsOk, ApprovalsOk, ShapeOk, StepOk;
  }

  lemma SnapshotAt(c: Config, s: State, a: nat)
    requires Inv(c, s) && a < |s.approvals|
    ensures SnapshotOk(c, s.run.deadline, s.steps, s.approvals[a])
    ensures s.approvals[a].status == AwaitingDecision ==> a == |s.approvals| - 1
  {
    hide ConfigOk, JobsOk, AttemptsOk, StepsOk, ShapeOk, SnapshotOk, GatesDecided;
  }

  /** A pending snapshot belongs to the last step, and that step waits for it. */
  lemma PendingFacts(c: Config, s: State, a: nat)
    requires Inv(c, s) && a < |s.approvals| && s.approvals[a].status == AwaitingDecision
    ensures a == |s.approvals| - 1 && |s.steps| > 0
    ensures s.approvals[a].step == |s.steps| - 1
    ensures SnapshotOk(c, s.run.deadline, s.steps, s.approvals[a])
    ensures StepOk(c, s.steps[|s.steps| - 1])
    ensures s.steps[|s.steps| - 1].status == Waiting
    ensures s.steps[|s.steps| - 1].waiting == ForApproval
  {
    hide Inv, DecisionOk;
    SnapshotAt(c, s, a);
    StepAt(c, s, s.approvals[a].step);
  }

  lemma DelayStep(c: Config, s: State)
    requires Inv(c, s) && WaitingShape(s)
    requires s.steps[|s.steps| - 1].waiting == ForDelay
    ensures s.steps[|s.steps| - 1].node in c.nodes
    ensures c.nodes[s.steps[|s.steps| - 1].node].kind.Delay?
    ensures NoPending(s.approvals)
  {
    hide Inv, SnapshotOk;
    StepAt(c, s, |s.steps| - 1);
    forall i | 0 <= i < |s.approvals| ensures s.approvals[i].status != AwaitingDecision {
      if s.approvals[i].status == AwaitingDecision { PendingFacts(c, s, i); }
    }
  }

  // ---------- recovery ----------

  lemma LiveFacts(c: Config, s: State)
    requires Inv(c, s) && s.run.status in {Pending, Running}
    ensures !s.run.cancelRequested && NoPending(s.approvals)
    ensures |s.jobs| > 0 && Active(s.jobs[|s.jobs| - 1].status)
    ensures s.run.status == Pending ==> PendingShape(s)
    ensures s.run.status == Running ==> ExecutingShape(s) || QueuedShape(c, s)
  {
    hide StepsOk, AttemptsOk, ApprovalsOk, JobsOk;
  }

  lemma UnfinishedStep(c: Config, s: State)
    requires Inv(c, s) && s.run.status in {Pending, Running}
    requires |s.steps| > 0 && !Terminal(s.steps[|s.steps| - 1].status)
    ensures s.steps[|s.steps| - 1].status in {Running, Retrying}
    ensures s.run.status == Running && s.run.retry.None?
    ensures s.steps[|s.steps| - 1].node in c.nodes
    ensures c.nodes[s.steps[|s.steps| - 1].node].kind.Work?
    ensures AttemptsOf(s.attempts, |s.steps| - 1) >= 1
  {
    hide Inv, StepsOk, AttemptsOk, ApprovalsOk, JobsOk, ShapeOk;
    StepAt(c, s, |s.steps| - 1);
    LiveFacts(c, s);
    if ExecutingShape(s) { AttemptAt(c, s, |s.attempts| - 1); }
  }

  lemma AttemptAt(c: Config, s: State, i: nat)
    requires Inv(c, s) && i < |s.attempts|
    ensures AttemptOk(c, s.run.deadline, s.steps, s.attempts[i])
    ensures s.attempts[i].number == AttemptsOf(s.attempts[..i], s.attempts[i].step) + 1
    ensures i < |s.attempts| - 1 ==> Terminal(s.attempts[i].status)
  {
    hide ConfigOk, JobsOk, StepsOk, ApprovalsOk, ShapeOk, AttemptOk;
  }

  lemma RetryStepsOk(c: Config, s: State, due: int)
    requires Inv(c, s) && s.run.status in {Pending, Running}
    ensures StepsOk(c, RetrySteps(s.steps, due))
    ensures KeepsDone(c, s.steps, RetrySteps(s.steps, due), None)
  {
    var steps := RetrySteps(s.steps, due);
    var last := |s.steps| - 1;
    hide Inv, ShapeOk, AttemptsOk, ApprovalsOk, JobsOk, StepsOk, StepOk;
    forall i | 0 <= i < |s.steps|
      ensures StepOk(c, s.steps[i]) && (i < last ==> Succeeded(s.steps[i].status))
    { StepAt(c, s, i); }
    if |s.steps| > 0 && !Terminal(s.steps[last].status) {
      UnfinishedStep(c, s);
      RetryStepOk(c, s.steps[last], steps[last]);
      assert steps == s.steps[last := steps[last]];
      InvTables(c, s);
      StepsSet(c, s.steps, last, steps[last]);
    } else {
      assert steps == s.steps;
      InvTables(c, s);
    }
  }

  lemma RetryStepOk(c: Config, step: Step, next: Step)
    requires StepOk(c, step) && step.node in c.nodes && c.nodes[step.node].kind.Work?
    requires next.nextAttemptAt.Some?
    requires next == step.(status := Retrying, nextAttemptAt := next.nextAttemptAt)
    ensures StepOk(c, next) && SameIdentity(step, next)
  { }

  lemma RequeueShape(c: Config, s: State, j: nat, due: int)
    requires Inv(c, s) && s.run.status in {Pending, Running} && j == |s.jobs| - 1
    requires |s.steps| > 0 && !Terminal(s.steps[|s.steps| - 1].status) ==>
               && s.steps[|s.steps| - 1].node in c.nodes
               && AttemptsOf(s.attempts, |s.steps| - 1)
                    < c.nodes[s.steps[|s.steps| - 1].node].retry.maxAttempts
    ensures ShapeOk(c, Requeue(s, j, due))
  {
    var t := Requeue(s, j, due);
    LiveFacts(c, s);
    if |s.steps| > 0 && !Terminal(s.steps[|s.steps| - 1].status) { UnfinishedStep(c, s); }
    StopAttemptsOk(c, s, s.steps, Failed, "worker_abandoned");
    hide Inv, StepsOk, AttemptsOk, ApprovalsOk, JobsOk;
    if s.run.status == Pending {
      assert t.steps == [] && t.attempts == [];
      assert PendingShape(t);
    } else {
      assert QueuedShape(c, t) by { hide ShapeOk; RequeueQueued(c, s, j, due); }
    }
  }

  lemma RequeueQueued(c: Config, s: State, j: nat, due: int)
    requires j == |s.jobs| - 1
    requires ExecutingShape(s) || QueuedShape(c, s)
    requires |s.steps| > 0 && !Terminal(s.steps[|s.steps| - 1].status) ==>
               && s.run.retry.None?
               && s.steps[|s.steps| - 1].node in c.nodes
               && 1 <= AttemptsOf(s.attempts, |s.steps| - 1)
                    < c.nodes[s.steps[|s.steps| - 1].node].retry.maxAttempts
    requires AttemptsDone(Requeue(s, j, due).attempts)
    requires forall st :: AttemptsOf(Requeue(s, j, due).attempts, st) == AttemptsOf(s.attempts, st)
    ensures QueuedShape(c, Requeue(s, j, due))
  { }

  lemma RequeueOk(c: Config, s: State, j: nat, due: int)
    requires Inv(c, s) && s.run.status in {Pending, Running}
    requires j == |s.jobs| - 1 && s.jobs[j].recoveries < c.maxRecoveries
    requires |s.steps| > 0 && !Terminal(s.steps[|s.steps| - 1].status) ==>
               && s.steps[|s.steps| - 1].node in c.nodes
               && AttemptsOf(s.attempts, |s.steps| - 1)
                    < c.nodes[s.steps[|s.steps| - 1].node].retry.maxAttempts
    ensures Inv(c, Requeue(s, j, due))
  {
    hide ShapeOk, StepsOk, AttemptsOk, ApprovalsOk, JobsOk;
    var t := Requeue(s, j, due);
    RequeueShape(c, s, j, due);
    RetryStepsOk(c, s, due);
    StopAttemptsOk(c, s, t.steps, Failed, "worker_abandoned");
    LiveFacts(c, s);
    JobAt(c, s, j);
    JobsUpdate(c, s.jobs, s.tokens, s.clock, j, t.jobs[j], s.tokens);
    ApprovalsKeep(c, s.run.deadline, s.steps, t.steps, s.approvals);
  }

  lemma AbandonOk(c: Config, s: State, j: nat, code: string)
    requires Inv(c, s) && s.run.status in {Pending, Running} && j == |s.jobs| - 1
    ensures Inv(c, Abandon(s, j, code))
  {
    hide ShapeOk, StepsOk, AttemptsOk, ApprovalsOk, JobsOk;
    var t := Abandon(s, j, code);
    var job := Closed(s.jobs[j], JobFailed, Some(code), s.clock);
    StopStepsOk(c, s, Failed, code);
    StopAttemptsOk(c, s, t.steps, Failed, "worker_abandoned");
    LiveFacts(c, s);
    JobAt(c, s, j);
    JobsUpdate(c, s.jobs, s.tokens, s.clock, j, job, s.tokens);
    JobsStop(c, s.jobs[j := job], s.tokens, s.clock, JobCancelled, Some(code), s.clock);
    ApprovalsKeep(c, s.run.deadline, s.steps, t.steps, s.approvals);
    StoppedOk(c, s, t);
  }

  lemma RecoverOk(c: Config, s: State, claim: Claim, delay: nat)
    requires Inv(c, s)
    ensures Inv(c, Recover(c, s, claim, delay))
  {
    hide Inv, ShapeOk, StepsOk, AttemptsOk, ApprovalsOk, JobsOk, Requeue, Abandon;
    if Owns(s, claim, true) && s.jobs[claim.job].lease.value <= s.clock {
      var j := claim.job;
      ActiveIsLast(c, s, j);
      var late := Reached(s.run.deadline, s.clock);
      if |s.steps| > 0 && !Terminal(s.steps[|s.steps| - 1].status) {
        UnfinishedStep(c, s);
        var d := RetryDecision(c.nodes[s.steps[|s.steps| - 1].node].retry,
                               AttemptsOf(s.attempts, |s.steps| - 1), "worker_abandoned",
                               s.clock, s.run.deadline, true, delay, None);
        if s.jobs[j].recoveries < c.maxRecoveries && !late && d.due.Some? {
          RequeueOk(c, s, j, d.due.value);
        } else {
          AbandonOk(c, s, j, if late || d.code == "run_deadline" then "run_deadline"
                             else "recovery_exhausted");
        }
      } else if s.jobs[j].recoveries < c.maxRecoveries && !late {
        RequeueOk(c, s, j, s.clock);
      } else {
        AbandonOk(c, s, j, if late then "run_deadline" else "recovery_exhausted");
      }
    }
  }
}
