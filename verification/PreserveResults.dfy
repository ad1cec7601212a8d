/** Committing a result, or a timeout in its place, keeps the invariant. */
module PreserveResults {
  import opened Records
  import opened Runtime
  import opened Invariant
  import opened Tables
  import opened Preserve

  /** The work of a dispatched job is the last attempt of the last step. */
  lemma ExecutingFacts(c: Config, s: State, j: nat, work: WorkItem)
    requires Inv(c, s) && j < |s.jobs| && Active(s.jobs[j].status) && Dispatched(s, j, work)
    ensures j == |s.jobs| - 1 && s.run.status == Running && ExecutingShape(s)
    ensures work.attempt == |s.attempts| - 1 && work.step == |s.steps| - 1
    ensures StepOk(c, s.steps[work.step]) && c.nodes[s.steps[work.step].node].kind.Work?
    ensures AttemptOk(c, s.run.deadline, s.steps, s.attempts[work.attempt])
  {
    hide Inv;
    ActiveIsLast(c, s, j);
    LiveFacts(c, s);
    StepAt(c, s, work.step);
    AttemptAt(c, s, work.attempt);
  }

  /** The settled rows of a step and its last attempt. */
  predicate Settled(c: Config, old_: Step, step: Step, attempt: Attempt, attempt': Attempt) {
    && StepOk(c, step) && SameIdentity(old_, step) && SameAttempt(attempt, attempt')
    && attempt'.status in {Completed, Failed}
  }

  lemma SettledTables(c: Config, s: State, step: Step, attempt: Attempt)
    requires Inv(c, s) && ExecutingShape(s) && s.run.status == Running
    requires Settled(c, s.steps[|s.steps| - 1], step, s.attempts[|s.attempts| - 1], attempt)
    ensures var steps := s.steps[|s.steps| - 1 := step];
      var attempts := s.attempts[|s.attempts| - 1 := attempt];
      && StepsOk(c, steps) && AttemptsOk(c, s.run.deadline, steps, attempts) && AttemptsDone(attempts)
      && ApprovalsOk(c, s.run.deadline, steps, s.approvals)
      && AttemptsOf(attempts, |s.steps| - 1) == attempt.number
  {
    hide Inv, JobsOk, ShapeOk, StepsOk, AttemptsOk, ApprovalsOk, StepOk;
    var steps := s.steps[|s.steps| - 1 := step];
    var attempts := s.attempts[|s.attempts| - 1 := attempt];
    InvTables(c, s);
    StepAt(c, s, |s.steps| - 1);
    WorkKind(c, s.steps[|s.steps| - 1]);
    StepsSet(c, s.steps, |s.steps| - 1, step);
    forall i | 0 <= i < |s.attempts| ensures attempts[i].status in {Completed, Failed, Cancelled} {
      AttemptAt(c, s, i);
    }
    AttemptsFinish(c, s.run.deadline, s.steps, steps, s.attempts, attempts);
    ApprovalsKeep(c, s.run.deadline, s.steps, steps, s.approvals);
  }

  lemma WorkKind(c: Config, step: Step)
    requires StepOk(c, step) && step.status == Running
    ensures step.node in c.nodes && c.nodes[step.node].kind.Work? && step.nextAttemptAt.None?
  { }

  /** The job of the settled attempt is closed. */
  lemma ClosedJobs(c: Config, s: State, j: nat, status: JobStatus, code: Option<string>)
    requires Inv(c, s) && j < |s.jobs| && Active(s.jobs[j].status) && !Active(status)
    ensures var jobs := s.jobs[j := Closed(s.jobs[j], status, code, s.clock)];
      && JobsOk(c, jobs, s.tokens, s.clock) && NoActiveJob(jobs)
      && s.jobs[j].sequence == |jobs| - 1
  {
    hide Inv, JobsOk, ShapeOk, StepsOk, AttemptsOk, ApprovalsOk;
    InvTables(c, s);
    ActiveIsLast(c, s, j);
    JobAt(c, s, j);
    JobsUpdate(c, s.jobs, s.tokens, s.clock, j, Closed(s.jobs[j], status, code, s.clock), s.tokens);
  }

  lemma NextQueued(c: Config, s: State, j: nat, status: JobStatus, code: Option<string>, due: int)
    requires Inv(c, s) && j < |s.jobs| && Active(s.jobs[j].status) && !Active(status)
    ensures JobsOk(c, s.jobs[j := Closed(s.jobs[j], status, code, s.clock)]
                        + [NewJob(s.jobs[j].sequence + 1, due, s.clock)], s.tokens, s.clock)
  {
    hide Inv, JobsOk;
    ClosedJobs(c, s, j, status, code);
    JobsAppend(c, s.jobs[j := Closed(s.jobs[j], status, code, s.clock)], s.tokens, s.clock, due);
  }

  lemma ContinueOk(c: Config, s: State, j: nat, work: WorkItem, step: Step, attempt: Attempt,
                   status: JobStatus, code: Option<string>)
    requires Inv(c, s) && j < |s.jobs| && Active(s.jobs[j].status) && Dispatched(s, j, work)
    requires !Active(status)
    requires Settled(c, s.steps[work.step], step, s.attempts[work.attempt], attempt)
    requires step.status == Completed
             || (step.status == Retrying
                 && attempt.number < c.nodes[step.node].retry.maxAttempts)
    ensures Inv(c, Settle(s, j, work, step, attempt, status, code))
  {
    hide Inv, JobsOk, ShapeOk, StepsOk, AttemptsOk, ApprovalsOk, StepOk, SameIdentity, ExecutingShape;
    var t := Settle(s, j, work, step, attempt, status, code);
    ExecutingFacts(c, s, j, work);
    SettledTables(c, s, step, attempt);
    var due := if step.nextAttemptAt.Some? then step.nextAttemptAt.value else s.clock;
    NextQueued(c, s, j, status, code, due);
    ContinueShape(c, s, j, work, step, attempt, status, code);
    assert Inv(c, t) by { InvTables(c, s); InvFrom(c, t); }
  }

  lemma ContinueShape(c: Config, s: State, j: nat, work: WorkItem, step: Step, attempt: Attempt,
                      status: JobStatus, code: Option<string>)
    requires Inv(c, s) && j < |s.jobs| && Active(s.jobs[j].status) && Dispatched(s, j, work)
    requires !Active(status)
    requires Settled(c, s.steps[work.step], step, s.attempts[work.attempt], attempt)
    requires step.status == Completed
             || (step.status == Retrying
                 && attempt.number < c.nodes[step.node].retry.maxAttempts)
    ensures ShapeOk(c, Settle(s, j, work, step, attempt, status, code))
  {
    hide Inv, ShapeOk, AttemptOk;
    var t := Settle(s, j, work, step, attempt, status, code);
    ExecutingFacts(c, s, j, work);
    AttemptAt(c, s, work.attempt);
    assert attempt.number >= 1 by { AttemptNumber(c, s, work.attempt); }
    forall i | 0 <= i < |t.attempts| ensures Terminal(t.attempts[i].status) { AttemptAt(c, s, i); }
    assert QueuedShape(c, t);
    hide QueuedShape, ExecutingShape;
    LiveFacts(c, s);
    ResumedShape(c, t);
  }

  lemma AttemptNumber(c: Config, s: State, i: nat)
    requires Inv(c, s) && i < |s.attempts|
    ensures s.attempts[i].number >= 1
  {
    hide Inv;
    AttemptAt(c, s, i);
  }

  lemma FailedOk(c: Config, s: State, j: nat, work: WorkItem, step: Step, attempt: Attempt, code: string)
    requires Inv(c, s) && j < |s.jobs| && Active(s.jobs[j].status) && Dispatched(s, j, work)
    requires Settled(c, s.steps[work.step], step, s.attempts[work.attempt], attempt)
    requires step.status == Failed
    ensures Inv(c, Settle(s, j, work, step, attempt, JobFailed, Some(code)))
  {
    hide Inv, JobsOk, ShapeOk, StepsOk, AttemptsOk, ApprovalsOk, StepOk, SameIdentity, ExecutingShape;
    var t := Settle(s, j, work, step, attempt, JobFailed, Some(code));
    ExecutingFacts(c, s, j, work);
    LiveFacts(c, s);
    SettledTables(c, s, step, attempt);
    ClosedJobs(c, s, j, JobFailed, Some(code));
    forall i | 0 <= i < |t.steps| ensures Terminal(t.steps[i].status) { StepAt(c, s, i); }
    StoppedOk(c, s, t);
  }

  lemma CommitWorkOk(c: Config, s: State, j: nat, work: WorkItem, result: Result, delay: nat)
    requires Inv(c, s) && j < |s.jobs| && Active(s.jobs[j].status) && Dispatched(s, j, work)
    ensures Inv(c, CommitWork(c, s, j, work, result, delay))
  {
    hide Inv, ExecutingShape, Settle, RetryDecision, Effective;
    ExecutingFacts(c, s, j, work);
    var step, attempt := s.steps[work.step], s.attempts[work.attempt];
    match Effective(s, work, result) {
      case Output(value) =>
        ContinueOk(c, s, j, work, step.(status := Completed, output := Some(value)),
                   attempt.(status := Completed, output := Some(value)), JobCompleted, None);
      case Error(code, notBefore) =>
        var d := RetryDecision(c.nodes[step.node].retry, attempt.number, code, s.clock,
                               s.run.deadline, false, delay, notBefore);
        var step' := step.(status := if d.due.Some? then Retrying else Failed,
                           error := Some(d.code), nextAttemptAt := d.due);
        var attempt' := attempt.(status := Failed, error := Some(code));
        if d.due.Some? {
          ContinueOk(c, s, j, work, step', attempt', JobFailed, Some(d.code));
        } else {
          FailedOk(c, s, j, work, step', attempt', d.code);
        }
    }
  }

  lemma CommitOk(c: Config, s: State, claim: Claim, work: WorkItem, result: Result, delay: nat)
    requires Inv(c, s)
    ensures Inv(c, Commit(c, s, claim, work, result, delay))
  {
    hide Inv, CommitWork;
    if Owns(s, claim, false) && Dispatched(s, claim.job, work) {
      CommitWorkOk(c, s, claim.job, work, result, delay);
    }
  }

  lemma WatchdogOk(c: Config, s: State, j: nat, delay: nat)
    requires Inv(c, s)
    ensures Inv(c, Watchdog(c, s, j, delay))
  {
    hide Inv, CommitWork, ExpireRun;
    if j < |s.jobs| && Active(s.jobs[j].status) && !Terminal(s.run.status) {
      if Reached(s.run.deadline, s.clock) {
        ExpireRunOk(c, s);
      } else if s.jobs[j].attempt.Some? && s.jobs[j].attempt.value < |s.attempts| {
        var a := s.jobs[j].attempt.value;
        var work := WorkItem(s.attempts[a].step, a, s.run.revision);
        if Dispatched(s, j, work) {
          CommitWorkOk(c, s, j, work, Error("attempt_timeout", None), delay);
        }
      }
    }
  }
}
