/** What each transaction but a dispatch leaves in the rows, field by field.

    The statements name neither the transactions of `Runtime` nor the decisions inside them:
    they give the condition on the rows, on the clock and on the request under which a
    transaction takes effect, and then every field that it changes. */
module Outcomes {
  import opened Records
  import opened Runtime
  import opened Invariant
  import opened Tables
  import opened Preserve
  import opened PreserveResults
  import opened PreserveApprovals
  import opened PreserveDispatch
  import opened History
  import opened Theorems
  import opened Ledger
  import opened StoreFacts
  import Fencing

  // ---------- words ----------

  predicate Ahead(deadline: Option<int>, t: int) {
    deadline.Some? ==> t < deadline.value
  }

  /** The state in which the transaction of a tick acts. */
  function Then(s: State, tick: Tick): State {
    s.(clock := s.clock + tick.after)
  }

  /** The claim's token is current and its job is with the worker. */
  predicate HoldsJob(s: State, claim: Claim) {
    && claim.job < |s.jobs|
    && s.jobs[claim.job].token == Some(claim.token)
    && s.jobs[claim.job].status == JobRunning
    && s.jobs[claim.job].lease.Some?
  }

  predicate LeaseLeft(s: State, claim: Claim)
    requires HoldsJob(s, claim)
  {
    s.clock < s.jobs[claim.job].lease.value
  }

  predicate HasOpenStep(s: State) {
    |s.steps| > 0 && !Terminal(s.steps[|s.steps| - 1].status)
  }

  /** How often the last step has been tried. */
  function Tries(s: State): nat
    requires |s.steps| > 0
  {
    Count(s.attempts, |s.steps| - 1)
  }

  function PolicyOf(c: Config, s: State): RetryPolicy
    requires |s.steps| > 0 && s.steps[|s.steps| - 1].node in c.nodes
  {
    c.nodes[s.steps[|s.steps| - 1].node].retry
  }

  /** A job that waits in the queue, as the next one of its run. */
  function QueuedJob(sequence: nat, due: int, now: int): Job {
    Job(sequence, Target(None, 0, "main"), now, JobQueued, None, None, None, due, None, 0, None, None)
  }

  lemma ThenOk(c: Config, s: State, tick: Tick)
    requires ConfigOk(c) && Reachable(c, s)
    ensures Inv(c, Then(s, tick))
  {
    hide Inv, Reachable;
    ReachableOk(c, s);
    TimeOk(c, s, tick.after);
  }

  /** An accepted start: nothing has happened, and the first checkpoint is due at once. */
  lemma AcceptedStart(deadline: Option<int>, now: int)
    ensures Start(deadline, now)
         == State(Run(Pending, 0, false, deadline, None, None, None), [], [], [QueuedJob(0, now, now)], [], now, 0)
  { }

  // ---------- claims and leases ----------

  /** A claim takes a due job of the queue under a token that was never issued before, for
      the pinned lease; nothing else in the run changes, and without a due job nothing. */
  lemma ClaimTakes(c: Config, s: State, tick: Tick, j: nat)
    requires ConfigOk(c) && Reachable(c, s) && tick.event == DoClaim(j)
    ensures var now := Then(s, tick);
      Apply(c, s, tick) ==
        if j < |now.jobs| && now.jobs[j].status == JobQueued && now.jobs[j].dueAt <= now.clock
        then now.(jobs := now.jobs[j := now.jobs[j].(status := JobRunning, token := Some(s.tokens),
                                                     lease := Some(now.clock + c.leaseSeconds))],
                  tokens := s.tokens + 1)
        else now
    ensures forall i :: 0 <= i < |s.jobs| ==> s.jobs[i].token != Some(s.tokens)
  {
    hide Inv, Reachable;
    ThenOk(c, s, tick);
    var now := Then(s, tick);
    if j < |now.jobs| && now.jobs[j].status == JobQueued { ActiveIsLast(c, now, j); }
    forall i | 0 <= i < |s.jobs| ensures s.jobs[i].token != Some(s.tokens) { JobAt(c, now, i); }
  }

  /** A renewal moves the end of the lease to the pinned time from now exactly when the token
      is current and the lease has not run out; else it changes nothing. */
  lemma RenewalExtends(c: Config, s: State, tick: Tick, claim: Claim)
    requires tick.event == DoRenew(claim)
    ensures var now := Then(s, tick);
      Apply(c, s, tick) ==
        if HoldsJob(now, claim) && LeaseLeft(now, claim)
        then now.(jobs := now.jobs[claim.job := now.jobs[claim.job].(lease := Some(now.clock + c.leaseSeconds))])
        else now
  { }

  // ---------- recovery ----------

  /** The job is back in the queue without its owner, the open step retries at `due`, and its
      running attempt is given up; the run goes on. */
  predicate PutBack(s: State, t: State, j: nat, due: int) {
    && j < |s.jobs|
    && t.jobs == s.jobs[j := s.jobs[j].(status := JobQueued, token := None, attempt := None,
                                        dispatchedAt := None, lease := None,
                                        recoveries := s.jobs[j].recoveries + 1, dueAt := due)]
    && t.run == s.run.(revision := s.run.revision + 1)
    && |t.steps| == |s.steps|
    && (forall i :: 0 <= i < |s.steps| ==>
          t.steps[i] == if Terminal(s.steps[i].status) then s.steps[i]
                        else s.steps[i].(status := Retrying, nextAttemptAt := Some(due)))
    && Abandoned(s, t)
    && t.approvals == s.approvals && t.clock == s.clock && t.tokens == s.tokens
  }

  predicate Abandoned(s: State, t: State) {
    && |t.attempts| == |s.attempts|
    && (forall a :: 0 <= a < |s.attempts| ==>
          t.attempts[a] == if Terminal(s.attempts[a].status) then s.attempts[a]
                           else s.attempts[a].(status := Failed, error := Some("worker_abandoned")))
  }

  /** The run, its open step and the job fail with `code`, the running attempt is given up. */
  predicate GivenUp(s: State, t: State, j: nat, code: string) {
    && j < |s.jobs|
    && t.jobs == s.jobs[j := s.jobs[j].(status := JobFailed, completedAt := Some(s.clock), error := Some(code))]
    && t.run == s.run.(status := Failed, error := Some(code), revision := s.run.revision + 1)
    && |t.steps| == |s.steps|
    && (forall i :: 0 <= i < |s.steps| ==>
          t.steps[i] == if Terminal(s.steps[i].status) then s.steps[i]
                        else s.steps[i].(status := Failed, nextAttemptAt := None, error := Some(code)))
    && Abandoned(s, t)
    && t.approvals == s.approvals && t.clock == s.clock && t.tokens == s.tokens
  }

  lemma JobsAreSettled(c: Config, s: State)
    requires Inv(c, s)
    ensures forall i :: 0 <= i < |s.jobs| - 1 ==> !Active(s.jobs[i].status)
  {
    hide ConfigOk, StepsOk, AttemptsOk, ApprovalsOk, ShapeOk, JobOk;
  }

  lemma RequeueIs(s: State, j: nat, due: int)
    requires j < |s.jobs|
    ensures PutBack(s, Requeue(s, j, due), j, due)
  { }

  lemma AbandonIs(s: State, j: nat, code: string)
    requires j == |s.jobs| - 1 && forall i :: 0 <= i < j ==> !Active(s.jobs[i].status)
    ensures GivenUp(s, Abandon(s, j, code), j, code)
  { }

  /** A lost worker's step may try again while attempts and time are left. */
  lemma LostWorkerDecision(policy: RetryPolicy, tries: nat, now: int, deadline: Option<int>, delay: nat)
    ensures var d := RetryDecision(policy, tries, "worker_abandoned", now, deadline, true, delay, None);
      && d.due == (if tries < policy.maxAttempts && Ahead(deadline, now + delay) then Some(now + delay) else None)
      && (d.code == "run_deadline" <==>
            !Ahead(deadline, now) || (tries < policy.maxAttempts && !Ahead(deadline, now + delay)))
  { }

  /** Recovery of a claim whose lease has run out, in a run that is not over: the job comes
      back if and only if it has recoveries left, the run's deadline is ahead, and an open
      step has attempts left and would retry before the deadline.  Otherwise the run fails,
      as late when the deadline is what forbids it and as exhausted when a budget is. */
  lemma RecoveryOutcome(c: Config, s: State, tick: Tick, claim: Claim, delay: nat)
    requires ConfigOk(c) && Reachable(c, s) && tick.event == DoRecover(claim, delay)
    requires HoldsJob(s, claim) && s.jobs[claim.job].sequence == claim.sequence && !LeaseLeft(Then(s, tick), claim)
    ensures !Terminal(s.run.status) && (HasOpenStep(s) ==> s.steps[|s.steps| - 1].node in c.nodes)
    ensures var now, t, j := Then(s, tick), Apply(c, s, tick), claim.job;
      var left := HasOpenStep(s) ==> Tries(s) < PolicyOf(c, s).maxAttempts;
      var due := if HasOpenStep(s) then now.clock + delay else now.clock;
      if s.jobs[j].recoveries < c.maxRecoveries && left && Ahead(s.run.deadline, due)
      then PutBack(now, t, j, due)
      else GivenUp(now, t, j, if !Ahead(s.run.deadline, now.clock) || (left && !Ahead(s.run.deadline, due))
                              then "run_deadline" else "recovery_exhausted")
  {
    hide Inv, Reachable, Requeue, Abandon, RetryDecision, PutBack, GivenUp;
    ThenOk(c, s, tick);
    var now, j := Then(s, tick), claim.job;
    ActiveIsLast(c, now, j);
    JobsAreSettled(c, now);
    if HasOpenStep(now) {
      UnfinishedStep(c, now);
      CountOfLast(c, now);
      LostWorkerDecision(PolicyOf(c, now), Tries(now), now.clock, now.run.deadline, delay);
      RequeueIs(now, j, now.clock + delay);
    } else {
      RequeueIs(now, j, now.clock);
    }
    AbandonIs(now, j, "run_deadline");
    AbandonIs(now, j, "recovery_exhausted");
  }

  /** Without a lapsed claim that the job carries, recovery changes nothing. */
  lemma NothingToRecover(c: Config, s: State, tick: Tick, claim: Claim, delay: nat)
    requires tick.event == DoRecover(claim, delay)
    requires HoldsJob(s, claim) ==> s.jobs[claim.job].sequence != claim.sequence || LeaseLeft(Then(s, tick), claim)
    ensures Apply(c, s, tick) == Then(s, tick)
  {
    hide RetryDecision, Requeue, Abandon;
  }

  // ---------- results ----------

  /** The worker of job `j` executes the last attempt, which is of the last step. */
  predicate Executes(s: State, j: nat) {
    && |s.steps| > 0 && |s.attempts| > 0 && j == |s.jobs| - 1
    && s.jobs[j].status == JobRunning && s.jobs[j].attempt == Some(|s.attempts| - 1)
    && s.attempts[|s.attempts| - 1].step == |s.steps| - 1
    && s.attempts[|s.attempts| - 1].status == Running
    && s.steps[|s.steps| - 1].status == Running && s.run.status == Running
  }

  /** The last step and its attempt have these values, the job is closed, and nothing else
      but the run and the jobs after it changed. */
  predicate Recorded(s: State, t: State, j: nat, step: Step, attempt: Attempt, job: Job) {
    && |s.steps| > 0 && |s.attempts| > 0 && j < |s.jobs| <= |t.jobs|
    && t.steps == s.steps[|s.steps| - 1 := step]
    && t.attempts == s.attempts[|s.attempts| - 1 := attempt]
    && t.jobs[..|s.jobs|] == s.jobs[j := job]
    && t.approvals == s.approvals && t.clock == s.clock && t.tokens == s.tokens
  }

  function ClosedJob(s: State, j: nat, status: JobStatus, code: Option<string>): Job
    requires j < |s.jobs|
  {
    s.jobs[j].(status := status, completedAt := Some(s.clock), error := code)
  }

  /** The run goes on: its next job is queued for `due`. */
  predicate GoesOn(s: State, t: State, due: int) {
    && |t.jobs| == |s.jobs| + 1
    && t.jobs[|s.jobs|] == QueuedJob(|s.jobs|, due, s.clock)
    && t.run == s.run.(revision := s.run.revision + 1)
  }

  predicate RunFails(s: State, t: State, code: string) {
    && |t.jobs| == |s.jobs|
    && t.run == s.run.(status := Failed, error := Some(code), revision := s.run.revision + 1)
  }

  /** The result is stored on step and attempt, and the next checkpoint is due now. */
  predicate WorkSucceeds(s: State, t: State, j: nat, value: Json) {
    && Executes(s, j)
    && Recorded(s, t, j, s.steps[|s.steps| - 1].(status := Completed, output := Some(value)),
                s.attempts[|s.attempts| - 1].(status := Completed, output := Some(value)),
                ClosedJob(s, j, JobCompleted, None))
    && GoesOn(s, t, s.clock)
  }

  function Later(a: int, b: Option<int>): int {
    if b.Some? && b.value > a then b.value else a
  }

  /** The attempt failed with `code`.  The step retries if and only if the error is listed
      and not permanent, attempts are left, and the backoff and the requested pause end
      before the run's deadline; else step and run fail, and the error says why. */
  predicate WorkFails(c: Config, s: State, t: State, j: nat, code: string, notBefore: Option<int>, delay: nat) {
    && Executes(s, j) && s.steps[|s.steps| - 1].node in c.nodes
    && var step, attempt := s.steps[|s.steps| - 1], s.attempts[|s.attempts| - 1];
    && var policy := PolicyOf(c, s);
    && var due := Later(s.clock + delay, notBefore);
    && var listed := code !in Permanent && code in policy.retryable;
    && var left := Tries(s) < policy.maxAttempts;
    && var failed := attempt.(status := Failed, error := Some(code));
       if listed && left && Ahead(s.run.deadline, due) then
         && Recorded(s, t, j, step.(status := Retrying, error := Some(code), nextAttemptAt := Some(due)),
                     failed, ClosedJob(s, j, JobFailed, Some(code)))
         && GoesOn(s, t, due)
       else
         var why := if !listed then code else if !left then "retry_exhausted" else "run_deadline";
         && Recorded(s, t, j, step.(status := Failed, error := Some(why), nextAttemptAt := None),
                     failed, ClosedJob(s, j, JobFailed, Some(why)))
         && RunFails(s, t, why)
  }

  lemma FailureDecision(policy: RetryPolicy, tries: nat, code: string, now: int, deadline: Option<int>,
                        delay: nat, notBefore: Option<int>)
    requires Ahead(deadline, now) || code == "run_deadline"
    ensures var d := RetryDecision(policy, tries, code, now, deadline, false, delay, notBefore);
      var due := Later(now + delay, notBefore);
      var listed := code !in Permanent && code in policy.retryable;
      && d.due == (if listed && tries < policy.maxAttempts && Ahead(deadline, due) then Some(due) else None)
      && d.code == if d.due.Some? || !listed then code
                   else if tries >= policy.maxAttempts then "retry_exhausted" else "run_deadline"
  { }

  /** What is recorded of an attempt whose worker still owns it: an overdue run and then an
      overdue attempt override the result that arrived. */
  predicate ResultRecorded(c: Config, s: State, t: State, j: nat, result: Result, delay: nat) {
    && Executes(s, j)
    && if !Ahead(s.run.deadline, s.clock) then WorkFails(c, s, t, j, "run_deadline", None, delay)
       else if s.attempts[|s.attempts| - 1].deadline <= s.clock then
         WorkFails(c, s, t, j, "attempt_timeout", None, delay)
       else match result
         case Output(value) => WorkSucceeds(s, t, j, value)
         case Error(code, notBefore) => WorkFails(c, s, t, j, code, notBefore, delay)
  }

  lemma SettleGoesOn(s: State, j: nat, work: WorkItem, step: Step, attempt: Attempt, status: JobStatus,
                     code: Option<string>)
    requires Executes(s, j) && Dispatched(s, j, work) && s.jobs[j].sequence == j
    requires work.step == |s.steps| - 1 && work.attempt == |s.attempts| - 1 && step.status != Failed
    ensures var t := Settle(s, j, work, step, attempt, status, code);
      && Recorded(s, t, j, step, attempt, ClosedJob(s, j, status, code))
      && GoesOn(s, t, if step.nextAttemptAt.Some? then step.nextAttemptAt.value else s.clock)
  { }

  lemma SettleEnds(s: State, j: nat, work: WorkItem, step: Step, attempt: Attempt, code: string)
    requires Executes(s, j) && Dispatched(s, j, work)
    requires work.step == |s.steps| - 1 && work.attempt == |s.attempts| - 1 && step.status == Failed
    ensures var t := Settle(s, j, work, step, attempt, JobFailed, Some(code));
      && Recorded(s, t, j, step, attempt, ClosedJob(s, j, JobFailed, Some(code)))
      && RunFails(s, t, code)
  { }

  lemma CommitSucceeds(c: Config, s: State, j: nat, work: WorkItem, result: Result, delay: nat)
    requires Inv(c, s) && j < |s.jobs| && s.jobs[j].status == JobRunning && Dispatched(s, j, work)
    requires Effective(s, work, result).Output?
    ensures WorkSucceeds(s, CommitWork(c, s, j, work, result, delay), j, Effective(s, work, result).value)
  {
    hide Inv, Settle, Recorded, GoesOn, Effective;
    ExecutingFacts(c, s, j, work);
    JobAt(c, s, j);
    RunningNotDue(c, s);
    var step, attempt := s.steps[work.step], s.attempts[work.attempt];
    var value := Effective(s, work, result).value;
    SettleGoesOn(s, j, work, step.(status := Completed, output := Some(value)),
                 attempt.(status := Completed, output := Some(value)), JobCompleted, None);
  }

  lemma RunningNotDue(c: Config, s: State)
    requires Inv(c, s) && |s.steps| > 0 && s.steps[|s.steps| - 1].status == Running
    ensures s.steps[|s.steps| - 1].nextAttemptAt.None?
  {
    hide Inv;
    StepAt(c, s, |s.steps| - 1);
  }

  lemma CommitFails(c: Config, s: State, j: nat, work: WorkItem, result: Result, delay: nat)
    requires Inv(c, s) && j < |s.jobs| && s.jobs[j].status == JobRunning && Dispatched(s, j, work)
    requires Effective(s, work, result).Error?
    requires Ahead(s.run.deadline, s.clock) || Effective(s, work, result).code == "run_deadline"
    ensures var e := Effective(s, work, result);
      WorkFails(c, s, CommitWork(c, s, j, work, result, delay), j, e.code, e.notBefore, delay)
  {
    hide Inv, Settle, Recorded, GoesOn, RunFails, Effective, RetryDecision, Permanent;
    ExecutingFacts(c, s, j, work);
    JobAt(c, s, j);
    CountOfLast(c, s);
    var step, attempt := s.steps[work.step], s.attempts[work.attempt];
    var e := Effective(s, work, result);
    var policy := PolicyOf(c, s);
    FailureDecision(policy, Tries(s), e.code, s.clock, s.run.deadline, delay, e.notBefore);
    var d := RetryDecision(policy, attempt.number, e.code, s.clock, s.run.deadline, false, delay, e.notBefore);
    var failed := attempt.(status := Failed, error := Some(e.code));
    var settled := step.(status := if d.due.Some? then Retrying else Failed, error := Some(d.code),
                         nextAttemptAt := d.due);
    if d.due.Some? {
      SettleGoesOn(s, j, work, settled, failed, JobFailed, Some(d.code));
    } else {
      SettleEnds(s, j, work, settled, failed, d.code);
    }
  }

  lemma CommitWorkRecords(c: Config, s: State, j: nat, work: WorkItem, result: Result, delay: nat)
    requires Inv(c, s) && j < |s.jobs| && s.jobs[j].status == JobRunning && Dispatched(s, j, work)
    ensures ResultRecorded(c, s, CommitWork(c, s, j, work, result, delay), j, result, delay)
  {
    hide Inv, CommitWork, WorkSucceeds, WorkFails;
    ExecutingFacts(c, s, j, work);
    if Effective(s, work, result).Output? {
      CommitSucceeds(c, s, j, work, result, delay);
    } else {
      CommitFails(c, s, j, work, result, delay);
    }
  }

  /** The worker brings back what it was given for this job: its claim is current and its
      lease runs, and neither the run nor the binding of the attempt changed meanwhile. */
  predicate Delivers(s: State, claim: Claim, work: WorkItem) {
    && HoldsJob(s, claim) && LeaseLeft(s, claim) && s.jobs[claim.job].sequence == claim.sequence
    && s.run.revision == work.revision
    && s.jobs[claim.job].attempt == Some(work.attempt)
    && work.attempt < |s.attempts| && s.attempts[work.attempt].step == work.step
  }

  /** A commit that is delivered in order records its result; any other changes nothing. */
  lemma CommitOutcome(c: Config, s: State, tick: Tick, claim: Claim, work: WorkItem, result: Result, delay: nat)
    requires ConfigOk(c) && Reachable(c, s) && tick.event == DoCommit(claim, work, result, delay)
    ensures var now, t := Then(s, tick), Apply(c, s, tick);
      if Delivers(now, claim, work) then ResultRecorded(c, now, t, claim.job, result, delay) else t == now
  {
    hide Inv, Reachable, CommitWork, ResultRecorded;
    ThenOk(c, s, tick);
    var now := Then(s, tick);
    if Delivers(now, claim, work) {
      BoundIsExecuting(c, now, claim.job, work);
      CommitWorkRecords(c, now, claim.job, work, result, delay);
    }
  }

  /** A running job with an attempt is the one that executes. */
  lemma BoundIsExecuting(c: Config, s: State, j: nat, work: WorkItem)
    requires Inv(c, s) && j < |s.jobs| && s.jobs[j].status == JobRunning && s.jobs[j].attempt == Some(work.attempt)
    requires work.attempt < |s.attempts| && s.attempts[work.attempt].step == work.step
    ensures Dispatched(s, j, work)
  {
    hide Inv;
    ActiveIsLast(c, s, j);
    LiveFacts(c, s);
    JobAt(c, s, j);
    AttemptAt(c, s, work.attempt);
  }

  // ---------- the watchdog ----------

  /** Every open record of the run fails for its deadline, and pending reviews expire. */
  predicate RunExpires(s: State, t: State) {
    && t.run == s.run.(status := Failed, error := Some("run_deadline"), revision := s.run.revision + 1)
    && |t.jobs| == |s.jobs| && |t.steps| == |s.steps| && |t.attempts| == |s.attempts|
    && |t.approvals| == |s.approvals| && t.clock == s.clock && t.tokens == s.tokens
    && (forall j :: 0 <= j < |s.jobs| ==>
          t.jobs[j] == if Active(s.jobs[j].status) then ClosedJob(s, j, JobFailed, Some("run_deadline"))
                       else s.jobs[j])
    && (forall i :: 0 <= i < |s.steps| ==>
          t.steps[i] == if Terminal(s.steps[i].status) then s.steps[i]
                        else s.steps[i].(status := Failed, nextAttemptAt := None, error := Some("run_deadline")))
    && (forall a :: 0 <= a < |s.attempts| ==>
          t.attempts[a] == if Terminal(s.attempts[a].status) then s.attempts[a]
                           else s.attempts[a].(status := Failed, error := Some("run_deadline")))
    && (forall a :: 0 <= a < |s.approvals| ==>
          t.approvals[a] == if s.approvals[a].status == AwaitingDecision
                            then s.approvals[a].(status := ApprovalExpired, resolvedAt := Some(s.clock))
                            else s.approvals[a])
  }

  lemma ExpireRunIs(s: State)
    ensures RunExpires(s, ExpireRun(s))
  { }

  /** The watchdog of an active job ends an overdue run, records a timeout for an overdue
      attempt, under a lapsed lease as well, and does nothing else. */
  lemma WatchdogOutcome(c: Config, s: State, tick: Tick, j: nat, delay: nat)
    requires ConfigOk(c) && Reachable(c, s) && tick.event == DoWatchdog(j, delay)
    ensures var now, t := Then(s, tick), Apply(c, s, tick);
      if j >= |now.jobs| || !Active(now.jobs[j].status) then t == now
      else if !Ahead(now.run.deadline, now.clock) then RunExpires(now, t)
      else if Executes(now, j) && now.attempts[|now.attempts| - 1].deadline <= now.clock then
        WorkFails(c, now, t, j, "attempt_timeout", None, delay)
      else t == now
  {
    hide Inv, Reachable, CommitWork, WorkFails, RunExpires, ExpireRun;
    ThenOk(c, s, tick);
    var now := Then(s, tick);
    if j < |now.jobs| && Active(now.jobs[j].status) {
      ExpireRunIs(now);
      ActiveIsLast(c, now, j);
      LiveFacts(c, now);
      JobAt(c, now, j);
      if now.jobs[j].attempt.Some? && now.jobs[j].attempt.value < |now.attempts| {
        var a := now.jobs[j].attempt.value;
        var work := WorkItem(now.attempts[a].step, a, now.run.revision);
        if now.jobs[j].status == JobRunning {
          BoundIsExecuting(c, now, j, work);
          ExecutingFacts(c, now, j, work);
          if Ahead(now.run.deadline, now.clock) {
            CommitWorkRecords(c, now, j, work, Error("attempt_timeout", None), delay);
          }
        }
      }
    }
  }

  // ---------- timers ----------

  /** The waiting step completes with this output, the run goes on, and its next checkpoint
      is due now. */
  predicate WaitOver(s: State, t: State, output: Option<Json>) {
    && |s.steps| > 0
    && t.steps == s.steps[|s.steps| - 1 := s.steps[|s.steps| - 1].(status := Completed, output := output)]
    && t.attempts == s.attempts
    && t.jobs == s.jobs + [QueuedJob(|s.jobs|, s.clock, s.clock)]
    && t.run == s.run.(status := Running, revision := s.run.revision + 1, retry := t.run.retry)
    && t.clock == s.clock && t.tokens == s.tokens
  }

  /** A delay ends when its time has come: its run expires when that is late, and else the
      delay completes with an empty object and the run goes on; before, nothing happens. */
  lemma TimerOutcome(c: Config, s: State, tick: Tick, st: nat)
    requires ConfigOk(c) && Reachable(c, s) && tick.event == DoWake(st)
    ensures var now, t := Then(s, tick), Apply(c, s, tick);
      if st >= |s.steps| || s.steps[st].status != Waiting || s.steps[st].waiting != ForDelay then t == now
      else if !Ahead(now.run.deadline, now.clock) then RunExpires(now, t)
      else
        && st == |s.steps| - 1 && s.steps[st].wakeAt.Some?
        && if now.clock < s.steps[st].wakeAt.value then t == now
           else WaitOver(now, t, Some("{}")) && t.run.retry == s.run.retry && t.approvals == s.approvals
  {
    hide Inv, Reachable, ExpireRun, RunExpires, StepOk, NextSequence;
    ThenOk(c, s, tick);
    var now := Then(s, tick);
    if st < |s.steps| && s.steps[st].status == Waiting && s.steps[st].waiting == ForDelay {
      ExpireRunIs(now);
      WaitingFacts(c, now, st);
      WaitingReason(c, now.steps[st]);
      Fencing.NextIs(c, now);
    }
  }

  // ---------- reviews ----------

  /** Snapshot `a` is pending, and its gate is the step that waits. */
  predicate Reviewable(c: Config, s: State, a: nat) {
    && a < |s.approvals| && s.approvals[a].status == AwaitingDecision
    && a == |s.approvals| - 1 && |s.steps| > 0 && s.approvals[a].step == |s.steps| - 1
    && s.steps[|s.steps| - 1].node in c.nodes && c.nodes[s.steps[|s.steps| - 1].node].kind.Approval?
  }

  function GateOf(c: Config, s: State, a: nat): Gate
    requires Reviewable(c, s, a)
  {
    c.nodes[s.steps[|s.steps| - 1].node].kind.gate
  }

  /** Neither the run nor the review is late. */
  predicate InReview(s: State, item: Snapshot) {
    Ahead(s.run.deadline, s.clock) && Ahead(item.expiresAt, s.clock)
  }

  /** The snapshot is resolved in this way by `who`, who sent `request`. */
  function ResolvedBy(s: State, item: Snapshot, status: ApprovalStatus, who: Reviewer, request: Request): Snapshot {
    item.(status := status, resolvedAt := Some(s.clock), decidedBy := Some(who.user), request := Some(request),
          feedback := if request.feedback.Some? then request.feedback else item.feedback)
  }

  /** The wait ends without an output, and the run with it. */
  predicate WaitEnds(s: State, t: State, a: nat, item: Snapshot, status: Status, code: string) {
    && a < |s.approvals| && |s.steps| > 0
    && t.approvals == s.approvals[a := item]
    && t.steps == s.steps[|s.steps| - 1 := s.steps[|s.steps| - 1].(status := status, error := Some(code))]
    && t.run == s.run.(status := status, error := Some(code), revision := s.run.revision + 1)
    && t.attempts == s.attempts && t.jobs == s.jobs && t.clock == s.clock && t.tokens == s.tokens
  }

  /** A review that is late: the run expires with its deadline, or the wait ends as the gate
      says. */
  predicate ReviewExpires(c: Config, s: State, t: State, a: nat) {
    && Reviewable(c, s, a)
    && if !Ahead(s.run.deadline, s.clock) then RunExpires(s, t)
       else WaitEnds(s, t, a, s.approvals[a].(status := ApprovalExpired, resolvedAt := Some(s.clock)),
                     if GateOf(c, s, a).timeoutRejects then Cancelled else Failed, "approval_expired")
  }

  /** A snapshot of `payload` for the waiting step, after snapshot `a` of it. */
  function NextShown(s: State, a: nat, payload: Json, feedback: Option<string>): Snapshot
    requires a < |s.approvals| && |s.steps| > 0
    requires s.steps[|s.steps| - 1].input.Some? && s.steps[|s.steps| - 1].input.value.review.Some?
  {
    var st := |s.steps| - 1;
    var step, item := s.steps[st], s.approvals[a];
    var source := Source(st, step.node, step.iteration, step.input);
    var review := step.input.value.review.value;
    Snapshot(st, step.node, step.iteration, item.revision + 1, AwaitingDecision, source,
             PayloadDigest(source, payload, review, item.revision + 1), payload, review, feedback,
             item.expiresAt, None, None, None, None)
  }

  /** Snapshot `a` gives way to a snapshot of the next revision that shows `candidate` as the
      gate's validation leaves it; only the run's revision changes besides. */
  predicate GivesWay(s: State, t: State, a: nat, item: Snapshot, gate: Gate, candidate: Option<Json>,
                     feedback: Option<string>) {
    && a < |s.approvals| && |s.steps| > 0
    && var step := s.steps[|s.steps| - 1];
    && step.input.Some? && step.input.value.review.Some? && candidate.Some?
    && gate.validate(candidate.value).Some?
    && t == s.(approvals := s.approvals[a := item]
                            + [NextShown(s, a, gate.validate(candidate.value).value, feedback)],
               run := s.run.(revision := s.run.revision + 1))
  }

  predicate Showable(s: State, gate: Gate, candidate: Option<Json>) {
    candidate.Some? && CanShow(s, gate, candidate.value)
  }

  /** The input that was shown changed: the snapshot is closed, and the current input is
      shown, or the run fails when it cannot be. */
  predicate ShownAnew(c: Config, s: State, t: State, a: nat) {
    && Reviewable(c, s, a)
    && var gate := GateOf(c, s, a);
    && var stale := s.approvals[a].(status := Invalidated, resolvedAt := Some(s.clock));
    && var step := s.steps[|s.steps| - 1];
    && var payload := if step.input.Some? then step.input.value.payload else None;
       if Showable(s, gate, payload) then GivesWay(s, t, a, stale, gate, payload, None)
       else WaitEnds(s, t, a, stale, Failed, "approval_input_invalid")
  }

  /** What a decision in time on the current input does: an approval needs the override right
      when the review is severe, a retry needs a round left, an edit a payload that the gate
      accepts; without that nothing happens. */
  predicate Decides(c: Config, s: State, t: State, a: nat, who: Reviewer, request: Request) {
    && Reviewable(c, s, a)
    && var item, step, gate := s.approvals[a], s.steps[|s.steps| - 1], GateOf(c, s, a);
       match request.action
       case Approve =>
         if item.review.severe && !who.mayOverride then t == s
         else
           && WaitOver(s, t, Some(item.payload)) && t.run.retry == s.run.retry
           && t.approvals == s.approvals[a := ResolvedBy(s, item, Approved, who, request)]
       case Reject =>
         WaitEnds(s, t, a, ResolvedBy(s, item, Rejected, who, request), Cancelled, "approval_rejected")
       case RequestRetry =>
         if step.iteration >= gate.maxReviewRetries then t == s
         else
           && WaitOver(s, t, None)
           && t.run.retry == Some(Retry(step.node, step.iteration + 1, item.payload, request.feedback))
           && t.approvals == s.approvals[a := ResolvedBy(s, item, RetryRequested, who, request)]
       case Edit(payload) =>
         if !Showable(s, gate, Some(payload)) then t == s
         else GivesWay(s, t, a,
                       ResolvedBy(s, item, Superseded, who, request).(replacement := Some(|s.approvals|)),
                       gate, Some(payload), request.feedback)
  }

  /** What a pending snapshot implies of the other rows. */
  lemma ReviewFacts(c: Config, s: State, a: nat)
    requires Inv(c, s) && a < |s.approvals| && s.approvals[a].status == AwaitingDecision
    ensures Reviewable(c, s, a) && Gated(c, s, a)
    ensures var item, step := s.approvals[a], s.steps[|s.steps| - 1];
      && item.node == step.node && item.source == Source(item.step, step.node, step.iteration, item.source.input)
      && step.status == Waiting
    ensures s.run.status == Waiting && s.run.retry.None? && !s.run.cancelRequested
    ensures (forall j :: 0 <= j < |s.jobs| ==> !Active(s.jobs[j].status)) && NextSequence(s.jobs) == |s.jobs|
  {
    hide Inv, StepOk, DecisionOk, NextSequence;
    PendingFacts(c, s, a);
    WaitingFacts(c, s, |s.steps| - 1);
    Fencing.NextIs(c, s);
  }

  lemma ExpiryIs(c: Config, s: State, a: nat)
    requires Reviewable(c, s, a) && !InReview(s, s.approvals[a])
    ensures ReviewExpires(c, s, Expire(s, a, GateOf(c, s, a)), a)
  {
    hide ExpireRun, RunExpires;
    ExpireRunIs(s);
  }

  lemma StaleIs(c: Config, s: State, a: nat)
    requires Reviewable(c, s, a)
    ensures ShownAnew(c, s, Invalidate(s, a, GateOf(c, s, a)), a)
  { }

  lemma EditIs(c: Config, s: State, a: nat, who: Reviewer, request: Request)
    requires Reviewable(c, s, a) && request.action.Edit?
    ensures Decides(c, s, Replace(s, a, GateOf(c, s, a), who, request, request.action.payload), a, who, request)
  { }

  lemma ResumeIs(s: State, output: Option<Json>, approvals: seq<Snapshot>, retry: Option<Retry>)
    requires |s.steps| > 0 && NextSequence(s.jobs) == |s.jobs|
    requires forall j :: 0 <= j < |s.jobs| ==> !Active(s.jobs[j].status)
    ensures var t := Resume(s.(approvals := approvals, run := s.run.(retry := retry)), |s.steps| - 1, output);
      WaitOver(s, t, output) && t.approvals == approvals && t.run.retry == retry
  {
    hide NextSequence;
    assert StopJobs(s.jobs, JobCompleted, None, s.clock) == s.jobs;
  }

  lemma CurrentIs(c: Config, s: State, a: nat, who: Reviewer, request: Request)
    requires Inv(c, s) && a < |s.approvals| && s.approvals[a].status == AwaitingDecision
    requires Reviewable(c, s, a) && who.role in GateOf(c, s, a).reviewers
    requires request.expected == s.approvals[a].digest && InReview(s, s.approvals[a])
    requires s.approvals[a].source.input == s.steps[|s.steps| - 1].input
    ensures Decides(c, s, Decide(c, s, a, who, request), a, who, request)
  {
    hide Inv, Expire, Invalidate, Replace, Resume, NextSequence;
    ReviewFacts(c, s, a);
    var item := s.approvals[a];
    var step := s.steps[|s.steps| - 1];
    assert s.run.(retry := None) == s.run;
    match request.action
    case Approve =>
      ResumeIs(s, Some(item.payload), s.approvals[a := ResolvedBy(s, item, Approved, who, request)], None);
    case RequestRetry =>
      ResumeIs(s, None, s.approvals[a := ResolvedBy(s, item, RetryRequested, who, request)],
               Some(Retry(step.node, step.iteration + 1, item.payload, request.feedback)));
    case Edit(payload) => EditIs(c, s, a, who, request);
    case Reject =>
  }

  lemma ReviewedStep(c: Config, s: State, a: nat)
    requires Reviewable(c, s, a)
    ensures |s.steps| > 0
  { }

  /** The refusals of a decision, and the two ways in which a snapshot is out of date. */
  lemma DecideBranches(c: Config, s: State, a: nat, who: Reviewer, request: Request)
    requires Inv(c, s)
    ensures a >= |s.approvals| || s.approvals[a].status != AwaitingDecision ==> Decide(c, s, a, who, request) == s
    ensures a < |s.approvals| && s.approvals[a].status == AwaitingDecision ==>
      && Reviewable(c, s, a)
      && var gate, item := GateOf(c, s, a), s.approvals[a];
         if who.role !in gate.reviewers || request.expected != item.digest then Decide(c, s, a, who, request) == s
         else if !InReview(s, item) then Decide(c, s, a, who, request) == Expire(s, a, gate)
         else if item.source.input != s.steps[|s.steps| - 1].input then
           Decide(c, s, a, who, request) == Invalidate(s, a, gate)
         else true
  {
    hide Inv, Expire, Invalidate, Replace, Resume, TerminateWait, Decided;
    if a < |s.approvals| && s.approvals[a].status == AwaitingDecision { ReviewFacts(c, s, a); }
  }

  /** The whole effect of a request on a snapshot.  It needs a pending snapshot, a reviewer of
      the gate's roles and the digest of what was shown; a late review expires, a stale one is
      shown anew, and any other is decided. */
  lemma DecisionOutcome(c: Config, s: State, tick: Tick, a: nat, who: Reviewer, request: Request)
    requires ConfigOk(c) && Reachable(c, s) && tick.event == DoDecide(a, who, request)
    ensures var now, t := Then(s, tick), Apply(c, s, tick);
      if a >= |s.approvals| || s.approvals[a].status != AwaitingDecision then t == now
      else
        && Reviewable(c, now, a)
        && var item := s.approvals[a];
           if who.role !in GateOf(c, now, a).reviewers || request.expected != item.digest then t == now
           else if !InReview(now, item) then ReviewExpires(c, now, t, a)
           else if item.source.input != s.steps[|s.steps| - 1].input then ShownAnew(c, now, t, a)
           else Decides(c, now, t, a, who, request)
  {
    hide Inv, Reachable, Decide, ReviewExpires, ShownAnew, Decides, Reviewable, InReview;
    ThenOk(c, s, tick);
    var now := Then(s, tick);
    DecideBranches(c, now, a, who, request);
    if a < |s.approvals| && s.approvals[a].status == AwaitingDecision {
      ReviewFacts(c, now, a);
      if !InReview(now, now.approvals[a]) { ExpiryIs(c, now, a); }
      StaleIs(c, now, a);
      ReviewedStep(c, now, a);
      if who.role in GateOf(c, now, a).reviewers && request.expected == s.approvals[a].digest
         && InReview(now, now.approvals[a]) && s.approvals[a].source.input == s.steps[|s.steps| - 1].input {
        CurrentIs(c, now, a, who, request);
      }
    }
  }

  /** A request is answered as accepted exactly when it decides the snapshot. */
  lemma AcceptedTakesEffect(c: Config, s: State, a: nat, who: Reviewer, request: Request)
    requires ConfigOk(c) && Reachable(c, s) && a < |s.approvals| && s.approvals[a].status == AwaitingDecision
    ensures var t := Apply(c, s, Tick(0, DoDecide(a, who, request)));
      Answer(c, s, a, who, request) == Accepted <==>
        a < |t.approvals| && t.approvals[a].decidedBy == Some(who.user) && t.approvals[a].request == Some(request)
  {
    hide Inv, Reachable, Perform, WaitOver;
    var tick := Tick(0, DoDecide(a, who, request));
    assert Then(s, tick) == s;
    ThenOk(c, s, tick);
    ReviewFacts(c, s, a);
    PendingUndecided(c, s, a);
    DecisionOutcome(c, s, tick, a, who, request);
    hide RunExpires;
    ExpiredUndecided(s, Apply(c, s, tick), a);
  }

  /** The scan for late reviews ends exactly those that are pending and late. */
  lemma ReviewScanOutcome(c: Config, s: State, tick: Tick, a: nat)
    requires ConfigOk(c) && Reachable(c, s) && tick.event == DoExpireApproval(a)
    ensures var now, t := Then(s, tick), Apply(c, s, tick);
      if a < |s.approvals| && s.approvals[a].status == AwaitingDecision && !InReview(now, s.approvals[a])
      then ReviewExpires(c, now, t, a) else t == now
  {
    hide Inv, Reachable, Expire, ReviewExpires;
    ThenOk(c, s, tick);
    var now := Then(s, tick);
    if a < |s.approvals| && s.approvals[a].status == AwaitingDecision {
      ReviewFacts(c, now, a);
      if !InReview(now, now.approvals[a]) { ExpiryIs(c, now, a); }
    }
  }

  /** No other transaction records a decision. */
  lemma OnlyDecisionsDecide(c: Config, s: State, e: Event, a: nat)
    requires a < |s.approvals| && !e.DoDecide?
    ensures var t := Perform(c, s, e); a < |t.approvals| && t.approvals[a].decidedBy == s.approvals[a].decidedBy
  {
    hide RetryDecision, StopJobs, StopSteps, StopAttempts, RetrySteps, NextSequence, NotReady, Prepare, Effective;
    match e
    case DoDispatch(claim, plan) =>
      if Owns(s, claim, false) && PlanOk(c, s, plan) { DispatchKeepsSnapshots(c, s, claim, plan, a); }
    case _ =>
  }

  lemma DispatchKeepsSnapshots(c: Config, s: State, claim: Claim, plan: Plan, a: nat)
    requires a < |s.approvals| && Owns(s, claim, false) && PlanOk(c, s, plan)
    ensures var j := claim.job;
      var p := s.(jobs := s.jobs[j := s.jobs[j].(dispatchedAt := Some(s.clock))],
                  run := Bump(s.run).(status := Running));
      && PlanOk(c, p, plan) && s.approvals <= Prepare(c, p, j, plan).approvals
  {
    var j := claim.job;
    var p := s.(jobs := s.jobs[j := s.jobs[j].(dispatchedAt := Some(s.clock))],
                run := Bump(s.run).(status := Running));
    SamePlan(c, s, p, plan);
    if plan.choice.Pick? { PickNode(c, p, plan); }
    hide PlanOk, Skips, NewAttempt, WakeTime, NewSnapshot;
  }

  /** Who decides: a snapshot that comes to be decided was decided by a request of that very
      reviewer, whose role the gate admits; and an approval of a severe review was made by
      somebody with the right to override. */
  lemma DecidersAreAuthorised(c: Config, s: State, tick: Tick, a: nat)
    requires ConfigOk(c) && Reachable(c, s) && a < |s.approvals| && s.approvals[a].status == AwaitingDecision
    requires var t := Apply(c, s, tick); a < |t.approvals| && t.approvals[a].decidedBy.Some?
    ensures tick.event.DoDecide? && tick.event.approval == a
    ensures var now, t, e := Then(s, tick), Apply(c, s, tick), tick.event;
      && Reviewable(c, now, a) && e.who.role in GateOf(c, now, a).reviewers
      && t.approvals[a].decidedBy == Some(e.who.user) && t.approvals[a].request == Some(e.request)
      && (t.approvals[a].status == Approved ==>
            e.request.action == Approve && (s.approvals[a].review.severe ==> e.who.mayOverride))
  {
    hide Inv, Reachable, Perform, InReview, WaitOver;
    ThenOk(c, s, tick);
    var now := Then(s, tick);
    ReviewFacts(c, now, a);
    PendingUndecided(c, now, a);
    if tick.event.DoDecide? {
      var e := tick.event;
      DecisionOutcome(c, s, tick, e.approval, e.who, e.request);
      hide RunExpires;
      ExpiredUndecided(now, Apply(c, s, tick), a);
    } else {
      OnlyDecisionsDecide(c, now, tick.event, a);
    }
  }

  lemma ExpiredUndecided(s: State, t: State, a: nat)
    requires a < |s.approvals| && s.approvals[a].decidedBy.None?
    ensures RunExpires(s, t) ==> a < |t.approvals| && t.approvals[a].decidedBy.None?
  { }

  lemma PendingUndecided(c: Config, s: State, a: nat)
    requires Inv(c, s) && a < |s.approvals| && s.approvals[a].status == AwaitingDecision
    ensures s.approvals[a].decidedBy.None?
  {
    hide Inv;
    SnapshotAt(c, s, a);
  }

  // ---------- cancellation ----------

  /** Cancelling ends every open record of a run that is not over, and marks the request. */
  lemma CancelOutcome(c: Config, s: State, tick: Tick)
    requires tick.event == DoCancel
    ensures var now, t := Then(s, tick), Apply(c, s, tick);
      if Terminal(s.run.status) then t == now
      else
        && t.run == s.run.(status := Cancelled, error := Some("cancelled"), revision := s.run.revision + 1,
                           cancelRequested := true)
        && |t.jobs| == |s.jobs| && |t.steps| == |s.steps| && |t.attempts| == |s.attempts|
        && |t.approvals| == |s.approvals| && t.clock == now.clock && t.tokens == s.tokens
        && (forall j :: 0 <= j < |s.jobs| ==>
              t.jobs[j] == if Active(s.jobs[j].status) then ClosedJob(now, j, JobCancelled, Some("cancelled"))
                           else s.jobs[j])
        && (forall i :: 0 <= i < |s.steps| ==>
              t.steps[i] == if Terminal(s.steps[i].status) then s.steps[i]
                            else s.steps[i].(status := Cancelled, nextAttemptAt := None, error := Some("cancelled")))
        && (forall a :: 0 <= a < |s.attempts| ==>
              t.attempts[a] == if Terminal(s.attempts[a].status) then s.attempts[a]
                               else s.attempts[a].(status := Cancelled, error := Some("cancelled")))
        && (forall a :: 0 <= a < |s.approvals| ==>
              t.approvals[a] == if s.approvals[a].status == AwaitingDecision
                                then s.approvals[a].(status := ApprovalCancelled, resolvedAt := Some(now.clock))
                                else s.approvals[a])
  { }
}
