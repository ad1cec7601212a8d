/** The services of the durable runtime as they update the rows of one run in place.

    Rows are written through the guards the database and the ORM put on them; a guard
    that refuses a write is the exception that rolls the transaction back.  Every service
    is proved to do what its specification in `Runtime` says, and no guard ever refuses. */
module Store {
  import opened Records
  import opened Runtime
  import opened Invariant
  import opened Tables
  import opened Preserve
  import opened PreserveResults
  import opened PreserveApprovals
  import opened PreserveDispatch
  import opened History
  import opened Guards
  import opened Ledger
  import opened Approvals
  import opened StoreFacts

  class RunStore {
    const c: Config
    var run: Run
    var steps: seq<Step>
    var attempts: seq<Attempt>
    var jobs: seq<Job>
    var approvals: seq<Snapshot>
    var clock: int
    var tokens: nat

    ghost function Rows(): State
      reads this
    {
      State(run, steps, attempts, jobs, approvals, clock, tokens)
    }

    ghost predicate Valid()
      reads this
    {
      Inv(c, Rows())
    }

    /** Accept a start: a pending run and its first job. */
    constructor (c: Config, deadline: Option<int>, now: int)
      requires ConfigOk(c)
      ensures Valid() && Rows() == Start(deadline, now) && this.c == c
    {
      this.c := c;
      run := Run(Pending, 0, false, deadline, None, None, None);
      steps, attempts, approvals := [], [], [];
      jobs := [NewJob(0, now, now)];
      clock, tokens := now, 0;
    }

    method Elapse(after: nat)
      requires Valid()
      modifies this`clock
      ensures Valid() && Rows() == old(Rows()).(clock := old(clock) + after)
    {
      hide Inv;
      TimeOk(c, Rows(), after);
      clock := clock + after;
    }

    // ---------- guarded writes ----------

    method UpdateJob(j: nat, job: Job) returns (ok: bool)
      requires j < |jobs|
      modifies this`jobs
      ensures ok == JobMayChange(old(jobs)[j], job, clock)
      ensures jobs == if ok then old(jobs)[j := job] else old(jobs)
    {
      ok := JobMayChange(jobs[j], job, clock);
      if ok { jobs := jobs[j := job]; }
    }

    method Enqueue(sequence: nat, dueAt: Option<int>) returns (ok: bool)
      modifies this`jobs
      ensures var job := NewJob(sequence, if dueAt.Some? then dueAt.value else clock, clock);
        && ok == MayInsert(old(jobs), job)
        && jobs == if ok then old(jobs) + [job] else old(jobs)
    {
      var job := NewJob(sequence, clock, clock);
      if dueAt.Some? { job := job.(dueAt := dueAt.value); }
      ok := MayInsert(jobs, job);
      if ok { jobs := jobs + [job]; }
    }

    /** Terminal rows and row identities are immutable. */
    method WriteStep(st: nat, step: Step) returns (ok: bool)
      requires st < |steps|
      modifies this`steps
      requires step.status == steps[st].status
      ensures ok == (!Terminal(old(steps)[st].status) && SameIdentity(old(steps)[st], step))
      ensures steps == if ok then old(steps)[st := step] else old(steps)
    {
      ok := !Terminal(steps[st].status) && SameIdentity(steps[st], step);
      if ok { steps := steps[st := step]; }
    }

    method WriteAttempt(a: nat, attempt: Attempt) returns (ok: bool)
      requires a < |attempts|
      modifies this`attempts
      requires attempt.status == attempts[a].status
      ensures ok == (!Terminal(old(attempts)[a].status) && SameAttempt(old(attempts)[a], attempt))
      ensures attempts == if ok then old(attempts)[a := attempt] else old(attempts)
    {
      ok := !Terminal(attempts[a].status) && SameAttempt(attempts[a], attempt);
      if ok { attempts := attempts[a := attempt]; }
    }

    /** Only pending snapshots may change, and never in what they show. */
    method WriteSnapshot(a: nat, item: Snapshot) returns (ok: bool)
      requires a < |approvals|
      modifies this`approvals
      ensures ok == (old(approvals)[a].status == AwaitingDecision && SameSnapshot(old(approvals)[a], item))
      ensures approvals == if ok then old(approvals)[a := item] else old(approvals)
    {
      ok := approvals[a].status == AwaitingDecision && SameSnapshot(approvals[a], item);
      if ok { approvals := approvals[a := item]; }
    }

    method MoveAttempt(a: nat, to: Status) returns (ok: bool)
      requires a < |attempts|
      modifies this`attempts
      ensures ok == AttemptMayMove(old(Rows()), a, to)
      ensures attempts == if ok then old(attempts)[a := old(attempts)[a].(status := to)] else old(attempts)
    {
      var current := attempts[a];
      ok := MayMove(current.status, to) && to !in {Waiting, Retrying, Skipped}
            && current.step < |steps| && !Terminal(run.status)
            && (to == Running ==> run.status == Running && steps[current.step].status == Running);
      if ok { attempts := attempts[a := current.(status := to)]; }
    }

    method MoveStep(st: nat, to: Status) returns (ok: bool)
      requires st < |steps|
      modifies this`steps
      ensures ok == StepMayMove(old(Rows()), st, to)
      ensures steps == if ok then old(steps)[st := old(steps)[st].(status := to)] else old(steps)
    {
      var current := steps[st];
      ok := MayMove(current.status, to) && !Terminal(run.status)
            && (to == Running ==> run.status == Running)
            && (Terminal(to) || to in {Retrying, Waiting} ==>
                  forall a :: 0 <= a < |attempts| && attempts[a].step == st ==> Terminal(attempts[a].status));
      if ok { steps := steps[st := current.(status := to)]; }
    }

    method MoveRun(to: Status) returns (ok: bool)
      modifies this`run
      ensures ok == RunMayMove(old(Rows()), to)
      ensures run == if ok then old(run).(status := to) else old(run)
    {
      ok := MayMove(run.status, to) && to != Skipped
            && (Terminal(to) ==> forall i :: 0 <= i < |steps| ==> Terminal(steps[i].status))
            && (to == Completed ==>
                  |steps| > 0 && forall i :: 0 <= i < |steps| ==> Succeeded(steps[i].status));
      if ok { run := run.(status := to); }
    }

    // ---------- the queue ----------

    /** Give a due job to a worker under a fresh token; a job of a finished run is closed. */
    method ClaimDue(j: nat) returns (claim: Option<Claim>)
      requires Claimable(Rows(), j)
      requires jobs[j].token.None? && jobs[j].attempt.None? && jobs[j].dispatchedAt.None?
      modifies this`jobs, this`tokens
      ensures Rows() == ClaimJob(c, old(Rows()), j)
      ensures claim == if Terminal(run.status) || run.cancelRequested then None
                       else Some(Claim(j, old(jobs)[j].sequence, old(tokens)))
    {
      var job, ok := jobs[j], false;
      if Terminal(run.status) || run.cancelRequested {
        var status := if run.cancelRequested then JobCancelled else TerminalJobStatus(run.status);
        var code := if status == JobCompleted then None
                    else if run.error.Some? then run.error else Some(JobStatusText(status));
        ok := UpdateJob(j, Closed(job, status, code, clock));
        claim := None;
      } else {
        claim := Some(Claim(j, job.sequence, tokens));
        ok := UpdateJob(j, job.(status := JobRunning, token := Some(tokens),
                                lease := Some(clock + c.leaseSeconds)));
        tokens := tokens + 1;
      }
      assert ok;
    }

    /** Claim the due jobs of this run, up to the worker's capacity. */
    method ClaimJobs(capacity: int) returns (claims: seq<Claim>, valid: bool)
      requires Valid()
      modifies this`jobs, this`tokens
      ensures valid == (1 <= capacity <= 32)
      ensures Valid() && |jobs| == |old(jobs)|
      ensures Rows() == if valid then ClaimJob(c, old(Rows()), |jobs| - 1) else old(Rows())
      ensures claims == if valid && Claimable(old(Rows()), |jobs| - 1)
                        then [Claim(|jobs| - 1, |jobs| - 1, old(tokens))] else []
      ensures forall claim :: claim in claims && c.leaseSeconds > 0 ==> Owns(Rows(), claim, false)
    {
      hide Inv, JobStatusText;
      claims := [];
      valid := 1 <= capacity <= 32;
      ghost var s := Rows();
      HasJob(c, s);
      if !valid { return; }
      var last := |jobs| - 1;
      ClaimOk(c, s, last);
      if Claimable(s, last) {
        ActiveIsLast(c, s, last);
        JobAt(c, s, last);
      }
      var j := 0;
      while j < |jobs| && |claims| < capacity
        invariant j <= |jobs| == |s.jobs|
        invariant Rows() == if j <= last then s else ClaimJob(c, s, last)
        invariant claims == if j > last && Claimable(s, last) then [Claim(last, last, s.tokens)] else []
      {
        if jobs[j].status == JobQueued && jobs[j].dueAt <= clock {
          ActiveIsLast(c, s, j);
          JobAt(c, s, j);
          var claim := ClaimDue(j);
          if claim.Some? { claims := claims + [claim.value]; }
        }
        j := j + 1;
      }
    }

    /** Close every queued or running job of the run. */
    method TerminateJobs(status: JobStatus, code: Option<string>)
      requires status in {JobCompleted, JobFailed, JobCancelled}
      modifies this`jobs
      ensures jobs == StopJobs(old(jobs), status, code, clock)
    {
      ghost var before := jobs;
      var j := 0;
      while j < |jobs|
        invariant j <= |jobs| == |before|
        invariant forall k :: j <= k < |jobs| ==> jobs[k] == before[k]
        invariant forall k :: 0 <= k < j ==> jobs[k] == StopJobs(before, status, code, clock)[k]
      {
        if Active(jobs[j].status) {
          var ok := UpdateJob(j, Closed(jobs[j], status, code, clock));
          assert ok;
        }
        j := j + 1;
      }
    }

    /** Consume the receipts of a run that already waits; a dispatched one is in use, and
        then nothing is consumed. */
    method SettleLocalCheckpoint() returns (ok: bool)
      modifies this`jobs
      ensures ok == Undispatched(old(jobs))
      ensures jobs == if ok then StopJobs(old(jobs), JobCompleted, None, clock) else old(jobs)
    {
      var before := jobs;
      var j := 0;
      while j < |jobs|
        invariant j <= |jobs| == |before|
        invariant forall k :: j <= k < |jobs| ==> jobs[k] == before[k]
        invariant forall k :: 0 <= k < j ==> jobs[k] == StopJobs(before, JobCompleted, None, clock)[k]
        invariant forall k :: 0 <= k < j && Active(before[k].status) ==>
                    before[k].attempt.None? && before[k].dispatchedAt.None?
      {
        if Active(jobs[j].status) {
          if jobs[j].attempt.Some? || jobs[j].dispatchedAt.Some? {
            jobs := before;
            return false;
          }
          var written := UpdateJob(j, Closed(jobs[j], JobCompleted, None, clock));
          assert written;
        }
        j := j + 1;
      }
      ok := true;
    }

    /** Close a job its live owner holds; without the claim, nothing happens. */
    method FinishJob(claim: Claim, status: JobStatus, code: Option<string>, allowExpired: bool)
      returns (ok: bool)
      modifies this`jobs
      ensures ok == (status in {JobCompleted, JobFailed, JobCancelled}
                     && Owns(old(Rows()), claim, allowExpired))
      ensures jobs == if ok then old(jobs)[claim.job := Closed(old(jobs)[claim.job], status, code, clock)]
                      else old(jobs)
    {
      ok := status in {JobCompleted, JobFailed, JobCancelled} && IsOwned(claim, allowExpired);
      if ok {
        var written := UpdateJob(claim.job, Closed(jobs[claim.job], status, code, clock));
        assert written;
      }
    }

    predicate IsOwned(claim: Claim, allowExpired: bool)
      reads this
      ensures IsOwned(claim, allowExpired) == Owns(Rows(), claim, allowExpired)
    {
      && claim.job < |jobs|
      && var job := jobs[claim.job];
      && job.token == Some(claim.token)
      && job.sequence == claim.sequence
      && job.status == JobRunning
      && job.lease.Some?
      && (allowExpired || job.lease.value > clock)
    }

    method FailQueuedJob(j: nat, code: string) returns (ok: bool)
      requires j < |jobs|
      modifies this`jobs
      ensures ok == (old(jobs)[j].status == JobQueued)
      ensures jobs == if ok then old(jobs)[j := Closed(old(jobs)[j], JobFailed, Some(code), clock)]
                      else old(jobs)
    {
      ok := jobs[j].status == JobQueued;
      if ok {
        var written := UpdateJob(j, Closed(jobs[j], JobFailed, Some(code), clock));
        assert written;
      }
    }

    // ---------- stopping a run ----------

    method CloseApprovals(status: ApprovalStatus)
      requires status != AwaitingDecision
      modifies this`approvals
      ensures approvals == ClosePending(old(approvals), status, clock)
    {
      ghost var before := approvals;
      var a := 0;
      while a < |approvals|
        invariant a <= |approvals| == |before|
        invariant forall k :: a <= k < |approvals| ==> approvals[k] == before[k]
        invariant forall k :: 0 <= k < a ==> approvals[k] == ClosePending(before, status, clock)[k]
      {
        if approvals[a].status == AwaitingDecision {
          var ok := WriteSnapshot(a, approvals[a].(status := status, resolvedAt := Some(clock)));
          assert ok;
        }
        a := a + 1;
      }
    }

    /** Every unfinished attempt of step `st` ends. */
    method StopAttemptsOf(st: nat, status: Status, code: string)
      requires status in {Failed, Cancelled} && !Terminal(run.status) && st < |steps|
      requires forall a :: 0 <= a < |attempts| ==>
                 Terminal(attempts[a].status) || attempts[a].status == Running
      modifies this`attempts
      ensures |attempts| == |old(attempts)|
      ensures forall a :: 0 <= a < |attempts| ==>
        attempts[a] == if old(attempts)[a].step == st
                       then StopAttempts(old(attempts), status, code)[a] else old(attempts)[a]
    {
      ghost var before := attempts;
      var a := 0;
      while a < |attempts|
        invariant a <= |attempts| == |before|
        invariant forall k :: a <= k < |attempts| ==> attempts[k] == before[k]
        invariant forall k :: 0 <= k < a ==>
          attempts[k] == if before[k].step == st
                         then StopAttempts(before, status, code)[k] else before[k]
      {
        if attempts[a].step == st && !Terminal(attempts[a].status) {
          var written := WriteAttempt(a, attempts[a].(error := Some(code)));
          var ok := MoveAttempt(a, status);
          assert written && ok;
        }
        a := a + 1;
      }
    }

    /** Every unfinished step ends, after its unfinished attempts. */
    method StopChildren(status: Status, code: string)
      requires status in {Failed, Cancelled} && !Terminal(run.status)
      requires AttemptsFit(steps, attempts)
      modifies this`steps, this`attempts
      ensures steps == StopSteps(old(steps), status, code)
      ensures attempts == StopAttempts(old(attempts), status, code)
    {
      ghost var was, had := steps, attempts;
      var i := 0;
      while i < |steps|
        invariant i <= |steps| == |was| && |attempts| == |had|
        invariant forall k :: i <= k < |steps| ==> steps[k] == was[k]
        invariant forall k :: 0 <= k < i ==> steps[k] == StopSteps(was, status, code)[k]
        invariant forall k :: 0 <= k < |attempts| ==>
          attempts[k] == if had[k].step < i then StopAttempts(had, status, code)[k] else had[k]
      {
        if !Terminal(steps[i].status) {
          StopAttemptsOf(i, status, code);
          var written := WriteStep(i, steps[i].(nextAttemptAt := None, error := Some(code)));
          var ok := MoveStep(i, status);
          assert written && ok;
        }
        i := i + 1;
      }
    }

    /** The run deadline has passed: close approvals, end every child, fail the run. */
    method ExpireExecution()
      requires Stoppable(Rows())
      modifies this`run, this`steps, this`attempts, this`approvals
      ensures Rows() == Stop(old(Rows()), Failed, "run_deadline", ApprovalExpired)
                        .(run := Fail(old(run), Failed, "run_deadline"))
    {
      CloseApprovals(ApprovalExpired);
      StopChildren(Failed, "run_deadline");
      run := run.(error := Some("run_deadline"));
      RunMayEnd(Rows(), Failed);
      var ok := MoveRun(Failed);
      assert ok;
    }

    method CancelExecution()
      requires Valid()
      modifies this
      ensures Valid() && Rows() == Cancel(old(Rows()))
    {
      hide Inv, ShapeOk;
      ghost var s := Rows();
      CancelOk(c, s);
      if Terminal(run.status) { return; }
      LiveRows(c, s);
      LiveStatus(c, s);
      StopStepsOk(c, s, Cancelled, "cancelled");
      CloseApprovals(ApprovalCancelled);
      run := run.(cancelRequested := true);
      StopChildren(Cancelled, "cancelled");
      TerminateJobs(JobCancelled, Some("cancelled"));
      run := run.(error := Some("cancelled"));
      RunMayEnd(Rows(), Cancelled);
      var ok := MoveRun(Cancelled);
      assert ok;
      run := run.(revision := run.revision + 1);
    }

    // ---------- leases and results ----------

    method RenewLease(claim: Claim) returns (ok: bool)
      requires Valid()
      modifies this`jobs
      ensures ok == Holds(old(Rows()), claim)
      ensures Valid() && Rows() == Renew(c, old(Rows()), claim)
    {
      hide Inv;
      RenewOk(c, Rows(), claim);
      ok := claim.job < |jobs| && jobs[claim.job].token == Some(claim.token)
            && jobs[claim.job].status == JobRunning
            && jobs[claim.job].lease.Some? && jobs[claim.job].lease.value > clock;
      if ok {
        var written := UpdateJob(claim.job, jobs[claim.job].(lease := Some(clock + c.leaseSeconds)));
        assert written;
      }
    }

    /** The failed attempt is kept; its step waits for a retry or fails with the run. */
    method FailAttempt(work: WorkItem, code: string, notBefore: Option<int>, delay: nat)
      requires OnlyLive(Rows(), work) && steps[work.step].node in c.nodes
      modifies this`run, this`steps, this`attempts
      ensures var d := RetryDecision(c.nodes[old(steps)[work.step].node].retry, old(attempts)[work.attempt].number,
                                     code, clock, old(run).deadline, false, delay, notBefore);
        && steps == old(steps)[work.step := old(steps)[work.step].(
                      status := if d.due.Some? then Retrying else Failed,
                      error := Some(d.code), nextAttemptAt := d.due)]
        && attempts == old(attempts)[work.attempt := old(attempts)[work.attempt].(
                         status := Failed, error := Some(code))]
        && run == if d.due.Some? then old(run) else Fail(old(run), Failed, d.code)
    {
      hide RetryDecision;
      var step, attempt := steps[work.step], attempts[work.attempt];
      var d := RetryDecision(c.nodes[step.node].retry, attempt.number, code, clock, run.deadline,
                             false, delay, notBefore);
      var written := WriteAttempt(work.attempt, attempt.(error := Some(code)));
      var moved := MoveAttempt(work.attempt, Failed);
      assert written && moved;
      written := WriteStep(work.step, step.(error := Some(d.code), nextAttemptAt := d.due));
      if d.due.Some? {
        moved := MoveStep(work.step, Retrying);
        assert written && moved;
      } else {
        moved := MoveStep(work.step, Failed);
        assert written && moved;
        run := run.(error := Some(d.code));
        moved := MoveRun(Failed);
        assert moved;
      }
    }

    /** Record a result on its step and attempt, unless a deadline has overtaken it. */
    method CompleteWork(work: WorkItem, result: Result, delay: nat)
      requires OnlyLive(Rows(), work) && steps[work.step].node in c.nodes
      modifies this`run, this`steps, this`attempts
      ensures var s := old(Rows());
        match Effective(s, work, result)
        case Output(value) =>
          && run == s.run
          && steps == s.steps[work.step := s.steps[work.step].(status := Completed, output := Some(value))]
          && attempts == s.attempts[work.attempt := s.attempts[work.attempt].(
                           status := Completed, output := Some(value))]
        case Error(code, notBefore) =>
          var d := RetryDecision(c.nodes[s.steps[work.step].node].retry, s.attempts[work.attempt].number,
                                 code, clock, s.run.deadline, false, delay, notBefore);
          && steps == s.steps[work.step := s.steps[work.step].(
                        status := if d.due.Some? then Retrying else Failed,
                        error := Some(d.code), nextAttemptAt := d.due)]
          && attempts == s.attempts[work.attempt := s.attempts[work.attempt].(
                           status := Failed, error := Some(code))]
          && run == if d.due.Some? then s.run else Fail(s.run, Failed, d.code)
    {
      hide RetryDecision;
      var outcome := result;
      if Reached(run.deadline, clock) {
        outcome := Error("run_deadline", None);
      } else if clock >= attempts[work.attempt].deadline {
        outcome := Error("attempt_timeout", None);
      }
      match outcome {
        case Error(code, notBefore) => FailAttempt(work, code, notBefore, delay);
        case Output(value) =>
          var written := WriteAttempt(work.attempt, attempts[work.attempt].(output := Some(value)));
          var moved := MoveAttempt(work.attempt, Completed);
          assert written && moved;
          written := WriteStep(work.step, steps[work.step].(output := Some(value)));
          moved := MoveStep(work.step, Completed);
          assert written && moved;
      }
    }

    /** Inside the owner's transaction: record the work, finish its job and queue the next
        checkpoint.  A claim that is not live, or work that was not dispatched, is refused. */
    method CommitLocked(claim: Claim, work: WorkItem, result: Result, delay: nat, allowExpired: bool)
      returns (ok: bool)
      requires Valid()
      modifies this`run, this`steps, this`attempts, this`jobs
      ensures ok == (Owns(old(Rows()), claim, allowExpired) && Dispatched(old(Rows()), claim.job, work))
      ensures !ok ==> Rows() == old(Rows())
      ensures ok ==> Rows().(run := Bump(run)) == CommitWork(c, old(Rows()), claim.job, work, result, delay)
    {
      hide Inv, RetryDecision, Effective, OnlyLive, JobsOk, ExecutingShape, StepOk, AttemptOk;
      ghost var s := Rows();
      ok := IsOwned(claim, allowExpired) && IsDispatched(claim.job, work);
      if !ok { return; }
      ExecutingFacts(c, s, claim.job, work);
      ExecutingIsOnly(c, s, work);
      StepNode(c, steps[work.step]);
      CompleteWork(work, result, delay);
      FinishAndQueue(claim, steps[work.step], allowExpired, s);
    }

    /** Close the job of a settled step and, unless the run is over, queue the next one. */
    method FinishAndQueue(claim: Claim, step: Step, allowExpired: bool, ghost s: State)
      requires Inv(c, s) && Owns(s, claim, allowExpired)
      requires jobs == s.jobs && clock == s.clock && tokens == s.tokens
      modifies this`jobs
      ensures var failed := step.status != Completed;
        var closed := s.jobs[claim.job := Closed(s.jobs[claim.job], if failed then JobFailed else JobCompleted,
                                                 if failed then step.error else None, clock)];
        var due := if step.nextAttemptAt.Some? then step.nextAttemptAt.value else clock;
        jobs == if Terminal(run.status) then closed else closed + [NewJob(s.jobs[claim.job].sequence + 1, due, clock)]
    {
      hide Inv, JobsOk;
      var failed := step.status != Completed;
      var status, code := if failed then JobFailed else JobCompleted, if failed then step.error else None;
      var finished := FinishJob(claim, status, code, allowExpired);
      assert finished;
      if !Terminal(run.status) {
        ClosedJobs(c, s, claim.job, status, code);
        FreeSequence(c, Rows());
        var queued := Enqueue(claim.sequence + 1, step.nextAttemptAt);
        assert queued;
      }
    }

    predicate IsDispatched(j: nat, work: WorkItem)
      reads this
      requires j < |jobs|
      ensures IsDispatched(j, work) == Dispatched(Rows(), j, work)
    {
      && jobs[j].attempt == Some(work.attempt)
      && jobs[j].dispatchedAt.Some?
      && work.attempt < |attempts|
      && attempts[work.attempt].step == work.step < |steps|
      && attempts[work.attempt].status == Running
      && steps[work.step].status == Running
      && !Terminal(run.status) && !run.cancelRequested
    }

    /** A worker hands in what it did under the revision it was given. */
    method CommitResult(claim: Claim, work: WorkItem, result: Result, delay: nat) returns (ok: bool)
      requires Valid()
      modifies this
      ensures Valid() && Rows() == Commit(c, old(Rows()), claim, work, result, delay)
    {
      hide Inv, CommitWork;
      CommitOk(c, Rows(), claim, work, result, delay);
      ok := run.revision == work.revision;
      if ok { ok := CommitLocked(claim, work, result, delay, false); }
      if ok { run := run.(revision := run.revision + 1); }
    }

    // ---------- the watchdog and recovery ----------

    /** The watchdog: end a run that is past its deadline, or time out a late attempt,
        even when the lease of its owner has run out. */
    method EnforceJobDeadline(j: nat, delay: nat) returns (acted: bool)
      requires Valid()
      modifies this
      ensures Valid() && Rows() == Watchdog(c, old(Rows()), j, delay)
    {
      hide Inv, CommitWork, StopSteps, StopAttempts, ClosePending;
      ghost var s := Rows();
      WatchdogOk(c, s, j, delay);
      if j >= |jobs| || !Active(jobs[j].status) || Terminal(run.status) { return false; }
      ActiveIsLast(c, s, j);
      JobAt(c, s, j);
      var sequence, owner := jobs[j].sequence, jobs[j].token;
      if Reached(run.deadline, clock) {
        LiveRows(c, s);
        ExpireExecution();
        if jobs[j].status == JobQueued {
          var failed := FailQueuedJob(j, "run_deadline");
          assert failed;
        } else {
          var finished := FinishJob(Claim(j, sequence, owner.value), JobFailed, Some("run_deadline"), true);
          assert finished;
        }
        TerminateJobs(JobFailed, Some("run_deadline"));
        assert jobs == StopJobs(s.jobs, JobFailed, Some("run_deadline"), clock);
        run := run.(revision := run.revision + 1);
        return true;
      }
      if jobs[j].attempt.None? || jobs[j].attempt.value >= |attempts| { return false; }
      var a := jobs[j].attempt.value;
      if attempts[a].status != Running || clock < attempts[a].deadline { return false; }
      var work := WorkItem(attempts[a].step, a, run.revision);
      acted := CommitLocked(Claim(j, sequence, owner.value), work, Error("attempt_timeout", None), delay, true);
      if acted { run := run.(revision := run.revision + 1); }
    }

    /** The attempts of step `st`: how many there are, with the unfinished ones abandoned. */
    method AbandonAttempts(st: nat) returns (count: nat)
      requires !Terminal(run.status) && st < |steps|
      requires forall a :: 0 <= a < |attempts| ==>
                 Terminal(attempts[a].status) || attempts[a].status == Running
      modifies this`attempts
      ensures count == Count(old(attempts), st)
      ensures |attempts| == |old(attempts)|
      ensures forall a :: 0 <= a < |attempts| ==>
        attempts[a] == if old(attempts)[a].step == st
                       then StopAttempts(old(attempts), Failed, "worker_abandoned")[a] else old(attempts)[a]
    {
      ghost var before := attempts;
      var a := 0;
      count := 0;
      while a < |attempts|
        invariant a <= |attempts| == |before|
        invariant count == Count(before[..a], st)
        invariant forall k :: a <= k < |attempts| ==> attempts[k] == before[k]
        invariant forall k :: 0 <= k < a ==>
          attempts[k] == if before[k].step == st
                         then StopAttempts(before, Failed, "worker_abandoned")[k] else before[k]
      {
        assert before[..a + 1][..a] == before[..a];
        if attempts[a].step == st {
          count := count + 1;
          if !Terminal(attempts[a].status) {
            var written := WriteAttempt(a, attempts[a].(error := Some("worker_abandoned")));
            var ok := MoveAttempt(a, Failed);
            assert written && ok;
          }
        }
        a := a + 1;
      }
      assert before[..a] == before;
    }

    /** Abandon what the lost owner was executing and decide whether to try again. */
    method AbandonWork(recoverable: bool, late: bool, delay: nat) returns (retry: bool, due: int, code: string)
      requires Valid() && run.status in {Pending, Running}
      requires late == Reached(run.deadline, clock)
      modifies this`attempts
      ensures attempts == StopAttempts(old(attempts), Failed, "worker_abandoned")
      ensures (retry, due, code) == Verdict(c, old(Rows()), recoverable, late, delay)
    {
      hide Inv, RetryDecision, StepOk;
      ghost var s := Rows();
      LiveRows(c, s);
      ghost var last := |s.steps| - 1;
      forall i | 0 <= i < |s.steps|
        ensures s.steps[i].node in c.nodes && (i < last ==> Terminal(s.steps[i].status))
      { StepAt(c, s, i); StepNode(c, s.steps[i]); }
      if |s.steps| > 0 { CountOfLast(c, s); }
      retry, due, code := recoverable, clock, if late then "run_deadline" else "recovery_exhausted";
      var i := 0;
      while i < |steps|
        invariant i <= |steps| && |attempts| == |s.attempts|
        invariant i < |steps| ==>
          (retry, due, code) == (recoverable, clock, if late then "run_deadline" else "recovery_exhausted")
        invariant i == |steps| ==> (retry, due, code) == Verdict(c, s, recoverable, late, delay)
        invariant attempts == if i < |steps| then s.attempts
                              else StopAttempts(s.attempts, Failed, "worker_abandoned")
      {
        if !Terminal(steps[i].status) {
          var count := AbandonAttempts(i);
          var d := RetryDecision(c.nodes[steps[i].node].retry, count, "worker_abandoned", clock,
                                 run.deadline, true, delay, None);
          retry := retry && d.due.Some? && steps[i].status in {Running, Retrying};
          if d.code == "run_deadline" { code := d.code; }
          if d.due.Some? { due := Max(due, d.due.value); }
        }
        i := i + 1;
      }
    }

    /** Every unfinished step is to be retried at `due`. */
    method RetryChildren(due: int)
      requires !Terminal(run.status)
      requires forall a :: 0 <= a < |attempts| ==> Terminal(attempts[a].status)
      requires forall i :: 0 <= i < |steps| ==> Terminal(steps[i].status) || steps[i].status in {Running, Retrying}
      modifies this`steps
      ensures steps == RetrySteps(old(steps), due)
    {
      ghost var was := steps;
      var i := 0;
      while i < |steps|
        invariant i <= |steps| == |was|
        invariant forall k :: i <= k < |steps| ==> steps[k] == was[k]
        invariant forall k :: 0 <= k < i ==> steps[k] == RetrySteps(was, due)[k]
      {
        if !Terminal(steps[i].status) {
          var ok := WriteStep(i, steps[i].(nextAttemptAt := Some(due)));
          if steps[i].status == Running {
            var moved := MoveStep(i, Retrying);
            assert moved;
          }
          assert ok;
        }
        i := i + 1;
      }
    }

    /** Every unfinished step fails; their attempts have already ended. */
    method FailChildren(code: string)
      requires !Terminal(run.status)
      requires forall a :: 0 <= a < |attempts| ==> Terminal(attempts[a].status)
      requires forall i :: 0 <= i < |steps| ==> Terminal(steps[i].status) || steps[i].status in {Running, Retrying}
      modifies this`steps
      ensures steps == StopSteps(old(steps), Failed, code)
    {
      ghost var was := steps;
      var i := 0;
      while i < |steps|
        invariant i <= |steps| == |was|
        invariant forall k :: i <= k < |steps| ==> steps[k] == was[k]
        invariant forall k :: 0 <= k < i ==> steps[k] == StopSteps(was, Failed, code)[k]
      {
        if !Terminal(steps[i].status) {
          var ok := WriteStep(i, steps[i].(nextAttemptAt := None, error := Some(code)));
          var moved := MoveStep(i, Failed);
          assert ok && moved;
        }
        i := i + 1;
      }
    }

    /** The budget or the time is spent: the steps, the run and its jobs end. */
    method GiveUp(claim: Claim, code: string)
      requires run.status in {Pending, Running} && Owns(Rows(), claim, true)
      requires forall a :: 0 <= a < |attempts| ==> Terminal(attempts[a].status)
      requires forall i :: 0 <= i < |steps| ==> Terminal(steps[i].status) || steps[i].status in {Running, Retrying}
      modifies this`run, this`steps, this`jobs
      ensures steps == StopSteps(old(steps), Failed, code) && run == Fail(old(run), Failed, code)
      ensures jobs == StopJobs(old(jobs)[claim.job := Closed(old(jobs)[claim.job], JobFailed, Some(code), clock)],
                               JobCancelled, Some(code), clock)
    {
      FailChildren(code);
      run := run.(error := Some(code));
      RunMayEnd(Rows(), Failed);
      var ok := MoveRun(Failed);
      assert ok;
      var closed := FinishJob(claim, JobFailed, Some(code), true);
      assert closed;
      TerminateJobs(JobCancelled, Some(code));
    }

    /** The job goes back to the queue without its owner. */
    method Reopen(j: nat, due: int)
      requires j < |jobs| && jobs[j].status == JobRunning && jobs[j].lease.Some? && jobs[j].lease.value <= clock
      modifies this`jobs
      ensures jobs == old(jobs)[j := Unclaimed(old(jobs)[j], due)]
    {
      var queued := UpdateJob(j, Unclaimed(jobs[j], due));
      assert queued;
    }

    /** Put the job of a lost owner back in the queue, or fail the run when its budget or
        its time is spent. */
    method RecoverClaim(claim: Claim, delay: nat) returns (acted: bool)
      requires Valid()
      modifies this
      ensures acted == (Owns(old(Rows()), claim, true) && old(jobs)[claim.job].lease.value <= clock)
      ensures Valid() && Rows() == Recover(c, old(Rows()), claim, delay)
    {
      hide Inv, StopAttempts, StopSteps, RetrySteps, RetryDecision, Verdict, Recover, TriggerAccepts;
      ghost var s := Rows();
      var j := claim.job;
      RecoverOk(c, s, claim, delay);
      RecoverPlain(c, s, claim, delay);
      if !IsOwned(claim, true) || jobs[j].lease.value > clock { return false; }
      acted := true;
      if Terminal(run.status) {
        var closed := FinishJob(claim, TerminalJobStatus(run.status), run.error, true);
        run := run.(revision := run.revision + 1);
        assert closed;
        return;
      }
      ActiveIsLast(c, s, j);
      RecoverIs(c, s, claim, delay);
      StoppedWork(c, s);
      var late := Reached(run.deadline, clock);
      var retry, due, code := AbandonWork(jobs[j].recoveries < c.maxRecoveries && !late, late, delay);
      if retry {
        RetryChildren(due);
        Reopen(j, due);
      } else {
        GiveUp(claim, code);
      }
      run := run.(revision := run.revision + 1);
    }

    // ---------- timers ----------

    /** One more than the greatest sequence number of the run's jobs. */
    method NextJobSequence() returns (next: nat)
      ensures next == NextSequence(jobs)
    {
      next := 0;
      var j := 0;
      while j < |jobs|
        invariant j <= |jobs|
        invariant next == NextSequence(jobs[..j])
      {
        assert jobs[..j + 1][..j] == jobs[..j];
        if next < jobs[j].sequence + 1 { next := jobs[j].sequence + 1; }
        j := j + 1;
      }
      assert jobs[..j] == jobs;
    }

    /** Queue the checkpoint after the last one. */
    method QueueNext()
      requires JobsOk(c, jobs, tokens, clock) && NoActiveJob(jobs)
      modifies this`jobs
      ensures jobs == old(jobs) + [NewJob(NextSequence(old(jobs)), clock, clock)]
    {
      hide JobsOk, NextSequence;
      JobsAppend(c, jobs, tokens, clock, clock);
      FreeSequence(c, Rows());
      var sequence := NextJobSequence();
      var queued := Enqueue(sequence, None);
      assert queued;
    }

    /** The run deadline has passed: every record of the run fails, its jobs included. */
    method ExpireEverything()
      requires Valid() && run.status in {Pending, Running, Waiting}
      modifies this
      ensures Rows() == ExpireRun(old(Rows()))
    {
      hide Inv;
      LiveRows(c, Rows());
      ExpireExecution();
      TerminateJobs(JobFailed, Some("run_deadline"));
      run := run.(revision := run.revision + 1);
    }

    /** A waiting step completes, and its run runs again. */
    method CompleteWait(st: nat, output: Option<Json>)
      requires st < |steps| && steps[st].status == Waiting && run.status in {Running, Waiting}
      requires AttemptsDone(attempts)
      modifies this`steps, this`run
      ensures steps == old(steps)[st := old(steps)[st].(status := Completed, output := output)]
      ensures run == old(run).(status := Running)
    {
      var written := WriteStep(st, steps[st].(output := output));
      var moved := MoveStep(st, Completed);
      assert written && moved;
      if run.status == Waiting {
        moved := MoveRun(Running);
        assert moved;
      }
    }

    /** A due delay completes its step and queues the checkpoint after it. */
    method WakeDelay(st: nat) returns (acted: bool)
      requires Valid()
      modifies this
      ensures Valid() && Rows() == Wake(old(Rows()), st)
    {
      hide Inv, ExpireRun, NextSequence, StepOk, JobsOk, WaitingShape, AttemptsDone, StepsOk, AttemptsOk,
           ApprovalsOk, ShapeOk, SameIdentity;
      ghost var s := Rows();
      WakeOk(c, s, st);
      if st >= |steps| || steps[st].status != Waiting || steps[st].waiting != ForDelay
         || run.status !in {Running, Waiting} || run.cancelRequested { return false; }
      WaitingFacts(c, s, st);
      if Reached(run.deadline, clock) {
        ExpireEverything();
        return true;
      }
      if steps[st].wakeAt.None? || clock < steps[st].wakeAt.value { return false; }
      if exists j :: 0 <= j < |jobs| && Active(jobs[j].status) { return false; }
      InvTables(c, s);
      DoneAttempts(s);
      CompleteWait(st, Some("{}"));
      QueueNext();
      run := run.(revision := run.revision + 1);
      acted := true;
    }

    // ---------- human approval ----------

    /** One more than the greatest revision shown for step `st`. */
    method NextApprovalRevision(st: nat) returns (next: nat)
      requires Chained(approvals, st)
      ensures next == NextRevision(approvals, st)
      ensures forall a :: 0 <= a < |approvals| && approvals[a].step == st ==> approvals[a].revision < next
    {
      next := 1;
      var a := 0;
      while a < |approvals|
        invariant a <= |approvals|
        invariant next == NextRevision(approvals[..a], st)
        invariant forall k :: 0 <= k < a && approvals[k].step == st ==> approvals[k].revision < next
      {
        if approvals[a].step == st && next < approvals[a].revision + 1 {
          next := approvals[a].revision + 1;
        }
        a := a + 1;
      }
      assert approvals[..a] == approvals;
    }

    /** The unique constraints on snapshots: one per revision, one pending per step. */
    method InsertSnapshot(item: Snapshot) returns (ok: bool)
      modifies this`approvals
      ensures ok == (&& item.status == AwaitingDecision
                     && forall a :: 0 <= a < |old(approvals)| && old(approvals)[a].step == item.step ==>
                          && old(approvals)[a].revision != item.revision
                          && old(approvals)[a].status != AwaitingDecision)
      ensures approvals == if ok then old(approvals) + [item] else old(approvals)
    {
      ok := item.status == AwaitingDecision
        && forall a :: 0 <= a < |approvals| && approvals[a].step == item.step ==>
             approvals[a].revision != item.revision && approvals[a].status != AwaitingDecision;
      if ok { approvals := approvals + [item]; }
    }

    /** Show a payload to the reviewers of the last step. */
    method NewApproval(st: nat, gate: Gate, candidate: Option<Json>, feedback: Option<string>,
                       expiresAt: Option<int>) returns (code: Option<string>)
      requires st == |steps| - 1 && Chained(approvals, st) && NoPending(approvals)
      modifies this`approvals
      ensures match NewSnapshot(old(Rows()), steps[st], gate, candidate, feedback, expiresAt)
              case Good(item) => code == None && approvals == old(approvals) + [item]
              case Bad(error) => code == Some(error) && approvals == old(approvals)
    {
      var step := steps[st];
      if step.input.None? { return Some("approval_input_invalid"); }
      var shown := if candidate.Some? then candidate else step.input.value.payload;
      if shown.None? || step.input.value.review.None? { return Some("approval_input_invalid"); }
      match gate.validate(shown.value) {
        case None => return Some("approval_input_invalid");
        case Some(payload) =>
          var review, bound := step.input.value.review.value, SourceOf(st, step);
          var revision := NextApprovalRevision(st);
          var ok := InsertSnapshot(
            Snapshot(st, step.node, step.iteration, revision, AwaitingDecision, bound,
                     PayloadDigest(bound, payload, review, revision), payload, review, feedback,
                     expiresAt, None, None, None, None));
          assert ok;
          return None;
      }
    }

    /** A pending snapshot is resolved, by a reviewer or by the system. */
    method Resolve(a: nat, status: ApprovalStatus, who: Option<Reviewer>, request: Option<Request>,
                   replacement: Option<nat>)
      requires a < |approvals| && approvals[a].status == AwaitingDecision
      modifies this`approvals
      ensures approvals == old(approvals)[a := Resolved(old(approvals)[a], status, who, request, replacement, clock)]
    {
      var item := approvals[a];
      item := item.(status := status, resolvedAt := Some(clock),
                    decidedBy := if who.Some? then Some(who.value.user) else None,
                    request := request, replacement := replacement);
      if request.Some? && request.value.feedback.Some? { item := item.(feedback := request.value.feedback); }
      var ok := WriteSnapshot(a, item);
      assert ok;
    }

    /** The wait of step `st` ends, and the run with it. */
    method EndWait(st: nat, code: string, rejected: bool)
      requires st < |steps| && steps[st].status == Waiting && run.status in {Running, Waiting}
      requires AttemptsDone(attempts)
      requires forall i :: 0 <= i < |steps| && i != st ==> Terminal(steps[i].status)
      modifies this`run, this`steps
      ensures Rows().(run := Bump(run)) == TerminateWait(old(Rows()), st, code, rejected)
    {
      var status := if rejected then Cancelled else Failed;
      var written := WriteStep(st, steps[st].(error := Some(code)));
      run := run.(error := Some(code));
      var moved := MoveStep(st, status);
      var ended := MoveRun(status);
      assert written && moved && ended;
    }

    /** Close what is out of time: the whole run, or the snapshot and its wait. */
    method Expired(a: nat, gate: Gate) returns (expired: bool)
      requires Valid() && Gated(c, Rows(), a)
      modifies this
      ensures expired == ApprovalDue(old(Rows()), old(approvals)[a])
      ensures Rows() == if expired then Expire(old(Rows()), a, gate) else old(Rows())
    {
      hide Inv, ExpireRun, TerminateWait, StepOk, SnapshotOk, WaitingShape;
      GatedFacts(c, Rows(), a);
      if Reached(run.deadline, clock) {
        ExpireEverything();
        return true;
      }
      if Reached(approvals[a].expiresAt, clock) {
        EarlierSteps(c, Rows());
        DoneAttempts(Rows());
        NotDecided(c, Rows(), a);
        Resolve(a, ApprovalExpired, None, None, None);
        EndWait(approvals[a].step, "approval_expired", gate.timeoutRejects);
        run := run.(revision := run.revision + 1);
        return true;
      }
      expired := false;
    }

    /** The timer of a review gate. */
    method ExpireApprovalWait(a: nat) returns (acted: bool)
      requires Valid()
      modifies this
      ensures Valid() && Rows() == ExpireApproval(c, old(Rows()), a)
    {
      hide Inv, Expire, StepOk, SnapshotOk;
      ghost var s := Rows();
      ExpireApprovalOk(c, s, a);
      if a >= |approvals| || run.status !in {Running, Waiting} || approvals[a].status != AwaitingDecision {
        return false;
      }
      PendingFacts(c, s, a);
      SnapshotNode(c, s, a);
      acted := Expired(a, c.nodes[approvals[a].node].kind.gate);
    }

    /** The step completes and the checkpoint after it is queued. */
    method ResumeRun(st: nat, output: Option<Json>)
      requires st < |steps| && steps[st].status == Waiting && run.status in {Running, Waiting}
      requires AttemptsDone(attempts)
      requires JobsOk(c, jobs, tokens, clock) && NoActiveJob(jobs)
      modifies this`run, this`steps, this`jobs
      ensures Rows().(run := Bump(run)) == Resume(old(Rows()), st, output)
    {
      hide JobsOk, NextSequence;
      CompleteWait(st, output);
      var settled := SettleLocalCheckpoint();
      assert settled;
      assert jobs == old(jobs);
      QueueNext();
    }

    /** The governed input changed under the reviewer: the stale snapshot is closed and a
        fresh one shown, or the run fails when the new input cannot be shown. */
    method InvalidateStale(a: nat, gate: Gate)
      requires Valid() && Gated(c, Rows(), a)
      modifies this
      ensures Rows() == Invalidate(old(Rows()), a, gate)
    {
      hide Inv, TerminateWait, StepOk, SnapshotOk, WaitingShape, NewSnapshot;
      ghost var s := Rows();
      GatedFacts(c, s, a);
      EarlierSteps(c, s);
      DoneAttempts(s);
      NotDecided(c, s, a);
      ChainedApprovals(c, s, a);
      var st, expiresAt := approvals[a].step, approvals[a].expiresAt;
      Resolve(a, Invalidated, None, None, None);
      var failed := NewApproval(st, gate, None, None, expiresAt);
      if failed.Some? { EndWait(st, "approval_input_invalid", false); }
      run := run.(revision := run.revision + 1);
    }

    /** A reviewer's edit supersedes the snapshot; an edit that cannot be shown is undone. */
    method ReplaceSnapshot(a: nat, gate: Gate, who: Reviewer, request: Request, payload: Json)
      returns (ok: bool)
      requires Valid() && Gated(c, Rows(), a)
      modifies this
      ensures Rows() == Replace(old(Rows()), a, gate, who, request, payload)
      ensures !ok ==> Rows() == old(Rows())
      ensures ok == CanShow(old(Rows()), gate, payload)
    {
      hide Inv, StepOk, SnapshotOk, WaitingShape, NewSnapshot;
      ghost var s := Rows();
      GatedFacts(c, s, a);
      ChainedApprovals(c, s, a);
      var before := approvals;
      var st, expiresAt := approvals[a].step, approvals[a].expiresAt;
      Resolve(a, Superseded, Some(who), Some(request), Some(|approvals|));
      assert approvals[a] == Decided(before[a], Superseded, who, request, clock).(replacement := Some(|before|));
      CanShowIs(Rows(), gate, payload, request.feedback, expiresAt);
      var failed := NewApproval(st, gate, Some(payload), request.feedback, expiresAt);
      ok := failed.None?;
      if ok {
        run := run.(revision := run.revision + 1);
      } else {
        approvals := before;
      }
    }

    /** Approve what was shown, or send it back: the step completes and the run goes on. */
    method ResolveAndResume(a: nat, status: ApprovalStatus, who: Reviewer, request: Request,
                            output: Option<Json>, retry: Option<Retry>)
      requires Valid() && Gated(c, Rows(), a)
      modifies this
      ensures var item := Decided(old(approvals)[a], status, who, request, old(clock));
        Rows() == Resume(old(Rows()).(approvals := old(approvals)[a := item], run := old(run).(retry := retry)),
                         old(approvals)[a].step, output)
    {
      hide Inv, StepOk, SnapshotOk, WaitingShape, Resume, JobsOk;
      ghost var s := Rows();
      GatedFacts(c, s, a);
      DoneAttempts(s);
      WaitTables(c, s);
      InvTables(c, s);
      Resolve(a, status, Some(who), Some(request), approvals[a].replacement);
      assert approvals[a] == Decided(s.approvals[a], status, who, request, clock);
      run := run.(retry := retry);
      ResumeRun(approvals[a].step, output);
      run := run.(revision := run.revision + 1);
    }

    /** Reject what was shown: the wait ends, and the run is cancelled. */
    method ResolveAndEnd(a: nat, who: Reviewer, request: Request)
      requires Valid() && Gated(c, Rows(), a)
      modifies this
      ensures var item := Decided(old(approvals)[a], Rejected, who, request, old(clock));
        Rows() == TerminateWait(old(Rows()).(approvals := old(approvals)[a := item]), old(approvals)[a].step,
                                "approval_rejected", true)
    {
      hide Inv, StepOk, SnapshotOk, WaitingShape, TerminateWait;
      ghost var s := Rows();
      GatedFacts(c, s, a);
      EarlierSteps(c, s);
      DoneAttempts(s);
      Resolve(a, Rejected, Some(who), Some(request), approvals[a].replacement);
      assert approvals[a] == Decided(s.approvals[a], Rejected, who, request, clock);
      EndWait(approvals[a].step, "approval_rejected", true);
      run := run.(revision := run.revision + 1);
    }

    /** Carry out a decision on a snapshot that is current and in time. */
    method Carry(a: nat, gate: Gate, who: Reviewer, request: Request) returns (reply: Reply)
      requires Valid() && Gated(c, Rows(), a) && gate == c.nodes[approvals[a].node].kind.gate
      requires who.role in gate.reviewers && request.expected == approvals[a].digest
      requires !ApprovalDue(Rows(), approvals[a])
      requires approvals[a].source == SourceOf(approvals[a].step, steps[approvals[a].step])
      modifies this
      ensures Rows() == Decide(c, old(Rows()), a, who, request)
      ensures reply.Refused? ==> Rows() == old(Rows())
      ensures reply == AnswerInTime(old(approvals)[a], old(steps)[old(approvals)[a].step], gate, who, request)
    {
      hide Inv, TerminateWait, StepOk, SnapshotOk, WaitingShape, NewSnapshot, Resume, Replace, Decided;
      ghost var s := Rows();
      GatedFacts(c, s, a);
      WaitTables(c, s);
      var item := approvals[a];
      var step := steps[item.step];
      match request.action {
        case Approve =>
          if item.review.severe && !who.mayOverride { return Refused(403); }
          ghost var shown := s.approvals[a := Decided(item, Approved, who, request, clock)];
          assert s.(approvals := shown, run := s.run.(retry := None)) == s.(approvals := shown);
          ResolveAndResume(a, Approved, who, request, Some(item.payload), None);
        case Reject =>
          ResolveAndEnd(a, who, request);
        case RequestRetry =>
          if step.iteration >= gate.maxReviewRetries { return Refused(409); }
          ResolveAndResume(a, RetryRequested, who, request, None,
                           Some(Retry(step.node, step.iteration + 1, item.payload, request.feedback)));
        case Edit(payload) =>
          if gate.validate(payload).None? {
            EditRefused(s, a, gate, who, request, payload);
            return Refused(422);
          }
          var ok := ReplaceSnapshot(a, gate, who, request, payload);
          return if ok then Accepted else Refused(409);
      }
      reply := Accepted;
    }

    /** A reviewer's decision.  A repeated request changes nothing; a stale, late or
        forbidden one is refused. */
    method DecideApproval(a: nat, who: Reviewer, request: Request) returns (reply: Reply)
      requires Valid()
      modifies this
      ensures reply == Answer(c, old(Rows()), a, who, request)
      ensures reply.Replayed? ==> Rows() == old(Rows()) && Answered(Rows(), a, request)
      ensures Valid() && Rows() == Decide(c, old(Rows()), a, who, request)
    {
      hide Inv, Expire, Invalidate, StepOk, SnapshotOk, Resume, Replace, TerminateWait, WaitingShape;
      ghost var s := Rows();
      DecideOk(c, s, a, who, request);
      if a >= |approvals| { return Refused(404); }
      SnapshotNode(c, s, a);
      var item := approvals[a];
      var gate := c.nodes[item.node].kind.gate;
      if who.role !in gate.reviewers { return Refused(403); }
      if item.status != AwaitingDecision {
        return if item.request == Some(request) then Replayed else Refused(409);
      }
      if run.status !in {Running, Waiting} || steps[item.step].status != Waiting || run.cancelRequested {
        return Refused(409);
      }
      if request.expected != item.digest { return Refused(409); }
      PendingFacts(c, s, a);
      StaleByInput(c, s, a);
      var late := Expired(a, gate);
      if late { return Refused(409); }
      if item.source != SourceOf(item.step, steps[item.step]) {
        InvalidateStale(a, gate);
        return Refused(409);
      }
      reply := Carry(a, gate, who, request);
    }

    // ---------- preparing a checkpoint ----------

    /** A pending step of a pinned node, refused in a run that takes none. */
    method AddStep(node: string, iteration: nat) returns (st: Option<nat>)
      modifies this`steps
      ensures st == if StepMayBeAdded(c, old(Rows()), node, iteration) then Some(|old(steps)|) else None
      ensures steps == if st.Some? then old(steps) + [NewStep(node, iteration, Pending)] else old(steps)
    {
      st := None;
      if run.status in {Pending, Running} && node in c.nodes
         && (forall i :: 0 <= i < |steps| && steps[i].node == node ==> steps[i].iteration != iteration)
      {
        st := Some(|steps|);
        steps := steps + [NewStep(node, iteration, Pending)];
      }
    }

    /** A pending attempt of a step that is ready for one, with the number after the
        greatest so far and a deadline no later than the run's. */
    method AddAttempt(st: nat) returns (a: Option<nat>)
      requires st < |steps|
      modifies this`attempts
      ensures a == if AttemptMayBeAdded(c, old(Rows()), st) then Some(|old(attempts)|) else None
      ensures attempts == if a.Some? then old(attempts) + [AddedAttempt(c, old(Rows()), st)] else old(attempts)
    {
      a := None;
      var step := steps[st];
      if run.status != Running || step.status !in {Pending, Retrying} || step.node !in c.nodes { return; }
      var number, active, k := 0, false, 0;
      while k < |attempts|
        invariant k <= |attempts|
        invariant number == Greatest(attempts[..k], st)
        invariant active <==> exists i :: 0 <= i < k && attempts[i].step == st && !Terminal(attempts[i].status)
      {
        assert attempts[..k + 1][..k] == attempts[..k];
        if attempts[k].step == st {
          if number < attempts[k].number { number := attempts[k].number; }
          if !Terminal(attempts[k].status) { active := true; }
        }
        k := k + 1;
      }
      assert attempts[..k] == attempts;
      if active || number >= c.nodes[step.node].retry.maxAttempts { return; }
      var deadline := clock + c.nodes[step.node].timeout;
      if run.deadline.Some? { deadline := Min(deadline, run.deadline.value); }
      a := Some(|attempts|);
      attempts := attempts + [Attempt(st, number + 1, step.key, Pending, deadline, step.input, None, None)];
    }

    /** The attempt, its step and the run fail together. */
    method FailExecution(st: nat, a: nat, code: string)
      requires OnlyLive(Rows(), WorkItem(st, a, 0))
      modifies this`run, this`steps, this`attempts
      ensures attempts == old(attempts)[a := old(attempts)[a].(status := Failed, error := Some(code))]
      ensures steps == old(steps)[st := old(steps)[st].(status := Failed, error := Some(code))]
      ensures run == Fail(old(run), Failed, code)
    {
      var written := WriteAttempt(a, attempts[a].(error := Some(code)));
      var moved := MoveAttempt(a, Failed);
      assert written && moved;
      written := WriteStep(st, steps[st].(error := Some(code)));
      moved := MoveStep(st, Failed);
      assert written && moved;
      FailRun(code);
    }

    method FailRun(code: string)
      requires run.status == Running
      requires forall i :: 0 <= i < |steps| ==> Terminal(steps[i].status)
      modifies this`run
      ensures run == Fail(old(run), Failed, code)
    {
      run := run.(error := Some(code));
      var moved := MoveRun(Failed);
      assert moved;
    }

    /** The attempt has done its part; the step and the run wait. */
    method RegisterWait(st: nat, a: nat, reason: WaitReason, wakeAt: Option<int>)
      requires OnlyLive(Rows(), WorkItem(st, a, 0))
      modifies this`run, this`steps, this`attempts
      ensures attempts == old(attempts)[a := old(attempts)[a].(status := Completed)]
      ensures steps == old(steps)[st := old(steps)[st].(status := Waiting, waiting := reason, wakeAt := wakeAt)]
      ensures run == old(run).(status := Waiting)
    {
      var written := WriteStep(st, steps[st].(waiting := reason, wakeAt := wakeAt));
      var moved := MoveAttempt(a, Completed);
      assert written && moved;
      moved := MoveStep(st, Waiting);
      assert moved;
      moved := MoveRun(Waiting);
      assert moved;
    }

    /** The step is placed at work: a fresh attempt runs it. */
    method StartAttempt(st: nat) returns (a: nat)
      requires Startable(c, Rows()) && st == |steps| - 1
      modifies this`steps, this`attempts
      ensures a == |old(attempts)|
      ensures steps == old(steps)[st := old(steps)[st].(status := Running, error := None, nextAttemptAt := None)]
      ensures attempts == old(attempts) + [NewAttempt(c, old(Rows()), old(steps)[st].input)]
    {
      hide Chained, Numbered, AttemptsOf, Greatest, NewAttempt, AddedAttempt, Min, NoPending, SameIdentity;
      StartableAdds(c, Rows());
      var added := AddAttempt(st);
      a := added.value;
      SameStep(steps[st]);
      var written := WriteStep(st, steps[st].(error := None, nextAttemptAt := None));
      var moved := MoveStep(st, Running);
      assert written && moved;
      moved := MoveAttempt(a, Running);
      assert moved;
    }

    /** The resolved input is stored on the step and its attempt. */
    method Bind(st: nat, a: nat, input: Input)
      requires OnlyLive(Rows(), WorkItem(st, a, 0))
      modifies this`steps, this`attempts
      ensures steps == old(steps)[st := old(steps)[st].(input := Some(input))]
      ensures attempts == old(attempts)[a := old(attempts)[a].(input := Some(input))]
      ensures OnlyLive(Rows(), WorkItem(st, a, 0))
    {
      var written := WriteStep(st, steps[st].(input := Some(input)));
      var kept := WriteAttempt(a, attempts[a].(input := Some(input)));
      assert written && kept;
    }

    /** A delay registers its wake time; one that cannot be scheduled is refused. */
    method ScheduleDelay(st: nat, a: nat, timer: Timer) returns (code: Option<string>)
      requires OnlyLive(Rows(), WorkItem(st, a, 0))
      modifies this`run, this`steps, this`attempts
      ensures match WakeTime(timer, clock)
        case Bad(error) => code == Some(error) && Rows() == old(Rows())
        case Good(due) =>
          && code == None
          && attempts == old(attempts)[a := old(attempts)[a].(status := Completed)]
          && steps == old(steps)[st := old(steps)[st].(status := Waiting, waiting := ForDelay, wakeAt := Some(due))]
          && run == old(run).(status := Waiting)
    {
      var due := if timer.seconds.Some? then clock + timer.seconds.value else Max(clock, timer.at);
      if due - clock > SevenDays { return Some("delay_invalid"); }
      if !timer.acceptsEmpty { return Some("output_invalid"); }
      RegisterWait(st, a, ForDelay, Some(due));
      code := None;
    }

    /** A review gate shows its payload and waits for a reviewer. */
    method RegisterApproval(st: nat, a: nat, gate: Gate) returns (code: Option<string>)
      requires OnlyLive(Rows(), WorkItem(st, a, 0)) && st == |steps| - 1
      requires Chained(approvals, st) && NoPending(approvals)
      modifies this`run, this`steps, this`attempts, this`approvals
      ensures var expiry := if gate.deadline.Some? then Some(clock + gate.deadline.value) else None;
        match NewSnapshot(old(Rows()), old(steps)[st], gate, RetryPayload(old(Rows())),
                          RetryFeedback(old(Rows())), expiry)
        case Bad(error) => code == Some(error) && Rows() == old(Rows())
        case Good(item) =>
          && code == None
          && approvals == old(approvals) + [item]
          && attempts == old(attempts)[a := old(attempts)[a].(status := Completed)]
          && steps == old(steps)[st := old(steps)[st].(status := Waiting, waiting := ForApproval, wakeAt := expiry)]
          && run == old(run).(status := Waiting, retry := None)
    {
      var expiry := if gate.deadline.Some? then Some(clock + gate.deadline.value) else None;
      var candidate := if run.retry.Some? then Some(run.retry.value.payload) else None;
      var feedback := if run.retry.Some? then run.retry.value.feedback else None;
      code := NewApproval(st, gate, candidate, feedback, expiry);
      if code.None? {
        RegisterWait(st, a, ForApproval, expiry);
        run := run.(retry := None);
      }
    }

    /** Store the resolved input and do what the node's type asks for. */
    method ActOnNode(st: nat, a: nat, input: Input, ghost p: State, ghost j: nat) returns (started: bool)
      requires Startable(c, p) && j < |p.jobs|
      requires st == |p.steps| - 1 && a == |p.attempts|
      requires Rows() == p.(
        steps := p.steps[st := p.steps[st].(status := Running, error := None, nextAttemptAt := None)],
        attempts := p.attempts + [NewAttempt(c, p, p.steps[st].input)])
      modifies this`run, this`steps, this`attempts, this`approvals
      ensures |attempts| > 0 && j < |jobs|
      ensures Begin(c, p, j, Good(input)) == Receipt(Rows(), j, started)
    {
      hide Startable, OnlyLive, WakeTime, NewSnapshot, NewAttempt, FailStart, Wait, Receipt, Chained, NoPending;
      StartableFacts(c, p);
      StartedIsOnly(c, p, Rows());
      Bind(st, a, input);
      BoundAttempt(c, p, input);
      SameSnapshots(p, Rows());
      ghost var step, attempt := steps[st], NewAttempt(c, p, Some(input));
      assert attempts == p.attempts + [attempt] && steps == p.steps[st := step];
      var failed: Option<string> := None;
      started := false;
      match c.nodes[steps[st].node].kind {
        case Work =>
          started := true;
          WorkIs(p, Rows(), j, step, attempt);
        case Delay(timer) =>
          failed := ScheduleDelay(st, a, timer);
          if failed.None? { WaitIs(p, Rows(), j, steps[st], attempt); }
        case Approval(gate) =>
          failed := RegisterApproval(st, a, gate);
          if failed.None? { GateIs(p, Rows(), j, steps[st], attempt); }
      }
      if failed.Some? {
        FailExecution(st, a, failed.value);
        FailIs(p, Rows(), j, step, attempt, failed.value);
      }
    }

    /** Start an attempt of the last step and act on its node's type.  `started` says that
        there is work for an executor. */
    method BeginStep(inputs: Outcome<Input>, ghost j: nat) returns (started: bool)
      requires Startable(c, Rows()) && j < |jobs|
      modifies this`run, this`steps, this`attempts, this`approvals
      ensures |attempts| > 0
      ensures Begin(c, old(Rows()), j, inputs) == Receipt(Rows(), j, started)
    {
      hide Startable, OnlyLive, WakeTime, NewSnapshot, NewAttempt, FailStart, Wait, Receipt, Chained, NoPending;
      ghost var p := Rows();
      StartableFacts(c, p);
      var st := |steps| - 1;
      var a := StartAttempt(st);
      ghost var running := steps[st];
      StartedIsOnly(c, p, Rows());
      started := false;
      match inputs {
        case Bad(code) =>
          FailExecution(st, a, code);
          FailIs(p, Rows(), j, running, NewAttempt(c, p, p.steps[st].input), code);
        case Good(input) =>
          started := ActOnNode(st, a, input, p, j);
      }
    }

    /** Scan the rows: the step to resume, and whether another one is in the way. */
    method Scan() returns (resumable: Option<nat>, blocked: bool)
      requires forall i :: 0 <= i < |steps| - 1 ==> Terminal(steps[i].status)
      ensures resumable == if Resuming(Rows()) then Some(|steps| - 1) else None
      ensures blocked == (|steps| > 0 && !Terminal(steps[|steps| - 1].status) && !Resuming(Rows()))
    {
      resumable, blocked := None, false;
      var i := 0;
      while i < |steps|
        invariant i <= |steps|
        invariant i < |steps| || |steps| == 0 ==> resumable.None? && !blocked
        invariant i == |steps| > 0 ==>
          && resumable == (if Resuming(Rows()) then Some(|steps| - 1) else None)
          && blocked == (!Terminal(steps[|steps| - 1].status) && !Resuming(Rows()))
      {
        if steps[i].status == Retrying {
          if resumable.Some? { blocked := true; }
          resumable := Some(i);
        } else if !Terminal(steps[i].status) {
          blocked := true;
        }
        i := i + 1;
      }
    }

    /** The nodes that routing settled as skipped get their rows. */
    method SkipNodes(names: seq<string>)
      requires run.status == Running && AttemptsDone(attempts)
      requires forall i :: 0 <= i < |names| ==> names[i] in c.nodes && !HasRow(steps, names[i])
      requires forall i, k :: 0 <= i < k < |names| ==> names[i] != names[k]
      modifies this`steps
      ensures steps == old(steps) + Skips(names)
    {
      ghost var was := steps;
      var k := 0;
      while k < |names|
        invariant k <= |names|
        invariant steps == was + Skips(names[..k])
      {
        NewRow(was, names, k);
        var st := AddStep(names[k], 0);
        var ok := MoveStep(st.value, Skipped);
        assert ok;
        assert names[..k + 1] == names[..k] + [names[k]];
        k := k + 1;
      }
      assert names[..k] == names;
    }

    /** A node begins with a row of its own. */
    method BeginNode(node: string, iteration: nat, inputs: Outcome<Input>, ghost s: State, ghost j: nat)
      returns (started: bool)
      requires StepMayBeAdded(c, Rows(), node, iteration)
      requires Begins(c, s, Rows().(steps := steps + [NewStep(node, iteration, Pending)]), j)
      modifies this`run, this`steps, this`attempts, this`approvals
      ensures |attempts| > 0
      ensures Begin(c, old(Rows()).(steps := old(steps) + [NewStep(node, iteration, Pending)]), j, inputs)
           == Receipt(Rows(), j, started)
    {
      hide Begin, Begins, Startable, Receipt;
      var st := AddStep(node, iteration);
      assert st.Some?;
      BeginsStartable(c, s, Rows(), j);
      started := BeginStep(inputs, j);
    }

    /** Every node is settled: the run stores its output and completes. */
    method FinishRun(output: Json)
      requires run.status == Running && |steps| > 0
      requires forall i :: 0 <= i < |steps| ==> Succeeded(steps[i].status)
      modifies this`run
      ensures run == old(run).(status := Completed, output := Some(output))
    {
      run := run.(output := Some(output));
      var moved := MoveRun(Completed);
      assert moved;
    }

    /** Without a step to resume: settle skipped routes, then finish, fail or begin the
        node that is ready. */
    method Route(plan: Plan, ghost s: State, ghost claim: Claim) returns (started: bool)
      requires Inv(c, s) && Owns(s, claim, false) && s.jobs[claim.job].dispatchedAt.None?
      requires PlanOk(c, s, plan) && Rows() == Prepared(s, claim.job)
      requires !Resuming(s) && s.run.retry.None?
      modifies this`run, this`steps, this`attempts, this`approvals
      ensures started ==> |attempts| > 0
      ensures PlanOk(c, Prepared(s, claim.job), plan)
      ensures Prepare(c, Prepared(s, claim.job), claim.job, plan) == Receipt(Rows(), claim.job, started)
    {
      hide Inv, PlanOk, Begin, Begins, Startable, StepOk, NotReady, Owns, RunMayMove;
      ghost var j := claim.job;
      SamePlan(c, s, Rows(), plan);
      UndispatchedFacts(c, s, claim);
      AllSucceeded(c, s, claim);
      PlanRows(c, s, plan);
      SkipNodes(plan.skips);
      started := false;
      match plan.choice {
        case Finish(Good(output)) =>
          FinishedRows(c, s, plan);
          FinishRun(output);
        case Finish(Bad(code)) => FailRun(code);
        case Stall => FailRun("graph_stalled");
        case Pick(n) =>
          PickReady(c, s, claim, plan);
          started := BeginNode(n, 0, plan.inputs, s, j);
      }
    }

    /** The step to begin: one that retries, a gate that was sent back, or what routing
        chooses. */
    method StartNode(plan: Plan, resumable: Option<nat>, ghost s: State, ghost claim: Claim)
      returns (started: bool)
      requires Inv(c, s) && Owns(s, claim, false) && s.jobs[claim.job].dispatchedAt.None?
      requires PlanOk(c, s, plan) && Rows() == Prepared(s, claim.job)
      requires resumable == if Resuming(s) then Some(|s.steps| - 1) else None
      modifies this`run, this`steps, this`attempts, this`approvals
      ensures started ==> |attempts| > 0
      ensures PlanOk(c, Prepared(s, claim.job), plan)
      ensures Prepare(c, Prepared(s, claim.job), claim.job, plan) == Receipt(Rows(), claim.job, started)
    {
      hide Inv, PlanOk, Begin, Begins, Startable, StepOk, NotReady, Receipt;
      ghost var j, p := claim.job, Rows();
      SamePlan(c, s, p, plan);
      if resumable.Some? {
        ResumeReady(c, s, claim);
        assert p.(steps := s.steps) == p;
        BeginsStartable(c, s, p, j);
        started := BeginStep(plan.inputs, j);
      } else if run.retry.Some? {
        RetryReady(c, s, claim);
        var retry := run.retry.value;
        RetryRow(c, s, claim);
        started := BeginNode(retry.node, retry.iteration, plan.inputs, s, j);
      } else {
        started := Route(plan, s, claim);
      }
    }

    /** Choose and start the next checkpoint.  `prepared` says that the checkpoint was
        handled, `started` that an executor has work to do. */
    method PrepareNext(plan: Plan, ghost s: State, ghost claim: Claim)
      returns (prepared: bool, started: bool)
      requires Inv(c, s) && Owns(s, claim, false) && s.jobs[claim.job].dispatchedAt.None?
      requires PlanOk(c, s, plan)
      requires Rows() == Prepared(s, claim.job).(run := Bump(s.run))
      modifies this`run, this`steps, this`attempts, this`approvals
      ensures prepared == (s.run.status in {Pending, Running} && !NotReady(s))
      ensures !prepared ==> !started && Rows() == old(Rows())
      ensures prepared && Reached(s.run.deadline, clock) ==>
        !started && Rows() == Stop(s, Failed, "run_deadline", ApprovalExpired).(jobs := jobs)
      ensures started ==> |attempts| > 0
      ensures prepared && !Reached(s.run.deadline, clock) ==>
        && PlanOk(c, Prepared(s, claim.job), plan)
        && Prepare(c, Prepared(s, claim.job), claim.job, plan) == Receipt(Rows(), claim.job, started)
    {
      hide Inv, PlanOk, Begin, Begins, Receipt, Skips, Startable, StepOk, Prepare;
      prepared, started := false, false;
      var j := claim.job;
      if Terminal(run.status) || run.status in {Waiting, Retrying} { return; }
      EarlierSteps(c, s);
      var resumable, blocked := Scan();
      if blocked { return; }
      if resumable.Some? && steps[resumable.value].nextAttemptAt.Some?
         && clock < steps[resumable.value].nextAttemptAt.value && !Reached(run.deadline, clock) { return; }
      prepared := true;
      SamePlan(c, s, Prepared(s, j), plan);
      if Reached(run.deadline, clock) {
        LiveRows(c, s);
        LiveStatus(c, s);
        ExpireExecution();
        return;
      }
      if run.status == Pending {
        var moved := MoveRun(Running);
        assert moved;
      }
      assert Rows() == Prepared(s, j);
      started := StartNode(plan, resumable, s, claim);
    }

    /** Dispatch a claimed job: mark it, prepare its checkpoint, and bind the attempt an
        executor is to run, or close the job when there is nothing to run. */
    method ProcessClaim(claim: Claim, plan: Plan) returns (work: Option<WorkItem>)
      requires Valid() && PlanOk(c, Rows(), plan)
      modifies this
      ensures Valid() && Rows() == Dispatch(c, old(Rows()), claim, plan)
      ensures work.Some? ==>
        && claim.job < |jobs| && Owns(Rows(), claim, false) && Dispatched(Rows(), claim.job, work.value)
        && work.value.revision == run.revision
    {
      hide Inv, PlanOk, Prepare, NotReady, StopSteps, StopAttempts, ClosePending;
      ghost var s := Rows();
      DispatchOk(c, s, claim, plan);
      if !IsOwned(claim, false) || jobs[claim.job].dispatchedAt.Some? { return None; }
      NotYetBound(c, s, claim);
      var j := claim.job;
      var ok := UpdateJob(j, jobs[j].(dispatchedAt := Some(clock)));
      assert ok;
      run := run.(revision := run.revision + 1);
      var prepared, started := PrepareNext(plan, s, claim);
      work := None;
      if started {
        ok := UpdateJob(j, jobs[j].(attempt := Some(|attempts| - 1)));
        assert ok;
        BoundWork(c, Rows(), j);
        work := Some(WorkItem(|steps| - 1, |attempts| - 1, run.revision));
      } else if prepared {
        ok := FinishJob(claim, if run.status == Waiting then JobCompleted else TerminalJobStatus(run.status),
                        run.error, false);
        assert ok;
      } else {
        ok := FinishJob(claim, if run.status == Waiting then JobCompleted else TerminalJobStatus(run.status),
                        if run.status in {Completed, Waiting} then None
                        else if run.error.Some? then run.error else Some("checkpoint_not_ready"), false);
        assert ok;
      }
    }
  }
}
