/** What the database itself insists on, whatever the services do: the guards on job,
    step, attempt and approval rows.  Every transaction meets them. */
module History {
  import opened Records
  import opened Runtime
  import opened Invariant
  import opened Tables
  import opened Preserve
  import opened PreserveResults
  import opened PreserveApprovals
  import opened PreserveDispatch

  /** The trigger `preserve_durable_job` on an update of one job row. */
  predicate TriggerAccepts(before: Job, after: Job, now: int) {
    var reclaim := before.status == JobRunning && after.status == JobQueued
      && before.lease.Some? && before.lease.value <= now
      && after.recoveries == before.recoveries + 1;
    && after.sequence == before.sequence && after.target == before.target
    && after.createdAt == before.createdAt
    && Active(before.status)
    && (reclaim ||
        (&& (before.token.Some? ==> after.token == before.token)
         && (before.attempt.Some? ==> after.attempt == before.attempt)
         && (before.dispatchedAt.Some? ==> after.dispatchedAt == before.dispatchedAt)
         && after.recoveries == before.recoveries))
    && (after.status == before.status
        || (before.status == JobQueued && after.status != JobQueued)
        || reclaim
        || (before.status == JobRunning && !Active(after.status)))
  }

  /** The lease of a job that stays with its worker changes only before it has run out. */
  predicate LeaseMoves(before: Job, after: Job, now: int) {
    before.status == JobRunning && after.status == JobRunning && before.lease.Some? ==>
      after.lease == before.lease || before.lease.value > now
  }

  /** A job row is untouched, or updated as the trigger allows; a new token is fresh. */
  predicate JobMoves(before: Job, after: Job, tokens: nat, now: int) {
    || after == before
    || (&& TriggerAccepts(before, after, now) && LeaseMoves(before, after, now)
        && after.token in {before.token, None, Some(tokens)})
  }

  predicate JobsMove(before: seq<Job>, after: seq<Job>, tokens: nat, now: int) {
    && |before| <= |after|
    && (forall j :: 0 <= j < |before| ==> JobMoves(before[j], after[j], tokens, now))
    && (forall j :: |before| <= j < |after| ==>
          after[j].status == JobQueued && after[j].token.None? && after[j].recoveries == 0)
  }

  /** `preserve_execution_identity` on steps: identity is fixed and terminal rows frozen. */
  predicate StepsMove(before: seq<Step>, after: seq<Step>) {
    && Extends(before, after)
    && (forall i :: 0 <= i < |before| && Terminal(before[i].status) ==> after[i] == before[i])
  }

  predicate AttemptsMove(before: seq<Attempt>, after: seq<Attempt>) {
    && |before| <= |after|
    && (forall i :: 0 <= i < |before| ==>
          SameAttempt(before[i], after[i])
          && (Terminal(before[i].status) ==> after[i] == before[i]))
  }

  /** `preserve_approvals`: snapshots are fixed and resolved ones never change. */
  predicate ApprovalsMove(before: seq<Snapshot>, after: seq<Snapshot>) {
    && |before| <= |after|
    && (forall i :: 0 <= i < |before| ==>
          SameSnapshot(before[i], after[i])
          && (before[i].status != AwaitingDecision ==> after[i] == before[i]))
  }

  predicate Moves(s: State, t: State) {
    && JobsMove(s.jobs, t.jobs, s.tokens, t.clock)
    && StepsMove(s.steps, t.steps)
    && AttemptsMove(s.attempts, t.attempts)
    && ApprovalsMove(s.approvals, t.approvals)
    && s.tokens <= t.tokens && s.clock <= t.clock && s.run.deadline == t.run.deadline
    && s.run.revision <= t.run.revision
    && (Terminal(s.run.status) ==> t.run == s.run)
  }

  lemma ClaimMoves(c: Config, s: State, j: nat)
    requires Inv(c, s)
    ensures Moves(s, ClaimJob(c, s, j))
  {
    hide Inv, ShapeOk, JobsOk;
    if Claimable(s, j) {
      JobAt(c, s, j);
      ActiveIsLast(c, s, j);
    }
  }

  lemma RenewMoves(c: Config, s: State, claim: Claim)
    ensures Moves(s, Renew(c, s, claim))
  { }

  lemma StopMoves(s: State, status: Status, code: string, close: ApprovalStatus)
    ensures var t := Stop(s, status, code, close);
      && StepsMove(s.steps, t.steps) && AttemptsMove(s.attempts, t.attempts)
      && ApprovalsMove(s.approvals, t.approvals)
  { }

  lemma StopJobsMove(jobs: seq<Job>, tokens: nat, status: JobStatus, code: Option<string>, now: int)
    requires !Active(status)
    ensures JobsMove(jobs, StopJobs(jobs, status, code, now), tokens, now)
  { }

  lemma ExpireRunMoves(s: State)
    requires !Terminal(s.run.status)
    ensures Moves(s, ExpireRun(s))
  {
    hide StepsMove, AttemptsMove, ApprovalsMove, JobsMove;
    StopMoves(s, Failed, "run_deadline", ApprovalExpired);
    StopJobsMove(s.jobs, s.tokens, JobFailed, Some("run_deadline"), s.clock);
  }

  lemma CancelMoves(s: State)
    ensures Moves(s, Cancel(s))
  {
    hide StepsMove, AttemptsMove, ApprovalsMove, JobsMove;
    StopMoves(s, Cancelled, "cancelled", ApprovalCancelled);
    StopJobsMove(s.jobs, s.tokens, JobCancelled, Some("cancelled"), s.clock);
    Reflexive(s);
  }

  lemma Reflexive(s: State)
    ensures Moves(s, s)
  { }

  // ---------- recovery and results ----------

  lemma RequeueMoves(c: Config, s: State, j: nat, due: int)
    requires Inv(c, s) && s.run.status in {Pending, Running}
    requires j < |s.jobs| && s.jobs[j].status == JobRunning
    requires s.jobs[j].lease.Some? && s.jobs[j].lease.value <= s.clock
    ensures Moves(s, Requeue(s, j, due))
  {
    hide Inv;
  }

  lemma AbandonMoves(s: State, j: nat, code: string)
    requires !Terminal(s.run.status) && j < |s.jobs| && s.jobs[j].status == JobRunning
    ensures Moves(s, Abandon(s, j, code))
  { }

  lemma RecoverMoves(c: Config, s: State, claim: Claim, delay: nat)
    requires Inv(c, s)
    ensures Moves(s, Recover(c, s, claim, delay))
  {
    hide Inv, Requeue, Abandon, Moves, RetryDecision;
    Reflexive(s);
    if Owns(s, claim, true) && s.jobs[claim.job].lease.value <= s.clock {
      var j := claim.job;
      ActiveIsLast(c, s, j);
      forall due { RequeueMoves(c, s, j, due); }
      forall code { AbandonMoves(s, j, code); }
    }
  }

  lemma SettleMoves(s: State, j: nat, work: WorkItem, step: Step, attempt: Attempt,
                    status: JobStatus, code: Option<string>)
    requires j < |s.jobs| && Active(s.jobs[j].status) && Dispatched(s, j, work) && !Active(status)
    requires SameIdentity(s.steps[work.step], step) && SameAttempt(s.attempts[work.attempt], attempt)
    ensures Moves(s, Settle(s, j, work, step, attempt, status, code))
  { }

  lemma CommitWorkMoves(c: Config, s: State, j: nat, work: WorkItem, result: Result, delay: nat)
    requires j < |s.jobs| && Active(s.jobs[j].status) && Dispatched(s, j, work)
    ensures Moves(s, CommitWork(c, s, j, work, result, delay))
  {
    hide Moves, Settle, RetryDecision, Effective;
    Reflexive(s);
    var step, attempt := s.steps[work.step], s.attempts[work.attempt];
    if step.node in c.nodes {
      match Effective(s, work, result) {
        case Output(value) =>
          SettleMoves(s, j, work, step.(status := Completed, output := Some(value)),
                      attempt.(status := Completed, output := Some(value)), JobCompleted, None);
        case Error(code, notBefore) =>
          var d := RetryDecision(c.nodes[step.node].retry, attempt.number, code, s.clock,
                                 s.run.deadline, false, delay, notBefore);
          SettleMoves(s, j, work,
                      step.(status := if d.due.Some? then Retrying else Failed,
                            error := Some(d.code), nextAttemptAt := d.due),
                      attempt.(status := Failed, error := Some(code)), JobFailed, Some(d.code));
      }
    }
  }

  lemma CommitMoves(c: Config, s: State, claim: Claim, work: WorkItem, result: Result, delay: nat)
    ensures Moves(s, Commit(c, s, claim, work, result, delay))
  {
    hide Moves, CommitWork;
    Reflexive(s);
    if Owns(s, claim, false) && Dispatched(s, claim.job, work) {
      CommitWorkMoves(c, s, claim.job, work, result, delay);
    }
  }

  lemma WatchdogMoves(c: Config, s: State, j: nat, delay: nat)
    ensures Moves(s, Watchdog(c, s, j, delay))
  {
    hide Moves, CommitWork, ExpireRun;
    Reflexive(s);
    if j < |s.jobs| && Active(s.jobs[j].status) && !Terminal(s.run.status) {
      if Reached(s.run.deadline, s.clock) {
        ExpireRunMoves(s);
      } else if s.jobs[j].attempt.Some? && s.jobs[j].attempt.value < |s.attempts| {
        var a := s.jobs[j].attempt.value;
        var work := WorkItem(s.attempts[a].step, a, s.run.revision);
        if Dispatched(s, j, work) {
          CommitWorkMoves(c, s, j, work, Error("attempt_timeout", None), delay);
        }
      }
    }
  }

  // ---------- timers and reviewers ----------

  lemma WakeMoves(c: Config, s: State, st: nat)
    ensures Moves(s, Wake(s, st))
  {
    hide ExpireRun, NextSequence;
    if st < |s.steps| && s.run.status in {Running, Waiting} { ExpireRunMoves(s); }
  }

  lemma TerminateWaitMoves(s: State, a: nat, item: Snapshot, st: nat, code: string, rejected: bool)
    requires !Terminal(s.run.status) && st < |s.steps| && !Terminal(s.steps[st].status)
    requires a < |s.approvals| && s.approvals[a].status == AwaitingDecision
    requires SameSnapshot(s.approvals[a], item)
    ensures Moves(s, TerminateWait(s.(approvals := s.approvals[a := item]), st, code, rejected))
  { }

  lemma ResumeMoves(s: State, a: nat, item: Snapshot, run: Run, st: nat, output: Option<Json>)
    requires !Terminal(s.run.status) && st < |s.steps| && !Terminal(s.steps[st].status)
    requires a < |s.approvals| && s.approvals[a].status == AwaitingDecision
    requires SameSnapshot(s.approvals[a], item)
    requires run.revision == s.run.revision && run.deadline == s.run.deadline
    ensures Moves(s, Resume(s.(approvals := s.approvals[a := item], run := run), st, output))
  {
    hide NextSequence;
  }

  lemma ReplaceMoves(s: State, a: nat, item: Snapshot, next: Snapshot)
    requires !Terminal(s.run.status)
    requires a < |s.approvals| && s.approvals[a].status == AwaitingDecision
    requires SameSnapshot(s.approvals[a], item)
    ensures Moves(s, s.(approvals := s.approvals[a := item] + [next], run := Bump(s.run)))
  { }

  lemma ExpireMoves(c: Config, s: State, a: nat)
    requires Inv(c, s) && Gated(c, s, a)
    ensures Moves(s, Expire(s, a, c.nodes[s.approvals[a].node].kind.gate))
  {
    hide Inv, Moves, ExpireRun, TerminateWait, WaitingShape;
    GatedFacts(c, s, a);
    var item := s.approvals[a];
    ExpireRunMoves(s);
    TerminateWaitMoves(s, a, item.(status := ApprovalExpired, resolvedAt := Some(s.clock)),
                       item.step, "approval_expired", c.nodes[item.node].kind.gate.timeoutRejects);
  }

  lemma ExpireApprovalMoves(c: Config, s: State, a: nat)
    requires Inv(c, s)
    ensures Moves(s, ExpireApproval(c, s, a))
  {
    hide Inv, Moves, Expire;
    Reflexive(s);
    if Gated(c, s, a) { ExpireMoves(c, s, a); }
  }

  lemma InvalidateMoves(c: Config, s: State, a: nat)
    requires Inv(c, s) && Gated(c, s, a)
    ensures Moves(s, Invalidate(s, a, c.nodes[s.approvals[a].node].kind.gate))
  {
    hide Inv, Moves, TerminateWait, WaitingShape, NewSnapshot;
    GatedFacts(c, s, a);
    var item := s.approvals[a].(status := Invalidated, resolvedAt := Some(s.clock));
    TerminateWaitMoves(s, a, item, item.step, "approval_input_invalid", false);
    forall next { ReplaceMoves(s, a, item, next); }
  }

  lemma DecideMoves(c: Config, s: State, a: nat, who: Reviewer, request: Request)
    requires Inv(c, s)
    ensures Moves(s, Decide(c, s, a, who, request))
  {
    hide Inv, Moves, Expire, Invalidate, Resume, TerminateWait, WaitingShape, NewSnapshot;
    Reflexive(s);
    if Gated(c, s, a) {
      var item := s.approvals[a];
      GatedFacts(c, s, a);
      ExpireMoves(c, s, a);
      InvalidateMoves(c, s, a);
      match request.action {
        case Approve =>
          ResumeMoves(s, a, Decided(item, Approved, who, request, s.clock), s.run, item.step,
                      Some(item.payload));
        case Reject =>
          TerminateWaitMoves(s, a, Decided(item, Rejected, who, request, s.clock), item.step,
                             "approval_rejected", true);
        case RequestRetry =>
          var step := s.steps[item.step];
          var retry := Retry(step.node, step.iteration + 1, item.payload, request.feedback);
          ResumeMoves(s, a, Decided(item, RetryRequested, who, request, s.clock),
                      s.run.(retry := Some(retry)), item.step, None);
        case Edit(payload) =>
          var superseded := Decided(item, Superseded, who, request, s.clock)
                            .(replacement := Some(|s.approvals|));
          forall next { ReplaceMoves(s, a, superseded, next); }
      }
    }
  }

  lemma ChangeInputMoves(c: Config, s: State, st: nat, input: Input)
    requires Inv(c, s)
    ensures Moves(s, ChangeInput(s, st, input))
  {
    hide Inv, WaitingShape;
    if st < |s.steps| && s.steps[st].status == Waiting { WaitingFacts(c, s, st); }
  }

  // ---------- dispatch ----------

  /** What preparing a checkpoint may do: add rows, move the last one, settle one job. */
  predicate Prepares(s: State, t: State, j: nat) {
    && j < |s.jobs| && j < |t.jobs| && t.jobs == s.jobs[j := t.jobs[j]]
    && TriggerAccepts(s.jobs[j], t.jobs[j], t.clock)
    && t.jobs[j].token == s.jobs[j].token && t.jobs[j].lease == s.jobs[j].lease
    && StepsMove(s.steps, t.steps)
    && AttemptsMove(s.attempts, t.attempts)
    && ApprovalsMove(s.approvals, t.approvals)
    && t.tokens == s.tokens && t.clock == s.clock && t.run.deadline == s.run.deadline
    && s.run.revision <= t.run.revision
  }

  lemma PreparesMoves(s: State, t: State, j: nat)
    requires Prepares(s, t, j) && !Terminal(s.run.status)
    ensures Moves(s, t)
  {
    hide StepsMove, AttemptsMove, ApprovalsMove, TriggerAccepts;
  }

  /** The state in which an attempt of the last step begins, seen from `s`. */
  predicate Onto(s: State, p: State, j: nat) {
    && j < |s.jobs| && p.jobs == s.jobs[j := Marked(s, j)]
    && s.jobs[j].status == JobRunning && s.jobs[j].dispatchedAt.None? && s.jobs[j].attempt.None?
    && |p.steps| > 0 && |p.steps| >= |s.steps|
    && (forall i :: 0 <= i < |s.steps| ==>
          p.steps[i] == s.steps[i] && (i == |p.steps| - 1 ==> !Terminal(s.steps[i].status)))
    && p.attempts == s.attempts && p.approvals == s.approvals
    && p.tokens == s.tokens && p.clock == s.clock
    && p.run.deadline == s.run.deadline && s.run.revision <= p.run.revision
  }

  lemma BeginPrepares(c: Config, s: State, p: State, j: nat, inputs: Outcome<Input>)
    requires Onto(s, p, j) && p.steps[|p.steps| - 1].node in c.nodes
    ensures Prepares(s, Begin(c, p, j, inputs), j)
  {
    hide WakeTime, NewSnapshot, StepsMove, AttemptsMove;
    var t := Begin(c, p, j, inputs);
    BeginRows(c, s, p, j, inputs);
  }

  lemma BeginRows(c: Config, s: State, p: State, j: nat, inputs: Outcome<Input>)
    requires Onto(s, p, j) && p.steps[|p.steps| - 1].node in c.nodes
    ensures var t := Begin(c, p, j, inputs);
      StepsMove(s.steps, t.steps) && AttemptsMove(s.attempts, t.attempts)
  {
    hide WakeTime, NewSnapshot;
  }

  lemma DispatchMoves(c: Config, s: State, claim: Claim, plan: Plan)
    requires Inv(c, s)
    ensures Moves(s, Dispatch(c, s, claim, plan))
  {
    hide Inv, Moves, Prepare, PlanOk, NotReady, Stop, QueuedShape, PendingShape;
    Reflexive(s);
    if Owns(s, claim, false) && s.jobs[claim.job].dispatchedAt.None? {
      UndispatchedFacts(c, s, claim);
      NotYetBound(c, s, claim);
      if Reached(s.run.deadline, s.clock) {
        DeadlineMoves(s, claim.job);
      } else if PlanOk(c, s, plan) {
        PrepareMoves(c, s, claim, plan);
      }
    }
  }

  lemma DeadlineMoves(s: State, j: nat)
    requires !Terminal(s.run.status) && j < |s.jobs| && s.jobs[j].status == JobRunning
    requires s.jobs[j].dispatchedAt.None?
    ensures Moves(s, CloseJob(Stop(s, Failed, "run_deadline", ApprovalExpired)
                                .(jobs := s.jobs[j := Marked(s, j)]), j, JobFailed, Some("run_deadline")))
  {
    hide StepsMove, AttemptsMove, ApprovalsMove;
    StopMoves(s, Failed, "run_deadline", ApprovalExpired);
  }

  lemma PrepareMoves(c: Config, s: State, claim: Claim, plan: Plan)
    requires Inv(c, s) && Owns(s, claim, false) && s.jobs[claim.job].dispatchedAt.None?
    requires PlanOk(c, s, plan)
    ensures PlanOk(c, Prepared(s, claim.job), plan)
    ensures Moves(s, Prepare(c, Prepared(s, claim.job), claim.job, plan))
  {
    hide Inv, Moves, Begin, PlanOk, NotReady, Prepares, Begins, PendingShape, QueuedShape;
    var j := claim.job;
    var p := Prepared(s, j);
    SamePlan(c, s, p, plan);
    UndispatchedFacts(c, s, claim);
    NotYetBound(c, s, claim);
    if Resuming(s) {
      ResumeReady(c, s, claim);
      BeginPrepares(c, s, p, j, plan.inputs);
      PreparesMoves(s, Begin(c, p, j, plan.inputs), j);
    } else if s.run.retry.Some? {
      RetryReady(c, s, claim);
      var r := s.run.retry.value;
      var b := p.(steps := s.steps + [NewStep(r.node, r.iteration, Pending)]);
      BeginPrepares(c, s, b, j, plan.inputs);
      PreparesMoves(s, Begin(c, b, j, plan.inputs), j);
    } else {
      RoutedMoves(c, s, j, plan);
      if plan.choice.Pick? {
        PickNode(c, s, plan);
        var b := p.(steps := s.steps + Skips(plan.skips) + [NewStep(plan.choice.node, 0, Pending)]);
        BeginPrepares(c, s, b, j, plan.inputs);
        PreparesMoves(s, Begin(c, b, j, plan.inputs), j);
      }
    }
  }

  lemma PickNode(c: Config, s: State, plan: Plan)
    requires PlanOk(c, s, plan) && plan.choice.Pick?
    ensures plan.choice.node in c.nodes
  { }

  /** A checkpoint that ends the run without starting an attempt. */
  lemma RoutedMoves(c: Config, s: State, j: nat, plan: Plan)
    requires !Terminal(s.run.status) && j < |s.jobs| && s.jobs[j].status == JobRunning
    requires s.jobs[j].dispatchedAt.None?
    ensures var p := Prepared(s, j).(steps := s.steps + Skips(plan.skips));
      forall run: Run, status: JobStatus, code ::
        !Active(status) && run.deadline == s.run.deadline && run.revision == s.run.revision + 1 ==>
          Moves(s, CloseJob(p.(run := run), j, status, code))
  {
    forall run: Run, status: JobStatus, code |
      !Active(status) && run.deadline == s.run.deadline && run.revision == s.run.revision + 1
      ensures Moves(s, CloseJob(Prepared(s, j).(steps := s.steps + Skips(plan.skips)).(run := run),
                                j, status, code))
    { }
  }

  /** Every transaction, in every reachable state, does only what the database allows. */
  lemma StepMoves(c: Config, s: State, t: Tick)
    requires Inv(c, s)
    ensures Moves(s, Apply(c, s, t))
  {
    hide Inv, Moves, ClaimJob, Renew, Dispatch, Commit, Watchdog, Recover, Wake, Decide,
         ExpireApproval, Cancel, ChangeInput;
    var s' := s.(clock := s.clock + t.after);
    TimeOk(c, s, t.after);
    match t.event {
      case DoClaim(j) => ClaimMoves(c, s', j);
      case DoRenew(claim) => RenewMoves(c, s', claim);
      case DoDispatch(claim, plan) => DispatchMoves(c, s', claim, plan);
      case DoCommit(claim, work, result, delay) => CommitMoves(c, s', claim, work, result, delay);
      case DoWatchdog(j, delay) => WatchdogMoves(c, s', j, delay);
      case DoRecover(claim, delay) => RecoverMoves(c, s', claim, delay);
      case DoWake(st) => WakeMoves(c, s', st);
      case DoDecide(a, who, request) => DecideMoves(c, s', a, who, request);
      case DoExpireApproval(a) => ExpireApprovalMoves(c, s', a);
      case DoCancel => CancelMoves(s');
      case DoChangeInput(st, input) => ChangeInputMoves(c, s', st, input);
    }
    TimeMoves(s, t.after, Apply(c, s, t));
  }

  lemma TimeMoves(s: State, after: nat, t: State)
    requires Moves(s.(clock := s.clock + after), t)
    ensures Moves(s, t)
  {
    hide JobsMove, StepsMove, AttemptsMove, ApprovalsMove;
  }

  lemma ApplyOk(c: Config, s: State, t: Tick)
    requires Inv(c, s)
    ensures Inv(c, Apply(c, s, t))
  {
    hide Inv, ClaimJob, Renew, Dispatch, Commit, Watchdog, Recover, Wake, Decide,
         ExpireApproval, Cancel, ChangeInput;
    var s' := s.(clock := s.clock + t.after);
    TimeOk(c, s, t.after);
    match t.event {
      case DoClaim(j) => ClaimOk(c, s', j);
      case DoRenew(claim) => RenewOk(c, s', claim);
      case DoDispatch(claim, plan) => DispatchOk(c, s', claim, plan);
      case DoCommit(claim, work, result, delay) => CommitOk(c, s', claim, work, result, delay);
      case DoWatchdog(j, delay) => WatchdogOk(c, s', j, delay);
      case DoRecover(claim, delay) => RecoverOk(c, s', claim, delay);
      case DoWake(st) => WakeOk(c, s', st);
      case DoDecide(a, who, request) => DecideOk(c, s', a, who, request);
      case DoExpireApproval(a) => ExpireApprovalOk(c, s', a);
      case DoCancel => CancelOk(c, s');
      case DoChangeInput(st, input) => ChangeInputOk(c, s', st, input);
    }
  }
}
