/** The inductive invariant of a linear run. */
module Invariant {
  import opened Records
  import opened Runtime

  // ---------- jobs ----------

  predicate JobOk(c: Config, job: Job, i: nat, tokens: nat, clock: int) {
    && job.sequence == i
    && job.target == Main
    && job.recoveries <= c.maxRecoveries
    && (job.token.Some? ==> job.token.value < tokens)
    && (job.status == JobQueued ==>
          job.token.None? && job.attempt.None? && job.dispatchedAt.None? && job.lease.None?)
    && (job.status == JobRunning ==>
          job.token.Some? && job.lease.Some? && job.dueAt <= clock
          && job.attempt.Some? == job.dispatchedAt.Some?)
    && job.completedAt.Some? == !Active(job.status)
  }

  predicate JobsOk(c: Config, jobs: seq<Job>, tokens: nat, clock: int) {
    && |jobs| > 0
    && (forall i :: 0 <= i < |jobs| ==> JobOk(c, jobs[i], i, tokens, clock))
    && (forall i :: 0 <= i < |jobs| - 1 ==> !Active(jobs[i].status))
    && (forall i, k :: 0 <= i < k < |jobs| && jobs[i].token.Some? && jobs[k].token.Some? ==>
          jobs[i].token.value != jobs[k].token.value)
  }

  // ---------- steps and attempts ----------

  predicate StepOk(c: Config, step: Step) {
    && step.node in c.nodes
    && step.key == Key(step.node, step.iteration)
    && var kind := c.nodes[step.node].kind;
    && (kind.Approval? ==> step.iteration <= kind.gate.maxReviewRetries)
    && (!kind.Approval? ==> step.iteration == 0)
    && step.status != Pending
    && (step.status in {Running, Retrying} ==> kind.Work?)
    && (step.status == Running ==> step.nextAttemptAt.None?)
    && (step.status == Retrying ==> step.nextAttemptAt.Some?)
    && (step.status == Waiting ==>
          || (step.waiting == ForDelay && step.wakeAt.Some? && kind.Delay?)
          || (step.waiting == ForApproval && kind.Approval?))
  }

  predicate StepsOk(c: Config, steps: seq<Step>) {
    && (forall i :: 0 <= i < |steps| ==> StepOk(c, steps[i]))
    && (forall i :: 0 <= i < |steps| - 1 ==> Succeeded(steps[i].status))
    && (forall i, k :: 0 <= i < k < |steps| && steps[i].node == steps[k].node ==>
          steps[i].iteration < steps[k].iteration)
  }

  predicate AttemptOk(c: Config, deadline: Option<int>, steps: seq<Step>, attempt: Attempt) {
    && attempt.step < |steps|
    && steps[attempt.step].node in c.nodes
    && attempt.key == steps[attempt.step].key
    && 1 <= attempt.number <= c.nodes[steps[attempt.step].node].retry.maxAttempts
    && attempt.status in {Running, Completed, Failed, Cancelled}
    && (attempt.status == Running ==> steps[attempt.step].status == Running)
    && (deadline.Some? ==> attempt.deadline <= deadline.value)
  }

  predicate AttemptsOk(c: Config, deadline: Option<int>, steps: seq<Step>, attempts: seq<Attempt>) {
    && (forall i :: 0 <= i < |attempts| ==> AttemptOk(c, deadline, steps, attempts[i]))
    && (forall i, k :: 0 <= i < k < |attempts| ==> attempts[i].step <= attempts[k].step)
    && (forall i :: 0 <= i < |attempts| ==>
          attempts[i].number == AttemptsOf(attempts[..i], attempts[i].step) + 1)
    && (forall i :: 0 <= i < |attempts| - 1 ==> Terminal(attempts[i].status))
  }

  // ---------- approval snapshots ----------

  /** A reviewer's decision on a snapshot, made in time and about what was shown. */
  predicate DecisionOk(deadline: Option<int>, item: Snapshot) {
    && item.decidedBy.Some? == item.request.Some?
    && (item.decidedBy.Some? ==>
          && item.resolvedAt.Some?
          && item.request.value.expected == item.digest
          && !Reached(deadline, item.resolvedAt.value)
          && !Reached(item.expiresAt, item.resolvedAt.value))
    && (item.status == Approved ==> item.decidedBy.Some? && item.request.value.action == Approve)
    && (item.status == Rejected ==> item.decidedBy.Some? && item.request.value.action == Reject)
    && (item.status == RetryRequested ==>
          item.decidedBy.Some? && item.request.value.action == RequestRetry)
    && (item.status == Superseded ==> item.decidedBy.Some? && item.request.value.action.Edit?)
    && (item.status in {AwaitingDecision, Invalidated, ApprovalCancelled, ApprovalExpired} ==>
          item.decidedBy.None?)
    && item.resolvedAt.None? == (item.status == AwaitingDecision)
  }

  predicate SnapshotOk(c: Config, deadline: Option<int>, steps: seq<Step>, item: Snapshot) {
    && item.step < |steps|
    && var step := steps[item.step];
    && step.node in c.nodes && c.nodes[step.node].kind.Approval?
    && item.node == step.node && item.iteration == step.iteration
    && item.source.step == item.step && item.source.node == step.node
    && item.source.iteration == step.iteration
    && item.digest == PayloadDigest(item.source, item.payload, item.review, item.revision)
    && DecisionOk(deadline, item)
    && (item.status == AwaitingDecision ==> step.status == Waiting)
    && (item.status == Approved ==>
          step.status == Completed && step.output == Some(item.payload)
          && item.source == SourceOf(item.step, step))
    && (item.status == RetryRequested ==> step.status == Completed && step.output.None?)
  }

  /** How a snapshot relates to the one before it in the table. */
  predicate Follows(prev: Snapshot, next: Snapshot, nextIndex: nat) {
    && prev.step <= next.step
    && (prev.step == next.step ==>
          && prev.status in {Superseded, Invalidated}
          && next.expiresAt == prev.expiresAt)
    && (prev.status == Superseded ==>
          prev.step == next.step && prev.replacement == Some(nextIndex))
  }

  predicate ApprovalDone(c: Config, step: Step) {
    step.status == Completed && step.node in c.nodes && c.nodes[step.node].kind.Approval?
  }

  /** A snapshot of step `st` was approved or sent back. */
  predicate DecidedAt(approvals: seq<Snapshot>, st: nat) {
    exists i :: 0 <= i < |approvals| && approvals[i].step == st
                && approvals[i].status in {Approved, RetryRequested}
  }

  /** Revisions, links and the place of the pending snapshot. */
  predicate ChainOk(approvals: seq<Snapshot>) {
    && (forall i :: 0 <= i < |approvals| ==>
          approvals[i].revision == NextRevision(approvals[..i], approvals[i].step))
    && (forall i :: 0 < i < |approvals| ==> Follows(approvals[i - 1], approvals[i], i))
    && (forall i :: 0 <= i < |approvals| - 1 ==> approvals[i].status != AwaitingDecision)
    && (forall i :: 0 <= i < |approvals| ==>
          approvals[i].replacement.Some? == (approvals[i].status == Superseded))
    && (|approvals| > 0 ==> approvals[|approvals| - 1].status != Superseded)
  }

  predicate SnapshotsOk(c: Config, deadline: Option<int>, steps: seq<Step>, approvals: seq<Snapshot>) {
    forall i :: 0 <= i < |approvals| ==> SnapshotOk(c, deadline, steps, approvals[i])
  }

  predicate GatesDecided(c: Config, steps: seq<Step>, approvals: seq<Snapshot>) {
    forall st :: 0 <= st < |steps| && ApprovalDone(c, steps[st]) ==> DecidedAt(approvals, st)
  }

  predicate ApprovalsOk(c: Config, deadline: Option<int>, steps: seq<Step>, approvals: seq<Snapshot>) {
    && ChainOk(approvals)
    && SnapshotsOk(c, deadline, steps, approvals)
    && GatesDecided(c, steps, approvals)
  }

  // ---------- how the tables fit the run's status ----------

  predicate AllTerminal(s: State) {
    && NoActiveJob(s.jobs)
    && (forall i :: 0 <= i < |s.steps| ==> Terminal(s.steps[i].status))
    && (forall i :: 0 <= i < |s.attempts| ==> Terminal(s.attempts[i].status))
    && (forall i :: 0 <= i < |s.approvals| ==> s.approvals[i].status != AwaitingDecision)
  }

  predicate NoPending(approvals: seq<Snapshot>) {
    forall i :: 0 <= i < |approvals| ==> approvals[i].status != AwaitingDecision
  }

  predicate AttemptsDone(attempts: seq<Attempt>) {
    forall i :: 0 <= i < |attempts| ==> Terminal(attempts[i].status)
  }

  predicate PendingShape(s: State) {
    && s.steps == [] && s.attempts == [] && s.approvals == []
    && |s.jobs| == 1 && Active(s.jobs[0].status) && s.jobs[0].dispatchedAt.None?
    && s.run.retry.None?
  }

  /** A worker executes the last attempt of the last step. */
  predicate ExecutingShape(s: State) {
    && |s.jobs| > 0 && |s.steps| > 0 && |s.attempts| > 0
    && var job := s.jobs[|s.jobs| - 1];
    && job.status == JobRunning && job.dispatchedAt.Some?
    && job.attempt == Some(|s.attempts| - 1)
    && s.attempts[|s.attempts| - 1].status == Running
    && s.attempts[|s.attempts| - 1].step == |s.steps| - 1
    && s.steps[|s.steps| - 1].status == Running
    && s.run.retry.None?
    && NoPending(s.approvals)
  }

  /** The next checkpoint is queued, or claimed and not yet dispatched. */
  predicate QueuedShape(c: Config, s: State) {
    && |s.jobs| > 0
    && var job := s.jobs[|s.jobs| - 1];
    && Active(job.status) && job.dispatchedAt.None?
    && AttemptsDone(s.attempts)
    && NoPending(s.approvals)
    && (|s.steps| > 0 ==>
          && var last := s.steps[|s.steps| - 1];
          && last.status in {Completed, Skipped, Retrying}
          && (last.status == Retrying ==>
                && s.run.retry.None?
                && last.nextAttemptAt.Some? && last.nextAttemptAt.value <= job.dueAt
                && last.node in c.nodes
                && 1 <= AttemptsOf(s.attempts, |s.steps| - 1) < c.nodes[last.node].retry.maxAttempts))
    && (s.run.retry.Some? ==>
          && |s.steps| > 0
          && var last := s.steps[|s.steps| - 1];
          && var r := s.run.retry.value;
          && last.status == Completed && r.node == last.node && r.iteration == last.iteration + 1
          && last.node in c.nodes && c.nodes[last.node].kind.Approval?
          && r.iteration <= c.nodes[last.node].kind.gate.maxReviewRetries
          && (forall i :: 0 <= i < |s.steps| && s.steps[i].node == r.node ==>
                s.steps[i].iteration < r.iteration))
  }

  predicate WaitingShape(s: State) {
    && NoActiveJob(s.jobs)
    && AttemptsDone(s.attempts)
    && |s.steps| > 0
    && s.steps[|s.steps| - 1].status == Waiting
    && (s.steps[|s.steps| - 1].waiting == ForApproval ==>
          && |s.approvals| > 0
          && s.approvals[|s.approvals| - 1].status == AwaitingDecision
          && s.approvals[|s.approvals| - 1].step == |s.steps| - 1)
    && s.run.retry.None?
  }

  predicate ShapeOk(c: Config, s: State) {
    && (s.run.cancelRequested ==> s.run.status == Cancelled)
    && match s.run.status
       case Pending => PendingShape(s)
       case Running => ExecutingShape(s) || QueuedShape(c, s)
       case Waiting => WaitingShape(s)
       case Completed =>
         && AllTerminal(s)
         && (forall i :: 0 <= i < |s.steps| ==> Succeeded(s.steps[i].status))
         && (forall n :: n in c.nodes ==> HasRow(s.steps, n))
       case Failed => AllTerminal(s)
       case Cancelled => AllTerminal(s)
       case _ => false
  }

  predicate Inv(c: Config, s: State) {
    && ConfigOk(c)
    && JobsOk(c, s.jobs, s.tokens, s.clock)
    && StepsOk(c, s.steps)
    && AttemptsOk(c, s.run.deadline, s.steps, s.attempts)
    && ApprovalsOk(c, s.run.deadline, s.steps, s.approvals)
    && ShapeOk(c, s)
  }
}
