/** Decisions, expiries and input changes keep the invariant. */
module PreserveApprovals {
  import opened Records
  import opened Runtime
  import opened Invariant
  import opened Tables
  import opened Preserve
  import opened PreserveResults

  lemma GatedFacts(c: Config, s: State, a: nat)
    requires Inv(c, s) && Gated(c, s, a)
    ensures a == |s.approvals| - 1 && s.approvals[a].step == |s.steps| - 1
    ensures s.run.status == Waiting && WaitingShape(s) && !s.run.cancelRequested
    ensures SnapshotOk(c, s.run.deadline, s.steps, s.approvals[a])
    ensures StepOk(c, s.steps[|s.steps| - 1])
    ensures s.steps[|s.steps| - 1].status == Waiting
    ensures s.steps[|s.steps| - 1].waiting == ForApproval
    ensures s.approvals[a].node == s.steps[|s.steps| - 1].node
    ensures s.approvals[a].replacement.None?
  {
    hide Inv, WaitingShape, DecisionOk, StepOk;
    PendingFacts(c, s, a);
    WaitingFacts(c, s, |s.steps| - 1);
    NoReplacement(c, s, a);
  }

  lemma NoReplacement(c: Config, s: State, a: nat)
    requires Inv(c, s) && a < |s.approvals| && s.approvals[a].status == AwaitingDecision
    ensures s.approvals[a].replacement.None?
  {
    hide JobsOk, StepsOk, AttemptsOk, SnapshotsOk, GatesDecided, ShapeOk, Follows;
  }

  /** A snapshot resolved now, before its expiry and the run's deadline. */
  lemma ResolvedSnapshot(c: Config, s: State, a: nat, steps: seq<Step>, item: Snapshot)
    requires Inv(c, s) && Gated(c, s, a)
    requires Extends(s.steps, steps)
    requires SameSnapshot(s.approvals[a], item)
    requires item.resolvedAt == Some(s.clock) && item.status != AwaitingDecision
    requires item.decidedBy.Some? == item.request.Some?
    requires item.decidedBy.Some? ==>
      !ApprovalDue(s, item) && item.request.value.expected == item.digest
    requires item.status in {Invalidated, ApprovalExpired} ==> item.decidedBy.None?
    requires item.status !in {Invalidated, ApprovalExpired} ==>
      && item.decidedBy.Some?
      && var action := item.request.value.action;
      && item.status == match action
                        case Approve => Approved
                        case Reject => Rejected
                        case RequestRetry => RetryRequested
                        case Edit(_) => Superseded
    requires item.status == Approved ==>
      && steps[item.step].status == Completed && steps[item.step].output == Some(item.payload)
      && item.source == SourceOf(item.step, steps[item.step])
    requires item.status == RetryRequested ==>
      steps[item.step].status == Completed && steps[item.step].output.None?
    ensures SnapshotOk(c, s.run.deadline, steps, item)
  {
    hide Inv, WaitingShape, StepOk;
    GatedFacts(c, s, a);
  }

  /** The wait ends and with it the run. */
  lemma EndedOk(c: Config, s: State, a: nat, item: Snapshot, status: Status, code: string)
    requires Inv(c, s) && Gated(c, s, a) && status in {Failed, Cancelled}
    requires SameSnapshot(s.approvals[a], item) && item.replacement.None?
    requires item.status in {ApprovalExpired, Rejected, Invalidated}
    requires item.step < |s.steps|
    requires var step := s.steps[item.step].(status := status, error := Some(code));
      SnapshotOk(c, s.run.deadline, s.steps[item.step := step], item)
    ensures Inv(c, TerminateWait(s.(approvals := s.approvals[a := item]), item.step, code,
                                 status == Cancelled))
  {
    hide Inv, SnapshotOk, StepsOk, AttemptsOk, ApprovalsOk, JobsOk, ShapeOk, StepOk;
    var t := TerminateWait(s.(approvals := s.approvals[a := item]), item.step, code,
                           status == Cancelled);
    GatedFacts(c, s, a);
    InvTables(c, s);
    EndStep(c, s.steps[item.step], t.steps[item.step]);
    StepsSet(c, s.steps, item.step, t.steps[item.step]);
    AttemptsKeep(c, s.run.deadline, s.steps, t.steps, s.attempts);
    ApprovalsResolve(c, s.run.deadline, s.steps, t.steps, s.approvals, a, item, None);
    forall i | 0 <= i < |t.steps| ensures Terminal(t.steps[i].status) { StepAt(c, s, i); }
    StoppedOk(c, s, t);
  }

  lemma EndStep(c: Config, step: Step, next: Step)
    requires StepOk(c, step) && next.status in {Failed, Cancelled, Completed}
    requires SameIdentity(step, next)
    ensures StepOk(c, next)
  { }

  lemma ExpireOk(c: Config, s: State, a: nat)
    requires Inv(c, s) && Gated(c, s, a) && ApprovalDue(s, s.approvals[a])
    ensures Inv(c, Expire(s, a, c.nodes[s.approvals[a].node].kind.gate))
  {
    hide Inv, SnapshotOk, WaitingShape, StepOk, ExpireRun, TerminateWait;
    if Reached(s.run.deadline, s.clock) {
      ExpireRunOk(c, s);
    } else {
      GatedFacts(c, s, a);
      var gate := c.nodes[s.approvals[a].node].kind.gate;
      var status := if gate.timeoutRejects then Cancelled else Failed;
      var item := s.approvals[a].(status := ApprovalExpired, resolvedAt := Some(s.clock));
      var step := s.steps[item.step].(status := status, error := Some("approval_expired"));
      NotDecided(c, s, a);
      ResolvedSnapshot(c, s, a, s.steps[item.step := step], item);
      EndedOk(c, s, a, item, status, "approval_expired");
    }
  }

  lemma NotDecided(c: Config, s: State, a: nat)
    requires Inv(c, s) && Gated(c, s, a)
    ensures s.approvals[a].decidedBy.None? && s.approvals[a].request.None?
  {
    hide Inv, WaitingShape, StepOk;
    GatedFacts(c, s, a);
  }

  lemma ExpireApprovalOk(c: Config, s: State, a: nat)
    requires Inv(c, s)
    ensures Inv(c, ExpireApproval(c, s, a))
  {
    hide Inv, Expire;
    if Gated(c, s, a) && ApprovalDue(s, s.approvals[a]) { ExpireOk(c, s, a); }
  }

  // ---------- decisions that resume the run ----------

  lemma NoJobs(c: Config, s: State)
    requires Inv(c, s) && WaitingShape(s)
    ensures StopJobs(s.jobs, JobCompleted, None, s.clock) == s.jobs
    ensures NextSequence(s.jobs) == |s.jobs|
  {
    hide Inv, JobsOk, ShapeOk;
    InvTables(c, s);
    JobsAppend(c, s.jobs, s.tokens, s.clock, s.clock);
    assert NoActiveJob(s.jobs);
  }

  lemma ResumeOk(c: Config, s: State, a: nat, item: Snapshot, output: Option<Json>, retry: Option<Retry>)
    requires Inv(c, s) && Gated(c, s, a)
    requires SameSnapshot(s.approvals[a], item) && item.replacement.None?
    requires item.status in {Approved, RetryRequested} && item.step == |s.steps| - 1
    requires var step := s.steps[item.step].(status := Completed, output := output);
      SnapshotOk(c, s.run.deadline, s.steps[item.step := step], item)
    requires retry.Some? ==>
      var step := s.steps[item.step];
      && step.node in c.nodes && c.nodes[step.node].kind.Approval?
      && retry.value.node == step.node && retry.value.iteration == step.iteration + 1
      && retry.value.iteration <= c.nodes[step.node].kind.gate.maxReviewRetries
      && (forall i :: 0 <= i < |s.steps| && s.steps[i].node == step.node ==>
            s.steps[i].iteration <= step.iteration)
    ensures Inv(c, Resume(s.(approvals := s.approvals[a := item],
                             run := s.run.(retry := retry)), item.step, output))
  {
    hide Inv, SnapshotOk, StepsOk, AttemptsOk, ApprovalsOk, JobsOk, ShapeOk, StepOk, WaitingShape;
    GatedFacts(c, s, a);
    InvTables(c, s);
    NoJobs(c, s);
    var step := s.steps[item.step].(status := Completed, output := output);
    var steps := s.steps[item.step := step];
    EndStep(c, s.steps[item.step], step);
    EarlierSteps(c, s);
    ApprovalsResolve(c, s.run.deadline, s.steps, steps, s.approvals, a, item, Some(item.step));
    ResumedOk(c, s, step, s.approvals[a := item], retry);
  }

  lemma EarlierSteps(c: Config, s: State)
    requires Inv(c, s)
    ensures forall i :: 0 <= i < |s.steps| - 1 ==> Succeeded(s.steps[i].status)
  {
    hide Inv;
    forall i | 0 <= i < |s.steps| - 1 ensures Succeeded(s.steps[i].status) { StepAt(c, s, i); }
  }

  lemma ApproveOk(c: Config, s: State, a: nat, who: Reviewer, request: Request)
    requires Inv(c, s) && Gated(c, s, a) && !ApprovalDue(s, s.approvals[a])
    requires s.approvals[a].source == SourceOf(s.approvals[a].step, s.steps[s.approvals[a].step])
    requires request.action == Approve && request.expected == s.approvals[a].digest
    ensures Inv(c, Resume(s.(approvals := s.approvals[a := Decided(s.approvals[a], Approved, who, request, s.clock)]),
                          s.approvals[a].step, Some(s.approvals[a].payload)))
  {
    hide Inv, SnapshotOk, WaitingShape, StepOk;
    var item := Decided(s.approvals[a], Approved, who, request, s.clock);
    GatedFacts(c, s, a);
    WaitTables(c, s);
    var step := s.steps[item.step].(status := Completed, output := Some(item.payload));
    ResolvedSnapshot(c, s, a, s.steps[item.step := step], item);
    ResumeOk(c, s, a, item, Some(item.payload), None);
    assert s.run == s.run.(retry := None);
  }

  /** The step under review has the greatest iteration of its node. */
  lemma LatestIteration(c: Config, s: State)
    requires Inv(c, s) && WaitingShape(s)
    ensures forall i :: 0 <= i < |s.steps| && s.steps[i].node == s.steps[|s.steps| - 1].node ==>
              s.steps[i].iteration <= s.steps[|s.steps| - 1].iteration
  {
    hide JobsOk, AttemptsOk, ApprovalsOk, ShapeOk, WaitingShape, StepOk;
  }

  lemma RetryOk(c: Config, s: State, a: nat, who: Reviewer, request: Request)
    requires Inv(c, s) && Gated(c, s, a) && !ApprovalDue(s, s.approvals[a])
    requires request.action == RequestRetry && request.expected == s.approvals[a].digest
    requires s.steps[s.approvals[a].step].iteration
               < c.nodes[s.approvals[a].node].kind.gate.maxReviewRetries
    ensures var step := s.steps[s.approvals[a].step];
      var retry := Retry(step.node, step.iteration + 1, s.approvals[a].payload, request.feedback);
      Inv(c, Resume(s.(approvals := s.approvals[a := Decided(s.approvals[a], RetryRequested, who, request, s.clock)],
                       run := s.run.(retry := Some(retry))),
                    s.approvals[a].step, None))
  {
    hide Inv, SnapshotOk, WaitingShape, StepOk;
    var item := Decided(s.approvals[a], RetryRequested, who, request, s.clock);
    GatedFacts(c, s, a);
    var step := s.steps[item.step].(status := Completed, output := None);
    var retry := Retry(step.node, step.iteration + 1, item.payload, request.feedback);
    ResolvedSnapshot(c, s, a, s.steps[item.step := step], item);
    LatestIteration(c, s);
    ResumeOk(c, s, a, item, None, Some(retry));
  }

  lemma RejectOk(c: Config, s: State, a: nat, who: Reviewer, request: Request)
    requires Inv(c, s) && Gated(c, s, a) && !ApprovalDue(s, s.approvals[a])
    requires request.action == Reject && request.expected == s.approvals[a].digest
    ensures var item := Decided(s.approvals[a], Rejected, who, request, s.clock);
      Inv(c, TerminateWait(s.(approvals := s.approvals[a := item]), s.approvals[a].step,
                           "approval_rejected", true))
  {
    hide Inv, SnapshotOk, WaitingShape, StepOk, TerminateWait;
    var item := Decided(s.approvals[a], Rejected, who, request, s.clock);
    GatedFacts(c, s, a);
    var step := s.steps[item.step].(status := Cancelled, error := Some("approval_rejected"));
    ResolvedSnapshot(c, s, a, s.steps[item.step := step], item);
    EndedOk(c, s, a, item, Cancelled, "approval_rejected");
  }

  // ---------- snapshots that follow one another ----------

  /** Only the approval table and the revision changed, and the last snapshot is pending. */
  lemma ShownAgain(c: Config, s: State, approvals: seq<Snapshot>)
    requires Inv(c, s) && s.run.status == Waiting && WaitingShape(s)
    requires ApprovalsOk(c, s.run.deadline, s.steps, approvals)
    requires |approvals| > 0 && approvals[|approvals| - 1].status == AwaitingDecision
    requires approvals[|approvals| - 1].step == |s.steps| - 1
    ensures Inv(c, s.(approvals := approvals, run := Bump(s.run)))
  {
    var t := s.(approvals := approvals, run := Bump(s.run));
    hide Inv, JobsOk, StepsOk, AttemptsOk, ApprovalsOk;
    InvTables(c, s);
    assert ShapeOk(c, t) by { hide QueuedShape, ExecutingShape; }
    hide ShapeOk;
    InvFrom(c, t);
  }

  lemma FreshSnapshot(c: Config, s: State, step: Step, gate: Gate, candidate: Option<Json>,
                      feedback: Option<string>, expiresAt: Option<int>, deadline: Option<int>,
                      steps: seq<Step>)
    requires |s.steps| > 0 && |steps| == |s.steps| && steps[|s.steps| - 1] == step.(status := Waiting)
    requires step.node in c.nodes && c.nodes[step.node].kind.Approval?
    requires NewSnapshot(s, step, gate, candidate, feedback, expiresAt).Good?
    ensures var item := NewSnapshot(s, step, gate, candidate, feedback, expiresAt).value;
      && SnapshotOk(c, deadline, steps, item)
      && item.status == AwaitingDecision && item.replacement.None? && item.step == |s.steps| - 1
      && item.revision == NextRevision(s.approvals, item.step) && item.expiresAt == expiresAt
  { }

  lemma InvalidateOk(c: Config, s: State, a: nat)
    requires Inv(c, s) && Gated(c, s, a)
    ensures Inv(c, Invalidate(s, a, c.nodes[s.approvals[a].node].kind.gate))
  {
    hide Inv, SnapshotOk, WaitingShape, StepOk, TerminateWait, NewSnapshot, ApprovalsOk;
    var gate := c.nodes[s.approvals[a].node].kind.gate;
    var item := s.approvals[a].(status := Invalidated, resolvedAt := Some(s.clock));
    var stale := s.(approvals := s.approvals[a := item]);
    GatedFacts(c, s, a);
    NotDecided(c, s, a);
    match NewSnapshot(stale, s.steps[item.step], gate, None, None, item.expiresAt) {
      case Good(next) =>
        ResolvedSnapshot(c, s, a, s.steps, item);
        InvTables(c, s);
        SameSteps(c, s);
        ApprovalsResolve(c, s.run.deadline, s.steps, s.steps, s.approvals, a, item, None);
        assert s.steps[|s.steps| - 1] == s.steps[|s.steps| - 1].(status := Waiting);
        FreshSnapshot(c, stale, s.steps[item.step], gate, None, None, item.expiresAt,
                      s.run.deadline, s.steps);
        ApprovalsAdd(c, s.run.deadline, s.steps, stale.approvals, next);
        ShownAgain(c, s, stale.approvals + [next]);
      case Bad(_) =>
        var step := s.steps[item.step].(status := Failed, error := Some("approval_input_invalid"));
        ResolvedSnapshot(c, s, a, s.steps[item.step := step], item);
        EndedOk(c, s, a, item, Failed, "approval_input_invalid");
    }
  }

  lemma SameSteps(c: Config, s: State)
    ensures KeepsDone(c, s.steps, s.steps, None)
  { }

  lemma ReplaceOk(c: Config, s: State, a: nat, who: Reviewer, request: Request, payload: Json)
    requires Inv(c, s) && Gated(c, s, a) && !ApprovalDue(s, s.approvals[a])
    requires request.action == Edit(payload) && request.expected == s.approvals[a].digest
    ensures Inv(c, Replace(s, a, c.nodes[s.approvals[a].node].kind.gate, who, request, payload))
  {
    hide Inv, SnapshotOk, WaitingShape, StepOk, NewSnapshot, ApprovalsOk;
    var gate := c.nodes[s.approvals[a].node].kind.gate;
    var item := Decided(s.approvals[a], Superseded, who, request, s.clock)
                .(replacement := Some(|s.approvals|));
    var closed := s.(approvals := s.approvals[a := item]);
    GatedFacts(c, s, a);
    match NewSnapshot(closed, s.steps[item.step], gate, Some(payload), request.feedback, item.expiresAt) {
      case Good(next) =>
        ResolvedSnapshot(c, s, a, s.steps, item);
        InvTables(c, s);
        assert s.steps[|s.steps| - 1] == s.steps[|s.steps| - 1].(status := Waiting);
        FreshSnapshot(c, closed, s.steps[item.step], gate, Some(payload), request.feedback,
                      item.expiresAt, s.run.deadline, s.steps);
        ApprovalsReplace(c, s.run.deadline, s.steps, s.approvals, a, item, next);
        ShownAgain(c, s, closed.approvals + [next]);
      case Bad(_) =>
    }
  }

  lemma DecideOk(c: Config, s: State, a: nat, who: Reviewer, request: Request)
    requires Inv(c, s)
    ensures Inv(c, Decide(c, s, a, who, request))
  {
    hide Inv, Expire, Invalidate, Replace, Resume, TerminateWait, Decided;
    if Gated(c, s, a) && request.expected == s.approvals[a].digest {
      var item := s.approvals[a];
      if ApprovalDue(s, item) {
        ExpireOk(c, s, a);
      } else if item.source != SourceOf(item.step, s.steps[item.step]) {
        InvalidateOk(c, s, a);
      } else {
        match request.action {
          case Approve => ApproveOk(c, s, a, who, request);
          case Reject => RejectOk(c, s, a, who, request);
          case RequestRetry =>
            if s.steps[item.step].iteration < c.nodes[item.node].kind.gate.maxReviewRetries {
              RetryOk(c, s, a, who, request);
            }
          case Edit(payload) => ReplaceOk(c, s, a, who, request, payload);
        }
      }
    }
  }

  // ---------- another writer changes a waiting step's input ----------

  lemma InputStep(c: Config, step: Step, input: Input)
    requires StepOk(c, step)
    ensures StepOk(c, step.(input := Some(input)))
  { }

  lemma InputApprovals(c: Config, deadline: Option<int>, steps: seq<Step>, steps': seq<Step>,
                       approvals: seq<Snapshot>)
    requires ApprovalsOk(c, deadline, steps, approvals)
    requires KeepsDone(c, steps, steps', None)
    requires forall i :: 0 <= i < |steps| ==> steps'[i].status == steps[i].status
    ensures ApprovalsOk(c, deadline, steps', approvals)
  {
    assert SnapshotsOk(c, deadline, steps', approvals) by { hide ChainOk, GatesDecided, DecisionOk; }
    hide ChainOk, SnapshotsOk;
    GatesStay(c, steps, steps', approvals, approvals, None);
  }

  lemma ChangeInputOk(c: Config, s: State, st: nat, input: Input)
    requires Inv(c, s)
    ensures Inv(c, ChangeInput(s, st, input))
  {
    hide Inv, JobsOk, StepsOk, AttemptsOk, ApprovalsOk, StepOk, ShapeOk;
    if st < |s.steps| && s.steps[st].status == Waiting {
      var t := ChangeInput(s, st, input);
      InvTables(c, s);
      WaitingFacts(c, s, st);
      InputStep(c, s.steps[st], input);
      StepsSet(c, s.steps, st, t.steps[st]);
      AttemptsKeep(c, s.run.deadline, s.steps, t.steps, s.attempts);
      InputApprovals(c, s.run.deadline, s.steps, t.steps, s.approvals);
      WaitingIntro(c, s, t);
      InvFrom(c, t);
    }
  }

  lemma WaitingIntro(c: Config, s: State, t: State)
    requires WaitingShape(s) && !t.run.cancelRequested && t.run.status == Waiting
    requires t.jobs == s.jobs && t.attempts == s.attempts && t.approvals == s.approvals
    requires |t.steps| == |s.steps| && t.run.retry == s.run.retry
    requires t.steps[|t.steps| - 1].status == Waiting
    requires t.steps[|t.steps| - 1].waiting == s.steps[|s.steps| - 1].waiting
    ensures ShapeOk(c, t)
  {
    hide QueuedShape, ExecutingShape;
  }
}
