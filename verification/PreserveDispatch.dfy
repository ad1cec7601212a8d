/** Dispatching a claimed job and preparing its checkpoint keeps the invariant. */
module PreserveDispatch {
  import opened Records
  import opened Runtime
  import opened Invariant
  import opened Tables
  import opened Preserve
  import opened PreserveResults
  import opened PreserveApprovals

  /** A live claim that is not dispatched finds its run ready: no unfinished step is in
      the way and the next attempt is due. */
  lemma UndispatchedFacts(c: Config, s: State, claim: Claim)
    requires Inv(c, s) && Owns(s, claim, false) && s.jobs[claim.job].dispatchedAt.None?
    ensures claim.job == |s.jobs| - 1 && !s.run.cancelRequested
    ensures s.run.status in {Pending, Running} && !NotReady(s)
    ensures s.run.status == Pending ==> PendingShape(s)
    ensures s.run.status == Running ==> QueuedShape(c, s)
    ensures AttemptsDone(s.attempts) && NoPending(s.approvals)
  {
    hide Inv;
    ActiveIsLast(c, s, claim.job);
    LiveFacts(c, s);
    JobAt(c, s, claim.job);
  }

  function Marked(s: State, j: nat): Job
    requires j < |s.jobs|
  {
    s.jobs[j].(dispatchedAt := Some(s.clock))
  }

  lemma MarkedClosed(c: Config, s: State, j: nat, status: JobStatus, code: Option<string>)
    requires Inv(c, s) && j < |s.jobs| && Active(s.jobs[j].status) && !Active(status)
    ensures var jobs := s.jobs[j := Closed(Marked(s, j), status, code, s.clock)];
      && JobsOk(c, jobs, s.tokens, s.clock) && NoActiveJob(jobs)
      && s.jobs[j := Marked(s, j)][j := Closed(Marked(s, j), status, code, s.clock)] == jobs
  {
    hide Inv, JobsOk;
    InvTables(c, s);
    ActiveIsLast(c, s, j);
    JobAt(c, s, j);
    JobsUpdate(c, s.jobs, s.tokens, s.clock, j, Closed(Marked(s, j), status, code, s.clock), s.tokens);
  }

  lemma DeadlineOk(c: Config, s: State, claim: Claim)
    requires Inv(c, s) && Owns(s, claim, false) && s.jobs[claim.job].dispatchedAt.None?
    ensures Inv(c, CloseJob(Stop(s, Failed, "run_deadline", ApprovalExpired)
                              .(jobs := s.jobs[claim.job := Marked(s, claim.job)]),
                            claim.job, JobFailed, Some("run_deadline")))
  {
    hide Inv, StepsOk, AttemptsOk, ApprovalsOk, JobsOk, NotReady;
    var j := claim.job;
    UndispatchedFacts(c, s, claim);
    StopOk(c, s, Failed, "run_deadline", ApprovalExpired);
    MarkedClosed(c, s, j, JobFailed, Some("run_deadline"));
    var t := CloseJob(Stop(s, Failed, "run_deadline", ApprovalExpired)
                        .(jobs := s.jobs[j := Marked(s, j)]), j, JobFailed, Some("run_deadline"));
    StoppedOk(c, s, t);
  }

  // ---------- starting an attempt of the last step ----------

  function Placed(s: State): seq<Step>
    requires |s.steps| > 0
  {
    s.steps[|s.steps| - 1 := s.steps[|s.steps| - 1].(status := Failed)]
  }

  /** Everything but the last step is in order, and that step may take an attempt. */
  predicate Ready(c: Config, p: State) {
    && |p.steps| > 0
    && var last := |p.steps| - 1;
    && p.steps[last].node in c.nodes
    && StepsOk(c, Placed(p))
    && AttemptsOk(c, p.run.deadline, Placed(p), p.attempts)
    && ApprovalsOk(c, p.run.deadline, Placed(p), p.approvals)
    && AttemptsDone(p.attempts) && NoPending(p.approvals)
    && AttemptsOf(p.attempts, last) < c.nodes[p.steps[last].node].retry.maxAttempts
    && (p.run.retry.Some? ==> c.nodes[p.steps[last].node].kind.Approval?)
    && (|p.approvals| > 0 && c.nodes[p.steps[last].node].kind.Approval? ==>
          p.approvals[|p.approvals| - 1].step < last)
  }

  /** `p` is `s` with the claimed job marked as dispatched and a step ready to begin. */
  predicate Begins(c: Config, s: State, p: State, j: nat) {
    && Inv(c, s) && Ready(c, p)
    && j == |s.jobs| - 1 && s.jobs[j].status == JobRunning && s.jobs[j].attempt.None?
    && p.jobs == s.jobs[j := Marked(s, j)]
    && p.tokens == s.tokens && p.clock == s.clock
    && p.run.status == Running && p.run.deadline == s.run.deadline && !p.run.cancelRequested
  }

  /** The row and attempt that a start leaves behind. */
  predicate Started(c: Config, p: State, step: Step, attempt: Attempt)
    requires |p.steps| > 0
  {
    && StepOk(c, step) && SameIdentity(p.steps[|p.steps| - 1], step)
    && step.status in {Running, Waiting, Failed}
    && attempt.step == |p.steps| - 1
    && attempt.number == AttemptsOf(p.attempts, |p.steps| - 1) + 1
    && attempt.key == step.key
    && attempt.status in {Running, Completed, Failed}
    && (attempt.status == Running ==> step.status == Running)
    && (p.run.deadline.Some? ==> attempt.deadline <= p.run.deadline.value)
  }

  lemma StartedTables(c: Config, p: State, step: Step, attempt: Attempt)
    requires Ready(c, p) && Started(c, p, step, attempt)
    ensures var steps := p.steps[|p.steps| - 1 := step];
      && StepsOk(c, steps)
      && AttemptsOk(c, p.run.deadline, steps, p.attempts + [attempt])
      && ApprovalsOk(c, p.run.deadline, steps, p.approvals)
      && (forall i :: 0 <= i < |steps| - 1 ==> Succeeded(steps[i].status))
  {
    var steps := p.steps[|p.steps| - 1 := step];
    assert steps == Placed(p)[|p.steps| - 1 := step];
    StartedSteps(c, Placed(p), step);
    hide StepsOk, AttemptsOk, ApprovalsOk, StepOk;
    AttemptsKeep(c, p.run.deadline, Placed(p), steps, p.attempts);
    AttemptsAppend(c, p.run.deadline, steps, p.attempts, attempt);
    ApprovalsKeep(c, p.run.deadline, Placed(p), steps, p.approvals);
  }

  lemma StartedSteps(c: Config, steps: seq<Step>, step: Step)
    requires StepsOk(c, steps) && |steps| > 0 && steps[|steps| - 1].status == Failed
    requires StepOk(c, step) && SameIdentity(steps[|steps| - 1], step) && step.status != Completed
    ensures StepsOk(c, steps[|steps| - 1 := step])
    ensures KeepsDone(c, steps, steps[|steps| - 1 := step], None)
    ensures forall i :: 0 <= i < |steps| - 1 ==> Succeeded(steps[i].status)
  {
    hide StepOk;
  }

  lemma FailStartOk(c: Config, s: State, p: State, j: nat, step: Step, attempt: Attempt, code: string)
    requires Begins(c, s, p, j)
    requires Started(c, p, step.(status := Failed, error := Some(code)),
                     attempt.(status := Failed, error := Some(code)))
    ensures Inv(c, FailStart(p, j, step, attempt, code))
  {
    hide Inv, Ready, Started, StepsOk, AttemptsOk, ApprovalsOk, JobsOk;
    ReadyFacts(c, p);
    var t := FailStart(p, j, step, attempt, code);
    FailStartTables(c, p, j, step, attempt, code);
    MarkedClosed(c, s, j, JobFailed, Some(code));
    StoppedOk(c, s, t);
  }

  lemma FailStartTables(c: Config, p: State, j: nat, step: Step, attempt: Attempt, code: string)
    requires Ready(c, p) && j < |p.jobs|
    requires Started(c, p, step.(status := Failed, error := Some(code)),
                     attempt.(status := Failed, error := Some(code)))
    ensures var t := FailStart(p, j, step, attempt, code);
      && StepsOk(c, t.steps)
      && AttemptsOk(c, p.run.deadline, t.steps, t.attempts)
      && ApprovalsOk(c, p.run.deadline, t.steps, t.approvals)
      && (forall i :: 0 <= i < |t.steps| ==> Terminal(t.steps[i].status))
      && AttemptsDone(t.attempts) && NoPending(t.approvals)
  {
    StartedTables(c, p, step.(status := Failed, error := Some(code)),
                  attempt.(status := Failed, error := Some(code)));
    hide StepsOk, AttemptsOk, ApprovalsOk;
  }

  /** The attempt is done and its step waits. */
  lemma WaitOk(c: Config, s: State, p: State, j: nat, step: Step, attempt: Attempt,
               approvals: seq<Snapshot>)
    requires Begins(c, s, p, j)
    requires Started(c, p, step.(status := Waiting), attempt.(status := Completed))
    requires ApprovalsOk(c, p.run.deadline, Wait(p, j, step, attempt).steps, approvals)
    requires step.waiting == ForApproval ==>
      && |approvals| > 0
      && approvals[|approvals| - 1].status == AwaitingDecision
      && approvals[|approvals| - 1].step == |p.steps| - 1
    ensures var t := Wait(p, j, step, attempt);
      Inv(c, t.(approvals := approvals, run := t.run.(retry := None)))
  {
    hide Inv, Ready, Started, StepsOk, AttemptsOk, ApprovalsOk, JobsOk, ShapeOk, WaitingShape;
    ReadyFacts(c, p);
    var w := Wait(p, j, step, attempt);
    var t := w.(approvals := approvals, run := w.run.(retry := None));
    WaitingTables(c, p, j, step, attempt);
    MarkedClosed(c, s, j, JobCompleted, p.run.error);
    assert WaitingShape(t) by { WaitIntro(t); }
    WaitShape(c, t);
    InvTables(c, s);
    InvFrom(c, t);
  }

  lemma WaitIntro(t: State)
    requires NoActiveJob(t.jobs) && AttemptsDone(t.attempts)
    requires |t.steps| > 0 && t.steps[|t.steps| - 1].status == Waiting && t.run.retry.None?
    requires t.steps[|t.steps| - 1].waiting == ForApproval ==>
      && |t.approvals| > 0
      && t.approvals[|t.approvals| - 1].status == AwaitingDecision
      && t.approvals[|t.approvals| - 1].step == |t.steps| - 1
    ensures WaitingShape(t)
  { }

  lemma WaitingTables(c: Config, p: State, j: nat, step: Step, attempt: Attempt)
    requires Ready(c, p) && j < |p.jobs|
    requires Started(c, p, step.(status := Waiting), attempt.(status := Completed))
    ensures var t := Wait(p, j, step, attempt);
      && StepsOk(c, t.steps) && AttemptsOk(c, p.run.deadline, t.steps, t.attempts)
      && AttemptsDone(t.attempts)
  {
    StartedTables(c, p, step.(status := Waiting), attempt.(status := Completed));
    hide StepsOk, AttemptsOk, ApprovalsOk;
  }

  lemma WaitShape(c: Config, t: State)
    requires WaitingShape(t) && t.run.status == Waiting && !t.run.cancelRequested
    ensures ShapeOk(c, t)
  {
    hide WaitingShape;
  }

  /** The attempt runs on the worker that dispatched it. */
  lemma ExecuteOk(c: Config, s: State, p: State, j: nat, step: Step, attempt: Attempt)
    requires Begins(c, s, p, j) && p.run.retry.None?
    requires Started(c, p, step, attempt) && step.status == Running && attempt.status == Running
    ensures Inv(c, p.(steps := p.steps[|p.steps| - 1 := step], attempts := p.attempts + [attempt],
                      jobs := p.jobs[j := p.jobs[j].(attempt := Some(|p.attempts|))]))
  {
    hide Inv, Ready, Started, StepsOk, AttemptsOk, ApprovalsOk, JobsOk, ShapeOk, ExecutingShape, StepOk, JobOk;
    ReadyFacts(c, p);
    var t := p.(steps := p.steps[|p.steps| - 1 := step], attempts := p.attempts + [attempt],
                jobs := p.jobs[j := p.jobs[j].(attempt := Some(|p.attempts|))]);
    ExecuteJobs(c, s, p, j);
    StartedTables(c, p, step, attempt);
    StartedAt(c, p, step, attempt);
    assert ExecutingShape(t) by { ExecuteIntro(t); }
    ExecuteShape(c, t);
    InvTables(c, s);
    InvFrom(c, t);
  }

  lemma ReadyFacts(c: Config, p: State)
    requires Ready(c, p)
    ensures |p.steps| > 0 && p.steps[|p.steps| - 1].node in c.nodes
    ensures AttemptsDone(p.attempts) && NoPending(p.approvals)
  {
    hide StepsOk, AttemptsOk, ApprovalsOk;
  }

  lemma StartedAt(c: Config, p: State, step: Step, attempt: Attempt)
    requires |p.steps| > 0 && Started(c, p, step, attempt)
    ensures attempt.step == |p.steps| - 1
  { }

  lemma ExecuteJobs(c: Config, s: State, p: State, j: nat)
    requires Begins(c, s, p, j)
    ensures JobsOk(c, p.jobs[j := p.jobs[j].(attempt := Some(|p.attempts|))], p.tokens, p.clock)
  {
    var job := Marked(s, j).(attempt := Some(|p.attempts|));
    hide Inv, Ready, JobsOk;
    assert p.jobs[j := p.jobs[j].(attempt := Some(|p.attempts|))] == s.jobs[j := job];
    InvTables(c, s);
    JobAt(c, s, j);
    JobsUpdate(c, s.jobs, s.tokens, s.clock, j, job, s.tokens);
  }

  lemma ExecuteIntro(t: State)
    requires |t.jobs| > 0 && |t.steps| > 0 && |t.attempts| > 0
    requires t.jobs[|t.jobs| - 1].status == JobRunning && t.jobs[|t.jobs| - 1].dispatchedAt.Some?
    requires t.jobs[|t.jobs| - 1].attempt == Some(|t.attempts| - 1)
    requires t.attempts[|t.attempts| - 1].status == Running
    requires t.attempts[|t.attempts| - 1].step == |t.steps| - 1
    requires t.steps[|t.steps| - 1].status == Running
    requires t.run.retry.None? && NoPending(t.approvals)
    ensures ExecutingShape(t)
  { }

  lemma ExecuteShape(c: Config, t: State)
    requires ExecutingShape(t) && t.run.status == Running && !t.run.cancelRequested
    ensures ShapeOk(c, t)
  {
    hide ExecutingShape, QueuedShape;
  }

  lemma PlacedStep(c: Config, p: State)
    requires Ready(c, p)
    ensures StepOk(c, p.steps[|p.steps| - 1].(status := Failed))
  {
    hide AttemptsOk, ApprovalsOk, StepOk;
    assert StepOk(c, Placed(p)[|p.steps| - 1]);
  }

  /** A started row of the last step, given a new status and its wait. */
  lemma StartRow(c: Config, p: State, input: Option<Input>, attempt: Attempt, status: Status,
                 waiting: WaitReason, wakeAt: Option<int>, error: Option<string>, final: Status)
    requires Ready(c, p)
    requires attempt == NewAttempt(c, p, attempt.input).(status := final, error := attempt.error)
    requires final in {Running, Completed, Failed} && (final == Running ==> status == Running)
    requires status in {Running, Waiting, Failed}
    requires var kind := c.nodes[p.steps[|p.steps| - 1].node].kind;
      && (status == Running ==> kind.Work?)
      && (status == Waiting ==> (waiting == ForDelay && wakeAt.Some? && kind.Delay?)
                                || (waiting == ForApproval && kind.Approval?))
    ensures Started(c, p, p.steps[|p.steps| - 1].(status := status, error := error,
                            nextAttemptAt := None, input := input, waiting := waiting,
                            wakeAt := wakeAt), attempt)
  {
    PlacedStep(c, p);
    hide Ready;
  }

  lemma SnapshotAdded(c: Config, p: State, step: Step, item: Snapshot, attempt: Attempt, gate: Gate,
                      candidate: Option<Json>, feedback: Option<string>, expiresAt: Option<int>)
    requires Ready(c, p)
    requires Started(c, p, step, attempt) && step.status == Waiting
    requires step.node in c.nodes && c.nodes[step.node].kind.Approval?
    requires NewSnapshot(p, step, gate, candidate, feedback, expiresAt) == Good(item)
    ensures ApprovalsOk(c, p.run.deadline, p.steps[|p.steps| - 1 := step], p.approvals + [item])
    ensures item.status == AwaitingDecision && item.step == |p.steps| - 1
  {
    hide StepsOk, AttemptsOk, ApprovalsOk, StepOk, NewSnapshot, SnapshotOk;
    var steps := p.steps[|p.steps| - 1 := step];
    StartedTables(c, p, step, attempt);
    assert steps[|p.steps| - 1] == step.(status := Waiting);
    FreshSnapshot(c, p, step, gate, candidate, feedback, expiresAt, p.run.deadline, steps);
    LastNotSuperseded(c, p.run.deadline, steps, p.approvals);
    ApprovalsAdd(c, p.run.deadline, steps, p.approvals, item);
  }

  lemma LastNotSuperseded(c: Config, deadline: Option<int>, steps: seq<Step>, approvals: seq<Snapshot>)
    requires ApprovalsOk(c, deadline, steps, approvals)
    ensures |approvals| > 0 ==> approvals[|approvals| - 1].status != Superseded
  {
    hide SnapshotsOk, GatesDecided;
  }

  lemma BeginOk(c: Config, s: State, p: State, j: nat, inputs: Outcome<Input>)
    requires Begins(c, s, p, j)
    ensures Inv(c, Begin(c, p, j, inputs))
  {
    hide Inv, Ready, Started, ApprovalsOk, StepOk, WakeTime, NewSnapshot, FailStart, Wait, Begins;
    BeginFacts(c, s, p, j);
    var st := |p.steps| - 1;
    var node := c.nodes[p.steps[st].node];
    var running := p.steps[st].(status := Running, error := None, nextAttemptAt := None);
    match inputs {
      case Bad(code) =>
        FailOk(c, s, p, j, running, NewAttempt(c, p, p.steps[st].input), code);
      case Good(input) =>
        var step := running.(input := Some(input));
        var attempt := NewAttempt(c, p, Some(input));
        match node.kind {
          case Work =>
            StartRow(c, p, Some(input), attempt, Running, step.waiting, step.wakeAt, None, Running);
            ExecuteOk(c, s, p, j, step, attempt);
          case Delay(timer) =>
            match WakeTime(timer, p.clock) {
              case Bad(code) => FailOk(c, s, p, j, step, attempt, code);
              case Good(due) => BeginDelay(c, s, p, j, step, attempt, due);
            }
          case Approval(gate) =>
            var expiry := if gate.deadline.Some? then Some(p.clock + gate.deadline.value) else None;
            match NewSnapshot(p, step, gate, RetryPayload(p), RetryFeedback(p), expiry) {
              case Bad(code) => FailOk(c, s, p, j, step, attempt, code);
              case Good(item) => BeginGate(c, s, p, j, step, attempt, item, gate, expiry);
            }
        }
    }
  }

  lemma BeginFacts(c: Config, s: State, p: State, j: nat)
    requires Begins(c, s, p, j)
    ensures |p.steps| > 0 && p.steps[|p.steps| - 1].node in c.nodes && j < |p.jobs| && Ready(c, p)
    ensures p.run.retry.Some? ==> c.nodes[p.steps[|p.steps| - 1].node].kind.Approval?
  {
    hide Inv, StepsOk, AttemptsOk, ApprovalsOk;
  }

  /** The last step's row as a start leaves it, before its wait or failure. */
  predicate Launched(c: Config, p: State, step: Step, attempt: Attempt)
    requires |p.steps| > 0 && p.steps[|p.steps| - 1].node in c.nodes
  {
    && step == p.steps[|p.steps| - 1].(status := Running, error := None, nextAttemptAt := None,
                                       input := step.input)
    && attempt == NewAttempt(c, p, attempt.input)
  }

  lemma FailOk(c: Config, s: State, p: State, j: nat, step: Step, attempt: Attempt, code: string)
    requires Begins(c, s, p, j)
    requires |p.steps| > 0 && p.steps[|p.steps| - 1].node in c.nodes
    requires Launched(c, p, step, attempt)
    ensures Inv(c, FailStart(p, j, step, attempt, code))
  {
    hide Inv, Ready, Started, FailStart, Begins;
    BeginFacts(c, s, p, j);
    StartRow(c, p, step.input, attempt.(status := Failed, error := Some(code)), Failed,
             step.waiting, step.wakeAt, Some(code), Failed);
    assert step.(status := Failed, error := Some(code)) ==
      p.steps[|p.steps| - 1].(status := Failed, error := Some(code), nextAttemptAt := None,
                              input := step.input, waiting := step.waiting, wakeAt := step.wakeAt);
    FailStartOk(c, s, p, j, step, attempt, code);
  }

  lemma BeginDelay(c: Config, s: State, p: State, j: nat, step: Step, attempt: Attempt, due: int)
    requires Begins(c, s, p, j)
    requires |p.steps| > 0 && p.steps[|p.steps| - 1].node in c.nodes
    requires Launched(c, p, step, attempt) && c.nodes[p.steps[|p.steps| - 1].node].kind.Delay?
    ensures Inv(c, Wait(p, j, step.(waiting := ForDelay, wakeAt := Some(due)), attempt))
  {
    hide Inv, Ready, Started, Begins, ApprovalsOk, StepsOk, AttemptsOk;
    BeginFacts(c, s, p, j);
    var row := step.(waiting := ForDelay, wakeAt := Some(due));
    StartRow(c, p, step.input, attempt.(status := Completed), Waiting, ForDelay, Some(due), None, Completed);
    assert row.(status := Waiting) ==
      p.steps[|p.steps| - 1].(status := Waiting, error := None, nextAttemptAt := None,
                              input := step.input, waiting := ForDelay, wakeAt := Some(due));
    StartedTables(c, p, row.(status := Waiting), attempt.(status := Completed));
    WaitOk(c, s, p, j, row, attempt, p.approvals);
    var t := Wait(p, j, row, attempt);
    assert t == t.(approvals := p.approvals, run := t.run.(retry := None));
  }

  lemma BeginGate(c: Config, s: State, p: State, j: nat, step: Step, attempt: Attempt, item: Snapshot,
                  gate: Gate, expiry: Option<int>)
    requires Begins(c, s, p, j)
    requires |p.steps| > 0 && p.steps[|p.steps| - 1].node in c.nodes
    requires Launched(c, p, step, attempt) && c.nodes[p.steps[|p.steps| - 1].node].kind == Approval(gate)
    requires NewSnapshot(p, step, gate, RetryPayload(p), RetryFeedback(p), expiry) == Good(item)
    ensures var t := Wait(p, j, step.(waiting := ForApproval, wakeAt := expiry), attempt);
      Inv(c, t.(approvals := p.approvals + [item], run := t.run.(retry := None)))
  {
    hide Inv, Ready, Started, Begins, ApprovalsOk, StepsOk, AttemptsOk, NewSnapshot;
    BeginFacts(c, s, p, j);
    var row := step.(waiting := ForApproval, wakeAt := expiry);
    var done := attempt.(status := Completed);
    StartRow(c, p, step.input, done, Waiting, ForApproval, expiry, None, Completed);
    assert row.(status := Waiting) ==
      p.steps[|p.steps| - 1].(status := Waiting, error := None, nextAttemptAt := None,
                              input := step.input, waiting := ForApproval, wakeAt := expiry);
    SnapshotSame(p, step, row.(status := Waiting), gate, expiry);
    SnapshotAdded(c, p, row.(status := Waiting), item, done, gate, RetryPayload(p), RetryFeedback(p), expiry);
    WaitOk(c, s, p, j, row, attempt, p.approvals + [item]);
  }

  lemma SnapshotSame(p: State, step: Step, row: Step, gate: Gate, expiry: Option<int>)
    requires |p.steps| > 0
    requires row.node == step.node && row.iteration == step.iteration && row.input == step.input
    ensures NewSnapshot(p, step, gate, RetryPayload(p), RetryFeedback(p), expiry)
         == NewSnapshot(p, row, gate, RetryPayload(p), RetryFeedback(p), expiry)
  { }

  // ---------- choosing the node ----------

  function Prepared(s: State, j: nat): State
    requires j < |s.jobs|
  {
    s.(jobs := s.jobs[j := Marked(s, j)], run := Bump(s.run).(status := Running))
  }

  /** `steps` is the step table of `s` with its last row ready to take an attempt. */
  lemma ReadyOk(c: Config, s: State, claim: Claim, steps: seq<Step>)
    requires Inv(c, s) && Owns(s, claim, false) && s.jobs[claim.job].dispatchedAt.None?
    requires |steps| >= |s.steps| && |steps| > 0
    requires var last := steps[|steps| - 1];
      && StepsOk(c, steps[|steps| - 1 := last.(status := Failed)])
      && KeepsDone(c, s.steps, steps[|steps| - 1 := last.(status := Failed)], None)
      && last.node in c.nodes
      && AttemptsOf(s.attempts, |steps| - 1) < c.nodes[last.node].retry.maxAttempts
      && (s.run.retry.Some? ==> c.nodes[last.node].kind.Approval?)
      && (|s.approvals| > 0 && c.nodes[last.node].kind.Approval? ==>
            s.approvals[|s.approvals| - 1].step < |steps| - 1)
    ensures Begins(c, s, Prepared(s, claim.job).(steps := steps), claim.job)
  {
    hide Inv, StepsOk, AttemptsOk, ApprovalsOk, NotReady, QueuedShape, PendingShape, KeepsDone, JobOk, StepOk;
    var p := Prepared(s, claim.job).(steps := steps);
    UndispatchedFacts(c, s, claim);
    NotYetBound(c, s, claim);
    InvTables(c, s);
    KeepsExtends(c, s.steps, Placed(p));
    AttemptsKeep(c, s.run.deadline, s.steps, Placed(p), s.attempts);
    ApprovalsKeep(c, s.run.deadline, s.steps, Placed(p), s.approvals);
  }

  lemma NotYetBound(c: Config, s: State, claim: Claim)
    requires Inv(c, s) && Owns(s, claim, false) && s.jobs[claim.job].dispatchedAt.None?
    ensures s.jobs[claim.job].attempt.None?
  {
    hide Inv;
    JobAt(c, s, claim.job);
  }

  lemma KeepsExtends(c: Config, steps: seq<Step>, steps': seq<Step>)
    requires KeepsDone(c, steps, steps', None)
    ensures Extends(steps, steps')
  { }

  lemma ResumeReady(c: Config, s: State, claim: Claim)
    requires Inv(c, s) && Owns(s, claim, false) && s.jobs[claim.job].dispatchedAt.None?
    requires Resuming(s)
    ensures Begins(c, s, Prepared(s, claim.job).(steps := s.steps), claim.job)
    ensures s.steps[|s.steps| - 1].node in c.nodes
  {
    hide Inv, StepsOk, NotReady, QueuedShape, ExecutingShape, Begins, StepOk, KeepsDone, PendingShape;
    UndispatchedFacts(c, s, claim);
    ResumeFacts(c, s);
    UnfinishedStep(c, s);
    PlacedSteps(c, s);
    ReadyOk(c, s, claim, s.steps);
  }

  lemma PlacedSteps(c: Config, s: State)
    requires Inv(c, s) && Resuming(s)
    ensures StepsOk(c, Placed(s)) && KeepsDone(c, s.steps, Placed(s), None)
  {
    hide Inv, StepsOk, StepOk, KeepsDone, JobsOk, AttemptsOk, ApprovalsOk, ShapeOk;
    InvTables(c, s);
    StepAt(c, s, |s.steps| - 1);
    FailedStep(c, s.steps[|s.steps| - 1]);
    StepsSet(c, s.steps, |s.steps| - 1, s.steps[|s.steps| - 1].(status := Failed));
    PlacedKeeps(c, s.steps);
  }

  lemma PlacedKeeps(c: Config, steps: seq<Step>)
    requires |steps| > 0 && steps[|steps| - 1].status != Completed
    ensures KeepsDone(c, steps, steps[|steps| - 1 := steps[|steps| - 1].(status := Failed)], None)
  { }

  lemma FailedStep(c: Config, step: Step)
    requires StepOk(c, step)
    ensures StepOk(c, step.(status := Failed))
  { }

  lemma ResumeFacts(c: Config, s: State)
    requires Inv(c, s) && Resuming(s) && s.run.status in {Pending, Running}
    requires s.run.status == Pending ==> PendingShape(s)
    requires s.run.status == Running ==> QueuedShape(c, s)
    ensures s.steps[|s.steps| - 1].node in c.nodes
    ensures AttemptsOf(s.attempts, |s.steps| - 1)
              < c.nodes[s.steps[|s.steps| - 1].node].retry.maxAttempts
  {
    hide Inv;
  }

  /** No unfinished step is left, so every step so far succeeded. */
  lemma AllSucceeded(c: Config, s: State, claim: Claim)
    requires Inv(c, s) && Owns(s, claim, false) && s.jobs[claim.job].dispatchedAt.None?
    requires !Resuming(s)
    ensures forall i :: 0 <= i < |s.steps| ==> Succeeded(s.steps[i].status) && s.steps[i].node in c.nodes
  {
    hide Inv, NotReady;
    UndispatchedFacts(c, s, claim);
    EarlierSteps(c, s);
    forall i | 0 <= i < |s.steps| ensures s.steps[i].node in c.nodes { StepAt(c, s, i); }
  }

  /** New rows after a table of succeeded steps, the last of them about to begin. */
  lemma AddedReady(c: Config, s: State, claim: Claim, more: seq<Step>)
    requires Inv(c, s) && Owns(s, claim, false) && s.jobs[claim.job].dispatchedAt.None?
    requires !Resuming(s) && |more| > 0
    requires forall i :: 0 <= i < |more| ==> more[i].node in c.nodes
    requires forall i :: 0 <= i < |more| - 1 ==> StepOk(c, more[i]) && more[i].status == Skipped
    requires StepOk(c, more[|more| - 1].(status := Failed))
    requires forall i, k :: 0 <= i < k < |more| ==> more[i].node != more[k].node
    requires forall i, k :: 0 <= i < |s.steps| && 0 <= k < |more| && s.steps[i].node == more[k].node ==>
               s.steps[i].iteration < more[k].iteration
    requires s.run.retry.Some? ==> c.nodes[more[|more| - 1].node].kind.Approval?
    ensures Begins(c, s, Prepared(s, claim.job).(steps := s.steps + more), claim.job)
  {
    hide Inv, StepsOk, AttemptsOk, ApprovalsOk, NotReady, QueuedShape, ExecutingShape, Begins, StepOk;
    var steps := s.steps + more;
    var last := |steps| - 1;
    var failed := more[|more| - 1 := more[|more| - 1].(status := Failed)];
    AllSucceeded(c, s, claim);
    InvTables(c, s);
    StepsAdd(c, s.steps, failed);
    assert steps[last := steps[last].(status := Failed)] == s.steps + failed;
    AddedKeeps(c, s.steps, failed);
    NoAttemptsYet(c, s.run.deadline, s.steps, s.attempts);
    LastApproval(c, s);
    ReadyOk(c, s, claim, steps);
  }

  lemma AddedKeeps(c: Config, steps: seq<Step>, more: seq<Step>)
    requires forall i :: 0 <= i < |more| ==> more[i].status in {Skipped, Failed}
    ensures KeepsDone(c, steps, steps + more, None)
  { }

  lemma LastApproval(c: Config, s: State)
    requires Inv(c, s)
    ensures |s.approvals| > 0 ==> s.approvals[|s.approvals| - 1].step < |s.steps|
  {
    hide Inv, DecisionOk;
    if |s.approvals| > 0 { SnapshotAt(c, s, |s.approvals| - 1); }
  }

  lemma RetryReady(c: Config, s: State, claim: Claim)
    requires Inv(c, s) && Owns(s, claim, false) && s.jobs[claim.job].dispatchedAt.None?
    requires !Resuming(s) && s.run.retry.Some?
    ensures var r := s.run.retry.value;
      && r.node in c.nodes
      && Begins(c, s, Prepared(s, claim.job).(steps := s.steps + [NewStep(r.node, r.iteration, Pending)]),
                claim.job)
  {
    hide Inv, NotReady, Begins;
    UndispatchedFacts(c, s, claim);
    var r := s.run.retry.value;
    AddedReady(c, s, claim, [NewStep(r.node, r.iteration, Pending)]);
  }

  lemma RoutedSteps(c: Config, s: State, claim: Claim, plan: Plan)
    requires Inv(c, s) && Owns(s, claim, false) && s.jobs[claim.job].dispatchedAt.None?
    requires !Resuming(s) && PlanOk(c, s, plan)
    ensures var steps := s.steps + Skips(plan.skips);
      && StepsOk(c, steps) && KeepsDone(c, s.steps, steps, None)
      && (forall i :: 0 <= i < |steps| ==> Succeeded(steps[i].status))
      && AttemptsOk(c, s.run.deadline, steps, s.attempts)
      && ApprovalsOk(c, s.run.deadline, steps, s.approvals)
  {
    hide Inv, StepsOk, AttemptsOk, ApprovalsOk, NotReady, QueuedShape, ExecutingShape;
    var steps := s.steps + Skips(plan.skips);
    AllSucceeded(c, s, claim);
    UndispatchedFacts(c, s, claim);
    InvTables(c, s);
    SkipRows(c, s, plan);
    StepsAdd(c, s.steps, Skips(plan.skips));
    AddedKeeps(c, s.steps, Skips(plan.skips));
    AttemptsKeep(c, s.run.deadline, s.steps, steps, s.attempts);
    ApprovalsKeep(c, s.run.deadline, s.steps, steps, s.approvals);
  }

  lemma SkipRows(c: Config, s: State, plan: Plan)
    requires PlanOk(c, s, plan)
    ensures var more := Skips(plan.skips);
      && (forall i :: 0 <= i < |more| ==> StepOk(c, more[i]) && more[i].node in c.nodes && more[i].status == Skipped)
      && (forall i, k :: 0 <= i < k < |more| ==> more[i].node != more[k].node)
      && (forall i, k :: 0 <= i < |s.steps| && 0 <= k < |more| ==> s.steps[i].node != more[k].node)
  {
    var more := Skips(plan.skips);
    forall i, k | 0 <= i < |s.steps| && 0 <= k < |more| ensures s.steps[i].node != more[k].node {
      assert !HasRow(s.steps, plan.skips[k]);
    }
  }

  lemma PickReady(c: Config, s: State, claim: Claim, plan: Plan)
    requires Inv(c, s) && Owns(s, claim, false) && s.jobs[claim.job].dispatchedAt.None?
    requires !Resuming(s) && PlanOk(c, s, plan) && plan.choice.Pick? && s.run.retry.None?
    ensures Begins(c, s, Prepared(s, claim.job).(
              steps := s.steps + Skips(plan.skips) + [NewStep(plan.choice.node, 0, Pending)]), claim.job)
  {
    hide Inv, Begins, Ready;
    var n := plan.choice.node;
    var more := Skips(plan.skips) + [NewStep(n, 0, Pending)];
    SkipRows(c, s, plan);
    forall i | 0 <= i < |s.steps| ensures s.steps[i].node != n { assert !HasRow(s.steps, n); }
    assert s.steps + Skips(plan.skips) + [NewStep(n, 0, Pending)] == s.steps + more;
    AddedReady(c, s, claim, more);
  }

  lemma CompletedOk(c: Config, s: State, claim: Claim, plan: Plan, output: Json)
    requires Inv(c, s) && Owns(s, claim, false) && s.jobs[claim.job].dispatchedAt.None?
    requires !Resuming(s) && PlanOk(c, s, plan) && plan.choice == Finish(Good(output))
    ensures var p := Prepared(s, claim.job).(steps := s.steps + Skips(plan.skips));
      Inv(c, CloseJob(p.(run := p.run.(status := Completed, output := Some(output))),
                      claim.job, JobCompleted, s.run.error))
  {
    hide Inv, StepsOk, AttemptsOk, ApprovalsOk, JobsOk, NotReady, ShapeOk, QueuedShape, ExecutingShape, JobOk;
    var j := claim.job;
    var p := Prepared(s, j).(steps := s.steps + Skips(plan.skips));
    var t := CloseJob(p.(run := p.run.(status := Completed, output := Some(output))),
                      j, JobCompleted, s.run.error);
    UndispatchedFacts(c, s, claim);
    RoutedSteps(c, s, claim, plan);
    MarkedClosed(c, s, j, JobCompleted, s.run.error);
    InvTables(c, s);
    forall n | n in c.nodes ensures HasRow(t.steps, n) {
      if HasRow(s.steps, n) {
        var i :| 0 <= i < |s.steps| && s.steps[i].node == n;
        assert t.steps[i].node == n;
      } else {
        var i :| 0 <= i < |plan.skips| && plan.skips[i] == n;
        assert t.steps[|s.steps| + i].node == n;
      }
    }
    CompletedShape(c, t);
    InvFrom(c, t);
  }

  lemma CompletedShape(c: Config, t: State)
    requires t.run.status == Completed && !t.run.cancelRequested && NoActiveJob(t.jobs)
    requires AttemptsDone(t.attempts) && NoPending(t.approvals)
    requires forall i :: 0 <= i < |t.steps| ==> Succeeded(t.steps[i].status)
    requires forall n :: n in c.nodes ==> HasRow(t.steps, n)
    ensures ShapeOk(c, t)
  { }

  lemma RoutingFailedOk(c: Config, s: State, claim: Claim, plan: Plan, code: string)
    requires Inv(c, s) && Owns(s, claim, false) && s.jobs[claim.job].dispatchedAt.None?
    requires !Resuming(s) && PlanOk(c, s, plan)
    ensures var p := Prepared(s, claim.job).(steps := s.steps + Skips(plan.skips));
      Inv(c, CloseJob(p.(run := Fail(p.run, Failed, code)), claim.job, JobFailed, Some(code)))
  {
    hide Inv, StepsOk, AttemptsOk, ApprovalsOk, JobsOk, NotReady, QueuedShape, ExecutingShape, JobOk;
    var j := claim.job;
    var p := Prepared(s, j).(steps := s.steps + Skips(plan.skips));
    var t := CloseJob(p.(run := Fail(p.run, Failed, code)), j, JobFailed, Some(code));
    UndispatchedFacts(c, s, claim);
    RoutedSteps(c, s, claim, plan);
    MarkedClosed(c, s, j, JobFailed, Some(code));
    StoppedOk(c, s, t);
  }

  lemma PrepareOk(c: Config, s: State, claim: Claim, plan: Plan)
    requires Inv(c, s) && Owns(s, claim, false) && s.jobs[claim.job].dispatchedAt.None?
    requires PlanOk(c, s, plan)
    ensures PlanOk(c, Prepared(s, claim.job), plan)
    ensures Inv(c, Prepare(c, Prepared(s, claim.job), claim.job, plan))
  {
    hide Inv, Begins, Begin, PlanOk, CloseJob, Skips;
    var j := claim.job;
    var p := Prepared(s, j);
    SamePlan(c, s, p, plan);
    if Resuming(s) {
      ResumeReady(c, s, claim);
      assert p.(steps := s.steps) == p;
      BeginOk(c, s, p, j, plan.inputs);
    } else if s.run.retry.Some? {
      RetryReady(c, s, claim);
      var r := s.run.retry.value;
      BeginOk(c, s, p.(steps := s.steps + [NewStep(r.node, r.iteration, Pending)]), j, plan.inputs);
    } else {
      match plan.choice {
        case Finish(Good(output)) => CompletedOk(c, s, claim, plan, output);
        case Finish(Bad(code)) => RoutingFailedOk(c, s, claim, plan, code);
        case Stall => RoutingFailedOk(c, s, claim, plan, "graph_stalled");
        case Pick(n) =>
          PickReady(c, s, claim, plan);
          BeginOk(c, s, p.(steps := s.steps + Skips(plan.skips) + [NewStep(n, 0, Pending)]), j, plan.inputs);
      }
    }
  }

  lemma SamePlan(c: Config, s: State, p: State, plan: Plan)
    requires s.steps == p.steps
    ensures PlanOk(c, s, plan) == PlanOk(c, p, plan)
  { }

  lemma DispatchOk(c: Config, s: State, claim: Claim, plan: Plan)
    requires Inv(c, s)
    ensures Inv(c, Dispatch(c, s, claim, plan))
  {
    hide Inv, Prepare, PlanOk, NotReady, Stop, CloseJob, QueuedShape;
    if Owns(s, claim, false) && s.jobs[claim.job].dispatchedAt.None? {
      UndispatchedFacts(c, s, claim);
      if Reached(s.run.deadline, s.clock) {
        DeadlineOk(c, s, claim);
      } else if PlanOk(c, s, plan) {
        PrepareOk(c, s, claim, plan);
      }
    }
  }
}
