/** What a dispatch leaves in the rows, field by field, and what that means for the output of
    a run. */
module DispatchOutcomes {
  import opened Records
  import opened Runtime
  import opened Invariant
  import opened Tables
  import opened Preserve
  import opened PreserveResults
  import opened PreserveApprovals
  import opened PreserveDispatch
  import opened History
  import opened Theorems
  import opened Ledger
  import opened StoreFacts
  import opened Outcomes

  // ---------- what a dispatch writes ----------

  /** The job is marked as dispatched and closed. */
  predicate Closes(s: State, t: State, j: nat, status: JobStatus, code: Option<string>) {
    && j < |s.jobs|
    && t.jobs == s.jobs[j := ClosedJob(s, j, status, code).(dispatchedAt := Some(s.clock))]
    && t.clock == s.clock && t.tokens == s.tokens
  }

  function Row(node: string, iteration: nat, status: Status): Step {
    Step(node, iteration, Key(node, iteration), status, None, None, NotWaiting, None, None, None)
  }

  /** The rows with one skipped row for each of `names`. */
  function WithSkipped(steps: seq<Step>, names: seq<string>): seq<Step> {
    steps + seq(|names|, i requires 0 <= i < |names| => Row(names[i], 0, Skipped))
  }

  /** The next attempt of the last of `rows`: numbered by how often that step was tried, and
      overdue no later than the node's timeout and the run's deadline. */
  function NextTry(c: Config, s: State, rows: seq<Step>, status: Status, input: Option<Input>,
                   error: Option<string>): Attempt
    requires |rows| > 0 && rows[|rows| - 1].node in c.nodes
  {
    var step := rows[|rows| - 1];
    var timeout := s.clock + c.nodes[step.node].timeout;
    Attempt(|rows| - 1, Count(s.attempts, |rows| - 1) + 1, step.key, status,
            if s.run.deadline.Some? && s.run.deadline.value < timeout then s.run.deadline.value else timeout,
            input, None, error)
  }

  /** The last step becomes `step` under a new attempt, before which `rows` were written. */
  predicate Tried(s: State, t: State, rows: seq<Step>, step: Step, attempt: Attempt) {
    && |rows| > 0
    && t.steps == rows[|rows| - 1 := step]
    && t.attempts == s.attempts + [attempt]
  }

  predicate RunMoves(s: State, t: State, status: Status, error: Option<string>) {
    t.run == s.run.(status := status, error := error, revision := s.run.revision + 1, retry := t.run.retry)
  }

  /** Step, attempt, run and job fail together. */
  predicate StartFails(c: Config, s: State, t: State, j: nat, rows: seq<Step>, input: Option<Input>, code: string) {
    && |rows| > 0 && rows[|rows| - 1].node in c.nodes
    && Tried(s, t, rows, rows[|rows| - 1].(status := Failed, input := input, nextAttemptAt := None,
                                           error := Some(code)),
             NextTry(c, s, rows, Failed, input, Some(code)))
    && RunMoves(s, t, Failed, Some(code)) && t.run.retry == s.run.retry
    && Closes(s, t, j, JobFailed, Some(code)) && t.approvals == s.approvals
  }

  /** The step waits, its attempt is done, and the worker is released. */
  predicate Parks(c: Config, s: State, t: State, j: nat, rows: seq<Step>, input: Input, reason: WaitReason,
                  wakeAt: Option<int>) {
    && |rows| > 0 && rows[|rows| - 1].node in c.nodes
    && Tried(s, t, rows, rows[|rows| - 1].(status := Waiting, input := Some(input), nextAttemptAt := None,
                                           error := None, waiting := reason, wakeAt := wakeAt),
             NextTry(c, s, rows, Completed, Some(input), None))
    && RunMoves(s, t, Waiting, s.run.error)
    && Closes(s, t, j, JobCompleted, s.run.error)
  }

  /** A worker gets the step to execute. */
  predicate Executing(c: Config, s: State, t: State, j: nat, rows: seq<Step>, input: Input) {
    && j < |s.jobs| && |rows| > 0 && rows[|rows| - 1].node in c.nodes
    && Tried(s, t, rows, rows[|rows| - 1].(status := Running, input := Some(input), nextAttemptAt := None,
                                           error := None),
             NextTry(c, s, rows, Running, Some(input), None))
    && RunMoves(s, t, Running, s.run.error) && t.run.retry == s.run.retry
    && t.jobs == s.jobs[j := s.jobs[j].(dispatchedAt := Some(s.clock), attempt := Some(|s.attempts|))]
    && t.approvals == s.approvals && t.clock == s.clock && t.tokens == s.tokens
  }

  /** A delay waits for its seconds, or until its date if that is ahead, but no more than
      seven days, and only if its node may answer with an empty object. */
  predicate DelayStarts(c: Config, s: State, t: State, j: nat, rows: seq<Step>, input: Input, timer: Timer) {
    var wakeAt := if timer.seconds.Some? then s.clock + timer.seconds.value else Later(s.clock, Some(timer.at));
    if wakeAt > s.clock + 7 * 24 * 60 * 60 then StartFails(c, s, t, j, rows, Some(input), "delay_invalid")
    else if !timer.acceptsEmpty then StartFails(c, s, t, j, rows, Some(input), "output_invalid")
    else
      && Parks(c, s, t, j, rows, input, ForDelay, Some(wakeAt))
      && t.run.retry == s.run.retry && t.approvals == s.approvals
  }

  /** A gate shows what a requested review retry asks for, or else the payload of its input,
      as its validation leaves it, together with the review of its input. */
  predicate ReviewStarts(c: Config, s: State, t: State, j: nat, rows: seq<Step>, input: Input, gate: Gate) {
    var candidate := if s.run.retry.Some? then Some(s.run.retry.value.payload) else input.payload;
    if candidate.None? || input.review.None? || gate.validate(candidate.value).None? then
      StartFails(c, s, t, j, rows, Some(input), "approval_input_invalid")
    else
      var expiry := if gate.deadline.Some? then Some(s.clock + gate.deadline.value) else None;
      && Parks(c, s, t, j, rows, input, ForApproval, expiry)
      && t.run.retry == None
      && t.approvals == s.approvals
           + [FirstShown(rows, input, gate.validate(candidate.value).value, input.review.value,
                         if s.run.retry.Some? then s.run.retry.value.feedback else None, expiry)]
  }

  /** The first snapshot of the last of `rows`. */
  function FirstShown(rows: seq<Step>, input: Input, payload: Json, review: Review, feedback: Option<string>,
                      expiry: Option<int>): Snapshot
    requires |rows| > 0
  {
    var st := |rows| - 1;
    var source := Source(st, rows[st].node, rows[st].iteration, Some(input));
    Snapshot(st, rows[st].node, rows[st].iteration, 1, AwaitingDecision, source,
             PayloadDigest(source, payload, review, 1), payload, review, feedback, expiry, None, None, None, None)
  }

  /** The last of `rows` is started with its inputs, as its node's type says. */
  predicate Starts(c: Config, s: State, t: State, j: nat, rows: seq<Step>, inputs: Outcome<Input>) {
    && |rows| > 0 && rows[|rows| - 1].node in c.nodes
    && match inputs
       case Bad(code) => StartFails(c, s, t, j, rows, rows[|rows| - 1].input, code)
       case Good(input) =>
         match c.nodes[rows[|rows| - 1].node].kind
         case Work => Executing(c, s, t, j, rows, input)
         case Delay(timer) => DelayStarts(c, s, t, j, rows, input, timer)
         case Approval(gate) => ReviewStarts(c, s, t, j, rows, input, gate)
  }

  /** The rows that routing skipped are written and the run ends. */
  predicate RouteEnds(s: State, t: State, j: nat, skips: seq<string>, status: Status, output: Option<Json>,
                      job: JobStatus, error: Option<string>) {
    && t.steps == WithSkipped(s.steps, skips) && t.attempts == s.attempts && t.approvals == s.approvals
    && t.run == s.run.(status := status, output := output, error := error, revision := s.run.revision + 1)
    && Closes(s, t, j, job, error)
  }

  /** What a plan does when nothing is to be resumed: its output completes the run, an error of
      its output or a stall fails it, and its node is started. */
  predicate Routes(c: Config, s: State, t: State, j: nat, plan: Plan) {
    match plan.choice
    case Finish(Good(output)) =>
      RouteEnds(s, t, j, plan.skips, Completed, Some(output), JobCompleted, s.run.error)
    case Finish(Bad(code)) => RouteEnds(s, t, j, plan.skips, Failed, s.run.output, JobFailed, Some(code))
    case Stall => RouteEnds(s, t, j, plan.skips, Failed, s.run.output, JobFailed, Some("graph_stalled"))
    case Pick(n) => Starts(c, s, t, j, WithSkipped(s.steps, plan.skips) + [Row(n, 0, Pending)], plan.inputs)
  }

  /** What the dispatch of a job does in time: resume the step that retries, begin the round
      of a gate that was sent back, or follow the plan. */
  predicate Prepares(c: Config, s: State, t: State, j: nat, plan: Plan) {
    if HasOpenStep(s) then Starts(c, s, t, j, s.steps, plan.inputs)
    else if s.run.retry.Some? then
      Starts(c, s, t, j, s.steps + [Row(s.run.retry.value.node, s.run.retry.value.iteration, Pending)], plan.inputs)
    else Routes(c, s, t, j, plan)
  }

  /** `p` is `s` with its job marked as dispatched and `p.steps` written, about to try the
      last of them. */
  predicate AboutToTry(c: Config, s: State, p: State, j: nat) {
    && j < |s.jobs| && |p.steps| > 0 && p.steps[|p.steps| - 1].node in c.nodes
    && p == s.(steps := p.steps, jobs := s.jobs[j := s.jobs[j].(dispatchedAt := Some(s.clock))],
               run := s.run.(status := Running, revision := s.run.revision + 1))
    && Numbered(s.attempts) && (forall a :: 0 <= a < |s.attempts| ==> s.attempts[a].step <= |p.steps| - 1)
    && (c.nodes[p.steps[|p.steps| - 1].node].kind.Approval? ==>
          forall a :: 0 <= a < |s.approvals| ==> s.approvals[a].step < |p.steps| - 1)
  }

  lemma TryIs(c: Config, s: State, p: State, j: nat, input: Option<Input>)
    requires AboutToTry(c, s, p, j)
    ensures |p.steps| > 0 && p.steps[|p.steps| - 1].node in c.nodes && j < |p.jobs| == |s.jobs|
    ensures NewAttempt(c, p, input) == NextTry(c, s, p.steps, Running, input, None)
  {
    NumberIsCount(s.attempts, |p.steps| - 1);
    hide Numbered;
  }

  lemma FailStartIs(c: Config, s: State, p: State, j: nat, step: Step, input: Option<Input>, code: string)
    requires AboutToTry(c, s, p, j)
    requires step == p.steps[|p.steps| - 1].(status := Running, error := None, nextAttemptAt := None, input := input)
    ensures j < |p.jobs|
    ensures StartFails(c, s, FailStart(p, j, step, NextTry(c, s, p.steps, Running, input, None), code), j, p.steps,
                       input, code)
  {
    hide Numbered, Count;
  }

  lemma WaitIs(c: Config, s: State, p: State, j: nat, step: Step, input: Input, reason: WaitReason, wakeAt: Option<int>)
    requires AboutToTry(c, s, p, j)
    requires step == p.steps[|p.steps| - 1].(status := Running, error := None, nextAttemptAt := None,
                                             input := Some(input), waiting := reason, wakeAt := wakeAt)
    ensures j < |p.jobs|
    ensures var t := Wait(p, j, step, NextTry(c, s, p.steps, Running, Some(input), None));
      Parks(c, s, t, j, p.steps, input, reason, wakeAt) && t.run.retry == s.run.retry && t.approvals == s.approvals
  {
    hide Numbered, Count;
  }

  lemma DelayIs(c: Config, s: State, p: State, j: nat, input: Input, timer: Timer)
    requires AboutToTry(c, s, p, j) && c.nodes[p.steps[|p.steps| - 1].node].kind == Delay(timer)
    ensures j < |p.jobs| && DelayStarts(c, s, Begin(c, p, j, Good(input)), j, p.steps, input, timer)
  {
    hide Numbered, Count, NewAttempt, NextTry, FailStart, Wait, StartFails, Parks, AboutToTry;
    TryIs(c, s, p, j, Some(input));
    AboutToIs(c, s, p, j);
    var running := p.steps[|p.steps| - 1].(status := Running, error := None, nextAttemptAt := None,
                                           input := Some(input));
    match WakeTime(timer, p.clock)
    case Bad(code) => FailStartIs(c, s, p, j, running, Some(input), code);
    case Good(due) =>
      WaitIs(c, s, p, j, running.(waiting := ForDelay, wakeAt := Some(due)), input, ForDelay, Some(due));
  }

  lemma AboutToIs(c: Config, s: State, p: State, j: nat)
    requires AboutToTry(c, s, p, j)
    ensures p.clock == s.clock && p.run.retry == s.run.retry && p.run.error == s.run.error
    ensures p.approvals == s.approvals && p.attempts == s.attempts
    ensures p.run == s.run.(status := Running, revision := s.run.revision + 1)
    ensures p.jobs == s.jobs[j := s.jobs[j].(dispatchedAt := Some(s.clock))] && p.tokens == s.tokens
  { }

  lemma ShownIs(c: Config, s: State, p: State, j: nat, step: Step, input: Input, gate: Gate, expiry: Option<int>)
    requires AboutToTry(c, s, p, j) && c.nodes[p.steps[|p.steps| - 1].node].kind == Approval(gate)
    requires step == p.steps[|p.steps| - 1].(status := Running, error := None, nextAttemptAt := None,
                                             input := Some(input))
    ensures var candidate := if s.run.retry.Some? then Some(s.run.retry.value.payload) else input.payload;
      NewSnapshot(p, step, gate, RetryPayload(p), RetryFeedback(p), expiry)
        == if candidate.None? || input.review.None? || gate.validate(candidate.value).None?
           then Bad("approval_input_invalid")
           else Good(FirstShown(p.steps, input, gate.validate(candidate.value).value, input.review.value,
                                if s.run.retry.Some? then s.run.retry.value.feedback else None, expiry))
  {
    hide Numbered;
  }

  lemma GateIs(c: Config, s: State, p: State, j: nat, input: Input, gate: Gate)
    requires AboutToTry(c, s, p, j) && c.nodes[p.steps[|p.steps| - 1].node].kind == Approval(gate)
    ensures j < |p.jobs| && ReviewStarts(c, s, Begin(c, p, j, Good(input)), j, p.steps, input, gate)
  {
    hide Numbered, Count, NewAttempt, NextTry, FailStart, Wait, StartFails, AboutToTry, NewSnapshot,
         RetryPayload, RetryFeedback, Tried, Closes, FirstShown;
    TryIs(c, s, p, j, Some(input));
    AboutToIs(c, s, p, j);
    var expiry := if gate.deadline.Some? then Some(s.clock + gate.deadline.value) else None;
    var running := p.steps[|p.steps| - 1].(status := Running, error := None, nextAttemptAt := None,
                                           input := Some(input));
    ShownIs(c, s, p, j, running, input, gate, expiry);
    var candidate := if s.run.retry.Some? then Some(s.run.retry.value.payload) else input.payload;
    if candidate.None? || input.review.None? || gate.validate(candidate.value).None? {
      FailStartIs(c, s, p, j, running, Some(input), "approval_input_invalid");
    } else {
      var waiting := running.(waiting := ForApproval, wakeAt := expiry);
      WaitIs(c, s, p, j, waiting, input, ForApproval, expiry);
      SameTables(c, s, Wait(p, j, waiting, NextTry(c, s, p.steps, Running, Some(input), None)),
                 Begin(c, p, j, Good(input)), j, p.steps, input, expiry);
    }
  }

  lemma SameTables(c: Config, s: State, t: State, u: State, j: nat, rows: seq<Step>, input: Input, expiry: Option<int>)
    requires Parks(c, s, t, j, rows, input, ForApproval, expiry)
    requires u.steps == t.steps && u.attempts == t.attempts && u.jobs == t.jobs
    requires u.run == t.run.(retry := u.run.retry) && u.clock == t.clock && u.tokens == t.tokens
    ensures Parks(c, s, u, j, rows, input, ForApproval, expiry)
  { }

  /** Starting the last row does what its inputs and its node's type say. */
  lemma BeginIs(c: Config, s: State, p: State, j: nat, inputs: Outcome<Input>)
    requires AboutToTry(c, s, p, j)
    ensures j < |p.jobs| && |p.steps| > 0 && p.steps[|p.steps| - 1].node in c.nodes
    ensures Starts(c, s, Begin(c, p, j, inputs), j, p.steps, inputs)
  {
    hide Numbered, Count, NewAttempt, FailStart, StartFails, DelayStarts, ReviewStarts;
    var step := p.steps[|p.steps| - 1];
    match inputs
    case Bad(code) =>
      TryIs(c, s, p, j, step.input);
      FailStartIs(c, s, p, j, step.(status := Running, error := None, nextAttemptAt := None), step.input, code);
    case Good(input) =>
      match c.nodes[step.node].kind
      case Work => TryIs(c, s, p, j, Some(input));
      case Delay(timer) => DelayIs(c, s, p, j, input, timer);
      case Approval(gate) => GateIs(c, s, p, j, input, gate);
  }

  /** The run expires while the job is being dispatched, which marks it. */
  predicate DispatchExpires(s: State, t: State, j: nat) {
    && j < |s.jobs|
    && RunExpires(s.(jobs := s.jobs[j := s.jobs[j].(dispatchedAt := Some(s.clock))]), t)
  }

  predicate MayDispatch(s: State, claim: Claim) {
    && HoldsJob(s, claim) && LeaseLeft(s, claim) && s.jobs[claim.job].sequence == claim.sequence
    && s.jobs[claim.job].dispatchedAt.None?
  }

  lemma SkipsAre(steps: seq<Step>, names: seq<string>)
    ensures steps + Skips(names) == WithSkipped(steps, names)
  { }

  /** The state before a start: `rows` follow the run's rows, or are those of a step that
      retries. */
  lemma Readied(c: Config, s: State, claim: Claim, rows: seq<Step>) returns (p: State)
    requires Inv(c, s) && Owns(s, claim, false) && s.jobs[claim.job].dispatchedAt.None?
    requires |rows| > 0 && rows[|rows| - 1].node in c.nodes
    requires |rows| > |s.steps| || (rows == s.steps && HasOpenStep(s))
    ensures p == s.(steps := rows, jobs := s.jobs[claim.job := s.jobs[claim.job].(dispatchedAt := Some(s.clock))],
                    run := s.run.(status := Running, revision := s.run.revision + 1))
    ensures AboutToTry(c, s, p, claim.job)
  {
    hide Inv, Numbered, StepOk, SnapshotOk;
    p := s.(steps := rows, jobs := s.jobs[claim.job := s.jobs[claim.job].(dispatchedAt := Some(s.clock))],
            run := s.run.(status := Running, revision := s.run.revision + 1));
    LedgerFacts(c, s);
    UndispatchedFacts(c, s, claim);
    forall a | 0 <= a < |s.approvals| ensures s.approvals[a].step < |s.steps| { SnapshotStep(c, s, a); }
    if HasOpenStep(s) { UnfinishedStep(c, s); }
  }

  lemma SnapshotStep(c: Config, s: State, a: nat)
    requires Inv(c, s) && a < |s.approvals|
    ensures s.approvals[a].step < |s.steps|
  {
    hide Inv;
    SnapshotAt(c, s, a);
  }

  lemma PrepareIs(c: Config, s: State, claim: Claim, plan: Plan, p: State)
    requires Inv(c, s) && Owns(s, claim, false) && s.jobs[claim.job].dispatchedAt.None? && PlanOk(c, s, plan)
    requires p == s.(jobs := s.jobs[claim.job := s.jobs[claim.job].(dispatchedAt := Some(s.clock))],
                     run := Bump(s.run).(status := Running))
    ensures PlanOk(c, p, plan) && Prepares(c, s, Prepare(c, p, claim.job, plan), claim.job, plan)
  {
    hide Inv, Begin, Starts, PlanOk, AboutToTry, NotReady;
    var j := claim.job;
    SamePlan(c, s, p, plan);
    UndispatchedFacts(c, s, claim);
    OpenMeans(c, s, claim);
    SkipsAre(s.steps, plan.skips);
    if plan.choice.Pick? { PickNode(c, s, plan); }
    if HasOpenStep(s) {
      var q := Readied(c, s, claim, s.steps);
      BeginIs(c, s, q, j, plan.inputs);
    } else if s.run.retry.Some? {
      var r := s.run.retry.value;
      var q := Readied(c, s, claim, s.steps + [Row(r.node, r.iteration, Pending)]);
      BeginIs(c, s, q, j, plan.inputs);
    } else if plan.choice.Pick? {
      var q := Readied(c, s, claim, WithSkipped(s.steps, plan.skips) + [Row(plan.choice.node, 0, Pending)]);
      BeginIs(c, s, q, j, plan.inputs);
    }
  }

  /** At a dispatch an open step is one that retries, and a requested round is of a pinned
      node. */
  lemma OpenMeans(c: Config, s: State, claim: Claim)
    requires Inv(c, s) && Owns(s, claim, false) && s.jobs[claim.job].dispatchedAt.None?
    ensures HasOpenStep(s) <==> Resuming(s)
    ensures HasOpenStep(s) ==> s.steps[|s.steps| - 1].node in c.nodes
    ensures s.run.retry.Some? ==> s.run.retry.value.node in c.nodes
  {
    hide Inv, NotReady;
    UndispatchedFacts(c, s, claim);
  }

  /** The whole effect of a dispatch.  The live owner of a job that is not dispatched yet gets
      it prepared, or, past the run's deadline, ends the run; any other dispatch changes
      nothing. */
  lemma DispatchOutcome(c: Config, s: State, tick: Tick, claim: Claim, plan: Plan)
    requires ConfigOk(c) && Reachable(c, s) && tick.event == DoDispatch(claim, plan) && PlanOk(c, s, plan)
    ensures var now, t := Then(s, tick), Apply(c, s, tick);
      if !MayDispatch(now, claim) then t == now
      else if !Ahead(now.run.deadline, now.clock) then DispatchExpires(now, t, claim.job)
      else Prepares(c, now, t, claim.job, plan)
  {
    hide Inv, Reachable, Prepare, Prepares, DispatchExpires, PlanOk, NotReady;
    ThenOk(c, s, tick);
    var now := Then(s, tick);
    SamePlan(c, s, now, plan);
    if MayDispatch(now, claim) {
      UndispatchedFacts(c, now, claim);
      if Ahead(now.run.deadline, now.clock) {
        PrepareIs(c, now, claim, plan,
                  now.(jobs := now.jobs[claim.job := now.jobs[claim.job].(dispatchedAt := Some(now.clock))],
                       run := Bump(now.run).(status := Running)));
      } else {
        LateDispatchIs(c, now, claim);
      }
    }
  }

  lemma LateDispatchIs(c: Config, s: State, claim: Claim)
    requires Inv(c, s) && Owns(s, claim, false) && s.jobs[claim.job].dispatchedAt.None?
    ensures var j := claim.job;
      DispatchExpires(s, CloseJob(Stop(s, Failed, "run_deadline", ApprovalExpired)
                                    .(jobs := s.jobs[j := s.jobs[j].(dispatchedAt := Some(s.clock))]),
                                  j, JobFailed, Some("run_deadline")), j)
  {
    hide Inv;
    ActiveIsLast(c, s, claim.job);
    JobsAreSettled(c, s);
  }

  // ---------- the output of a run ----------

  lemma ResultsDoNotComplete(c: Config, s: State, j: nat, work: WorkItem, result: Result, delay: nat)
    requires j < |s.jobs| && Dispatched(s, j, work)
    ensures CommitWork(c, s, j, work, result, delay).run.status in {s.run.status, Failed}
  {
    hide RetryDecision, Effective;
  }

  lemma DecisionsDoNotComplete(c: Config, s: State, a: nat, who: Reviewer, request: Request)
    ensures Decide(c, s, a, who, request).run.status in {s.run.status, Running, Failed, Cancelled}
  {
    hide StopJobs, StopSteps, StopAttempts, NextSequence, NewSnapshot, ClosePending, Decided;
  }

  lemma OnlyDispatchCompletes(c: Config, s: State, e: Event)
    requires s.run.status != Completed && !e.DoDispatch?
    ensures Perform(c, s, e).run.status != Completed
  {
    hide CommitWork, Decide, RetryDecision, StopJobs, StopSteps, StopAttempts, RetrySteps, NextSequence, ClosePending;
    match e
    case DoCommit(claim, work, result, delay) =>
      if Owns(s, claim, false) && Dispatched(s, claim.job, work) {
        ResultsDoNotComplete(c, s, claim.job, work, result, delay);
      }
    case DoWatchdog(j, delay) =>
      if j < |s.jobs| && s.jobs[j].attempt.Some? && s.jobs[j].attempt.value < |s.attempts| {
        var a := s.jobs[j].attempt.value;
        var work := WorkItem(s.attempts[a].step, a, s.run.revision);
        if Dispatched(s, j, work) { ResultsDoNotComplete(c, s, j, work, Error("attempt_timeout", None), delay); }
      }
    case DoDecide(a, who, request) => DecisionsDoNotComplete(c, s, a, who, request);
    case _ =>
  }

  lemma StartsDoNotComplete(c: Config, s: State, t: State, j: nat, rows: seq<Step>, inputs: Outcome<Input>)
    requires Starts(c, s, t, j, rows, inputs)
    ensures t.run.status in {Running, Waiting, Failed}
  {
    hide Tried, Closes, NextTry, FirstShown;
  }

  lemma PreparedOutput(c: Config, s: State, t: State, j: nat, plan: Plan)
    requires Prepares(c, s, t, j, plan) && t.run.status == Completed
    ensures plan.choice.Finish? && plan.choice.output.Good? && t.run.output == Some(plan.choice.output.value)
  {
    hide Starts, Closes, WithSkipped;
    if HasOpenStep(s) {
      StartsDoNotComplete(c, s, t, j, s.steps, plan.inputs);
    } else if s.run.retry.Some? {
      var r := s.run.retry.value;
      StartsDoNotComplete(c, s, t, j, s.steps + [Row(r.node, r.iteration, Pending)], plan.inputs);
    } else if plan.choice.Pick? {
      StartsDoNotComplete(c, s, t, j, WithSkipped(s.steps, plan.skips) + [Row(plan.choice.node, 0, Pending)],
                          plan.inputs);
    }
  }

  lemma ExpiryDoesNotComplete(s: State, t: State, j: nat)
    requires DispatchExpires(s, t, j)
    ensures t.run.status == Failed
  { }

  /** A run completes only by a dispatch whose plan finishes with an output, and it stores
      exactly that output. */
  lemma CompletionStoresOutput(c: Config, s: State, tick: Tick)
    requires ConfigOk(c) && Reachable(c, s) && s.run.status != Completed
    requires Apply(c, s, tick).run.status == Completed
    ensures tick.event.DoDispatch? && tick.event.plan.choice.Finish? && tick.event.plan.choice.output.Good?
    ensures Apply(c, s, tick).run.output == Some(tick.event.plan.choice.output.value)
  {
    hide Inv, Reachable, Perform, PlanOk, Prepares, DispatchExpires, MayDispatch;
    var now, t := Then(s, tick), Apply(c, s, tick);
    if !tick.event.DoDispatch? {
      OnlyDispatchCompletes(c, now, tick.event);
    } else {
      var claim, plan := tick.event.claim, tick.event.plan;
      SamePlan(c, s, now, plan);
      if !PlanOk(c, now, plan) {
        UnplannedDispatch(c, now, claim, plan);
      } else {
        DispatchOutcome(c, s, tick, claim, plan);
        if Prepares(c, now, t, claim.job, plan) {
          PreparedOutput(c, now, t, claim.job, plan);
        } else if DispatchExpires(now, t, claim.job) {
          ExpiryDoesNotComplete(now, t, claim.job);
        }
      }
    }
  }

  lemma UnplannedDispatch(c: Config, s: State, claim: Claim, plan: Plan)
    requires !PlanOk(c, s, plan)
    ensures Perform(c, s, DoDispatch(claim, plan)).run.status in {s.run.status, Failed}
  {
    hide PlanOk, Prepare, NotReady;
  }

  /** Every completed run has the output of one of its dispatches, for good. */
  lemma {:induction false} CompletedRunHasOutput(c: Config, deadline: Option<int>, now: int, trace: seq<Tick>)
    returns (k: nat)
    requires ConfigOk(c) && Replay(c, Start(deadline, now), trace).run.status == Completed
    ensures k < |trace| && trace[k].event.DoDispatch?
    ensures var choice := trace[k].event.plan.choice;
      && choice.Finish? && choice.output.Good?
      && Replay(c, Start(deadline, now), trace).run.output == Some(choice.output.value)
  {
    hide Inv, Apply;
    var s0 := Start(deadline, now);
    var init := trace[..|trace| - 1];
    var before := Replay(c, s0, init);
    StartReplays(c, deadline, now, init);
    if before.run.status == Completed {
      k := CompletedRunHasOutput(c, deadline, now, init);
      StepMoves(c, before, trace[|trace| - 1]);
    } else {
      k := |trace| - 1;
      CompletionStoresOutput(c, before, trace[k]);
    }
  }

  lemma StartReplays(c: Config, deadline: Option<int>, now: int, trace: seq<Tick>)
    requires ConfigOk(c)
    ensures var s := Replay(c, Start(deadline, now), trace); Reachable(c, s) && Inv(c, s)
  {
    hide Inv;
    var s := Replay(c, Start(deadline, now), trace);
    assert Reachable(c, s);
    ReachableOk(c, s);
  }
}
