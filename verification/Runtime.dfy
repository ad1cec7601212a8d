/** What each transaction of the durable runtime does to the rows of one linear run.

    A transaction holds the run lock, so it is one step.  When it raises, the database
    rolls it back and the step leaves the state as it was. */
module Runtime {
  import opened Records

  // ---------- shared row updates ----------

  function Closed(job: Job, status: JobStatus, code: Option<string>, now: int): Job {
    job.(status := status, completedAt := Some(now), error := code)
  }

  function NewJob(sequence: nat, due: int, now: int): Job {
    Job(sequence, Main, now, JobQueued, None, None, None, due, None, 0, None, None)
  }

  /** The sequence number after the greatest one in use. */
  function NextSequence(jobs: seq<Job>): nat {
    if jobs == [] then 0
    else
      var rest := NextSequence(jobs[..|jobs| - 1]);
      var last := jobs[|jobs| - 1].sequence + 1;
      if rest < last then last else rest
  }

  function StopJobs(jobs: seq<Job>, status: JobStatus, code: Option<string>, now: int): (r: seq<Job>)
    ensures |r| == |jobs|
    ensures forall i :: 0 <= i < |jobs| ==>
      r[i] == if Active(jobs[i].status) then Closed(jobs[i], status, code, now) else jobs[i]
  {
    seq(|jobs|, i requires 0 <= i < |jobs| =>
      if Active(jobs[i].status) then Closed(jobs[i], status, code, now) else jobs[i])
  }

  function StopSteps(steps: seq<Step>, status: Status, code: string): (r: seq<Step>)
    ensures |r| == |steps|
    ensures forall i :: 0 <= i < |steps| ==>
      r[i] == if Terminal(steps[i].status) then steps[i]
              else steps[i].(status := status, nextAttemptAt := None, error := Some(code))
  {
    seq(|steps|, i requires 0 <= i < |steps| =>
      if Terminal(steps[i].status) then steps[i]
      else steps[i].(status := status, nextAttemptAt := None, error := Some(code)))
  }

  function StopAttempts(attempts: seq<Attempt>, status: Status, code: string): (r: seq<Attempt>)
    ensures |r| == |attempts|
    ensures forall i :: 0 <= i < |attempts| ==>
      r[i] == if Terminal(attempts[i].status) then attempts[i]
              else attempts[i].(status := status, error := Some(code))
  {
    seq(|attempts|, i requires 0 <= i < |attempts| =>
      if Terminal(attempts[i].status) then attempts[i]
      else attempts[i].(status := status, error := Some(code)))
  }

  function ClosePending(approvals: seq<Snapshot>, status: ApprovalStatus, now: int): (r: seq<Snapshot>)
    ensures |r| == |approvals|
    ensures forall i :: 0 <= i < |approvals| ==>
      r[i] == if approvals[i].status == AwaitingDecision
              then approvals[i].(status := status, resolvedAt := Some(now)) else approvals[i]
  {
    seq(|approvals|, i requires 0 <= i < |approvals| =>
      if approvals[i].status == AwaitingDecision
      then approvals[i].(status := status, resolvedAt := Some(now)) else approvals[i])
  }

  function Fail(run: Run, status: Status, code: string): Run {
    run.(status := status, error := Some(code))
  }

  function Bump(run: Run): Run {
    run.(revision := run.revision + 1)
  }

  /** Every step, attempt and approval of the run becomes terminal. */
  function Stop(s: State, status: Status, code: string, close: ApprovalStatus): State {
    s.(run := Bump(Fail(s.run, status, code)),
       steps := StopSteps(s.steps, status, code),
       attempts := StopAttempts(s.attempts, status, code),
       approvals := ClosePending(s.approvals, close, s.clock))
  }

  /** The run deadline has passed: every record of the run fails. */
  function ExpireRun(s: State): State {
    Stop(s, Failed, "run_deadline", ApprovalExpired).(
      jobs := StopJobs(s.jobs, JobFailed, Some("run_deadline"), s.clock))
  }

  // ---------- claims and leases ----------

  datatype Claim = Claim(job: nat, sequence: nat, token: nat)

  predicate Owns(s: State, claim: Claim, allowExpired: bool) {
    && claim.job < |s.jobs|
    && var job := s.jobs[claim.job];
    && job.token == Some(claim.token)
    && job.sequence == claim.sequence
    && job.status == JobRunning
    && job.lease.Some?
    && (allowExpired || job.lease.value > s.clock)
  }

  function TerminalJobStatus(s: Status): JobStatus {
    if s == Completed then JobCompleted else if s == Cancelled then JobCancelled else JobFailed
  }

  function JobStatusText(s: JobStatus): string {
    match s
    case JobQueued => "queued"
    case JobRunning => "running"
    case JobCompleted => "completed"
    case JobFailed => "failed"
    case JobCancelled => "cancelled"
  }

  predicate Claimable(s: State, j: nat) {
    j < |s.jobs| && s.jobs[j].status == JobQueued && s.jobs[j].dueAt <= s.clock
  }

  function ClaimJob(c: Config, s: State, j: nat): State {
    if !Claimable(s, j) then s
    else if Terminal(s.run.status) || s.run.cancelRequested then
      var status := if s.run.cancelRequested then JobCancelled else TerminalJobStatus(s.run.status);
      var code := if status == JobCompleted then None
                  else if s.run.error.Some? then s.run.error else Some(JobStatusText(status));
      s.(jobs := s.jobs[j := Closed(s.jobs[j], status, code, s.clock)])
    else
      s.(jobs := s.jobs[j := s.jobs[j].(status := JobRunning, token := Some(s.tokens),
                                        lease := Some(s.clock + c.leaseSeconds))],
         tokens := s.tokens + 1)
  }

  /** Renewal goes by the token alone. */
  predicate Holds(s: State, claim: Claim) {
    && claim.job < |s.jobs|
    && var job := s.jobs[claim.job];
    && job.token == Some(claim.token)
    && job.status == JobRunning
    && job.lease.Some? && job.lease.value > s.clock
  }

  function Renew(c: Config, s: State, claim: Claim): State {
    if !Holds(s, claim) then s
    else
      var j := claim.job;
      s.(jobs := s.jobs[j := s.jobs[j].(lease := Some(s.clock + c.leaseSeconds))])
  }

  // ---------- retry decisions ----------

  const Permanent: set<string> := {
    "llm_tool_call_invalid", "llm_call_limit", "llm_round_limit", "llm_cost_limit",
    "llm_budget_unavailable", "llm_conversation_limit", "provider_rejected", "provider_refused",
    "provider_incomplete", "provider_response_invalid", "configuration_missing", "review_invalid",
    "quality_revision_busy", "binding_missing", "input_invalid", "output_invalid",
    "expression_range", "route_invalid", "unsupported_executor", "graph_stalled", "run_deadline",
    "tool_approval_required", "tool_denied", "tool_input_invalid", "tool_response_invalid",
    "tool_contract_mismatch", "tool_input_conflict", "tool_credential_changed",
    "tool_credential_revoked", "tool_resolution_required"}

  datatype Decision = Decision(due: Option<int>, code: string)

  /** `delay` is the jittered backoff, which is drawn at random. */
  function RetryDecision(policy: RetryPolicy, number: nat, code: string, now: int,
                         deadline: Option<int>, abandoned: bool, delay: nat,
                         notBefore: Option<int>): (d: Decision)
    ensures d.due.Some? ==> now <= d.due.value && number < policy.maxAttempts
    ensures d.due.Some? && deadline.Some? ==> d.due.value < deadline.value
  {
    var retryable := code !in Permanent
      && (code in policy.retryable || (abandoned && code == "worker_abandoned"));
    if Reached(deadline, now) then Decision(None, "run_deadline")
    else if !retryable then Decision(None, code)
    else if number >= policy.maxAttempts then Decision(None, "retry_exhausted")
    else
      var due := if notBefore.Some? then Max(now + delay, notBefore.value) else now + delay;
      if Reached(deadline, due) then Decision(None, "run_deadline") else Decision(Some(due), code)
  }

  // ---------- dispatch: prepare the next checkpoint ----------

  datatype Choice = Finish(output: Outcome<Json>) | Stall | Pick(node: string)

  /** What graph routing and data binding decide for a checkpoint: the nodes settled as
      skipped, the ready node (if any), and its resolved input. */
  datatype Plan = Plan(skips: seq<string>, choice: Choice, inputs: Outcome<Input>)

  predicate HasRow(steps: seq<Step>, n: string) {
    exists i :: 0 <= i < |steps| && steps[i].node == n
  }

  predicate PlanOk(c: Config, s: State, plan: Plan) {
    && (forall i :: 0 <= i < |plan.skips| ==>
          plan.skips[i] in c.nodes && !HasRow(s.steps, plan.skips[i]))
    && (forall i, k :: 0 <= i < k < |plan.skips| ==> plan.skips[i] != plan.skips[k])
    && (plan.choice.Finish? ==> forall n :: n in c.nodes ==> HasRow(s.steps, n) || n in plan.skips)
    && (plan.choice.Pick? ==>
          plan.choice.node in c.nodes && !HasRow(s.steps, plan.choice.node)
          && plan.choice.node !in plan.skips)
  }

  function NewStep(node: string, iteration: nat, status: Status): Step {
    Step(node, iteration, Key(node, iteration), status, None, None, NotWaiting, None, None, None)
  }

  function Skips(names: seq<string>): (r: seq<Step>)
    ensures |r| == |names|
    ensures forall i :: 0 <= i < |names| ==> r[i] == NewStep(names[i], 0, Skipped)
  {
    seq(|names|, i requires 0 <= i < |names| => NewStep(names[i], 0, Skipped))
  }

  predicate Resuming(s: State) {
    |s.steps| > 0 && s.steps[|s.steps| - 1].status == Retrying
  }

  /** No checkpoint can be prepared although the run is live: an unfinished step is in
      the way, or its next attempt is not due. */
  predicate NotReady(s: State) {
    |s.steps| > 0
    && var last := s.steps[|s.steps| - 1];
    && !Terminal(last.status)
    && (last.status != Retrying
        || (last.nextAttemptAt.Some? && s.clock < last.nextAttemptAt.value
            && !Reached(s.run.deadline, s.clock)))
  }

  function Dispatch(c: Config, s: State, claim: Claim, plan: Plan): State {
    if !Owns(s, claim, false) || s.jobs[claim.job].dispatchedAt.Some? then s
    else
      var j := claim.job;
      var marked := s.(jobs := s.jobs[j := s.jobs[j].(dispatchedAt := Some(s.clock))],
                       run := Bump(s.run));
      if s.run.status !in {Pending, Running} || NotReady(s) then
        var status := if s.run.status == Waiting then JobCompleted else TerminalJobStatus(s.run.status);
        var code := if s.run.status in {Completed, Waiting} then None
                    else if s.run.error.Some? then s.run.error else Some("checkpoint_not_ready");
        CloseJob(marked, j, status, code)
      else if Reached(s.run.deadline, s.clock) then
        CloseJob(Stop(s, Failed, "run_deadline", ApprovalExpired).(jobs := marked.jobs),
                 j, JobFailed, Some("run_deadline"))
      else if !PlanOk(c, s, plan) then s
      else Prepare(c, marked.(run := marked.run.(status := Running)), j, plan)
  }

  function CloseJob(s: State, j: nat, status: JobStatus, code: Option<string>): State
    requires j < |s.jobs|
  {
    s.(jobs := s.jobs[j := Closed(s.jobs[j], status, code, s.clock)])
  }

  /** Choose the node of this checkpoint: a retrying step first, then a requested review
      retry, then what graph routing picked. */
  function Prepare(c: Config, s: State, j: nat, plan: Plan): State
    requires j < |s.jobs|
    requires PlanOk(c, s, plan)
  {
    if Resuming(s) then
      if s.steps[|s.steps| - 1].node in c.nodes then Begin(c, s, j, plan.inputs) else s
    else if s.run.retry.Some? then
      var r := s.run.retry.value;
      if r.node in c.nodes
      then Begin(c, s.(steps := s.steps + [NewStep(r.node, r.iteration, Pending)]), j, plan.inputs)
      else s
    else
      var routed := s.(steps := s.steps + Skips(plan.skips));
      match plan.choice
      case Finish(Good(output)) =>
        CloseJob(routed.(run := s.run.(status := Completed, output := Some(output))),
                 j, JobCompleted, s.run.error)
      case Finish(Bad(code)) =>
        CloseJob(routed.(run := Fail(s.run, Failed, code)), j, JobFailed, Some(code))
      case Stall =>
        CloseJob(routed.(run := Fail(s.run, Failed, "graph_stalled")),
                 j, JobFailed, Some("graph_stalled"))
      case Pick(n) =>
        Begin(c, routed.(steps := routed.steps + [NewStep(n, 0, Pending)]), j, plan.inputs)
  }

  function AttemptsOf(attempts: seq<Attempt>, step: nat): nat {
    if |attempts| > 0 && attempts[|attempts| - 1].step == step
    then attempts[|attempts| - 1].number else 0
  }

  function NewAttempt(c: Config, s: State, input: Option<Input>): Attempt
    requires |s.steps| > 0 && s.steps[|s.steps| - 1].node in c.nodes
  {
    var step := s.steps[|s.steps| - 1];
    var limit := s.clock + c.nodes[step.node].timeout;
    Attempt(|s.steps| - 1, AttemptsOf(s.attempts, |s.steps| - 1) + 1, step.key, Running,
            if s.run.deadline.Some? then Min(limit, s.run.deadline.value) else limit,
            input, None, None)
  }

  /** Start an attempt of the last step and act on its node's type. */
  function Begin(c: Config, s: State, j: nat, inputs: Outcome<Input>): State
    requires j < |s.jobs| && |s.steps| > 0 && s.steps[|s.steps| - 1].node in c.nodes
  {
    var st := |s.steps| - 1;
    var node := c.nodes[s.steps[st].node];
    var running := s.steps[st].(status := Running, error := None, nextAttemptAt := None);
    match inputs
    case Bad(code) => FailStart(s, j, running, NewAttempt(c, s, s.steps[st].input), code)
    case Good(input) =>
      var step := running.(input := Some(input));
      var attempt := NewAttempt(c, s, Some(input));
      match node.kind
      case Work =>
        s.(steps := s.steps[st := step], attempts := s.attempts + [attempt],
           jobs := s.jobs[j := s.jobs[j].(attempt := Some(|s.attempts|))])
      case Delay(timer) =>
        (match WakeTime(timer, s.clock)
         case Bad(code) => FailStart(s, j, step, attempt, code)
         case Good(due) =>
           Wait(s, j, step.(waiting := ForDelay, wakeAt := Some(due)), attempt))
      case Approval(gate) =>
        var expiry := if gate.deadline.Some? then Some(s.clock + gate.deadline.value) else None;
        match NewSnapshot(s, step, gate, RetryPayload(s), RetryFeedback(s), expiry)
        case Bad(code) => FailStart(s, j, step, attempt, code)
        case Good(item) =>
          var waiting := Wait(s, j, step.(waiting := ForApproval, wakeAt := expiry), attempt);
          waiting.(approvals := s.approvals + [item], run := waiting.run.(retry := None))
  }

  function RetryPayload(s: State): Option<Json> {
    if s.run.retry.Some? then Some(s.run.retry.value.payload) else None
  }

  function RetryFeedback(s: State): Option<string> {
    if s.run.retry.Some? then s.run.retry.value.feedback else None
  }

  /** The attempt is done, the step waits, the run waits and the worker is released. */
  function Wait(s: State, j: nat, step: Step, attempt: Attempt): State
    requires j < |s.jobs| && |s.steps| > 0
  {
    CloseJob(s.(steps := s.steps[|s.steps| - 1 := step.(status := Waiting)],
                attempts := s.attempts + [attempt.(status := Completed)],
                run := s.run.(status := Waiting)),
             j, JobCompleted, s.run.error)
  }

  function FailStart(s: State, j: nat, step: Step, attempt: Attempt, code: string): State
    requires j < |s.jobs| && |s.steps| > 0
  {
    CloseJob(s.(steps := s.steps[|s.steps| - 1 := step.(status := Failed, error := Some(code))],
                attempts := s.attempts + [attempt.(status := Failed, error := Some(code))],
                run := Fail(s.run, Failed, code)),
             j, JobFailed, Some(code))
  }

  const SevenDays := 604800

  function WakeTime(timer: Timer, now: int): (r: Outcome<int>)
    ensures r.Good? ==> now <= r.value <= now + SevenDays
  {
    var due := if timer.seconds.Some? then now + timer.seconds.value else Max(now, timer.at);
    if due - now > SevenDays then Bad("delay_invalid")
    else if !timer.acceptsEmpty then Bad("output_invalid")
    else Good(due)
  }

  // ---------- approval snapshots ----------

  function SourceOf(index: nat, step: Step): Source {
    Source(index, step.node, step.iteration, step.input)
  }

  function NextRevision(approvals: seq<Snapshot>, step: nat): nat {
    if |approvals| > 0 && approvals[|approvals| - 1].step == step
    then approvals[|approvals| - 1].revision + 1 else 1
  }

  /** A new pending snapshot for the last step, whose row is `step`. */
  function NewSnapshot(s: State, step: Step, gate: Gate, candidate: Option<Json>,
                       feedback: Option<string>, expiresAt: Option<int>): Outcome<Snapshot>
    requires |s.steps| > 0
  {
    var st := |s.steps| - 1;
    if step.input.None? then Bad("approval_input_invalid")
    else
      var input := step.input.value;
      var shown := if candidate.Some? then candidate else input.payload;
      if shown.None? || input.review.None? then Bad("approval_input_invalid")
      else
        match gate.validate(shown.value)
        case None => Bad("approval_input_invalid")
        case Some(payload) =>
          var source := SourceOf(st, step);
          var revision := NextRevision(s.approvals, st);
          Good(Snapshot(st, step.node, step.iteration, revision, AwaitingDecision, source,
                        PayloadDigest(source, payload, input.review.value, revision),
                        payload, input.review.value, feedback, expiresAt, None, None, None, None))
  }

  // ---------- results ----------

  /** What a worker holds while it executes: no lock and no session. */
  datatype WorkItem = WorkItem(step: nat, attempt: nat, revision: nat)

  datatype Result = Output(value: Json) | Error(code: string, notBefore: Option<int>)

  predicate Dispatched(s: State, j: nat, work: WorkItem)
    requires j < |s.jobs|
  {
    && s.jobs[j].attempt == Some(work.attempt)
    && s.jobs[j].dispatchedAt.Some?
    && work.attempt < |s.attempts|
    && s.attempts[work.attempt].step == work.step < |s.steps|
    && s.attempts[work.attempt].status == Running
    && s.steps[work.step].status == Running
    && !Terminal(s.run.status) && !s.run.cancelRequested
  }

  function Commit(c: Config, s: State, claim: Claim, work: WorkItem, result: Result, delay: nat): State {
    if s.run.revision != work.revision || !Owns(s, claim, false) || !Dispatched(s, claim.job, work)
    then s
    else CommitWork(c, s, claim.job, work, result, delay)
  }

  /** Deadlines observed under the lock override what the executor reported. */
  function Effective(s: State, work: WorkItem, result: Result): Result
    requires work.attempt < |s.attempts|
  {
    if Reached(s.run.deadline, s.clock) then Error("run_deadline", None)
    else if s.clock >= s.attempts[work.attempt].deadline then Error("attempt_timeout", None)
    else result
  }

  function CommitWork(c: Config, s: State, j: nat, work: WorkItem, result: Result, delay: nat): State
    requires j < |s.jobs| && Dispatched(s, j, work)
  {
    var step, attempt := s.steps[work.step], s.attempts[work.attempt];
    if step.node !in c.nodes then s
    else
      match Effective(s, work, result)
      case Output(value) =>
        Settle(s, j, work,
               step.(status := Completed, output := Some(value)),
               attempt.(status := Completed, output := Some(value)),
               JobCompleted, None)
      case Error(code, notBefore) =>
        var d := RetryDecision(c.nodes[step.node].retry, attempt.number, code, s.clock,
                               s.run.deadline, false, delay, notBefore);
        Settle(s, j, work,
               step.(status := if d.due.Some? then Retrying else Failed,
                     error := Some(d.code), nextAttemptAt := d.due),
               attempt.(status := Failed, error := Some(code)),
               JobFailed, Some(d.code))
  }

  /** Store the settled rows, finish the job and queue the next checkpoint. */
  function Settle(s: State, j: nat, work: WorkItem, step: Step, attempt: Attempt,
                  status: JobStatus, code: Option<string>): State
    requires j < |s.jobs| && Dispatched(s, j, work)
  {
    var closed := s.jobs[j := Closed(s.jobs[j], status, code, s.clock)];
    var due := if step.nextAttemptAt.Some? then step.nextAttemptAt.value else s.clock;
    var settled := s.(steps := s.steps[work.step := step],
                      attempts := s.attempts[work.attempt := attempt]);
    if step.status == Failed && code.Some? then
      settled.(jobs := closed, run := Bump(Fail(s.run, Failed, code.value)))
    else
      settled.(jobs := closed + [NewJob(s.jobs[j].sequence + 1, due, s.clock)], run := Bump(s.run))
  }

  // ---------- recovery and the watchdog ----------

  function Watchdog(c: Config, s: State, j: nat, delay: nat): State {
    if j >= |s.jobs| || !Active(s.jobs[j].status) || Terminal(s.run.status) then s
    else if Reached(s.run.deadline, s.clock) then ExpireRun(s)
    else
      match s.jobs[j].attempt
      case None => s
      case Some(a) =>
        if a >= |s.attempts| then s
        else
          var work := WorkItem(s.attempts[a].step, a, s.run.revision);
          if s.jobs[j].status == JobRunning && Dispatched(s, j, work)
             && s.clock >= s.attempts[a].deadline
          then CommitWork(c, s, j, work, Error("attempt_timeout", None), delay)
          else s
  }

  function Recover(c: Config, s: State, claim: Claim, delay: nat): State {
    if !Owns(s, claim, true) || s.jobs[claim.job].lease.value > s.clock then s
    else
      var j := claim.job;
      if Terminal(s.run.status) then
        CloseJob(s.(run := Bump(s.run)), j, TerminalJobStatus(s.run.status), s.run.error)
      else
        var late := Reached(s.run.deadline, s.clock);
        var budget := s.jobs[j].recoveries < c.maxRecoveries && !late;
        if |s.steps| > 0 && !Terminal(s.steps[|s.steps| - 1].status) then
          var step := s.steps[|s.steps| - 1];
          if step.node !in c.nodes then s
          else
            var d := RetryDecision(c.nodes[step.node].retry, AttemptsOf(s.attempts, |s.steps| - 1),
                                   "worker_abandoned", s.clock, s.run.deadline, true, delay, None);
            if budget && d.due.Some? && step.status in {Running, Retrying}
            then Requeue(s, j, d.due.value)
            else Abandon(s, j, if late || d.code == "run_deadline" then "run_deadline"
                               else "recovery_exhausted")
        else if budget then Requeue(s, j, s.clock)
        else Abandon(s, j, if late then "run_deadline" else "recovery_exhausted")
  }

  function Unclaimed(job: Job, due: int): Job {
    job.(status := JobQueued, token := None, dispatchedAt := None, attempt := None, lease := None,
         recoveries := job.recoveries + 1, dueAt := due)
  }

  function Requeue(s: State, j: nat, due: int): State
    requires j < |s.jobs|
  {
    s.(run := Bump(s.run),
       steps := RetrySteps(s.steps, due),
       attempts := StopAttempts(s.attempts, Failed, "worker_abandoned"),
       jobs := s.jobs[j := Unclaimed(s.jobs[j], due)])
  }

  function RetrySteps(steps: seq<Step>, due: int): (r: seq<Step>)
    ensures |r| == |steps|
    ensures forall i :: 0 <= i < |steps| ==>
      r[i] == if Terminal(steps[i].status) then steps[i]
              else steps[i].(status := Retrying, nextAttemptAt := Some(due))
  {
    seq(|steps|, i requires 0 <= i < |steps| =>
      if Terminal(steps[i].status) then steps[i]
      else steps[i].(status := Retrying, nextAttemptAt := Some(due)))
  }

  function Abandon(s: State, j: nat, code: string): State
    requires j < |s.jobs|
  {
    s.(run := Bump(Fail(s.run, Failed, code)),
       steps := StopSteps(s.steps, Failed, code),
       attempts := StopAttempts(s.attempts, Failed, "worker_abandoned"),
       jobs := StopJobs(s.jobs[j := Closed(s.jobs[j], JobFailed, Some(code), s.clock)],
                        JobCancelled, Some(code), s.clock))
  }

  // ---------- timers, reviewers and operators ----------

  predicate NoActiveJob(jobs: seq<Job>) {
    forall i :: 0 <= i < |jobs| ==> !Active(jobs[i].status)
  }

  function Wake(s: State, st: nat): State {
    if st >= |s.steps| || s.steps[st].status != Waiting || s.steps[st].waiting != ForDelay
       || s.run.status !in {Running, Waiting} || s.run.cancelRequested then s
    else if Reached(s.run.deadline, s.clock) then ExpireRun(s)
    else if s.steps[st].wakeAt.None? || s.clock < s.steps[st].wakeAt.value || !NoActiveJob(s.jobs)
    then s
    else
      s.(steps := s.steps[st := s.steps[st].(status := Completed, output := Some("{}"))],
         run := Bump(s.run.(status := Running)),
         jobs := s.jobs + [NewJob(NextSequence(s.jobs), s.clock, s.clock)])
  }

  function TerminateWait(s: State, st: nat, code: string, rejected: bool): State
    requires st < |s.steps|
  {
    var status := if rejected then Cancelled else Failed;
    s.(steps := s.steps[st := s.steps[st].(status := status, error := Some(code))],
       run := Bump(Fail(s.run, status, code)))
  }

  predicate ApprovalDue(s: State, item: Snapshot) {
    Reached(s.run.deadline, s.clock) || Reached(item.expiresAt, s.clock)
  }

  function Expire(s: State, a: nat, gate: Gate): State
    requires a < |s.approvals| && s.approvals[a].step < |s.steps|
  {
    var item := s.approvals[a];
    if Reached(s.run.deadline, s.clock) then ExpireRun(s)
    else
      TerminateWait(
        s.(approvals := s.approvals[a := item.(status := ApprovalExpired, resolvedAt := Some(s.clock))]),
        item.step, "approval_expired", gate.timeoutRejects)
  }

  predicate Gated(c: Config, s: State, a: nat) {
    && a < |s.approvals|
    && s.approvals[a].status == AwaitingDecision
    && s.approvals[a].step == |s.steps| - 1
    && s.approvals[a].node in c.nodes
    && c.nodes[s.approvals[a].node].kind.Approval?
    && s.run.status in {Running, Waiting}
  }

  function ExpireApproval(c: Config, s: State, a: nat): State {
    if !Gated(c, s, a) || !ApprovalDue(s, s.approvals[a]) then s
    else Expire(s, a, c.nodes[s.approvals[a].node].kind.gate)
  }

  datatype Reviewer = Reviewer(user: string, role: string, mayOverride: bool)

  function Decided(item: Snapshot, status: ApprovalStatus, who: Reviewer, request: Request, now: int): Snapshot {
    item.(status := status, resolvedAt := Some(now), decidedBy := Some(who.user),
          feedback := if request.feedback.Some? then request.feedback else item.feedback,
          request := Some(request))
  }

  function Decide(c: Config, s: State, a: nat, who: Reviewer, request: Request): State {
    if !Gated(c, s, a) then s
    else
      var item := s.approvals[a];
      var gate := c.nodes[item.node].kind.gate;
      var st := item.step;
      var step := s.steps[st];
      if who.role !in gate.reviewers || step.status != Waiting || s.run.cancelRequested
         || request.expected != item.digest then s
      else if ApprovalDue(s, item) then Expire(s, a, gate)
      else if item.source != SourceOf(st, step) then Invalidate(s, a, gate)
      else
        match request.action
        case Approve =>
          if item.review.severe && !who.mayOverride then s
          else Resume(s.(approvals := s.approvals[a := Decided(item, Approved, who, request, s.clock)]),
                      st, Some(item.payload))
        case Reject =>
          TerminateWait(s.(approvals := s.approvals[a := Decided(item, Rejected, who, request, s.clock)]),
                        st, "approval_rejected", true)
        case RequestRetry =>
          if step.iteration >= gate.maxReviewRetries then s
          else
            var retry := Retry(step.node, step.iteration + 1, item.payload, request.feedback);
            Resume(s.(approvals := s.approvals[a := Decided(item, RetryRequested, who, request, s.clock)],
                      run := s.run.(retry := Some(retry))),
                   st, None)
        case Edit(payload) => Replace(s, a, gate, who, request, payload)
  }

  /** The governed input changed under the reviewer: close the stale snapshot and show a
      fresh one, or fail the run when the new input cannot be shown. */
  function Invalidate(s: State, a: nat, gate: Gate): State
    requires a < |s.approvals| && s.approvals[a].step == |s.steps| - 1
  {
    var item := s.approvals[a];
    var stale := s.(approvals := s.approvals[a := item.(status := Invalidated, resolvedAt := Some(s.clock))]);
    match NewSnapshot(stale, s.steps[item.step], gate, None, None, item.expiresAt)
    case Good(next) => stale.(approvals := stale.approvals + [next], run := Bump(s.run))
    case Bad(_) => TerminateWait(stale, item.step, "approval_input_invalid", false)
  }

  /** A reviewer's edit supersedes the snapshot by the next revision. */
  function Replace(s: State, a: nat, gate: Gate, who: Reviewer, request: Request, payload: Json): State
    requires a < |s.approvals| && s.approvals[a].step == |s.steps| - 1
  {
    var item := s.approvals[a];
    var previous := Decided(item, Superseded, who, request, s.clock).(replacement := Some(|s.approvals|));
    var closed := s.(approvals := s.approvals[a := previous]);
    match NewSnapshot(closed, s.steps[item.step], gate, Some(payload), request.feedback, item.expiresAt)
    case Good(next) => closed.(approvals := closed.approvals + [next], run := Bump(s.run))
    case Bad(_) => s
  }

  predicate Undispatched(jobs: seq<Job>) {
    forall i :: 0 <= i < |jobs| && Active(jobs[i].status) ==>
      jobs[i].attempt.None? && jobs[i].dispatchedAt.None?
  }

  /** The step completes, the run runs again and its next checkpoint is queued. */
  function Resume(s: State, st: nat, output: Option<Json>): State
    requires st < |s.steps|
  {
    var settled := StopJobs(s.jobs, JobCompleted, None, s.clock);
    s.(steps := s.steps[st := s.steps[st].(status := Completed, output := output)],
       run := Bump(s.run.(status := Running)),
       jobs := settled + [NewJob(NextSequence(settled), s.clock, s.clock)])
  }

  function Cancel(s: State): State {
    if Terminal(s.run.status) then s
    else
      var stopped := Stop(s, Cancelled, "cancelled", ApprovalCancelled);
      stopped.(run := stopped.run.(cancelRequested := true),
               jobs := StopJobs(s.jobs, JobCancelled, Some("cancelled"), s.clock))
  }

  /** Some other writer changes the governed input of a waiting step.  No service does
      so, but approvals are bound to their input against exactly this. */
  function ChangeInput(s: State, st: nat, input: Input): State {
    if st >= |s.steps| || s.steps[st].status != Waiting then s
    else s.(steps := s.steps[st := s.steps[st].(input := Some(input))], run := Bump(s.run))
  }

  // ---------- runs of the whole system ----------

  datatype Event =
    | DoClaim(job: nat)
    | DoRenew(claim: Claim)
    | DoDispatch(claim: Claim, plan: Plan)
    | DoCommit(claim: Claim, work: WorkItem, result: Result, delay: nat)
    | DoWatchdog(job: nat, delay: nat)
    | DoRecover(claim: Claim, delay: nat)
    | DoWake(step: nat)
    | DoDecide(approval: nat, who: Reviewer, request: Request)
    | DoExpireApproval(approval: nat)
    | DoCancel
    | DoChangeInput(step: nat, input: Input)

  function Perform(c: Config, s: State, e: Event): State {
    match e
    case DoClaim(j) => ClaimJob(c, s, j)
    case DoRenew(claim) => Renew(c, s, claim)
    case DoDispatch(claim, plan) => Dispatch(c, s, claim, plan)
    case DoCommit(claim, work, result, delay) => Commit(c, s, claim, work, result, delay)
    case DoWatchdog(j, delay) => Watchdog(c, s, j, delay)
    case DoRecover(claim, delay) => Recover(c, s, claim, delay)
    case DoWake(st) => Wake(s, st)
    case DoDecide(a, who, request) => Decide(c, s, a, who, request)
    case DoExpireApproval(a) => ExpireApproval(c, s, a)
    case DoCancel => Cancel(s)
    case DoChangeInput(st, input) => ChangeInput(s, st, input)
  }

  /** `after` is the time that passes before the transaction; a worker that crashes is
      one that takes no further step. */
  datatype Tick = Tick(after: nat, event: Event)

  function Apply(c: Config, s: State, t: Tick): State {
    Perform(c, s.(clock := s.clock + t.after), t.event)
  }

  function Replay(c: Config, s: State, trace: seq<Tick>): State {
    if trace == [] then s
    else Apply(c, Replay(c, s, trace[..|trace| - 1]), trace[|trace| - 1])
  }

  /** An accepted start: a pending run and its first job. */
  function Start(deadline: Option<int>, now: int): State {
    State(Run(Pending, 0, false, deadline, None, None, None), [], [],
          [NewJob(0, now, now)], [], now, 0)
  }
}
