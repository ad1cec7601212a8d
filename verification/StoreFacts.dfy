/** Facts about reachable rows that the services rely on when they write through the
    guards. */
module StoreFacts {
  import opened Records
  import opened Runtime
  import opened Invariant
  import opened Tables
  import opened Preserve
  import opened PreserveResults
  import opened PreserveApprovals
  import opened PreserveDispatch
  import opened History
  import opened Guards
  import opened Ledger
  import opened Approvals

  lemma HasJob(c: Config, s: State)
    requires Inv(c, s)
    ensures |s.jobs| > 0
  {
    hide ConfigOk, StepsOk, AttemptsOk, ApprovalsOk, ShapeOk;
  }

  /** A live run whose attempts are all running or done, and done when their step is. */
  predicate Stoppable(s: State) {
    && s.run.status in {Pending, Running, Waiting}
    && AttemptsFit(s.steps, s.attempts)
  }

  predicate AttemptsFit(steps: seq<Step>, attempts: seq<Attempt>) {
    forall a :: 0 <= a < |attempts| ==>
      && attempts[a].step < |steps|
      && (Terminal(attempts[a].status) || attempts[a].status == Running)
      && (Terminal(steps[attempts[a].step].status) ==> Terminal(attempts[a].status))
  }

  lemma LiveRows(c: Config, s: State)
    requires Inv(c, s)
    ensures AttemptsFit(s.steps, s.attempts)
  {
    hide Inv;
    forall a | 0 <= a < |s.attempts|
      ensures s.attempts[a].step < |s.steps|
      ensures Terminal(s.attempts[a].status) || s.attempts[a].status == Running
      ensures Terminal(s.steps[s.attempts[a].step].status) ==> Terminal(s.attempts[a].status)
    { AttemptAt(c, s, a); }
  }

  lemma LiveStatus(c: Config, s: State)
    requires Inv(c, s) && !Terminal(s.run.status)
    ensures s.run.status in {Pending, Running, Waiting} && !s.run.cancelRequested
  {
    hide JobsOk, StepsOk, AttemptsOk, ApprovalsOk, PendingShape, ExecutingShape, QueuedShape, WaitingShape;
  }

  lemma RunMayEnd(s: State, to: Status)
    requires to in {Failed, Cancelled} && s.run.status in {Pending, Running, Waiting}
    requires forall i :: 0 <= i < |s.steps| ==> Terminal(s.steps[i].status)
    ensures RunMayMove(s, to)
  { }

  /** `work` is the only unfinished attempt, of the only unfinished step. */
  predicate OnlyLive(s: State, work: WorkItem) {
    && work.attempt < |s.attempts| && work.step < |s.steps|
    && s.attempts[work.attempt].step == work.step
    && s.attempts[work.attempt].status == Running && s.steps[work.step].status == Running
    && s.run.status == Running
    && (forall a :: 0 <= a < |s.attempts| && a != work.attempt ==> Terminal(s.attempts[a].status))
    && (forall i :: 0 <= i < |s.steps| && i != work.step ==> Terminal(s.steps[i].status))
  }

  lemma ExecutingIsOnly(c: Config, s: State, work: WorkItem)
    requires Inv(c, s) && ExecutingShape(s) && s.run.status == Running
    requires work.attempt == |s.attempts| - 1 && work.step == |s.steps| - 1
    ensures OnlyLive(s, work)
  {
    hide Inv;
    forall a | 0 <= a < |s.attempts| && a != work.attempt ensures Terminal(s.attempts[a].status) {
      AttemptAt(c, s, a);
    }
    forall i | 0 <= i < |s.steps| && i != work.step ensures Terminal(s.steps[i].status) {
      StepAt(c, s, i);
    }
  }

  /** The next sequence number of a run without an active job is free. */
  lemma FreeSequence(c: Config, s: State)
    requires JobsOk(c, s.jobs, s.tokens, s.clock)
    ensures forall i :: 0 <= i < |s.jobs| ==> s.jobs[i].sequence != |s.jobs|
  { }

  /** What recovery decides about the unfinished step, if there is one. */
  function Verdict(c: Config, s: State, recoverable: bool, late: bool, delay: nat): (bool, int, string)
    requires |s.steps| > 0 ==> s.steps[|s.steps| - 1].node in c.nodes
  {
    var code := if late then "run_deadline" else "recovery_exhausted";
    if |s.steps| == 0 || Terminal(s.steps[|s.steps| - 1].status) then (recoverable, s.clock, code)
    else
      var step := s.steps[|s.steps| - 1];
      var d := RetryDecision(c.nodes[step.node].retry, AttemptsOf(s.attempts, |s.steps| - 1),
                             "worker_abandoned", s.clock, s.run.deadline, true, delay, None);
      (recoverable && d.due.Some? && step.status in {Running, Retrying},
       if d.due.Some? then d.due.value else s.clock,
       if d.code == "run_deadline" then d.code else code)
  }

  lemma StepNode(c: Config, step: Step)
    requires StepOk(c, step)
    ensures step.node in c.nodes && (Succeeded(step.status) ==> Terminal(step.status))
  { }

  lemma CountOfLast(c: Config, s: State)
    requires Inv(c, s) && |s.steps| > 0
    ensures Count(s.attempts, |s.steps| - 1) == AttemptsOf(s.attempts, |s.steps| - 1)
  {
    hide Inv;
    LedgerFacts(c, s);
    NumberIsCount(s.attempts, |s.steps| - 1);
  }

  /** Recovery without a lost owner, or of a run that is over. */
  lemma RecoverPlain(c: Config, s: State, claim: Claim, delay: nat)
    ensures !Owns(s, claim, true) || s.jobs[claim.job].lease.value > s.clock ==>
              Recover(c, s, claim, delay) == s
    ensures Owns(s, claim, true) && s.jobs[claim.job].lease.value <= s.clock && Terminal(s.run.status) ==>
              Recover(c, s, claim, delay)
                == CloseJob(s.(run := Bump(s.run)), claim.job, TerminalJobStatus(s.run.status), s.run.error)
  {
    hide Requeue, Abandon, RetryDecision;
  }

  /** Recovery of a live run, by its verdict. */
  lemma RecoverIs(c: Config, s: State, claim: Claim, delay: nat)
    requires Inv(c, s) && Owns(s, claim, true) && s.jobs[claim.job].lease.value <= s.clock
    ensures |s.steps| > 0 ==> s.steps[|s.steps| - 1].node in c.nodes
    ensures var late := Reached(s.run.deadline, s.clock);
      var v := Verdict(c, s, s.jobs[claim.job].recoveries < c.maxRecoveries && !late, late, delay);
      Recover(c, s, claim, delay) == if v.0 then Requeue(s, claim.job, v.1) else Abandon(s, claim.job, v.2)
  {
    hide Inv, Requeue, Abandon;
    ActiveIsLast(c, s, claim.job);
    if |s.steps| > 0 { StepAt(c, s, |s.steps| - 1); }
  }

  lemma StoppedWork(c: Config, s: State)
    requires Inv(c, s) && s.run.status in {Pending, Running}
    ensures forall a :: 0 <= a < |s.attempts| ==>
              Terminal(StopAttempts(s.attempts, Failed, "worker_abandoned")[a].status)
    ensures forall i :: 0 <= i < |s.steps| ==>
              Terminal(s.steps[i].status) || s.steps[i].status in {Running, Retrying}
    ensures forall code: string, i :: 0 <= i < |s.steps| ==>
              Terminal(StopSteps(s.steps, Failed, code)[i].status)
  {
    hide Inv, StepOk;
    forall i | 0 <= i < |s.steps|
      ensures Terminal(s.steps[i].status) || s.steps[i].status in {Running, Retrying}
    {
      StepAt(c, s, i);
      if i == |s.steps| - 1 && !Terminal(s.steps[i].status) { UnfinishedStep(c, s); }
    }
  }

  /** The snapshots of step `st` come last, in order of their revisions. */
  predicate Chained(approvals: seq<Snapshot>, st: nat) {
    && (forall a :: 0 <= a < |approvals| ==> approvals[a].step <= st && approvals[a].revision >= 1)
    && (forall a, b :: 0 <= a < b < |approvals| ==>
          && approvals[a].step <= approvals[b].step
          && (approvals[a].step == approvals[b].step ==> approvals[a].revision < approvals[b].revision))
  }

  function Resolved(item: Snapshot, status: ApprovalStatus, who: Option<Reviewer>,
                    request: Option<Request>, replacement: Option<nat>, now: int): Snapshot {
    item.(status := status, resolvedAt := Some(now),
          decidedBy := if who.Some? then Some(who.value.user) else None,
          feedback := if request.Some? && request.value.feedback.Some? then request.value.feedback
                      else item.feedback,
          request := request, replacement := replacement)
  }

  lemma DoneAttempts(s: State)
    requires WaitingShape(s)
    ensures AttemptsDone(s.attempts)
  { }

  lemma SnapshotNode(c: Config, s: State, a: nat)
    requires Inv(c, s) && a < |s.approvals|
    ensures s.approvals[a].step < |s.steps|
    ensures s.approvals[a].node in c.nodes && c.nodes[s.approvals[a].node].kind.Approval?
  {
    hide Inv;
    SnapshotAt(c, s, a);
  }

  lemma ChainedApprovals(c: Config, s: State, a: nat)
    requires Inv(c, s) && Gated(c, s, a)
    ensures Chained(s.approvals, |s.steps| - 1)
    ensures forall i :: 0 <= i < |s.approvals| && i != a ==> s.approvals[i].status != AwaitingDecision
  {
    hide Inv, ChainOk, SnapshotOk, Follows;
    ChainOf(c, s);
    forall i | 0 <= i < |s.approvals|
      ensures s.approvals[i].step <= |s.steps| - 1 && s.approvals[i].revision >= 1
      ensures s.approvals[i].status == AwaitingDecision ==> i == a
    {
      SnapshotAt(c, s, i);
      SnapshotAt(c, s, a);
      SnapshotNode(c, s, i);
      FirstIsOne(s.approvals, i);
    }
    forall i, k | 0 <= i < k < |s.approvals|
      ensures s.approvals[i].step <= s.approvals[k].step
      ensures s.approvals[i].step == s.approvals[k].step ==> s.approvals[i].revision < s.approvals[k].revision
    { ChainIsLinear(s.approvals, i, k); }
  }

  lemma FirstIsOne(approvals: seq<Snapshot>, i: nat)
    requires ChainOk(approvals) && i < |approvals|
    ensures approvals[i].revision >= 1
  {
    assert approvals[i].revision == NextRevision(approvals[..i], approvals[i].step);
  }

  /** The answer to a decision request: an HTTP error, a no-op replay, or an effect. */
  datatype Reply = Refused(code: nat) | Replayed | Accepted

  /** The answer that a request on snapshot `a` gets. */
  function Answer(c: Config, s: State, a: nat, who: Reviewer, request: Request): Reply {
    if a >= |s.approvals| || s.approvals[a].step >= |s.steps| || s.approvals[a].node !in c.nodes
       || !c.nodes[s.approvals[a].node].kind.Approval? then Refused(404)
    else
      var item, gate := s.approvals[a], c.nodes[s.approvals[a].node].kind.gate;
      var step := s.steps[item.step];
      if who.role !in gate.reviewers then Refused(403)
      else if item.status != AwaitingDecision then
        if item.request == Some(request) then Replayed else Refused(409)
      else if s.run.status !in {Running, Waiting} || step.status != Waiting || s.run.cancelRequested
              || request.expected != item.digest
              || Reached(s.run.deadline, s.clock) || Reached(item.expiresAt, s.clock)
              || item.source.input != step.input then Refused(409)
      else AnswerInTime(item, step, gate, who, request)
  }

  /** The answer on a pending snapshot that is current and in time. */
  function AnswerInTime(item: Snapshot, step: Step, gate: Gate, who: Reviewer, request: Request): Reply {
    match request.action
    case Approve => if item.review.severe && !who.mayOverride then Refused(403) else Accepted
    case Reject => Accepted
    case RequestRetry => if step.iteration >= gate.maxReviewRetries then Refused(409) else Accepted
    case Edit(payload) =>
      if gate.validate(payload).None? then Refused(422)
      else if step.input.None? || step.input.value.review.None? then Refused(409)
      else Accepted
  }

  predicate Answered(s: State, a: nat, request: Request) {
    a < |s.approvals| && s.approvals[a].status != AwaitingDecision && s.approvals[a].request == Some(request)
  }

  /** The input of the waiting step can be shown again with this payload. */
  predicate CanShow(s: State, gate: Gate, payload: Json) {
    && |s.steps| > 0 && s.steps[|s.steps| - 1].input.Some?
    && s.steps[|s.steps| - 1].input.value.review.Some? && gate.validate(payload).Some?
  }

  lemma CanShowIs(s: State, gate: Gate, payload: Json, feedback: Option<string>, expiresAt: Option<int>)
    requires |s.steps| > 0
    ensures NewSnapshot(s, s.steps[|s.steps| - 1], gate, Some(payload), feedback, expiresAt).Good?
        <==> CanShow(s, gate, payload)
  { }

  /** A snapshot is bound to its step, so only the step's input can make it stale. */
  lemma StaleByInput(c: Config, s: State, a: nat)
    requires Inv(c, s) && a < |s.approvals|
    ensures s.approvals[a].step < |s.steps|
    ensures var item, step := s.approvals[a], s.steps[s.approvals[a].step];
      item.source == SourceOf(item.step, step) <==> item.source.input == step.input
  {
    hide Inv;
    SnapshotAt(c, s, a);
  }

  lemma EditRefused(s: State, a: nat, gate: Gate, who: Reviewer, request: Request, payload: Json)
    requires a < |s.approvals| && s.approvals[a].step == |s.steps| - 1
    requires gate.validate(payload).None?
    ensures Replace(s, a, gate, who, request, payload) == s
  { }

  /** The last step may take an attempt, and nothing else is unfinished. */
  predicate Startable(c: Config, p: State) {
    && |p.steps| > 0
    && var last := |p.steps| - 1;
    && p.steps[last].node in c.nodes
    && p.steps[last].status in {Pending, Retrying}
    && p.run.status == Running
    && (forall i :: 0 <= i < last ==> Terminal(p.steps[i].status))
    && AttemptsDone(p.attempts) && NoPending(p.approvals)
    && Numbered(p.attempts) && (forall a :: 0 <= a < |p.attempts| ==> p.attempts[a].step <= last)
    && AttemptsOf(p.attempts, last) < c.nodes[p.steps[last].node].retry.maxAttempts
    && Chained(p.approvals, last)
  }

  lemma StartableFacts(c: Config, p: State)
    requires Startable(c, p)
    ensures |p.steps| > 0 && p.steps[|p.steps| - 1].node in c.nodes
    ensures NoPending(p.approvals) && Chained(p.approvals, |p.steps| - 1)
  { }

  lemma NumberedInit(attempts: seq<Attempt>)
    requires Numbered(attempts) && attempts != []
    ensures var n := |attempts| - 1;
      && Numbered(attempts[..n])
      && attempts[n].number == AttemptsOf(attempts[..n], attempts[n].step) + 1
      && forall i :: 0 <= i < n ==> attempts[..n][i].step <= attempts[n].step
  {
    hide AttemptsOf;
    var n := |attempts| - 1;
    var init := attempts[..n];
    forall i | 0 <= i < n ensures init[i].number == AttemptsOf(init[..i], init[i].step) + 1 {
      assert init[..i] == attempts[..i];
    }
  }

  /** Attempts are numbered in order, so the last one has the greatest number. */
  lemma {:induction false} GreatestIsLast(attempts: seq<Attempt>, st: nat)
    requires Numbered(attempts) && forall a :: 0 <= a < |attempts| ==> attempts[a].step <= st
    ensures Greatest(attempts, st) == AttemptsOf(attempts, st)
  {
    hide Numbered;
    if attempts != [] {
      NumberedInit(attempts);
      GreatestIsLast(attempts[..|attempts| - 1], st);
    }
  }

  /** The step about to run may take an attempt, and it is the one specified. */
  lemma StartableAdds(c: Config, p: State)
    requires Startable(c, p)
    ensures var st := |p.steps| - 1;
      && AttemptMayBeAdded(c, p, st)
      && AddedAttempt(c, p, st).(status := Running) == NewAttempt(c, p, p.steps[st].input)
      && AddedAttempt(c, p, st).status == Pending && AddedAttempt(c, p, st).step == st
  {
    GreatestIsLast(p.attempts, |p.steps| - 1);
    hide Greatest, Numbered, AttemptsOf;
  }

  lemma StartedIsOnly(c: Config, p: State, t: State)
    requires Startable(c, p)
    requires t.run == p.run
    requires var st := |p.steps| - 1;
      && t.steps == p.steps[st := p.steps[st].(status := Running, error := None, nextAttemptAt := None)]
      && t.attempts == p.attempts + [NewAttempt(c, p, p.steps[st].input)]
    ensures OnlyLive(t, WorkItem(|p.steps| - 1, |p.attempts|, 0))
  { }

  lemma FailIs(p: State, t: State, j: nat, step: Step, attempt: Attempt, code: string)
    requires |p.steps| > 0 && j < |p.jobs|
    requires t == p.(steps := p.steps[|p.steps| - 1 := step.(status := Failed, error := Some(code))],
                     attempts := p.attempts + [attempt.(status := Failed, error := Some(code))],
                     run := Fail(p.run, Failed, code))
    ensures FailStart(p, j, step, attempt, code) == Receipt(t, j, false)
  { }

  lemma WaitIs(p: State, t: State, j: nat, step: Step, attempt: Attempt)
    requires |p.steps| > 0 && j < |p.jobs| && step.status == Waiting
    requires t == p.(steps := p.steps[|p.steps| - 1 := step],
                     attempts := p.attempts + [attempt.(status := Completed)],
                     run := p.run.(status := Waiting))
    ensures Wait(p, j, step.(status := Running), attempt) == Receipt(t, j, false)
  {
    assert step.(status := Running).(status := Waiting) == step;
  }

  lemma GateIs(p: State, t: State, j: nat, step: Step, attempt: Attempt)
    requires |p.steps| > 0 && j < |p.jobs| && step.status == Waiting
    requires t == p.(steps := p.steps[|p.steps| - 1 := step],
                     attempts := p.attempts + [attempt.(status := Completed)],
                     approvals := t.approvals,
                     run := p.run.(status := Waiting, retry := None))
    ensures var waiting := Wait(p, j, step.(status := Running), attempt);
      waiting.(approvals := t.approvals, run := waiting.run.(retry := None)) == Receipt(t, j, false)
  {
    assert step.(status := Running).(status := Waiting) == step;
  }

  lemma WorkIs(p: State, t: State, j: nat, step: Step, attempt: Attempt)
    requires |p.steps| > 0 && j < |p.jobs|
    requires t == p.(steps := p.steps[|p.steps| - 1 := step], attempts := p.attempts + [attempt])
    ensures p.(steps := p.steps[|p.steps| - 1 := step], attempts := p.attempts + [attempt],
               jobs := p.jobs[j := p.jobs[j].(attempt := Some(|p.attempts|))]) == Receipt(t, j, true)
  { }

  lemma SameSnapshots(p: State, t: State)
    requires |p.steps| == |t.steps| > 0 && p.approvals == t.approvals
    ensures forall step, gate, candidate, feedback, expiresAt ::
      NewSnapshot(t, step, gate, candidate, feedback, expiresAt)
      == NewSnapshot(p, step, gate, candidate, feedback, expiresAt)
  { }

  lemma SameStep(step: Step)
    ensures SameIdentity(step, step.(error := None, nextAttemptAt := None))
  { }

  lemma BoundAttempt(c: Config, p: State, input: Input)
    requires |p.steps| > 0 && p.steps[|p.steps| - 1].node in c.nodes
    ensures NewAttempt(c, p, p.steps[|p.steps| - 1].input).(input := Some(input)) == NewAttempt(c, p, Some(input))
  { }

  /** What dispatch leaves on its job: the bound attempt, or a closed receipt. */
  function Receipt(t: State, j: nat, started: bool): State
    requires j < |t.jobs| && (started ==> |t.attempts| > 0)
  {
    if started then t.(jobs := t.jobs[j := t.jobs[j].(attempt := Some(|t.attempts| - 1))])
    else CloseJob(t, j, if t.run.status == Waiting then JobCompleted else TerminalJobStatus(t.run.status),
                  t.run.error)
  }

  lemma BeginsStartable(c: Config, s: State, p: State, j: nat)
    requires Begins(c, s, p, j) && |p.steps| > 0
    requires p.steps[|p.steps| - 1].status in {Pending, Retrying}
    ensures Startable(c, p) && j < |p.jobs|
  {
    hide Inv, Ready, Chained, Numbered;
    BeginFacts(c, s, p, j);
    ReadyFacts(c, p);
    ReadyRows(c, p);
    ReadyApprovals(c, p);
  }

  predicate RowsReady(c: Config, p: State) {
    && |p.steps| > 0
    && var last := |p.steps| - 1;
    && p.steps[last].node in c.nodes
    && (forall i :: 0 <= i < last ==> Terminal(p.steps[i].status))
    && Numbered(p.attempts) && (forall a :: 0 <= a < |p.attempts| ==> p.attempts[a].step <= last)
    && AttemptsOf(p.attempts, last) < c.nodes[p.steps[last].node].retry.maxAttempts
  }

  lemma ReadyRows(c: Config, p: State)
    requires |p.steps| > 0 && p.steps[|p.steps| - 1].node in c.nodes && Ready(c, p)
    ensures RowsReady(c, p)
  {
    hide ApprovalsOk, StepOk;
    forall i | 0 <= i < |p.steps| - 1 ensures Terminal(p.steps[i].status) { assert Placed(p)[i] == p.steps[i]; }
  }

  lemma ReadyApprovals(c: Config, p: State)
    requires Ready(c, p)
    ensures Chained(p.approvals, |p.steps| - 1)
  {
    hide StepsOk, AttemptsOk, AttemptsOf, AttemptsDone, ChainOk, GatesDecided, DecisionOk, Follows;
    forall i | 0 <= i < |p.approvals|
      ensures p.approvals[i].step <= |p.steps| - 1 && p.approvals[i].revision >= 1
    {
      assert SnapshotOk(c, p.run.deadline, Placed(p), p.approvals[i]);
      FirstIsOne(p.approvals, i);
    }
    forall i, k | 0 <= i < k < |p.approvals|
      ensures p.approvals[i].step <= p.approvals[k].step
      ensures p.approvals[i].step == p.approvals[k].step ==> p.approvals[i].revision < p.approvals[k].revision
    { ChainIsLinear(p.approvals, i, k); }
  }

  lemma PlanRows(c: Config, s: State, plan: Plan)
    requires PlanOk(c, s, plan)
    ensures forall i :: 0 <= i < |plan.skips| ==> plan.skips[i] in c.nodes && !HasRow(s.steps, plan.skips[i])
    ensures forall i, k :: 0 <= i < k < |plan.skips| ==> plan.skips[i] != plan.skips[k]
    ensures plan.choice.Pick? ==>
      && plan.choice.node in c.nodes
      && var rows := s.steps + Skips(plan.skips);
         forall i :: 0 <= i < |rows| ==> rows[i].node != plan.choice.node
  {
    if plan.choice.Pick? {
      var rows := s.steps + Skips(plan.skips);
      forall i | 0 <= i < |rows| ensures rows[i].node != plan.choice.node {
        if i < |s.steps| { assert !HasRow(s.steps, plan.choice.node); }
      }
    }
  }

  lemma FinishedRows(c: Config, s: State, plan: Plan)
    requires Inv(c, s) && PlanOk(c, s, plan) && plan.choice.Finish?
    ensures |s.steps + Skips(plan.skips)| > 0
  {
    hide JobsOk, StepsOk, AttemptsOk, ApprovalsOk, ShapeOk;
    var n :| n in c.nodes;
    assert HasRow(s.steps, n) || n in plan.skips;
  }

  lemma RetryRow(c: Config, s: State, claim: Claim)
    requires Inv(c, s) && Owns(s, claim, false) && s.jobs[claim.job].dispatchedAt.None?
    requires s.run.retry.Some?
    ensures forall i :: 0 <= i < |s.steps| && s.steps[i].node == s.run.retry.value.node ==>
              s.steps[i].iteration != s.run.retry.value.iteration
  {
    hide Inv, NotReady;
    UndispatchedFacts(c, s, claim);
  }

  /** The job of an executing run is bound to the last attempt of the last step. */
  lemma BoundWork(c: Config, t: State, j: nat)
    requires Inv(c, t) && j < |t.jobs| && t.jobs[j].status == JobRunning && t.jobs[j].attempt.Some?
    ensures |t.steps| > 0 && |t.attempts| > 0
    ensures Dispatched(t, j, WorkItem(|t.steps| - 1, |t.attempts| - 1, t.run.revision))
  {
    hide Inv;
    ActiveIsLast(c, t, j);
    JobAt(c, t, j);
    LiveFacts(c, t);
  }

  lemma NewRow(was: seq<Step>, names: seq<string>, k: nat)
    requires k < |names|
    requires forall i :: 0 <= i < |names| ==> !HasRow(was, names[i])
    requires forall i, j :: 0 <= i < j < |names| ==> names[i] != names[j]
    ensures forall i :: 0 <= i < |was + Skips(names[..k])| ==> (was + Skips(names[..k]))[i].node != names[k]
  {
    var rows := was + Skips(names[..k]);
    forall i | 0 <= i < |rows| ensures rows[i].node != names[k] {
      if i < |was| { assert !HasRow(was, names[k]); }
    }
  }
}
