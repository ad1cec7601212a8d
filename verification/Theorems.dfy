/** What holds over every run of the system: any interleaving of claims, crashes,
    recoveries, commits, timers, reviewers, the watchdog and cancellation. */
module Theorems {
  import opened Records
  import opened Runtime
  import opened Invariant
  import opened Tables
  import opened Preserve
  import opened PreserveResults
  import opened PreserveApprovals
  import opened PreserveDispatch
  import opened History

  /** A state that some accepted start and some trace lead to. */
  ghost predicate Reachable(c: Config, s: State) {
    exists deadline: Option<int>, now: int, trace: seq<Tick> ::
      s == Replay(c, Start(deadline, now), trace)
  }

  lemma {:induction false} ReplayOk(c: Config, s: State, trace: seq<Tick>)
    requires Inv(c, s)
    ensures Inv(c, Replay(c, s, trace))
  {
    hide Inv, Apply;
    if trace != [] {
      ReplayOk(c, s, trace[..|trace| - 1]);
      ApplyOk(c, Replay(c, s, trace[..|trace| - 1]), trace[|trace| - 1]);
    }
  }

  lemma ReachableOk(c: Config, s: State)
    requires ConfigOk(c) && Reachable(c, s)
    ensures Inv(c, s)
  {
    var deadline: Option<int>, now: int, trace: seq<Tick> :|
      s == Replay(c, Start(deadline, now), trace);
    assert Inv(c, Start(deadline, now));
    hide Inv, Start;
    ReplayOk(c, Start(deadline, now), trace);
  }

  // ---------- no run is stranded ----------

  predicate HasActiveJob(s: State) {
    exists i :: 0 <= i < |s.jobs| && Active(s.jobs[i].status)
  }

  /** A waiting step that a timer or a reviewer can still resume. */
  predicate Resumable(s: State) {
    exists i :: 0 <= i < |s.steps| && s.steps[i].status == Waiting
      && ((s.steps[i].waiting == ForDelay && s.steps[i].wakeAt.Some?)
          || exists a :: 0 <= a < |s.approvals| && s.approvals[a].step == i
                         && s.approvals[a].status == AwaitingDecision)
  }

  lemma NoStrandedRun(c: Config, s: State)
    requires ConfigOk(c) && Reachable(c, s) && !Terminal(s.run.status)
    ensures HasActiveJob(s) || Resumable(s)
    ensures s.run.status == Waiting <==> !HasActiveJob(s)
  {
    hide Inv, Reachable, StepOk;
    ReachableOk(c, s);
    LiveShape(c, s);
    if s.run.status == Waiting {
      var last := |s.steps| - 1;
      WaitingFacts(c, s, last);
      WaitingReason(c, s.steps[last]);
      if s.steps[last].waiting == ForApproval {
        assert s.approvals[|s.approvals| - 1].step == last;
      }
    } else {
      LiveFacts(c, s);
      assert Active(s.jobs[|s.jobs| - 1].status);
    }
  }

  lemma WaitingReason(c: Config, step: Step)
    requires StepOk(c, step) && step.status == Waiting
    ensures step.waiting in {ForDelay, ForApproval}
    ensures step.waiting == ForDelay ==> step.wakeAt.Some?
  { }

  lemma LiveShape(c: Config, s: State)
    requires Inv(c, s) && !Terminal(s.run.status)
    ensures s.run.status in {Pending, Running, Waiting} && !s.run.cancelRequested
    ensures s.run.status == Waiting ==> WaitingShape(s)
  {
    hide JobsOk, StepsOk, AttemptsOk, ApprovalsOk, ExecutingShape, QueuedShape, PendingShape, WaitingShape;
  }

  /** A claimed job always finds a checkpoint to prepare, so it is never failed as
      `checkpoint_not_ready` under a live run. */
  lemma DispatchFindsWork(c: Config, s: State, claim: Claim)
    requires ConfigOk(c) && Reachable(c, s)
    requires Owns(s, claim, false) && s.jobs[claim.job].dispatchedAt.None?
    ensures s.run.status in {Pending, Running} && !NotReady(s)
  {
    hide Inv, Reachable;
    ReachableOk(c, s);
    UndispatchedFacts(c, s, claim);
  }

  // ---------- every run can end ----------

  /** What the system does by itself: workers claim and crash, leases are recovered, timers
      fire, and a reviewer who answers rejects.  Nobody cancels. */
  predicate Unattended(e: Event) {
    e.DoClaim? || e.DoRecover? || e.DoWake? || (e.DoDecide? && e.request.action == Reject)
  }

  /** The trace ends the run with such steps alone. */
  predicate Ends(c: Config, s: State, trace: seq<Tick>) {
    && Terminal(Replay(c, s, trace).run.status)
    && forall i :: 0 <= i < |trace| ==> Unattended(trace[i].event)
  }

  lemma {:induction false} ReplayFrom(c: Config, s: State, t: Tick, trace: seq<Tick>)
    ensures Replay(c, s, [t] + trace) == Replay(c, Apply(c, s, t), trace)
  {
    hide Apply;
    if trace == [] {
      assert [t] + trace == [t] && [t][..0] == [];
      assert Replay(c, s, [t][..0]) == s;
    } else {
      ReplayFrom(c, s, t, trace[..|trace| - 1]);
      assert ([t] + trace)[..|trace|] == [t] + trace[..|trace| - 1];
    }
  }

  lemma EndsFrom(c: Config, s: State, t: Tick, trace: seq<Tick>)
    requires Unattended(t.event) && Ends(c, Apply(c, s, t), trace)
    ensures Ends(c, s, [t] + trace)
  {
    hide Apply, Unattended, Replay;
    ReplayFrom(c, s, t, trace);
  }

  lemma EndedAlready(c: Config, s: State)
    requires Terminal(s.run.status)
    ensures Ends(c, s, [])
  { }

  /** A due job is claimed; a claimed job whose lease has run out is recovered, and then it
      is queued once more or the run ends. */
  lemma JobMovesOn(c: Config, s: State) returns (t: Tick)
    requires Inv(c, s) && s.run.status in {Pending, Running}
    ensures |s.jobs| > 0 && Active(s.jobs[|s.jobs| - 1].status) && Unattended(t.event)
    ensures var j, u := |s.jobs| - 1, Apply(c, s, t);
      || Terminal(u.run.status)
      || (&& u.run.status == s.run.status && |u.jobs| == |s.jobs|
          && if s.jobs[j].status == JobQueued
             then u.jobs[j].status == JobRunning && u.jobs[j].recoveries == s.jobs[j].recoveries
             else u.jobs[j].status == JobQueued && u.jobs[j].recoveries == s.jobs[j].recoveries + 1)
  {
    hide Inv, PendingShape, QueuedShape, ExecutingShape, RetryDecision, NextSequence;
    LiveFacts(c, s);
    var j := |s.jobs| - 1;
    JobAt(c, s, j);
    var job := s.jobs[j];
    if job.status == JobQueued {
      t := Tick(if job.dueAt > s.clock then job.dueAt - s.clock else 0, DoClaim(j));
    } else {
      t := Tick(if job.lease.value > s.clock then job.lease.value - s.clock else 0,
                DoRecover(Claim(j, job.sequence, job.token.value), 0));
      if |s.steps| > 0 && !Terminal(s.steps[|s.steps| - 1].status) { UnfinishedStep(c, s); }
    }
  }

  function Recoverable(c: Config, s: State): int {
    if s.jobs == [] then 0 else c.maxRecoveries - s.jobs[|s.jobs| - 1].recoveries
  }

  function Hops(s: State): nat {
    if s.jobs != [] && s.jobs[|s.jobs| - 1].status == JobQueued then 2 else 1
  }

  lemma {:induction false} JobEnds(c: Config, s: State) returns (trace: seq<Tick>)
    requires Inv(c, s) && s.run.status in {Pending, Running}
    ensures Ends(c, s, trace) && |trace| <= 2 * Recoverable(c, s) + Hops(s)
    decreases Recoverable(c, s), Hops(s)
  {
    hide Inv, Ends, Apply, Unattended;
    var t := JobMovesOn(c, s);
    var u := Apply(c, s, t);
    JobAt(c, s, |s.jobs| - 1);
    ApplyOk(c, s, t);
    if Terminal(u.run.status) {
      EndedAlready(c, u);
      trace := [t] + [];
      EndsFrom(c, s, t, []);
    } else {
      JobAt(c, u, |u.jobs| - 1);
      var rest := JobEnds(c, u);
      trace := [t] + rest;
      EndsFrom(c, s, t, rest);
    }
  }

  lemma DelayMovesOn(c: Config, s: State) returns (t: Tick)
    requires Inv(c, s) && s.run.status == Waiting && s.steps[|s.steps| - 1].waiting == ForDelay
    ensures Unattended(t.event)
    ensures Terminal(Apply(c, s, t).run.status) || Apply(c, s, t).run.status == Running
  {
    hide Inv, StepOk, NextSequence;
    WaitingLast(c, s);
    var last := |s.steps| - 1;
    WaitingFacts(c, s, last);
    WaitingReason(c, s.steps[last]);
    var wakeAt := s.steps[last].wakeAt.value;
    t := Tick(if wakeAt > s.clock then wakeAt - s.clock else 0, DoWake(last));
  }

  lemma WaitingLast(c: Config, s: State)
    requires Inv(c, s) && s.run.status == Waiting
    ensures |s.steps| > 0 && s.steps[|s.steps| - 1].status == Waiting && WaitingShape(s)
  {
    hide JobsOk, StepsOk, AttemptsOk, ApprovalsOk;
  }

  /** The pending snapshot shows the current input. */
  predicate Current(s: State) {
    && |s.approvals| > 0 && |s.steps| > 0
    && s.approvals[|s.approvals| - 1].source == SourceOf(|s.steps| - 1, s.steps[|s.steps| - 1])
  }

  /** A rejection ends the run, unless the input changed; then it brings up a snapshot of the
      current input, or ends the run as well. */
  lemma GateMovesOn(c: Config, s: State) returns (t: Tick)
    requires Inv(c, s) && s.run.status == Waiting && s.steps[|s.steps| - 1].waiting == ForApproval
    ensures Unattended(t.event)
    ensures var u := Apply(c, s, t);
      || Terminal(u.run.status)
      || (!Current(s) && Current(u) && u.run.status == Waiting
          && |u.steps| > 0 && u.steps[|u.steps| - 1].waiting == ForApproval)
  {
    hide Inv, StepOk, DecisionOk;
    WaitingLast(c, s);
    GateOpen(c, s);
    var a := |s.approvals| - 1;
    GatedFacts(c, s, a);
    var gate := c.nodes[s.approvals[a].node].kind.gate;
    var role :| role in gate.reviewers;
    t := Tick(0, DoDecide(a, Reviewer("", role, false), Request(Reject, s.approvals[a].digest, None)));
    assert s.(clock := s.clock + 0) == s;
  }

  lemma GateEnds(c: Config, s: State) returns (trace: seq<Tick>)
    requires Inv(c, s) && s.run.status == Waiting && s.steps[|s.steps| - 1].waiting == ForApproval
    ensures Ends(c, s, trace) && |trace| <= 2
  {
    hide Inv, Ends, Apply, Unattended, Current;
    var t := GateMovesOn(c, s);
    var u := Apply(c, s, t);
    if Terminal(u.run.status) {
      EndedAlready(c, u);
      EndsFrom(c, s, t, []);
      return [t] + [];
    }
    ApplyOk(c, s, t);
    var next := GateMovesOn(c, u);
    EndedAlready(c, Apply(c, u, next));
    EndsFrom(c, u, next, []);
    EndsFrom(c, s, t, [next] + []);
    trace := [t] + ([next] + []);
  }

  /** From every reachable state the run can come to an end within 2 * maxRecoveries + 3
      transactions, though every worker crashes, every reviewer rejects and nobody cancels. */
  lemma CanAlwaysEnd(c: Config, s: State) returns (trace: seq<Tick>)
    requires ConfigOk(c) && Reachable(c, s)
    ensures Ends(c, s, trace) && |trace| <= 2 * c.maxRecoveries + 3
  {
    hide Inv, Reachable, Ends, Apply, WaitingShape, Unattended;
    ReachableOk(c, s);
    if Terminal(s.run.status) {
      EndedAlready(c, s);
      return [];
    }
    LiveShape(c, s);
    if s.run.status != Waiting {
      trace := JobEnds(c, s);
      return;
    }
    WaitingLast(c, s);
    var last := |s.steps| - 1;
    WaitingFacts(c, s, last);
    WaitingReason(c, s.steps[last]);
    if s.steps[last].waiting == ForApproval {
      trace := GateEnds(c, s);
      return;
    }
    var t := DelayMovesOn(c, s);
    var u := Apply(c, s, t);
    ApplyOk(c, s, t);
    if Terminal(u.run.status) {
      EndedAlready(c, u);
      EndsFrom(c, s, t, []);
      return [t] + [];
    }
    var rest := JobEnds(c, u);
    EndsFrom(c, s, t, rest);
    trace := [t] + rest;
  }

  lemma GateOpen(c: Config, s: State)
    requires Inv(c, s) && s.run.status == Waiting && WaitingShape(s)
    requires s.steps[|s.steps| - 1].waiting == ForApproval
    ensures Gated(c, s, |s.approvals| - 1)
    ensures c.nodes[s.approvals[|s.approvals| - 1].node].kind.gate.reviewers != {}
  {
    hide Inv, StepOk, DecisionOk;
    PendingFacts(c, s, |s.approvals| - 1);
    InvConfig(c, s);
  }

  lemma InvConfig(c: Config, s: State)
    requires Inv(c, s)
    ensures ConfigOk(c)
  {
    hide JobsOk, StepsOk, AttemptsOk, ApprovalsOk, ShapeOk, ConfigOk;
  }
}
