/** Routing over whole runs: the decisions of a run's checkpoint, from the empty one on.

    The rows of the runtime do not hold the checkpoint, so a trace is accompanied by the
    decisions after each transaction: routing decides the edges of the nodes it skips, and a
    step that completes with an output decides the edges of its node. */
module RoutedRuns {
  import opened Records
  import opened Runtime
  import opened Invariant
  import opened Tables
  import opened Preserve
  import opened PreserveDispatch
  import opened History
  import opened Theorems
  import Routing

  // ---------- what a transaction does to the decisions ----------

  /** The transaction prepares a checkpoint by routing. */
  predicate Routes(c: Config, s: State, e: Event) {
    && e.DoDispatch?
    && Owns(s, e.claim, false) && s.jobs[e.claim.job].dispatchedAt.None?
    && s.run.status in {Pending, Running} && !NotReady(s) && !Reached(s.run.deadline, s.clock)
    && PlanOk(c, s, e.plan) && !Resuming(s) && s.run.retry.None?
  }

  function Nodes(steps: seq<Step>): set<string> {
    set i | 0 <= i < |steps| :: steps[i].node
  }

  function Chosen(choice: Choice): Routing.Choice {
    match choice
    case Finish(_) => Routing.Finished
    case Stall => Routing.Stall
    case Pick(n) => Routing.Pick(n)
  }

  /** A step with an output; a gate that was sent back completes without one. */
  predicate Answered(step: Step) {
    step.status == Completed && step.output.Some?
  }

  predicate SentBack(step: Step) {
    step.status == Completed && step.output.None?
  }

  /** Some step of node `n` was answered by the transaction. */
  ghost predicate JustAnswered(s: State, t: State, n: string) {
    exists i :: 0 <= i < |t.steps| && t.steps[i].node == n && Answered(t.steps[i])
                && !(i < |s.steps| && Answered(s.steps[i]))
  }

  /** The transaction changes the decisions from `d` to `d'`. */
  ghost predicate Decides(c: Config, g: Routing.Graph, s: State, e: Event, d: Routing.Decisions,
                          d': Routing.Decisions) {
    if Routes(c, s, e) then
      Routing.Routed(g, Nodes(s.steps), d, Chosen(e.plan.choice), e.plan.skips, d')
    else
      forall k: nat :: k < |g.edges| ==>
        if JustAnswered(s, Perform(c, s, e), g.edges[k].source) then k in d'
        else (k in d <==> k in d') && (k in d ==> d'[k] == d[k])
  }

  /** The state in which the transaction at `k` acts. */
  function At(c: Config, s: State, trace: seq<Tick>, k: nat): State
    requires k < |trace|
  {
    var before := Replay(c, s, trace[..k]);
    before.(clock := before.clock + trace[k].after)
  }

  /** `marks` are the decisions along a trace, none at the start. */
  ghost predicate Marked(c: Config, g: Routing.Graph, s: State, trace: seq<Tick>, marks: seq<Routing.Decisions>) {
    && |marks| == |trace| + 1 && marks[0] == map[]
    && forall k :: 0 <= k < |trace| ==> Decides(c, g, At(c, s, trace, k), trace[k].event, marks[k], marks[k + 1])
  }

  // ---------- gates that were sent back ----------

  /** A gate that was sent back is followed by its next round, or that round is requested. */
  predicate Rerun(s: State, i: nat)
    requires i < |s.steps|
  {
    if i < |s.steps| - 1 then s.steps[i + 1].node == s.steps[i].node
    else s.run.retry.Some? && s.run.retry.value.node == s.steps[i].node
  }

  predicate Reruns(s: State) {
    forall i :: 0 <= i < |s.steps| && SentBack(s.steps[i]) ==> Rerun(s, i)
  }

  /** What a transaction does to rows, as far as routing is concerned. */
  predicate Advances(c: Config, s: State, e: Event, t: State) {
    && Reruns(t)
    && (forall i :: 0 <= i < |t.steps| && t.steps[i].status == Skipped ==>
          || (i < |s.steps| && s.steps[i].status == Skipped)
          || (Routes(c, s, e) && t.steps[i].node in e.plan.skips))
    && (Routes(c, s, e) ==>
          forall i :: 0 <= i < |t.steps| && Answered(t.steps[i]) ==> i < |s.steps| && Answered(s.steps[i]))
  }

  /** No row is added, skipped or sent back. */
  predicate Keeps(s: State, t: State) {
    && |t.steps| == |s.steps| && t.run.retry == s.run.retry
    && forall i :: 0 <= i < |s.steps| ==>
         && t.steps[i].node == s.steps[i].node
         && (t.steps[i].status == Skipped ==> s.steps[i].status == Skipped)
         && (SentBack(t.steps[i]) ==> SentBack(s.steps[i]))
  }

  lemma KeepsAdvances(c: Config, s: State, e: Event, t: State)
    requires Reruns(s) && Keeps(s, t) && !Routes(c, s, e)
    ensures Advances(c, s, e, t)
  {
    hide Routes;
    forall i | 0 <= i < |t.steps| && SentBack(t.steps[i]) ensures Rerun(t, i) {
      assert Rerun(s, i);
    }
  }

  /** Rows `p` to which an attempt of the last, unfinished one is about to be added. */
  predicate Ready(p: State) {
    && |p.steps| > 0 && p.steps[|p.steps| - 1].status in {Pending, Retrying}
    && Reruns(p)
  }

  /** Preparing adds skipped rows for `skips` and answers no step. */
  predicate Grows(p: State, t: State, skips: seq<string>) {
    && Reruns(t)
    && (forall i :: 0 <= i < |t.steps| && t.steps[i].status == Skipped ==>
          || (i < |p.steps| && p.steps[i].status == Skipped)
          || t.steps[i].node in skips)
    && (forall i :: 0 <= i < |t.steps| && Answered(t.steps[i]) ==> i < |p.steps| && Answered(p.steps[i]))
  }

  /** An attempt of the last row begins; `p` has all rows of `before` and the skipped ones. */
  lemma BeginRuns(c: Config, before: State, p: State, skips: seq<string>, j: nat, inputs: Outcome<Input>)
    requires Ready(p) && j < |p.jobs| && p.steps[|p.steps| - 1].node in c.nodes
    requires Grows(before, p, skips)
    ensures Grows(before, Begin(c, p, j, inputs), skips)
  {
    hide WakeTime, NewSnapshot, NewAttempt;
    var t := Begin(c, p, j, inputs);
    var last := |p.steps| - 1;
    assert forall i :: 0 <= i < last ==> t.steps[i] == p.steps[i];
    assert t.steps[last].node == p.steps[last].node && t.steps[last].status in {Running, Waiting, Failed};
    forall i | 0 <= i < |t.steps| && SentBack(t.steps[i]) ensures Rerun(t, i) {
      assert Rerun(p, i);
    }
  }

  /** The rows that routing adds: those it skips, and the picked one. */
  lemma RoutedRows(p: State, plan: Plan)
    requires Reruns(p) && p.run.retry.None?
    ensures var routed := p.(steps := p.steps + Skips(plan.skips));
      && Grows(p, routed, plan.skips)
      && (plan.choice.Pick? ==>
            var more := routed.(steps := routed.steps + [NewStep(plan.choice.node, 0, Pending)]);
            Ready(more) && Grows(p, more, plan.skips))
  {
    var routed := p.(steps := p.steps + Skips(plan.skips));
    forall i | 0 <= i < |routed.steps| && SentBack(routed.steps[i])
      ensures i < |p.steps| - 1 && routed.steps[i + 1].node == routed.steps[i].node
    {
      if i < |p.steps| { assert Rerun(p, i); }
    }
    if plan.choice.Pick? {
      var more := routed.(steps := routed.steps + [NewStep(plan.choice.node, 0, Pending)]);
      forall i | 0 <= i < |more.steps| && SentBack(more.steps[i]) ensures Rerun(more, i) {
        assert more.steps[i] == routed.steps[i] && Rerun(routed, i);
      }
    }
  }

  lemma RetryRows(p: State)
    requires Reruns(p) && p.run.retry.Some?
    ensures var r := p.run.retry.value;
      var more := p.(steps := p.steps + [NewStep(r.node, r.iteration, Pending)]);
      Ready(more) && Grows(p, more, [])
  {
    var r := p.run.retry.value;
    var more := p.(steps := p.steps + [NewStep(r.node, r.iteration, Pending)]);
    forall i | 0 <= i < |more.steps| && SentBack(more.steps[i]) ensures Rerun(more, i) {
      assert Rerun(p, i);
    }
  }

  lemma PrepareRuns(c: Config, p: State, j: nat, plan: Plan)
    requires Reruns(p) && j < |p.jobs| && PlanOk(c, p, plan)
    ensures Grows(p, Prepare(c, p, j, plan), if !Resuming(p) && p.run.retry.None? then plan.skips else [])
  {
    if plan.choice.Pick? { PickNode(c, p, plan); }
    assert Grows(p, p, []);
    hide Begin, PlanOk, Skips, Grows;
    if Resuming(p) {
      if p.steps[|p.steps| - 1].node in c.nodes { BeginRuns(c, p, p, [], j, plan.inputs); }
    } else if p.run.retry.Some? {
      RetryRows(p);
      var r := p.run.retry.value;
      if r.node in c.nodes {
        BeginRuns(c, p, p.(steps := p.steps + [NewStep(r.node, r.iteration, Pending)]), [], j, plan.inputs);
      }
    } else {
      RoutedRows(p, plan);
      var routed := p.(steps := p.steps + Skips(plan.skips));
      if plan.choice.Pick? {
        BeginRuns(c, p, routed.(steps := routed.steps + [NewStep(plan.choice.node, 0, Pending)]), plan.skips, j,
                  plan.inputs);
      } else {
        SameGrows(p, routed, Prepare(c, p, j, plan), plan.skips);
      }
    }
  }

  lemma SameGrows(p: State, routed: State, t: State, skips: seq<string>)
    requires Grows(p, routed, skips) && t.steps == routed.steps && t.run.retry == routed.run.retry
    ensures Grows(p, t, skips)
  {
    forall i | 0 <= i < |t.steps| && SentBack(t.steps[i]) ensures Rerun(t, i) {
      assert Rerun(routed, i);
    }
  }

  lemma DispatchAdvances(c: Config, s: State, claim: Claim, plan: Plan)
    requires Reruns(s)
    ensures Advances(c, s, DoDispatch(claim, plan), Dispatch(c, s, claim, plan))
  {
    hide PlanOk, NotReady, Prepare, Reruns, StopAttempts, ClosePending;
    var e, t := DoDispatch(claim, plan), Dispatch(c, s, claim, plan);
    if !Routes(c, s, e) && Keeps(s, t) {
      KeepsAdvances(c, s, e, t);
    } else {
      var p := s.(jobs := s.jobs[claim.job := s.jobs[claim.job].(dispatchedAt := Some(s.clock))],
                  run := Bump(s.run).(status := Running));
      SamePlan(c, s, p, plan);
      SameReruns(s, p);
      PrepareRuns(c, p, claim.job, plan);
    }
  }

  lemma SameReruns(s: State, p: State)
    requires Reruns(s) && p.steps == s.steps && p.run.retry == s.run.retry
    ensures Reruns(p)
  {
    forall i | 0 <= i < |p.steps| && SentBack(p.steps[i]) ensures Rerun(p, i) {
      assert Rerun(s, i);
    }
  }

  lemma StopKeeps(s: State)
    ensures Keeps(s, ExpireRun(s)) && Keeps(s, Cancel(s))
  { }

  lemma ExpireKeeps(s: State, a: nat, gate: Gate)
    requires a < |s.approvals| && s.approvals[a].step < |s.steps|
    ensures Keeps(s, Expire(s, a, gate))
  {
    hide ExpireRun;
    StopKeeps(s);
  }

  lemma InvalidateKeeps(s: State, a: nat, gate: Gate)
    requires a < |s.approvals| && s.approvals[a].step == |s.steps| - 1
    ensures Keeps(s, Invalidate(s, a, gate))
  {
    hide NewSnapshot;
  }

  lemma ReplaceKeeps(s: State, a: nat, gate: Gate, who: Reviewer, request: Request, payload: Json)
    requires a < |s.approvals| && s.approvals[a].step == |s.steps| - 1
    ensures Keeps(s, Replace(s, a, gate, who, request, payload))
  {
    hide NewSnapshot, Decided;
  }

  /** A decision answers the last step, or sends it back and asks for its next round. */
  lemma DecideAdvances(c: Config, s: State, a: nat, who: Reviewer, request: Request)
    requires Reruns(s)
    ensures Advances(c, s, DoDecide(a, who, request), Decide(c, s, a, who, request))
  {
    hide StopJobs, NextSequence, Reruns, Expire, Invalidate, Replace, Decided;
    var e, t := DoDecide(a, who, request), Decide(c, s, a, who, request);
    if Gated(c, s, a) {
      var gate := c.nodes[s.approvals[a].node].kind.gate;
      ExpireKeeps(s, a, gate);
      InvalidateKeeps(s, a, gate);
      if request.action.Edit? { ReplaceKeeps(s, a, gate, who, request, request.action.payload); }
    }
    if Keeps(s, t) {
      KeepsAdvances(c, s, e, t);
    } else {
      var last := |s.steps| - 1;
      assert |t.steps| == |s.steps| && SentBack(t.steps[last]) && Rerun(t, last);
      assert forall i :: 0 <= i < last ==> t.steps[i] == s.steps[i];
      LastSentBack(s, t);
    }
  }

  lemma LastSentBack(s: State, t: State)
    requires Reruns(s) && |t.steps| == |s.steps| > 0
    requires forall i :: 0 <= i < |s.steps| - 1 ==> t.steps[i] == s.steps[i]
    requires t.steps[|s.steps| - 1].node == s.steps[|s.steps| - 1].node && Rerun(t, |s.steps| - 1)
    ensures Reruns(t)
  {
    forall i | 0 <= i < |t.steps| && SentBack(t.steps[i]) ensures Rerun(t, i) {
      if i < |t.steps| - 1 { assert Rerun(s, i); }
    }
  }

  lemma CommitKeeps(c: Config, s: State, j: nat, work: WorkItem, result: Result, delay: nat)
    requires j < |s.jobs| && Dispatched(s, j, work)
    ensures Keeps(s, CommitWork(c, s, j, work, result, delay))
  {
    hide RetryDecision, Effective;
  }

  lemma RecoverKeeps(c: Config, s: State, claim: Claim, delay: nat)
    ensures Keeps(s, Recover(c, s, claim, delay))
  {
    hide RetryDecision, StopJobs, StopAttempts;
  }

  /** Claims, renewals, results, recovery, timers and the end of a run keep the rows. */
  lemma OthersKeep(c: Config, s: State, e: Event)
    requires !e.DoDispatch? && !e.DoDecide?
    ensures Keeps(s, Perform(c, s, e))
  {
    hide CommitWork, Recover, ExpireRun, Cancel, Expire, NextSequence;
    StopKeeps(s);
    match e
    case DoCommit(claim, work, result, delay) =>
      if Owns(s, claim, false) && Dispatched(s, claim.job, work) {
        CommitKeeps(c, s, claim.job, work, result, delay);
      }
    case DoWatchdog(j, delay) =>
      if j < |s.jobs| && s.jobs[j].attempt.Some? && s.jobs[j].attempt.value < |s.attempts| {
        var a := s.jobs[j].attempt.value;
        var work := WorkItem(s.attempts[a].step, a, s.run.revision);
        if Dispatched(s, j, work) { CommitKeeps(c, s, j, work, Error("attempt_timeout", None), delay); }
      }
    case DoRecover(claim, delay) => RecoverKeeps(c, s, claim, delay);
    case DoExpireApproval(a) =>
      if Gated(c, s, a) { ExpireKeeps(s, a, c.nodes[s.approvals[a].node].kind.gate); }
    case _ =>
  }

  lemma EventAdvances(c: Config, s: State, e: Event)
    requires Reruns(s)
    ensures Advances(c, s, e, Perform(c, s, e))
  {
    hide Perform, Dispatch, Decide, Routes, Advances, Reruns, Keeps;
    PerformIs(c, s, e);
    match e
    case DoDispatch(claim, plan) => DispatchAdvances(c, s, claim, plan);
    case DoDecide(a, who, request) => DecideAdvances(c, s, a, who, request);
    case _ =>
      OthersKeep(c, s, e);
      OnlyDispatchRoutes(c, s, e);
      KeepsAdvances(c, s, e, Perform(c, s, e));
  }

  lemma PerformIs(c: Config, s: State, e: Event)
    ensures e.DoDispatch? ==> Perform(c, s, e) == Dispatch(c, s, e.claim, e.plan)
    ensures e.DoDecide? ==> Perform(c, s, e) == Decide(c, s, e.approval, e.who, e.request)
  { }

  lemma OnlyDispatchRoutes(c: Config, s: State, e: Event)
    ensures Routes(c, s, e) ==> e.DoDispatch?
  { }

  // ---------- decisions follow the rows ----------

  /** The edges of every answered or skipped step are decided. */
  predicate Follows(g: Routing.Graph, steps: seq<Step>, d: Routing.Decisions) {
    forall i, k: nat ::
      (&& 0 <= i < |steps| && k < |g.edges| && g.edges[k].source == steps[i].node
       && (Answered(steps[i]) || steps[i].status == Skipped)) ==> k in d
  }

  /** Going up from a row of a node, some later row of it is answered or skipped. */
  lemma {:induction false} SomeAnswer(s: State, i: nat) returns (k: nat)
    requires Reruns(s) && s.run.retry.None? && i < |s.steps|
    requires forall m :: 0 <= m < |s.steps| ==> Succeeded(s.steps[m].status)
    ensures k < |s.steps| && s.steps[k].node == s.steps[i].node
    ensures Answered(s.steps[k]) || s.steps[k].status == Skipped
    decreases |s.steps| - i
  {
    if SentBack(s.steps[i]) {
      assert Rerun(s, i);
      k := SomeAnswer(s, i + 1);
    } else {
      assert Succeeded(s.steps[i].status);
      k := i;
    }
  }

  /** When routing is asked, the edges of every node with a row are decided. */
  lemma RowsAreSettled(c: Config, g: Routing.Graph, s: State, e: Event, d: Routing.Decisions)
    requires Inv(c, s) && Routes(c, s, e) && Reruns(s) && Follows(g, s.steps, d)
    ensures Routing.Settled(g, Nodes(s.steps), d)
  {
    hide Inv, Reruns, PlanOk, NotReady;
    AllSucceeded(c, s, e.claim);
    forall k | 0 <= k < |g.edges| && g.edges[k].source in Nodes(s.steps) ensures k in d {
      var i :| 0 <= i < |s.steps| && s.steps[i].node == g.edges[k].source;
      var j := SomeAnswer(s, i);
    }
  }

  /** One transaction keeps the decisions in step with the rows. */
  lemma StepFollows(c: Config, g: Routing.Graph, s: State, e: Event, d: Routing.Decisions, d': Routing.Decisions)
    requires Inv(c, s) && Reruns(s) && Follows(g, s.steps, d)
    requires StepsMove(s.steps, Perform(c, s, e).steps) && Decides(c, g, s, e, d, d')
    ensures Follows(g, Perform(c, s, e).steps, d')
  {
    hide Inv, Perform, Reruns, Routes, Routing.SkipsInOrder;
    var t := Perform(c, s, e);
    EventAdvances(c, s, e);
    OnlyDispatchRoutes(c, s, e);
    if Routes(c, s, e) {
      RowsAreSettled(c, g, s, e, d);
      Routing.SkippingSettles(g, Nodes(s.steps), d, e.plan.skips, d');
    }
    forall i, k: nat | 0 <= i < |t.steps| && (Answered(t.steps[i]) || t.steps[i].status == Skipped)
      && k < |g.edges| && g.edges[k].source == t.steps[i].node
      ensures k in d'
    {
      if i < |s.steps| { assert SameIdentity(s.steps[i], t.steps[i]); }
      if Answered(t.steps[i]) && !(i < |s.steps| && Answered(s.steps[i])) {
        assert JustAnswered(s, t, g.edges[k].source);
      }
    }
  }

  /** One tick of a trace: time passes, then the transaction acts. */
  lemma TickFollows(c: Config, g: Routing.Graph, before: State, tick: Tick, d: Routing.Decisions, d': Routing.Decisions)
    requires Inv(c, before) && Reruns(before) && Follows(g, before.steps, d)
    requires Decides(c, g, before.(clock := before.clock + tick.after), tick.event, d, d')
    ensures var t := Apply(c, before, tick); Inv(c, t) && Reruns(t) && Follows(g, t.steps, d')
  {
    hide Inv, Reruns, Follows, Decides, Perform, StepsMove;
    var s := before.(clock := before.clock + tick.after);
    TimeOk(c, before, tick.after);
    SameReruns(before, s);
    ApplyOk(c, before, tick);
    StepMoves(c, before, tick);
    EventAdvances(c, s, tick.event);
    StepFollows(c, g, s, tick.event, d, d');
  }

  lemma {:induction false} MarksFollow(c: Config, g: Routing.Graph, deadline: Option<int>, now: int,
                                       trace: seq<Tick>, marks: seq<Routing.Decisions>, k: nat)
    requires ConfigOk(c) && Marked(c, g, Start(deadline, now), trace, marks) && k <= |trace|
    ensures var s := Replay(c, Start(deadline, now), trace[..k]);
      Inv(c, s) && Reruns(s) && Follows(g, s.steps, marks[k])
  {
    hide Inv, Start, Reruns, Follows, Decides, Apply;
    var s0 := Start(deadline, now);
    if k == 0 {
      StartFollows(c, g, deadline, now);
    } else {
      MarksFollow(c, g, deadline, now, trace, marks, k - 1);
      TickFollows(c, g, Replay(c, s0, trace[..k - 1]), trace[k - 1], marks[k - 1], marks[k]);
      assert trace[..k][..k - 1] == trace[..k - 1];
    }
  }

  lemma StartFollows(c: Config, g: Routing.Graph, deadline: Option<int>, now: int)
    requires ConfigOk(c)
    ensures var s := Start(deadline, now);
      Replay(c, s, []) == s && Inv(c, s) && Reruns(s) && Follows(g, s.steps, map[])
  { }

  /** On a graph without cycles the routing error never ends a run: from the empty
      checkpoint on, whatever happens to the run, a checkpoint that routing prepares finds a
      node to run or has settled every node. */
  lemma RunsNeverStall(c: Config, g: Routing.Graph, rank: string -> nat, deadline: Option<int>, now: int,
                       trace: seq<Tick>, marks: seq<Routing.Decisions>, k: nat)
    requires ConfigOk(c) && Routing.GraphOk(g) && Routing.Ranked(g, rank)
    requires Marked(c, g, Start(deadline, now), trace, marks) && k < |trace|
    ensures var s, e := At(c, Start(deadline, now), trace, k), trace[k].event;
      Routes(c, s, e) ==> e.DoDispatch? && !e.plan.choice.Stall?
  {
    hide Inv, Start, Reruns, Follows, Replay, Routes, Routing.Settled, Routing.Routed;
    var s, e := At(c, Start(deadline, now), trace, k), trace[k].event;
    var before := Replay(c, Start(deadline, now), trace[..k]);
    OnlyDispatchRoutes(c, s, e);
    if Routes(c, s, e) {
      MarksFollow(c, g, deadline, now, trace, marks, k);
      TimeOk(c, before, trace[k].after);
      SameReruns(before, s);
      RowsAreSettled(c, g, s, e, marks[k]);
      Routing.NeverStalls(g, Nodes(s.steps), marks[k], Chosen(e.plan.choice), e.plan.skips, marks[k + 1], rank);
    }
  }
}
