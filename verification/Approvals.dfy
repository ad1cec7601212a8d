/** Human approval over every trace: one pending snapshot, a linear chain of revisions,
    one decision per snapshot, and outputs that are exactly what was reviewed. */
module Approvals {
  import opened Records
  import opened Runtime
  import opened Invariant
  import opened Tables
  import opened Preserve
  import opened History
  import opened Theorems

  /** A step that waits for approval has exactly one pending snapshot, the newest one. */
  lemma OnePendingSnapshot(c: Config, s: State, st: nat)
    requires ConfigOk(c) && Reachable(c, s)
    requires st < |s.steps| && s.steps[st].status == Waiting && s.steps[st].waiting == ForApproval
    ensures |s.approvals| > 0
    ensures forall a :: 0 <= a < |s.approvals| ==>
              (s.approvals[a].status == AwaitingDecision <==> a == |s.approvals| - 1)
    ensures s.approvals[|s.approvals| - 1].step == st
  {
    hide Inv, Reachable, StepOk, SnapshotOk;
    ReachableOk(c, s);
    WaitingFacts(c, s, st);
    forall a | 0 <= a < |s.approvals|
      ensures s.approvals[a].status == AwaitingDecision <==> a == |s.approvals| - 1
    { SnapshotAt(c, s, a); }
  }

  lemma ChainOf(c: Config, s: State)
    requires Inv(c, s)
    ensures ChainOk(s.approvals)
  {
    hide ConfigOk, JobsOk, StepsOk, AttemptsOk, ShapeOk, ChainOk, SnapshotsOk, GatesDecided;
  }

  /** The snapshots of one step stand together, in order of their revisions, and share
      their expiry; all but the newest gave way to an edit or a changed input. */
  lemma {:induction false} ChainIsLinear(approvals: seq<Snapshot>, i: nat, k: nat)
    requires ChainOk(approvals) && i <= k < |approvals|
    ensures approvals[i].step <= approvals[k].step
    ensures approvals[i].step == approvals[k].step ==>
      && approvals[k].revision == approvals[i].revision + (k - i)
      && approvals[k].expiresAt == approvals[i].expiresAt
      && (i < k ==> approvals[i].status in {Superseded, Invalidated})
    decreases k - i
  {
    if i < k {
      ChainIsLinear(approvals, i + 1, k);
      ChainLink(approvals, i);
    }
  }

  lemma ChainLink(approvals: seq<Snapshot>, i: nat)
    requires ChainOk(approvals) && i + 1 < |approvals|
    ensures Follows(approvals[i], approvals[i + 1], i + 1)
    ensures approvals[i].step == approvals[i + 1].step ==>
              approvals[i + 1].revision == approvals[i].revision + 1
    ensures approvals[i].step != approvals[i + 1].step ==> approvals[i + 1].revision == 1
  {
    assert approvals[i + 1].revision == NextRevision(approvals[..i + 1], approvals[i + 1].step);
    assert approvals[..i + 1][i] == approvals[i];
    assert Follows(approvals[(i + 1) - 1], approvals[i + 1], i + 1);
  }

  /** Revisions of a step are exactly 1, 2, ..., n: the first snapshot of a step has
      revision 1 and each next one the next number. */
  lemma RevisionsCountUp(c: Config, s: State, a: nat)
    requires ConfigOk(c) && Reachable(c, s) && a < |s.approvals|
    ensures a > 0 && s.approvals[a - 1].step == s.approvals[a].step ==>
              s.approvals[a].revision == s.approvals[a - 1].revision + 1
    ensures (forall b :: 0 <= b < a ==> s.approvals[b].step != s.approvals[a].step) ==>
              s.approvals[a].revision == 1
    ensures forall b :: 0 <= b <= a && s.approvals[b].step == s.approvals[a].step ==>
              && s.approvals[a].revision == s.approvals[b].revision + (a - b)
              && s.approvals[a].expiresAt == s.approvals[b].expiresAt
  {
    hide Inv, Reachable, ChainOk;
    ReachableOk(c, s);
    ChainOf(c, s);
    forall b | 0 <= b <= a && s.approvals[b].step == s.approvals[a].step
      ensures s.approvals[a].revision == s.approvals[b].revision + (a - b)
      ensures s.approvals[a].expiresAt == s.approvals[b].expiresAt
    { ChainIsLinear(s.approvals, b, a); }
    if a > 0 { ChainLink(s.approvals, a - 1); } else { FirstRevision(s.approvals); }
  }

  lemma FirstRevision(approvals: seq<Snapshot>)
    requires ChainOk(approvals) && |approvals| > 0
    ensures approvals[0].revision == 1
  {
    assert approvals[0].revision == NextRevision(approvals[..0], approvals[0].step);
  }

  /** A replacement link always leads to the next revision of the same step, so following
      links terminates. */
  lemma LinksGoForward(c: Config, s: State, a: nat)
    requires ConfigOk(c) && Reachable(c, s) && a < |s.approvals|
    ensures s.approvals[a].replacement.Some? <==> s.approvals[a].status == Superseded
    ensures s.approvals[a].replacement.Some? ==>
      && var r := s.approvals[a].replacement.value;
      && r == a + 1 < |s.approvals|
      && s.approvals[r].step == s.approvals[a].step
      && s.approvals[r].revision == s.approvals[a].revision + 1
  {
    hide Inv, Reachable;
    ReachableOk(c, s);
    ChainOf(c, s);
    if a + 1 < |s.approvals| { ChainLink(s.approvals, a); }
  }

  /** Resolved snapshots never change, and no snapshot ever changes what it shows. */
  lemma {:induction false} ResolvedIsFrozen(c: Config, s: State, a: nat, trace: seq<Tick>)
    requires Inv(c, s) && a < |s.approvals|
    ensures a < |Replay(c, s, trace).approvals|
    ensures SameSnapshot(s.approvals[a], Replay(c, s, trace).approvals[a])
    ensures s.approvals[a].status != AwaitingDecision ==>
              Replay(c, s, trace).approvals[a] == s.approvals[a]
  {
    hide Inv, Apply, JobsMove, StepsMove, AttemptsMove;
    if trace != [] {
      ResolvedIsFrozen(c, s, a, trace[..|trace| - 1]);
      ReplayOk(c, s, trace[..|trace| - 1]);
      StepMoves(c, Replay(c, s, trace[..|trace| - 1]), trace[|trace| - 1]);
    }
  }

  /** A request that takes effect resolves the snapshot it names. */
  lemma EffectResolves(c: Config, s: State, a: nat, who: Reviewer, request: Request)
    requires Inv(c, s) && Decide(c, s, a, who, request) != s
    ensures a < |s.approvals| && a < |Decide(c, s, a, who, request).approvals|
    ensures s.approvals[a].status == AwaitingDecision
    ensures Decide(c, s, a, who, request).approvals[a].status != AwaitingDecision
  {
    hide Inv, NewSnapshot, StopSteps, StopAttempts, StopJobs, NextSequence;
  }

  /** Of all requests on one snapshot at most one takes effect: after it, at any later
      time, every request on that snapshot, its exact replay included, changes nothing. */
  lemma OneDecisionTakesEffect(c: Config, s: State, a: nat, who: Reviewer, request: Request,
                               trace: seq<Tick>, who': Reviewer, request': Request)
    requires ConfigOk(c) && Reachable(c, s) && Decide(c, s, a, who, request) != s
    ensures var t := Replay(c, Decide(c, s, a, who, request), trace);
      Decide(c, t, a, who', request') == t
  {
    hide Inv, Reachable;
    ReachableOk(c, s);
    EffectResolves(c, s, a, who, request);
    hide Decide;
    DecideKeeps(c, s, a, who, request);
    var d := Decide(c, s, a, who, request);
    ResolvedIsFrozen(c, d, a, trace);
    ResolvedIgnores(c, Replay(c, d, trace), a, who', request');
  }

  lemma DecideKeeps(c: Config, s: State, a: nat, who: Reviewer, request: Request)
    requires Inv(c, s)
    ensures Inv(c, Decide(c, s, a, who, request))
  {
    hide Inv, Decide;
    assert s.(clock := s.clock + 0) == s;
    ApplyOk(c, s, Tick(0, DoDecide(a, who, request)));
  }

  lemma ResolvedIgnores(c: Config, s: State, a: nat, who: Reviewer, request: Request)
    requires a < |s.approvals| && s.approvals[a].status != AwaitingDecision
    ensures Decide(c, s, a, who, request) == s
  { }

  /** Every human decision named the digest of what it decided, and was made before the
      snapshot's expiry and the run's deadline. */
  lemma DecisionsAreInformed(c: Config, s: State, a: nat)
    requires ConfigOk(c) && Reachable(c, s)
    requires a < |s.approvals| && s.approvals[a].decidedBy.Some?
    ensures var item := s.approvals[a];
      && item.request.Some? && item.resolvedAt.Some?
      && item.request.value.expected
           == PayloadDigest(item.source, item.payload, item.review, item.revision)
      && !Reached(item.expiresAt, item.resolvedAt.value)
      && !Reached(s.run.deadline, item.resolvedAt.value)
  {
    hide Inv, Reachable;
    ReachableOk(c, s);
    SnapshotAt(c, s, a);
  }

  /** The one snapshot that settled gate `st`. */
  predicate Settles(s: State, st: nat, a: nat) {
    && a < |s.approvals| && s.approvals[a].step == st
    && s.approvals[a].status in {Approved, RetryRequested}
  }

  /** A completed gate was settled by exactly one decision.  When it has an output, that
      output is the payload of the approved snapshot; the request named the digest of
      exactly this payload, its review and revision; and the snapshot is bound to the
      input the step still has. */
  lemma OutputIsWhatWasApproved(c: Config, s: State, st: nat) returns (a: nat)
    requires ConfigOk(c) && Reachable(c, s) && st < |s.steps| && ApprovalDone(c, s.steps[st])
    ensures Settles(s, st, a) && forall b: nat :: Settles(s, st, b) ==> b == a
    ensures s.approvals[a].decidedBy.Some? && s.approvals[a].request.Some?
    ensures s.steps[st].output.Some? <==> s.approvals[a].status == Approved
    ensures s.steps[st].output.Some? ==>
      && s.steps[st].output == Some(s.approvals[a].payload)
      && s.approvals[a].request.value.action == Approve
      && s.approvals[a].request.value.expected
           == PayloadDigest(SourceOf(st, s.steps[st]), s.steps[st].output.value,
                            s.approvals[a].review, s.approvals[a].revision)
  {
    hide Inv, Reachable, ChainOk;
    ReachableOk(c, s);
    GateWasDecided(c, s, st);
    a :| 0 <= a < |s.approvals| && s.approvals[a].step == st
         && s.approvals[a].status in {Approved, RetryRequested};
    SnapshotAt(c, s, a);
    ChainOf(c, s);
    forall b: nat | Settles(s, st, b) ensures b == a {
      if b < a { ChainIsLinear(s.approvals, b, a); }
      if a < b { ChainIsLinear(s.approvals, a, b); }
    }
  }

  lemma GateWasDecided(c: Config, s: State, st: nat)
    requires Inv(c, s) && st < |s.steps| && ApprovalDone(c, s.steps[st])
    ensures DecidedAt(s.approvals, st)
  {
    hide ConfigOk, JobsOk, StepsOk, AttemptsOk, ShapeOk, ChainOk, SnapshotsOk, DecidedAt;
  }
}

/** The ledger of attempts: numbering, budgets, deadlines and idempotency keys. */
module Ledger {
  import opened Records
  import opened Runtime
  import opened Invariant
  import opened Tables
  import opened Preserve
  import opened History
  import opened Theorems

  function Count(attempts: seq<Attempt>, st: nat): nat {
    if attempts == [] then 0
    else Count(attempts[..|attempts| - 1], st) + (if attempts[|attempts| - 1].step == st then 1 else 0)
  }

  predicate Numbered(attempts: seq<Attempt>) {
    && (forall i, k :: 0 <= i < k < |attempts| ==> attempts[i].step <= attempts[k].step)
    && (forall i :: 0 <= i < |attempts| ==>
          attempts[i].number == AttemptsOf(attempts[..i], attempts[i].step) + 1)
  }

  /** An attempt's number is how many attempts its step has had up to it, so a step's
      attempts are numbered 1, 2, ..., k. */
  lemma {:induction false} NumberIsCount(attempts: seq<Attempt>, st: nat)
    requires Numbered(attempts)
    ensures |attempts| > 0 && attempts[|attempts| - 1].step == st ==>
              Count(attempts, st) == attempts[|attempts| - 1].number
    ensures |attempts| > 0 && attempts[|attempts| - 1].step < st ==> Count(attempts, st) == 0
  {
    if |attempts| > 0 {
      var n := |attempts| - 1;
      PrefixNumbered(attempts, n);
      NumberIsCount(attempts[..n], st);
      LastNumber(attempts);
      hide Numbered;
    }
  }

  lemma LastNumber(attempts: seq<Attempt>)
    requires Numbered(attempts) && |attempts| > 0
    ensures var n := |attempts| - 1;
      && attempts[n].number == AttemptsOf(attempts[..n], attempts[n].step) + 1
      && (n > 0 ==> attempts[n - 1].step <= attempts[n].step && attempts[..n][n - 1] == attempts[n - 1])
  { }

  lemma {:induction false} CountIsBounded(attempts: seq<Attempt>, st: nat, limit: nat)
    requires Numbered(attempts)
    requires forall i :: 0 <= i < |attempts| && attempts[i].step == st ==> attempts[i].number <= limit
    ensures Count(attempts, st) <= limit
  {
    if |attempts| > 0 {
      var n := |attempts| - 1;
      if attempts[n].step == st {
        NumberIsCount(attempts, st);
      } else {
        forall i | 0 <= i < n
          ensures attempts[..n][i].number == AttemptsOf(attempts[..n][..i], attempts[..n][i].step) + 1
        { assert attempts[..n][..i] == attempts[..i]; }
        CountIsBounded(attempts[..n], st, limit);
      }
    }
  }

  lemma LedgerFacts(c: Config, s: State)
    requires Inv(c, s)
    ensures Numbered(s.attempts)
    ensures forall i :: 0 <= i < |s.attempts| ==> AttemptOk(c, s.run.deadline, s.steps, s.attempts[i])
    ensures forall i :: 0 <= i < |s.attempts| - 1 ==> Terminal(s.attempts[i].status)
  {
    hide ConfigOk, JobsOk, StepsOk, ApprovalsOk, ShapeOk, AttemptOk;
  }

  /** Over any run the attempts of a step are numbered by their count, at most one attempt
      is unfinished, each carries its step's idempotency key, none may outlive the run's
      deadline, and a step never has more attempts than its pinned policy allows. */
  lemma AttemptLedger(c: Config, s: State, st: nat)
    requires ConfigOk(c) && Reachable(c, s) && st < |s.steps|
    ensures s.steps[st].node in c.nodes
    ensures Count(s.attempts, st) <= c.nodes[s.steps[st].node].retry.maxAttempts
    ensures forall i :: 0 <= i < |s.attempts| && s.attempts[i].step == st ==>
      && s.attempts[i].number == Count(s.attempts[..i + 1], st)
      && s.attempts[i].key == Key(s.steps[st].node, s.steps[st].iteration)
      && (s.run.deadline.Some? ==> s.attempts[i].deadline <= s.run.deadline.value)
    ensures forall i :: 0 <= i < |s.attempts| - 1 ==> Terminal(s.attempts[i].status)
  {
    hide Inv, Reachable;
    ReachableOk(c, s);
    StepAt(c, s, st);
    LedgerFacts(c, s);
    CountIsBounded(s.attempts, st, c.nodes[s.steps[st].node].retry.maxAttempts);
    forall i | 0 <= i < |s.attempts| && s.attempts[i].step == st
      ensures s.attempts[i].number == Count(s.attempts[..i + 1], st)
    {
      PrefixNumbered(s.attempts, i + 1);
      NumberIsCount(s.attempts[..i + 1], st);
    }
  }

  lemma PrefixNumbered(attempts: seq<Attempt>, n: nat)
    requires Numbered(attempts) && n <= |attempts|
    ensures Numbered(attempts[..n])
  {
    forall i | 0 <= i < n
      ensures attempts[..n][i].number == AttemptsOf(attempts[..n][..i], attempts[..n][i].step) + 1
    { assert attempts[..n][..i] == attempts[..i]; }
  }

  /** A step that is done has no attempt left running. */
  lemma DoneStepHasNoLiveAttempt(c: Config, s: State, i: nat)
    requires ConfigOk(c) && Reachable(c, s) && i < |s.attempts|
    ensures s.attempts[i].step < |s.steps|
    ensures Terminal(s.steps[s.attempts[i].step].status) ==> Terminal(s.attempts[i].status)
  {
    hide Inv, Reachable;
    ReachableOk(c, s);
    AttemptAt(c, s, i);
  }

  // ---------- review gates ----------

  /** The attempts of node `n` at iterations below `bound`. */
  function CountGate(steps: seq<Step>, attempts: seq<Attempt>, n: string, bound: nat): nat {
    if attempts == [] then 0
    else
      var last := attempts[|attempts| - 1];
      CountGate(steps, attempts[..|attempts| - 1], n, bound)
        + (if last.step < |steps| && steps[last.step].node == n
              && steps[last.step].iteration < bound then 1 else 0)
  }

  lemma {:induction false} GateSplits(steps: seq<Step>, attempts: seq<Attempt>, n: string, k: nat, st: nat)
    requires st < |steps| && steps[st].node == n && steps[st].iteration == k
    requires forall i :: 0 <= i < |steps| && steps[i].node == n && steps[i].iteration == k ==> i == st
    ensures CountGate(steps, attempts, n, k + 1) == CountGate(steps, attempts, n, k) + Count(attempts, st)
  {
    if attempts != [] { GateSplits(steps, attempts[..|attempts| - 1], n, k, st); }
  }

  lemma {:induction false} GateSkips(steps: seq<Step>, attempts: seq<Attempt>, n: string, k: nat)
    requires forall i :: 0 <= i < |steps| ==> steps[i].node != n || steps[i].iteration != k
    ensures CountGate(steps, attempts, n, k + 1) == CountGate(steps, attempts, n, k)
  {
    if attempts != [] { GateSkips(steps, attempts[..|attempts| - 1], n, k); }
  }

  lemma {:induction false} NoIteration(steps: seq<Step>, attempts: seq<Attempt>, n: string)
    ensures CountGate(steps, attempts, n, 0) == 0
  {
    if attempts != [] { NoIteration(steps, attempts[..|attempts| - 1], n); }
  }

  lemma {:induction false} GateIsBounded(c: Config, s: State, n: string, bound: nat)
    requires Inv(c, s) && n in c.nodes
    ensures CountGate(s.steps, s.attempts, n, bound) <= bound * c.nodes[n].retry.maxAttempts
  {
    hide Inv;
    if bound == 0 {
      NoIteration(s.steps, s.attempts, n);
    } else {
      var k := bound - 1;
      GateIsBounded(c, s, n, k);
      if st :| 0 <= st < |s.steps| && s.steps[st].node == n && s.steps[st].iteration == k {
        OneRow(c, s, st);
        GateSplits(s.steps, s.attempts, n, k, st);
        LedgerFacts(c, s);
        CountIsBounded(s.attempts, st, c.nodes[n].retry.maxAttempts);
      } else {
        GateSkips(s.steps, s.attempts, n, k);
      }
      assert (k + 1) * c.nodes[n].retry.maxAttempts
          == k * c.nodes[n].retry.maxAttempts + c.nodes[n].retry.maxAttempts;
    }
  }

  /** A node has one row for each iteration. */
  lemma OneRow(c: Config, s: State, st: nat)
    requires Inv(c, s) && st < |s.steps|
    ensures forall i ::
      (0 <= i < |s.steps| && s.steps[i].node == s.steps[st].node
       && s.steps[i].iteration == s.steps[st].iteration) ==> i == st
  {
    hide ConfigOk, JobsOk, AttemptsOk, ApprovalsOk, ShapeOk, StepOk;
  }

  /** A review gate runs at most `maxReviewRetries + 1` iterations, each with at most
      `maxAttempts` attempts; every other node runs once. */
  lemma ReviewsAreBounded(c: Config, s: State, n: string)
    requires ConfigOk(c) && Reachable(c, s) && n in c.nodes
    ensures var limit := if c.nodes[n].kind.Approval? then c.nodes[n].kind.gate.maxReviewRetries else 0;
      && (forall i :: 0 <= i < |s.steps| && s.steps[i].node == n ==> s.steps[i].iteration <= limit)
      && CountGate(s.steps, s.attempts, n, limit + 1) <= (limit + 1) * c.nodes[n].retry.maxAttempts
  {
    hide Inv, Reachable;
    ReachableOk(c, s);
    var limit := if c.nodes[n].kind.Approval? then c.nodes[n].kind.gate.maxReviewRetries else 0;
    forall i | 0 <= i < |s.steps| && s.steps[i].node == n ensures s.steps[i].iteration <= limit {
      StepAt(c, s, i);
    }
    GateIsBounded(c, s, n, limit + 1);
  }

  /** Logical steps are unique: no two rows share a node and an iteration, so no
      idempotency key is used twice. */
  lemma KeysAreUnique(c: Config, s: State, i: nat, k: nat)
    requires ConfigOk(c) && Reachable(c, s) && i < k < |s.steps|
    ensures s.steps[i].key != s.steps[k].key
  {
    hide Inv, Reachable;
    ReachableOk(c, s);
    StepAt(c, s, i);
    StepAt(c, s, k);
    OneRow(c, s, k);
  }

  /** A run completes only when every node of its graph has a row and every row succeeded
      or was skipped. */
  lemma CompletionIsTotal(c: Config, s: State, n: string)
    requires ConfigOk(c) && Reachable(c, s) && s.run.status == Completed && n in c.nodes
    ensures HasRow(s.steps, n)
    ensures forall i :: 0 <= i < |s.steps| ==> Succeeded(s.steps[i].status)
  {
    hide Reachable;
    ReachableOk(c, s);
    hide ConfigOk, JobsOk, StepsOk, AttemptsOk, ApprovalsOk, HasRow;
  }
}
