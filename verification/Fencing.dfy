/** Leases fence stale owners, terminal history is frozen, and the job table keeps its
    sequence discipline, over every trace. */
module Fencing {
  import opened Records
  import opened Runtime
  import opened Invariant
  import opened Tables
  import opened Preserve
  import opened PreserveDispatch
  import opened History
  import opened Theorems

  // ---------- stale and late owners ----------

  /** A claim whose token the job no longer carries: nothing its holder does has effect. */
  lemma StaleClaimChangesNothing(c: Config, s: State, claim: Claim, plan: Plan, work: WorkItem,
                                 result: Result, delay: nat)
    requires claim.job >= |s.jobs| || s.jobs[claim.job].token != Some(claim.token)
    ensures Dispatch(c, s, claim, plan) == s
    ensures Commit(c, s, claim, work, result, delay) == s
    ensures Renew(c, s, claim) == s
    ensures Recover(c, s, claim, delay) == s
  { }

  /** An issued claim that the job does not carry (any more). */
  predicate Replaced(s: State, claim: Claim) {
    && claim.job < |s.jobs| && claim.token < s.tokens
    && s.jobs[claim.job].token != Some(claim.token)
  }

  /** Once a token is superseded it never becomes current again. */
  lemma {:induction false} SupersededForever(c: Config, s: State, claim: Claim, trace: seq<Tick>)
    requires Inv(c, s) && Replaced(s, claim)
    ensures Replaced(Replay(c, s, trace), claim)
  {
    hide Inv, Apply;
    if trace != [] {
      var before := Replay(c, s, trace[..|trace| - 1]);
      SupersededForever(c, s, claim, trace[..|trace| - 1]);
      ReplayOk(c, s, trace[..|trace| - 1]);
      StepMoves(c, before, trace[|trace| - 1]);
      assert JobMoves(before.jobs[claim.job], Replay(c, s, trace).jobs[claim.job], before.tokens,
                      Replay(c, s, trace).clock);
    }
  }

  /** Lease fencing: a worker whose claim was reclaimed is fenced for good, whatever the
      others do in between. */
  lemma FencedForever(c: Config, s: State, claim: Claim, trace: seq<Tick>, plan: Plan, work: WorkItem,
                      result: Result, delay: nat)
    requires ConfigOk(c) && Reachable(c, s) && Replaced(s, claim)
    ensures var t := Replay(c, s, trace);
      && Dispatch(c, t, claim, plan) == t
      && Commit(c, t, claim, work, result, delay) == t
      && Renew(c, t, claim) == t
  {
    hide Inv, Reachable, Dispatch, Commit, Renew, Recover;
    ReachableOk(c, s);
    SupersededForever(c, s, claim, trace);
    StaleClaimChangesNothing(c, Replay(c, s, trace), claim, plan, work, result, delay);
  }

  /** An issued claim that is not live: it was replaced, the job is not with a worker any
      more, or the lease has run out. */
  predicate Late(s: State, claim: Claim) {
    && claim.job < |s.jobs| && claim.token < s.tokens
    && var job := s.jobs[claim.job];
       (job.token == Some(claim.token) && job.status == JobRunning && job.lease.Some? ==>
          job.lease.value <= s.clock)
  }

  lemma LateStays(before: Job, after: Job, tokens: nat, now: int, later: int, token: nat)
    requires JobMoves(before, after, tokens, later) && token < tokens && now <= later
    requires before.status == JobQueued ==> before.token.None?
    requires before.status == JobRunning ==> before.lease.Some?
    requires before.token == Some(token) && before.status == JobRunning ==> before.lease.value <= now
    ensures after.token == Some(token) && after.status == JobRunning && after.lease.Some? ==>
      after.lease.value <= later
  { }

  /** Once a claim is not live it never is again: its lease stays run out, unless the job is
      settled or given to somebody else under another token. */
  lemma {:induction false} LateForever(c: Config, s: State, claim: Claim, trace: seq<Tick>)
    requires Inv(c, s) && Late(s, claim)
    ensures Late(Replay(c, s, trace), claim)
  {
    hide Inv, Apply, JobMoves;
    if trace != [] {
      var before, last := Replay(c, s, trace[..|trace| - 1]), trace[|trace| - 1];
      LateForever(c, s, claim, trace[..|trace| - 1]);
      ReplayOk(c, s, trace[..|trace| - 1]);
      StepMoves(c, before, last);
      JobAt(c, before, claim.job);
      LateStays(before.jobs[claim.job], Apply(c, before, last).jobs[claim.job], before.tokens, before.clock,
                Apply(c, before, last).clock, claim.token);
    }
  }

  /** Lease fencing in time: after the lease of an issued claim has run out, its holder can
      never dispatch, commit or renew again, whatever the others do in between and whether
      or not anybody recovers the job. */
  lemma LateOwnerChangesNothing(c: Config, s: State, claim: Claim, trace: seq<Tick>, plan: Plan,
                                work: WorkItem, result: Result, delay: nat)
    requires ConfigOk(c) && Reachable(c, s) && Late(s, claim)
    ensures var t := Replay(c, s, trace);
      && Dispatch(c, t, claim, plan) == t
      && Commit(c, t, claim, work, result, delay) == t
      && Renew(c, t, claim) == t
  {
    hide Inv, Reachable, Replay, Prepare, CommitWork, PlanOk, NotReady;
    ReachableOk(c, s);
    LateForever(c, s, claim, trace);
  }

  /** Recovery supersedes the expired claim. */
  lemma RecoverySupersedes(c: Config, s: State, claim: Claim, delay: nat)
    requires Inv(c, s) && Owns(s, claim, true) && s.jobs[claim.job].lease.value <= s.clock
    ensures var t := Recover(c, s, claim, delay);
      Replaced(t, claim) || (claim.job < |t.jobs| && !Active(t.jobs[claim.job].status))
  {
    hide Inv, RetryDecision;
    JobAt(c, s, claim.job);
    ActiveIsLast(c, s, claim.job);
    if |s.steps| > 0 && !Terminal(s.steps[|s.steps| - 1].status) { UnfinishedStep(c, s); }
  }

  /** Two jobs never carry the same token, and every token was issued. */
  lemma TokensAreUnique(c: Config, s: State, j: nat, k: nat)
    requires ConfigOk(c) && Reachable(c, s) && j < k < |s.jobs|
    requires s.jobs[j].token.Some? && s.jobs[k].token.Some?
    ensures s.jobs[j].token != s.jobs[k].token
    ensures s.jobs[j].token.value < s.tokens && s.jobs[k].token.value < s.tokens
  {
    hide Reachable;
    ReachableOk(c, s);
    hide StepsOk, AttemptsOk, ApprovalsOk, ShapeOk;
  }

  /** A job leaves {queued, running} at most once: settled rows never change again. */
  lemma {:induction false} SettledJobIsFrozen(c: Config, s: State, j: nat, trace: seq<Tick>)
    requires Inv(c, s) && j < |s.jobs| && !Active(s.jobs[j].status)
    ensures j < |Replay(c, s, trace).jobs| && Replay(c, s, trace).jobs[j] == s.jobs[j]
  {
    hide Inv, Apply;
    if trace != [] {
      var before := Replay(c, s, trace[..|trace| - 1]);
      SettledJobIsFrozen(c, s, j, trace[..|trace| - 1]);
      ReplayOk(c, s, trace[..|trace| - 1]);
      StepMoves(c, before, trace[|trace| - 1]);
      assert JobMoves(before.jobs[j], Replay(c, s, trace).jobs[j], before.tokens,
                      Replay(c, s, trace).clock);
    }
  }

  /** A commit that takes effect was made by the current, live owner of a dispatched job,
      and settles that job. */
  lemma CommitNeedsOwnership(c: Config, s: State, claim: Claim, work: WorkItem, result: Result, delay: nat)
    requires ConfigOk(c) && Reachable(c, s)
    requires Commit(c, s, claim, work, result, delay) != s
    ensures Owns(s, claim, false) && s.jobs[claim.job].lease.value > s.clock
    ensures s.jobs[claim.job].attempt == Some(work.attempt) && claim.job == |s.jobs| - 1
    ensures !Active(Commit(c, s, claim, work, result, delay).jobs[claim.job].status)
  {
    hide Inv, Reachable, RetryDecision, Effective;
    ReachableOk(c, s);
    ActiveIsLast(c, s, claim.job);
  }

  // ---------- terminal runs ----------

  lemma TerminalIsFrozen(c: Config, s: State, t: Tick)
    requires Inv(c, s) && Terminal(s.run.status)
    ensures Apply(c, s, t) == s.(clock := s.clock + t.after)
  {
    hide Inv;
    TerminalTables(c, s);
    hide Prepare, CommitWork, NextSequence, Stop;
  }

  lemma TerminalTables(c: Config, s: State)
    requires Inv(c, s) && Terminal(s.run.status)
    ensures AllTerminal(s)
  {
    hide JobsOk, StepsOk, AttemptsOk, ApprovalsOk, AllTerminal;
  }

  /** Once a run is terminal no worker, watchdog, timer or reviewer changes any record. */
  lemma {:induction false} TerminalForever(c: Config, s: State, trace: seq<Tick>)
    requires Inv(c, s) && Terminal(s.run.status)
    ensures Replay(c, s, trace) == s.(clock := Replay(c, s, trace).clock)
  {
    hide Inv, Apply;
    if trace != [] {
      TerminalForever(c, s, trace[..|trace| - 1]);
      ReplayOk(c, s, trace[..|trace| - 1]);
      TerminalIsFrozen(c, Replay(c, s, trace[..|trace| - 1]), trace[|trace| - 1]);
    }
  }

  /** Cancelling makes every step, attempt, job and snapshot terminal for good; rows that
      were already terminal keep their outcome. */
  lemma CancelIsFinal(c: Config, s: State, trace: seq<Tick>)
    requires ConfigOk(c) && Reachable(c, s)
    ensures var t := Replay(c, Cancel(s), trace);
      && AllTerminal(t)
      && t == Cancel(s).(clock := t.clock)
      && (!Terminal(s.run.status) ==>
            && t.run.status == Cancelled && t.run.cancelRequested
            && |t.steps| == |s.steps| && |t.attempts| == |s.attempts|
            && |t.jobs| == |s.jobs| && |t.approvals| == |s.approvals|
            && (forall i :: 0 <= i < |s.steps| && !Terminal(s.steps[i].status) ==>
                  t.steps[i].status == Cancelled)
            && (forall i :: 0 <= i < |s.attempts| && !Terminal(s.attempts[i].status) ==>
                  t.attempts[i].status == Cancelled)
            && (forall i :: 0 <= i < |s.jobs| && Active(s.jobs[i].status) ==>
                  t.jobs[i].status == JobCancelled)
            && (forall i :: 0 <= i < |s.approvals| && s.approvals[i].status == AwaitingDecision ==>
                  t.approvals[i].status == ApprovalCancelled))
  {
    hide Inv, Reachable, AllTerminal;
    ReachableOk(c, s);
    CancelOk(c, s);
    TerminalTables(c, Cancel(s));
    TerminalForever(c, Cancel(s), trace);
    SameTables(Cancel(s), Replay(c, Cancel(s), trace));
  }

  lemma SameTables(s: State, t: State)
    requires AllTerminal(s) && t == s.(clock := t.clock)
    ensures AllTerminal(t)
  { }

  // ---------- the job table ----------

  /** The jobs of a linear run carry the sequences 0, 1, 2, ... in order, at most one of
      them is active, and it is the one with the greatest sequence. */
  lemma SequencesAreLinear(c: Config, s: State)
    requires ConfigOk(c) && Reachable(c, s)
    ensures forall i :: 0 <= i < |s.jobs| ==> s.jobs[i].sequence == i && s.jobs[i].target == Main
    ensures forall i :: 0 <= i < |s.jobs| && Active(s.jobs[i].status) ==> i == |s.jobs| - 1
    ensures NextSequence(s.jobs) == |s.jobs|
  {
    hide Inv, Reachable;
    ReachableOk(c, s);
    forall i | 0 <= i < |s.jobs|
      ensures s.jobs[i].sequence == i && s.jobs[i].target == Main
      ensures Active(s.jobs[i].status) ==> i == |s.jobs| - 1
    {
      JobAt(c, s, i);
      if Active(s.jobs[i].status) { ActiveIsLast(c, s, i); }
    }
    NextIs(c, s);
  }

  lemma NextIs(c: Config, s: State)
    requires Inv(c, s)
    ensures NextSequence(s.jobs) == |s.jobs|
  {
    hide Inv, JobOk;
    forall i | 0 <= i < |s.jobs| ensures JobOk(c, s.jobs[i], i, s.tokens, s.clock) { JobAt(c, s, i); }
    NextSequenceIs(c, s.jobs, s.tokens, s.clock);
  }

  // ---------- claims and recoveries ----------

  /** How often a trace claims job `j`. */
  function Claims(c: Config, s: State, trace: seq<Tick>, j: nat): nat {
    if trace == [] then 0
    else
      var before := Replay(c, s, trace[..|trace| - 1]);
      var after := Replay(c, s, trace);
      Claims(c, s, trace[..|trace| - 1], j)
        + (if j < |before.jobs| && j < |after.jobs| && before.jobs[j].status == JobQueued
              && after.jobs[j].status == JobRunning then 1 else 0)
  }

  lemma {:induction false} ClaimsCounted(c: Config, deadline: Option<int>, now: int, trace: seq<Tick>, j: nat)
    requires ConfigOk(c)
    ensures var t := Replay(c, Start(deadline, now), trace);
      if j < |t.jobs|
      then Claims(c, Start(deadline, now), trace, j)
             <= t.jobs[j].recoveries + (if t.jobs[j].status == JobQueued then 0 else 1)
      else Claims(c, Start(deadline, now), trace, j) == 0
  {
    hide Inv, Apply;
    if trace != [] {
      var s := Start(deadline, now);
      var before := Replay(c, s, trace[..|trace| - 1]);
      ClaimsCounted(c, deadline, now, trace[..|trace| - 1], j);
      StartOk(c, deadline, now);
      ReplayOk(c, s, trace[..|trace| - 1]);
      StepMoves(c, before, trace[|trace| - 1]);
      if j < |before.jobs| {
        assert JobMoves(before.jobs[j], Replay(c, s, trace).jobs[j], before.tokens, Replay(c, s, trace).clock);
      }
    }
  }

  lemma StartOk(c: Config, deadline: Option<int>, now: int)
    requires ConfigOk(c)
    ensures Inv(c, Start(deadline, now))
  { }

  /** A job is claimed at most once more often than it was recovered, and recovered at
      most `maxRecoveries` times. */
  lemma ClaimsAreBounded(c: Config, deadline: Option<int>, now: int, trace: seq<Tick>, j: nat)
    requires ConfigOk(c)
    requires j < |Replay(c, Start(deadline, now), trace).jobs|
    ensures Claims(c, Start(deadline, now), trace, j)
              <= Replay(c, Start(deadline, now), trace).jobs[j].recoveries + 1 <= c.maxRecoveries + 1
  {
    hide Inv, Start;
    ClaimsCounted(c, deadline, now, trace, j);
    StartOk(c, deadline, now);
    ReplayOk(c, Start(deadline, now), trace);
    JobAt(c, Replay(c, Start(deadline, now), trace), j);
  }

  /** Every job update of every reachable transaction is one the trigger accepts. */
  lemma TriggerNeverRejects(c: Config, s: State, t: Tick, j: nat)
    requires ConfigOk(c) && Reachable(c, s) && j < |s.jobs|
    ensures j < |Apply(c, s, t).jobs|
    ensures Apply(c, s, t).jobs[j] == s.jobs[j]
            || TriggerAccepts(s.jobs[j], Apply(c, s, t).jobs[j], Apply(c, s, t).clock)
  {
    hide Inv, Reachable, Apply, TriggerAccepts;
    ReachableOk(c, s);
    StepMoves(c, s, t);
    assert JobMoves(s.jobs[j], Apply(c, s, t).jobs[j], s.tokens, Apply(c, s, t).clock);
  }
}
