/** How single-table updates keep the table invariants. */
module Tables {
  import opened Records
  import opened Runtime
  import opened Invariant

  // ---------- jobs ----------

  lemma {:induction false} NextSequenceIs(c: Config, jobs: seq<Job>, tokens: nat, clock: int)
    requires forall i :: 0 <= i < |jobs| ==> JobOk(c, jobs[i], i, tokens, clock)
    ensures NextSequence(jobs) == |jobs|
  {
    if jobs != [] {
      NextSequenceIs(c, jobs[..|jobs| - 1], tokens, clock);
    }
  }

  lemma JobsUpdate(c: Config, jobs: seq<Job>, tokens: nat, clock: int, j: nat, job: Job, tokens': nat)
    requires JobsOk(c, jobs, tokens, clock)
    requires j < |jobs| && Active(jobs[j].status) && tokens <= tokens'
    requires JobOk(c, job, j, tokens', clock)
    requires job.token in {None, jobs[j].token, Some(tokens)}
    ensures JobsOk(c, jobs[j := job], tokens', clock)
    ensures j == |jobs| - 1
    ensures !Active(job.status) ==> NoActiveJob(jobs[j := job])
  { }

  lemma JobsStop(c: Config, jobs: seq<Job>, tokens: nat, clock: int, status: JobStatus,
                 code: Option<string>, now: int)
    requires JobsOk(c, jobs, tokens, clock) && !Active(status)
    ensures JobsOk(c, StopJobs(jobs, status, code, now), tokens, clock)
    ensures NoActiveJob(StopJobs(jobs, status, code, now))
  { }

  lemma JobsAppend(c: Config, jobs: seq<Job>, tokens: nat, clock: int, due: int)
    requires JobsOk(c, jobs, tokens, clock) && NoActiveJob(jobs)
    ensures JobsOk(c, jobs + [NewJob(|jobs|, due, clock)], tokens, clock)
    ensures NextSequence(jobs) == |jobs|
  {
    NextSequenceIs(c, jobs, tokens, clock);
  }

  // ---------- steps ----------

  predicate SameIdentity(a: Step, b: Step) {
    a.node == b.node && a.iteration == b.iteration && a.key == b.key
  }

  lemma StepsSet(c: Config, steps: seq<Step>, st: nat, step: Step)
    requires StepsOk(c, steps)
    requires st < |steps| && !Terminal(steps[st].status)
    requires StepOk(c, step) && SameIdentity(steps[st], step)
    ensures StepsOk(c, steps[st := step]) && st == |steps| - 1
  { }

  lemma StepsStop(c: Config, steps: seq<Step>, status: Status, code: string)
    requires StepsOk(c, steps) && Terminal(status)
    ensures StepsOk(c, StopSteps(steps, status, code))
    ensures forall i :: 0 <= i < |steps| ==> Terminal(StopSteps(steps, status, code)[i].status)
  { }

  lemma StepsAdd(c: Config, steps: seq<Step>, more: seq<Step>)
    requires StepsOk(c, steps)
    requires |steps| > 0 ==> Succeeded(steps[|steps| - 1].status)
    requires forall i :: 0 <= i < |more| ==> StepOk(c, more[i])
    requires forall i :: 0 <= i < |more| - 1 ==> Succeeded(more[i].status)
    requires forall i, k :: 0 <= i < k < |more| ==> more[i].node != more[k].node
    requires forall i, k :: 0 <= i < |steps| && 0 <= k < |more| && steps[i].node == more[k].node ==>
               steps[i].iteration < more[k].iteration
    ensures StepsOk(c, steps + more)
  { }

  // ---------- attempts ----------

  /** The steps an attempt table refers to may gain rows and finish, not change identity. */
  predicate Extends(steps: seq<Step>, steps': seq<Step>) {
    |steps| <= |steps'| && forall i :: 0 <= i < |steps| ==> SameIdentity(steps[i], steps'[i])
  }

  lemma AttemptsKeep(c: Config, deadline: Option<int>, steps: seq<Step>, steps': seq<Step>,
                     attempts: seq<Attempt>)
    requires AttemptsOk(c, deadline, steps, attempts)
    requires Extends(steps, steps') && AttemptsDone(attempts)
    ensures AttemptsOk(c, deadline, steps', attempts)
  { }

  predicate SameAttempt(a: Attempt, b: Attempt) {
    a.step == b.step && a.number == b.number && a.key == b.key && a.deadline == b.deadline
  }

  /** Finishing attempts in place. */
  lemma AttemptsFinish(c: Config, deadline: Option<int>, steps: seq<Step>, steps': seq<Step>,
                       attempts: seq<Attempt>, attempts': seq<Attempt>)
    requires AttemptsOk(c, deadline, steps, attempts)
    requires Extends(steps, steps') && |attempts'| == |attempts|
    requires forall i :: 0 <= i < |attempts| ==> SameAttempt(attempts[i], attempts'[i])
    requires forall i :: 0 <= i < |attempts| ==> attempts'[i].status in {Completed, Failed, Cancelled}
    ensures AttemptsOk(c, deadline, steps', attempts')
    ensures forall st :: AttemptsOf(attempts', st) == AttemptsOf(attempts, st)
  {
    forall i | 0 <= i < |attempts|
      ensures attempts'[i].number == AttemptsOf(attempts'[..i], attempts'[i].step) + 1
      ensures AttemptOk(c, deadline, steps', attempts'[i])
    {
      assert AttemptOk(c, deadline, steps, attempts[i]) && SameAttempt(attempts[i], attempts'[i]);
      assert SameIdentity(steps[attempts[i].step], steps'[attempts[i].step]);
      assert attempts[i].number == AttemptsOf(attempts[..i], attempts[i].step) + 1;
      SameNumbers(attempts[..i], attempts'[..i], attempts[i].step);
    }
    forall st ensures AttemptsOf(attempts', st) == AttemptsOf(attempts, st) {
      SameNumbers(attempts, attempts', st);
    }
    hide AttemptOk, AttemptsOf;
  }

  lemma SameNumbers(attempts: seq<Attempt>, attempts': seq<Attempt>, st: nat)
    requires |attempts'| == |attempts|
    requires forall i :: 0 <= i < |attempts| ==> SameAttempt(attempts[i], attempts'[i])
    ensures AttemptsOf(attempts', st) == AttemptsOf(attempts, st)
  { }

  lemma AttemptsAppend(c: Config, deadline: Option<int>, steps: seq<Step>, attempts: seq<Attempt>,
                       attempt: Attempt)
    requires AttemptsOk(c, deadline, steps, attempts) && AttemptsDone(attempts)
    requires AttemptOk(c, deadline, steps, attempt) && attempt.step == |steps| - 1
    requires attempt.number == AttemptsOf(attempts, attempt.step) + 1
    ensures AttemptsOk(c, deadline, steps, attempts + [attempt])
    ensures AttemptsOf(attempts + [attempt], attempt.step) == attempt.number
  {
    var all := attempts + [attempt];
    forall i | 0 <= i < |all|
      ensures all[i].number == AttemptsOf(all[..i], all[i].step) + 1
    {
      assert i < |attempts| ==> all[..i] == attempts[..i];
      assert i == |attempts| ==> all[..i] == attempts;
    }
  }

  /** No attempt refers past its table, so a new step starts at number one. */
  lemma NoAttemptsYet(c: Config, deadline: Option<int>, steps: seq<Step>, attempts: seq<Attempt>)
    requires AttemptsOk(c, deadline, steps, attempts)
    ensures forall st :: st >= |steps| ==> AttemptsOf(attempts, st) == 0
  { }

  // ---------- approvals ----------

  /** Completed steps keep their rows, and approval gates complete only at `decided`. */
  predicate KeepsDone(c: Config, steps: seq<Step>, steps': seq<Step>, decided: Option<nat>) {
    && Extends(steps, steps')
    && (forall i :: 0 <= i < |steps| && steps[i].status == Completed ==> steps'[i] == steps[i])
    && (forall i :: 0 <= i < |steps'| && ApprovalDone(c, steps'[i]) ==>
          (i < |steps| && steps[i].status == Completed) || decided == Some(i))
  }

  lemma DecidedStays(approvals: seq<Snapshot>, approvals': seq<Snapshot>, st: nat)
    requires DecidedAt(approvals, st) && |approvals| <= |approvals'|
    requires forall i :: 0 <= i < |approvals| && approvals[i].status != AwaitingDecision ==>
               approvals'[i] == approvals[i]
    ensures DecidedAt(approvals', st)
  {
    var i :| 0 <= i < |approvals| && approvals[i].step == st
             && approvals[i].status in {Approved, RetryRequested};
    assert approvals'[i] == approvals[i];
  }

  lemma GatesStay(c: Config, steps: seq<Step>, steps': seq<Step>, approvals: seq<Snapshot>,
                  approvals': seq<Snapshot>, decided: Option<nat>)
    requires GatesDecided(c, steps, approvals) && |approvals| <= |approvals'|
    requires forall i :: 0 <= i < |approvals| && approvals[i].status != AwaitingDecision ==>
               approvals'[i] == approvals[i]
    requires KeepsDone(c, steps, steps', decided)
    requires decided.Some? ==> DecidedAt(approvals', decided.value)
    ensures GatesDecided(c, steps', approvals')
  {
    forall st | 0 <= st < |steps'| && ApprovalDone(c, steps'[st]) ensures DecidedAt(approvals', st) {
      if decided != Some(st) {
        assert ApprovalDone(c, steps[st]);
        DecidedStays(approvals, approvals', st);
      }
    }
  }

  lemma ApprovalsKeep(c: Config, deadline: Option<int>, steps: seq<Step>, steps': seq<Step>,
                      approvals: seq<Snapshot>)
    requires ApprovalsOk(c, deadline, steps, approvals)
    requires KeepsDone(c, steps, steps', None) && NoPending(approvals)
    ensures ApprovalsOk(c, deadline, steps', approvals)
  {
    assert SnapshotsOk(c, deadline, steps', approvals) by { hide ChainOk, GatesDecided, DecisionOk; }
    hide ChainOk, SnapshotsOk;
    GatesStay(c, steps, steps', approvals, approvals, None);
  }

  predicate SameSnapshot(a: Snapshot, b: Snapshot) {
    && a.step == b.step && a.node == b.node && a.iteration == b.iteration
    && a.revision == b.revision && a.source == b.source && a.digest == b.digest
    && a.payload == b.payload && a.review == b.review && a.expiresAt == b.expiresAt
  }

  lemma ChainResolve(approvals: seq<Snapshot>, a: nat, item: Snapshot)
    requires ChainOk(approvals)
    requires a < |approvals| && approvals[a].status == AwaitingDecision
    requires SameSnapshot(approvals[a], item) && item.replacement.None?
    requires item.status !in {AwaitingDecision, Superseded}
    ensures ChainOk(approvals[a := item]) && NoPending(approvals[a := item]) && a == |approvals| - 1
  {
    hide Follows, NextRevision;
    var next := approvals[a := item];
    assert a == |approvals| - 1;
    forall i | 0 <= i < |next|
      ensures next[i].revision == NextRevision(next[..i], next[i].step)
    {
      assert next[..i] == approvals[..i];
      assert approvals[i].revision == NextRevision(approvals[..i], approvals[i].step);
    }
    forall i | 0 < i < |next| ensures Follows(next[i - 1], next[i], i) {
      FollowsSame(approvals[i - 1], approvals[i], next[i], i);
    }
  }

  lemma FollowsSame(prev: Snapshot, old_: Snapshot, next: Snapshot, i: nat)
    requires Follows(prev, old_, i) && SameSnapshot(old_, next)
    ensures Follows(prev, next, i)
  { }

  lemma ChainAppend(approvals: seq<Snapshot>, item: Snapshot)
    requires ChainOk(approvals) && NoPending(approvals)
    requires item.status == AwaitingDecision && item.replacement.None?
    requires item.revision == NextRevision(approvals, item.step)
    requires |approvals| > 0 ==> Follows(approvals[|approvals| - 1], item, |approvals|)
    ensures ChainOk(approvals + [item])
  {
    var next := approvals + [item];
    forall i | 0 <= i < |next|
      ensures next[i].revision == NextRevision(next[..i], next[i].step)
    {
      assert next[..i] == if i < |approvals| then approvals[..i] else approvals;
    }
  }

  /** A reviewer's edit: the last snapshot gives way to its replacement. */
  lemma ChainReplace(approvals: seq<Snapshot>, a: nat, item: Snapshot, next: Snapshot)
    requires ChainOk(approvals)
    requires a < |approvals| && approvals[a].status == AwaitingDecision
    requires SameSnapshot(approvals[a], item)
    requires item.status == Superseded && item.replacement == Some(|approvals|)
    requires next.status == AwaitingDecision && next.replacement.None?
    requires next.step == item.step && next.expiresAt == item.expiresAt
    requires next.revision == item.revision + 1
    ensures ChainOk(approvals[a := item] + [next]) && a == |approvals| - 1
  {
    var all := approvals[a := item] + [next];
    forall i | 0 <= i < |all|
      ensures all[i].revision == NextRevision(all[..i], all[i].step)
    {
      if i < |approvals| {
        assert all[..i] == approvals[..i];
        assert approvals[i].revision == NextRevision(approvals[..i], approvals[i].step);
      } else {
        assert all[..i] == approvals[a := item];
      }
    }
    forall i | 0 < i < |all| ensures Follows(all[i - 1], all[i], i) {
      if i < |approvals| { assert Follows(approvals[i - 1], approvals[i], i); }
    }
  }

  lemma SnapshotsMove(c: Config, deadline: Option<int>, steps: seq<Step>, steps': seq<Step>,
                      approvals: seq<Snapshot>, approvals': seq<Snapshot>, a: nat)
    requires SnapshotsOk(c, deadline, steps, approvals) && |approvals'| >= |approvals|
    requires a < |approvals| && NoPending(approvals[..a]) && a == |approvals| - 1
    requires KeepsDone(c, steps, steps', Some(approvals[a].step))
    requires approvals'[..a] == approvals[..a]
    requires forall i :: a <= i < |approvals'| ==> SnapshotOk(c, deadline, steps', approvals'[i])
    ensures SnapshotsOk(c, deadline, steps', approvals')
  {
    hide DecisionOk;
    forall i | 0 <= i < |approvals'| ensures SnapshotOk(c, deadline, steps', approvals'[i]) {
      if i < a {
        assert approvals'[i] == approvals'[..a][i] == approvals[..a][i] == approvals[i];
        assert SnapshotOk(c, deadline, steps, approvals[i]);
      }
    }
  }

  /** Resolving the pending snapshot, which is the last one. */
  lemma ApprovalsResolve(c: Config, deadline: Option<int>, steps: seq<Step>, steps': seq<Step>,
                         approvals: seq<Snapshot>, a: nat, item: Snapshot, decided: Option<nat>)
    requires ApprovalsOk(c, deadline, steps, approvals)
    requires a < |approvals| && approvals[a].status == AwaitingDecision
    requires SameSnapshot(approvals[a], item) && item.replacement.None?
    requires item.status !in {AwaitingDecision, Superseded}
    requires SnapshotOk(c, deadline, steps', item) && KeepsDone(c, steps, steps', decided)
    requires decided in {None, Some(item.step)}
    requires decided.Some? ==> item.status in {Approved, RetryRequested}
    ensures a == |approvals| - 1
    ensures ApprovalsOk(c, deadline, steps', approvals[a := item])
    ensures NoPending(approvals[a := item])
  {
    var next := approvals[a := item];
    ChainResolve(approvals, a, item);
    assert SnapshotsOk(c, deadline, steps', next) by {
      assert NoPending(approvals[..a]);
      hide SnapshotOk, GatesDecided;
      SnapshotsMove(c, deadline, steps, steps', approvals, next, a);
    }
    hide ChainOk, SnapshotsOk, SnapshotOk;
    if decided.Some? { assert next[a].step == decided.value; }
    GatesStay(c, steps, steps', approvals, next, decided);
  }

  lemma ApprovalsClose(c: Config, deadline: Option<int>, steps: seq<Step>, steps': seq<Step>,
                       approvals: seq<Snapshot>, status: ApprovalStatus, now: int)
    requires ApprovalsOk(c, deadline, steps, approvals)
    requires status in {ApprovalCancelled, ApprovalExpired}
    requires KeepsDone(c, steps, steps', None)
    ensures ApprovalsOk(c, deadline, steps', ClosePending(approvals, status, now))
    ensures NoPending(ClosePending(approvals, status, now))
  {
    hide GatesDecided;
    var closed := ClosePending(approvals, status, now);
    var a := |approvals| - 1;
    if |approvals| > 0 && approvals[a].status == AwaitingDecision {
      assert closed == approvals[a := closed[a]];
      assert SnapshotOk(c, deadline, steps, approvals[a]);
      ApprovalsResolve(c, deadline, steps, steps', approvals, a, closed[a], None);
    } else {
      assert closed == approvals;
      ApprovalsKeep(c, deadline, steps, steps', approvals);
    }
  }

  /** The first snapshot of a step, or a fresh one after the last was invalidated. */
  lemma ApprovalsAdd(c: Config, deadline: Option<int>, steps: seq<Step>, approvals: seq<Snapshot>,
                     item: Snapshot)
    requires ApprovalsOk(c, deadline, steps, approvals) && NoPending(approvals)
    requires SnapshotOk(c, deadline, steps, item) && item.status == AwaitingDecision
    requires item.replacement.None?
    requires item.revision == NextRevision(approvals, item.step)
    requires |approvals| > 0 ==> Follows(approvals[|approvals| - 1], item, |approvals|)
    ensures ApprovalsOk(c, deadline, steps, approvals + [item])
  {
    hide ChainOk, SnapshotOk, Follows, NextRevision, GatesDecided;
    ChainAppend(approvals, item);
    assert SnapshotsOk(c, deadline, steps, approvals + [item]);
    hide SnapshotsOk;
    GatesStay(c, steps, steps, approvals, approvals + [item], None);
  }

  lemma ApprovalsReplace(c: Config, deadline: Option<int>, steps: seq<Step>, approvals: seq<Snapshot>,
                         a: nat, item: Snapshot, next: Snapshot)
    requires ApprovalsOk(c, deadline, steps, approvals)
    requires a < |approvals| && approvals[a].status == AwaitingDecision
    requires SameSnapshot(approvals[a], item)
    requires item.status == Superseded && item.replacement == Some(|approvals|)
    requires next.status == AwaitingDecision && next.replacement.None?
    requires next.step == item.step && next.expiresAt == item.expiresAt
    requires next.revision == item.revision + 1
    requires SnapshotOk(c, deadline, steps, item) && SnapshotOk(c, deadline, steps, next)
    ensures ApprovalsOk(c, deadline, steps, approvals[a := item] + [next])
  {
    var all := approvals[a := item] + [next];
    ChainReplace(approvals, a, item, next);
    hide ChainOk, SnapshotOk;
    assert SnapshotsOk(c, deadline, steps, all);
    GatesStay(c, steps, steps, approvals, all, None);
  }
}
