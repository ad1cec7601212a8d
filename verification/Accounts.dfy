/** What it takes for the end-state checker to pass, in terms of the rows alone: no
    dictionaries, no counters. */
module Accounts {
  import opened Reconcile

  // ---------- every accepted run, row by row ----------

  /** No two rows of `a` have one id, nor have two run rows, and they have the same ids. */
  ghost predicate SameRuns(a: seq<Accepted>, d: Data) {
    && (forall i, k :: 0 <= i < k < |a| ==> a[i].id != a[k].id)
    && (forall i, k :: 0 <= i < k < |d.runs| ==> d.runs[i].id != d.runs[k].id)
    && (forall i :: 0 <= i < |a| ==> HasRunFor(d, a[i]))
    && (forall j :: 0 <= j < |d.runs| ==> IsAccepted(a, d.runs[j].id))
  }

  /** The accepted row `i` is the last one with its start key. */
  predicate LastOfKey(a: seq<Accepted>, i: nat) {
    i < |a| && forall k :: i < k < |a| ==> a[k].startKey != a[i].startKey
  }

  predicate ReceiptFor(a: seq<Accepted>, d: Data, s: nat, i: nat) {
    s < |d.starts| && LastOfKey(a, i) && d.starts[s] == Start(a[i].startKey, a[i].id)
  }

  ghost predicate HasOrigin(a: seq<Accepted>, d: Data, s: nat) {
    exists i: nat :: ReceiptFor(a, d, s, i)
  }

  ghost predicate IsReceived(a: seq<Accepted>, d: Data, i: nat) {
    exists s: nat :: ReceiptFor(a, d, s, i)
  }

  /** Each start key has one receipt, for the last accepted run that used it. */
  ghost predicate OneReceiptPerKey(a: seq<Accepted>, d: Data) {
    && (forall s, r :: 0 <= s < r < |d.starts| ==> d.starts[s].key != d.starts[r].key)
    && (forall s: nat :: s < |d.starts| ==> HasOrigin(a, d, s))
    && (forall i: nat :: LastOfKey(a, i) ==> IsReceived(a, d, i))
  }

  ghost function JobsOf(d: Data, run: string): set<nat> {
    set j: nat | j < |d.jobs| && d.jobs[j].run == run
  }

  /** The jobs a run of this kind goes through. */
  predicate Worth(kind: string, jobs: nat) {
    (kind in {"condition", "sink"} && jobs == 3) || (kind == "parallel" && jobs == 4)
  }

  /** Every accepted run had its jobs, there were no others, and all completed. */
  ghost predicate JobsDone(a: seq<Accepted>, d: Data) {
    && (forall i :: 0 <= i < |a| ==> Worth(a[i].kind, |JobsOf(d, a[i].id)|))
    && (forall j :: 0 <= j < |d.jobs| ==> IsAccepted(a, d.jobs[j].run) && d.jobs[j].status == "completed")
    && (forall i, k :: 0 <= i < k < |d.jobs| ==> d.jobs[i].id != d.jobs[k].id)
  }

  predicate HasStep(d: Data, run: string) {
    exists j :: 0 <= j < |d.steps| && d.steps[j].run == run
  }

  /** Completed steps and attempts are in one-to-one correspondence, every attempt completed,
      and steps are those of the accepted runs. */
  ghost predicate StepsTried(a: seq<Accepted>, d: Data) {
    && EveryAttemptOf(d)
    && (forall i :: 0 <= i < |d.attempts| ==> d.attempts[i].status == "completed")
    && (forall i, k :: 0 <= i < k < |d.steps| ==> d.steps[i].id != d.steps[k].id)
    && (forall i :: 0 <= i < |a| ==> HasStep(d, a[i].id))
    && (forall j :: 0 <= j < |d.steps| ==> IsAccepted(a, d.steps[j].run))
  }

  /** Effect `e` is the only one of this sink run, it was applied, and what was asked for is
      what the sink holds and what came back. */
  predicate AppliedTo(d: Data, sink: map<string, Json>, row: Accepted, e: nat) {
    && EffectOf(d, sink, row, e)
    && d.effects[e].status in {"succeeded", "reconciled"}
    && d.effects[e].result == Obj(map["status" := Num(200.0), "body" := Body(row.value)])
  }

  ghost predicate HasApplied(d: Data, sink: map<string, Json>, row: Accepted) {
    exists e: nat :: AppliedTo(d, sink, row, e)
  }

  predicate HasEffect(d: Data, key: string) {
    exists e :: 0 <= e < |d.effects| && d.effects[e].key == key
  }

  ghost predicate SinksApplied(a: seq<Accepted>, d: Data, sink: map<string, Json>) {
    && (forall i :: 0 <= i < |a| && a[i].kind == "sink" ==> HasApplied(d, sink, a[i]))
    && (forall e :: 0 <= e < |d.effects| ==> IsSinkRun(a, Owner(d, d.effects[e])))
    && (forall i, k :: 0 <= i < k < |d.effects| ==> d.effects[i].key != d.effects[k].key)
    && (forall key :: key in sink <==> HasEffect(d, key))
  }

  /** Step row `j` is the last one of the run for this node. */
  predicate LastStep(d: Data, run: string, node: string, j: nat) {
    && j < |d.steps| && d.steps[j].run == run && d.steps[j].node == node
    && forall k :: j < k < |d.steps| ==> d.steps[k].run != run || d.steps[k].node != node
  }

  ghost predicate Took(d: Data, row: Accepted, node: string) {
    exists j: nat :: LastStep(d, row.id, node, j) && d.steps[j].output == Body(row.value)
  }

  ghost predicate Left(d: Data, row: Accepted, node: string) {
    exists j: nat :: LastStep(d, row.id, node, j) && d.steps[j].status == "skipped"
  }

  /** A condition run took the branch of its value's sign and skipped the other. */
  ghost predicate Branched(d: Data, row: Accepted) {
    row.kind == "condition" && row.value.Num? ==>
      var (taken, left) := if row.value.value >= 0.0 then ("positive", "negative") else ("negative", "positive");
      && Took(d, row, taken) && Left(d, row, left)
  }

  ghost predicate Accounted(a: seq<Accepted>, d: Data, sink: map<string, Json>, conflicts: int) {
    && SameRuns(a, d) && OneReceiptPerKey(a, d) && JobsDone(a, d) && StepsTried(a, d)
    && SinksApplied(a, d, sink) && conflicts == 0
    && (forall i :: 0 <= i < |a| ==> Branched(d, a[i]))
  }

  // ---------- dictionaries and counters are what they stand for ----------

  /** A key of the dictionary leads to the last row that has it. */
  lemma {:induction false} IndexIsLast<K, V>(rows: seq<V>, key: V -> K, i: nat)
    requires i < |rows| && forall k :: i < k < |rows| ==> key(rows[k]) != key(rows[i])
    ensures key(rows[i]) in Index(rows, key) && Index(rows, key)[key(rows[i])] == rows[i]
  {
    var n := |rows| - 1;
    if i < n { IndexIsLast(rows[..n], key, i); }
  }

  lemma {:induction false} LastRow<K, V>(rows: seq<V>, key: V -> K, k: K) returns (i: nat)
    requires k in Index(rows, key)
    ensures i < |rows| && rows[i] == Index(rows, key)[k] && key(rows[i]) == k
    ensures forall j :: i < j < |rows| ==> key(rows[j]) != k
  {
    var n := |rows| - 1;
    if key(rows[n]) == k {
      i := n;
    } else {
      i := LastRow(rows[..n], key, k);
      assert forall j :: i < j < n ==> rows[..n][j] == rows[j];
    }
  }

  ghost function Places<K, V(!new)>(rows: seq<V>, key: V -> K, k: K): set<nat> {
    set i: nat | i < |rows| && key(rows[i]) == k
  }

  /** A counter counts the rows with a key. */
  lemma {:induction false} TallyIsPlaces<K, V(!new)>(rows: seq<V>, key: V -> K, k: K)
    ensures Tally(rows, key)[k] == |Places(rows, key, k)|
  {
    if rows == [] {
      assert Places(rows, key, k) == {};
    } else {
      var n: nat := |rows| - 1;
      var init := rows[..n];
      TallyIsPlaces(init, key, k);
      var keys := seq(|rows|, i requires 0 <= i < |rows| => key(rows[i]));
      var fewer := seq(n, i requires 0 <= i < n => key(init[i]));
      assert keys == fewer + [key(rows[n])];
      TallyIs(rows, key, keys);
      TallyIs(init, key, fewer);
      assert Places(init, key, k) == Places(rows, key, k) - {n};
      if key(rows[n]) == k { assert n in Places(rows, key, k); }
    }
  }

  // ---------- check by check ----------

  lemma RunsAreSame(a: seq<Accepted>, d: Data)
    ensures SameRuns(a, d) <==>
      && RunIdentityOk(a, d) && RunsCompleted(d)
      && forall k :: k in Expected(a) ==>
           InputOk(Expected(a)[k], RunOf(d, k)) && ParallelOk(Expected(a)[k], RunOf(d, k))
  {
    if RunIdentityOk(a, d) && RunsCompleted(d)
       && forall k :: k in Expected(a) ==>
            InputOk(Expected(a)[k], RunOf(d, k)) && ParallelOk(Expected(a)[k], RunOf(d, k)) {
      RunsAccounted(a, d);
      RunsMatchOneToOne(a, d);
    }
    if SameRuns(a, d) { SameRunsChecks(a, d); }
  }

  lemma SameRunsChecks(a: seq<Accepted>, d: Data)
    requires SameRuns(a, d)
    ensures RunIdentityOk(a, d) && RunsCompleted(d)
    ensures forall k :: k in Expected(a) ==>
      InputOk(Expected(a)[k], RunOf(d, k)) && ParallelOk(Expected(a)[k], RunOf(d, k))
  {
    hide Index, Arguments;
    forall k | k in Runs(d) ensures k in Expected(a) && Runs(d)[k].status == "completed" {
      var j := Lookup(d.runs, RunId, k);
      assert IsAccepted(a, d.runs[j].id);
      var i :| 0 <= i < |a| && a[i].id == k;
      Present(a, AcceptedId, i);
      var m := RunRow(a, d, i);
      assert m == j;
    }
    forall k | k in Expected(a)
      ensures k in Runs(d) && InputOk(Expected(a)[k], RunOf(d, k)) && ParallelOk(Expected(a)[k], RunOf(d, k))
    {
      var i := Lookup(a, AcceptedId, k);
      var m := RunRow(a, d, i);
      Present(d.runs, RunId, m);
    }
  }

  lemma RunRow(a: seq<Accepted>, d: Data, i: nat) returns (j: nat)
    requires SameRuns(a, d) && i < |a|
    ensures RunFor(d, a[i], j)
    ensures Distinct(a, AcceptedId) && Distinct(d.runs, RunId)
    ensures forall k :: 0 <= k < |d.runs| && d.runs[k].id == a[i].id ==> k == j
  {
    hide RunFor;
    assert HasRunFor(d, a[i]);
    j :| RunFor(d, a[i], j);
    RunForId(d, a[i], j);
  }

  lemma RunForId(d: Data, row: Accepted, j: nat)
    requires RunFor(d, row, j)
    ensures j < |d.runs| && d.runs[j].id == row.id
  { }

  lemma LastAccepted(a: seq<Accepted>, key: string) returns (i: nat)
    requires key in Issued(a)
    ensures LastOfKey(a, i) && a[i].startKey == key && Issued(a)[key] == a[i].id
  {
    hide Index;
    i := LastRow(a, StartKey, key);
    forall k | i < k < |a| ensures a[k].startKey != a[i].startKey { assert StartKey(a[k]) != key; }
  }

  lemma IssuedIs(a: seq<Accepted>, i: nat)
    requires LastOfKey(a, i)
    ensures a[i].startKey in Issued(a) && Issued(a)[a[i].startKey] == a[i].id
  {
    hide Index;
    forall k | i < k < |a| ensures StartKey(a[k]) != StartKey(a[i]) { }
    IndexIsLast(a, StartKey, i);
  }

  /** The receipts of distinct keys, looked up. */
  lemma ReceiptIs(d: Data, s: nat)
    requires s < |d.starts| && Distinct(d.starts, StartRowKey)
    ensures d.starts[s].key in Receipts(d) && Receipts(d)[d.starts[s].key] == d.starts[s].run
  {
    hide Index;
    Present(d.starts, StartRowKey, s);
  }

  lemma ReceiptRow(d: Data, key: string) returns (s: nat)
    requires key in Receipts(d)
    ensures s < |d.starts| && d.starts[s] == Start(key, Receipts(d)[key])
  {
    hide Index;
    s := Lookup(d.starts, StartRowKey, key);
  }

  lemma DistinctStarts(d: Data)
    ensures Distinct(d.starts, StartRowKey) <==>
      forall s, r :: 0 <= s < r < |d.starts| ==> d.starts[s].key != d.starts[r].key
  {
    if forall s, r :: 0 <= s < r < |d.starts| ==> d.starts[s].key != d.starts[r].key {
      forall s, r | 0 <= s < r < |d.starts| ensures StartRowKey(d.starts[s]) != StartRowKey(d.starts[r]) { }
    }
    if Distinct(d.starts, StartRowKey) {
      forall s, r | 0 <= s < r < |d.starts| ensures d.starts[s].key != d.starts[r].key {
        assert StartRowKey(d.starts[s]) != StartRowKey(d.starts[r]);
      }
    }
  }

  lemma ReceiptsAreSame(a: seq<Accepted>, d: Data)
    ensures OneReceiptPerKey(a, d) <==> StartReceiptOk(a, d)
  {
    hide Index, Distinct, Receipts, Issued, LastOfKey;
    DistinctStarts(d);
    if StartReceiptOk(a, d) {
      forall s: nat | s < |d.starts| ensures HasOrigin(a, d, s) {
        ReceiptIs(d, s);
        var i := LastAccepted(a, d.starts[s].key);
        assert ReceiptFor(a, d, s, i);
      }
      forall i: nat | LastOfKey(a, i) ensures IsReceived(a, d, i) { ReceivedIs(a, d, i); }
    }
    if OneReceiptPerKey(a, d) {
      forall key | key in Issued(a) ensures key in Receipts(d) && Receipts(d)[key] == Issued(a)[key] {
        var i := LastAccepted(a, key);
        assert IsReceived(a, d, i);
        var s: nat :| ReceiptFor(a, d, s, i);
        ReceiptIs(d, s);
      }
      forall key | key in Receipts(d) ensures key in Issued(a) {
        var s := ReceiptRow(d, key);
        assert HasOrigin(a, d, s);
        var i: nat :| ReceiptFor(a, d, s, i);
        IssuedIs(a, i);
      }
      assert Receipts(d) == Issued(a);
    }
  }

  lemma ReceivedIs(a: seq<Accepted>, d: Data, i: nat)
    requires LastOfKey(a, i) && Receipts(d) == Issued(a)
    ensures IsReceived(a, d, i)
  {
    hide Index, Receipts, Issued;
    IssuedIs(a, i);
    var s := ReceiptRow(d, a[i].startKey);
    assert ReceiptFor(a, d, s, i);
  }

  // ---------- jobs ----------

  lemma JobsArePlaces(d: Data, k: string)
    ensures Tally(d.jobs, JobRun)[k] == |JobsOf(d, k)|
  {
    hide Tally;
    TallyIsPlaces(d.jobs, JobRun, k);
    assert Places(d.jobs, JobRun, k) == JobsOf(d, k);
  }

  lemma DistinctJobs(d: Data)
    ensures Distinct(d.jobs, JobId) <==> forall i, k :: 0 <= i < k < |d.jobs| ==> d.jobs[i].id != d.jobs[k].id
  {
    if Distinct(d.jobs, JobId) {
      forall i, k | 0 <= i < k < |d.jobs| ensures d.jobs[i].id != d.jobs[k].id {
        assert JobId(d.jobs[i]) != JobId(d.jobs[k]);
      }
    }
  }

  lemma WorthIs(kind: string, n: nat)
    ensures Worth(kind, n) <==> Quota(kind) == Some(n)
  {
    assert "condition" != "parallel" && "sink" != "parallel" by {
      assert |"condition"| == 9 && |"parallel"| == 8 && |"sink"| == 4;
    }
  }

  lemma QuotaOf(a: seq<Accepted>, i: nat)
    requires Distinct(a, AcceptedId) && i < |a| && KindsKnown(a)
    ensures Quota(a[i].kind) == Some(JobQuota(a, a[i].id))
  {
    hide Index, Quota;
    Present(a, AcceptedId, i);
  }

  lemma QuotaRow(a: seq<Accepted>, k: string)
    requires JobQuota(a, k) > 0
    ensures IsAccepted(a, k)
  {
    hide Index, Quota;
    var i := Lookup(a, AcceptedId, k);
  }

  lemma NoJobs(d: Data, k: string)
    ensures |JobsOf(d, k)| == 0 <==> forall j :: 0 <= j < |d.jobs| ==> d.jobs[j].run != k
  {
    if |JobsOf(d, k)| == 0 {
      forall j: nat | j < |d.jobs| ensures d.jobs[j].run != k { assert j !in JobsOf(d, k); }
    } else {
      assert JobsOf(d, k) != {};
    }
  }

  lemma JobsAreSame(a: seq<Accepted>, d: Data)
    requires RunIdentityOk(a, d)
    ensures JobsDone(a, d) <==> KindsKnown(a) && JobsSettled(a, d)
  {
    hide Index, Tally, Distinct, Quota, Worth, JobQuota, RunIdentityOk, JobsOf;
    IdsDistinct(a, d);
    DistinctJobs(d);
    if KindsKnown(a) && JobsSettled(a, d) {
      forall i | 0 <= i < |a| ensures Worth(a[i].kind, |JobsOf(d, a[i].id)|) {
        QuotaOf(a, i);
        JobsArePlaces(d, a[i].id);
        WorthIs(a[i].kind, |JobsOf(d, a[i].id)|);
      }
      forall j | 0 <= j < |d.jobs| ensures IsAccepted(a, d.jobs[j].run) {
        JobsArePlaces(d, d.jobs[j].run);
        NoJobs(d, d.jobs[j].run);
        QuotaRow(a, d.jobs[j].run);
      }
    }
    if JobsDone(a, d) { JobsDoneChecks(a, d); }
  }

  lemma JobsDoneChecks(a: seq<Accepted>, d: Data)
    requires Distinct(a, AcceptedId) && JobsDone(a, d)
    ensures KindsKnown(a) && JobsSettled(a, d)
  {
    hide Index, Tally, Distinct, Quota, Worth, JobQuota, JobsOf;
    DistinctJobs(d);
    forall k | k in Expected(a) ensures Quota(Expected(a)[k].kind).Some? {
      var i := Lookup(a, AcceptedId, k);
      WorthIs(a[i].kind, |JobsOf(d, a[i].id)|);
    }
    forall k ensures Tally(d.jobs, JobRun)[k] == JobQuota(a, k) {
      JobsArePlaces(d, k);
      if i :| 0 <= i < |a| && a[i].id == k {
        QuotaOf(a, i);
        WorthIs(a[i].kind, |JobsOf(d, k)|);
      } else {
        NoJobs(d, k);
        if JobQuota(a, k) > 0 { QuotaRow(a, k); }
      }
    }
  }

  // ---------- steps and attempts ----------

  lemma DistinctSteps(d: Data)
    ensures Distinct(d.steps, StepId) <==> forall i, k :: 0 <= i < k < |d.steps| ==> d.steps[i].id != d.steps[k].id
  {
    if Distinct(d.steps, StepId) {
      forall i, k | 0 <= i < k < |d.steps| ensures d.steps[i].id != d.steps[k].id {
        assert StepId(d.steps[i]) != StepId(d.steps[k]);
      }
    }
  }

  lemma DoneIs(d: Data, id: string)
    requires Distinct(d.steps, StepId)
    ensures StepDone(d, id) <==> IsDone(d, id)
  {
    hide Index, Distinct;
    if StepDone(d, id) { var j := Lookup(d.steps, StepId, id); }
    if IsDone(d, id) {
      var j :| 0 <= j < |d.steps| && d.steps[j].id == id && d.steps[j].status == "completed";
      Present(d.steps, StepId, j);
    }
  }

  lemma NoAttempts(d: Data, id: string)
    requires EveryAttemptOf(d) && !IsDone(d, id)
    ensures Places(d.attempts, AttemptStep, id) == {}
  { }

  lemma AttemptCounts(d: Data, id: string)
    requires EveryAttemptOf(d) && Distinct(d.steps, StepId)
    ensures Tally(d.attempts, AttemptStep)[id] == if StepDone(d, id) then 1 else 0
  {
    hide Index, Tally, Distinct, StepDone;
    DoneIs(d, id);
    TallyIsPlaces(d.attempts, AttemptStep, id);
    var places := Places(d.attempts, AttemptStep, id);
    if IsDone(d, id) {
      var j :| 0 <= j < |d.steps| && d.steps[j].id == id && d.steps[j].status == "completed";
      var i: nat :| AttemptOf(d, d.steps[j], i);
      assert places == {i};
    } else {
      NoAttempts(d, id);
    }
  }

  lemma StepsHaveRuns(a: seq<Accepted>, d: Data, k: string)
    requires AttemptsMatch(a, d)
    ensures k in Expected(a) <==> HasStep(d, k)
  {
    hide Index, Tally, Distinct;
  }

  lemma StepsAreSame(a: seq<Accepted>, d: Data)
    ensures StepsTried(a, d) <==> AttemptsMatch(a, d)
  {
    hide Index, Tally, Distinct, EveryAttemptOf, StepDone;
    DistinctSteps(d);
    if AttemptsMatch(a, d) {
      EveryAttempt(a, d);
      forall i | 0 <= i < |a| ensures HasStep(d, a[i].id) {
        Present(a, AcceptedId, i);
        StepsHaveRuns(a, d, a[i].id);
      }
      forall j | 0 <= j < |d.steps| ensures IsAccepted(a, d.steps[j].run) {
        StepsHaveRuns(a, d, d.steps[j].run);
        var i := Lookup(a, AcceptedId, d.steps[j].run);
      }
    }
    if StepsTried(a, d) {
      forall k ensures Tally(d.attempts, AttemptStep)[k] == if StepDone(d, k) then 1 else 0 { AttemptCounts(d, k); }
      forall k ensures k in Expected(a) <==> exists i :: 0 <= i < |d.steps| && d.steps[i].run == k {
        StepOwners(a, d, k);
      }
    }
  }

  lemma StepOwners(a: seq<Accepted>, d: Data, k: string)
    requires forall i :: 0 <= i < |a| ==> HasStep(d, a[i].id)
    requires forall j :: 0 <= j < |d.steps| ==> IsAccepted(a, d.steps[j].run)
    ensures k in Expected(a) <==> HasStep(d, k)
  {
    hide Index;
    if k in Expected(a) { var i := Lookup(a, AcceptedId, k); }
    if HasStep(d, k) {
      var j :| 0 <= j < |d.steps| && d.steps[j].run == k;
      var i :| 0 <= i < |a| && a[i].id == d.steps[j].run;
      Present(a, AcceptedId, i);
    }
  }

  // ---------- effects ----------

  lemma AppliedIs(a: seq<Accepted>, d: Data, sink: map<string, Json>, conflicts: int, i: nat)
    requires Distinct(a, AcceptedId) && LedgerMatches(d, sink)
    requires EffectsCorrect(a, d, sink) && EffectsOnce(a, d, conflicts)
    requires i < |a| && a[i].kind == "sink"
    ensures HasApplied(d, sink, a[i])
  {
    hide Index, Intended, OwnedBy, Owner, EffectsOnce;
    var e := EffectsMatchOneToOne(a, d, sink, conflicts, i);
    EffectRow(a, d, sink, e);
    DistinctIds(a);
    IntendedRows(a);
    assert AppliedTo(d, sink, a[i], e);
  }

  lemma EffectRow(a: seq<Accepted>, d: Data, sink: map<string, Json>, e: nat)
    requires LedgerMatches(d, sink) && EffectsCorrect(a, d, sink) && e < |d.effects|
    ensures EffectOk(a, d, sink, d.effects[e].key, d.effects[e])
  {
    hide Index, EffectOk;
    Present(d.effects, EffectKey, e);
  }

  lemma DistinctEffects(d: Data)
    ensures Distinct(d.effects, EffectKey) <==>
      forall i, k :: 0 <= i < k < |d.effects| ==> d.effects[i].key != d.effects[k].key
  {
    if Distinct(d.effects, EffectKey) {
      forall i, k | 0 <= i < k < |d.effects| ensures d.effects[i].key != d.effects[k].key {
        assert EffectKey(d.effects[i]) != EffectKey(d.effects[k]);
      }
    }
  }

  lemma EffectKeys(d: Data, key: string)
    ensures key in Effects(d) <==> HasEffect(d, key)
  {
    hide Index;
    if key in Effects(d) { var e := Lookup(d.effects, EffectKey, key); }
    if HasEffect(d, key) {
      var e :| 0 <= e < |d.effects| && d.effects[e].key == key;
      Present(d.effects, EffectKey, e);
    }
  }

  lemma LedgerIs(d: Data, sink: map<string, Json>)
    ensures LedgerMatches(d, sink) <==>
      && (forall i, k :: 0 <= i < k < |d.effects| ==> d.effects[i].key != d.effects[k].key)
      && (forall key :: key in sink <==> HasEffect(d, key))
  {
    hide Index, Distinct, HasEffect;
    DistinctEffects(d);
    forall key ensures key in Effects(d) <==> HasEffect(d, key) { EffectKeys(d, key); }
    if forall key :: key in sink <==> HasEffect(d, key) { assert Effects(d).Keys == sink.Keys; }
    if LedgerMatches(d, sink) {
      forall key ensures key in sink <==> HasEffect(d, key) {
        assert key in sink <==> key in sink.Keys;
        assert key in Effects(d) <==> key in Effects(d).Keys;
      }
    }
  }

  /** The accepted sink run to which effect `e` is applied. */
  lemma AppliedRow(a: seq<Accepted>, d: Data, sink: map<string, Json>, e: nat) returns (i: nat)
    requires SinksApplied(a, d, sink) && e < |d.effects|
    ensures i < |a| && a[i].kind == "sink" && AppliedTo(d, sink, a[i], e) && Owner(d, d.effects[e]) == a[i].id
  {
    hide Owner;
    assert IsSinkRun(a, Owner(d, d.effects[e]));
    i :| 0 <= i < |a| && a[i].kind == "sink" && a[i].id == Owner(d, d.effects[e]);
    assert HasApplied(d, sink, a[i]);
    var f: nat :| AppliedTo(d, sink, a[i], f);
  }

  lemma OwnedOne(a: seq<Accepted>, d: Data, sink: map<string, Json>, i: nat)
    requires SinksApplied(a, d, sink) && i < |a| && a[i].kind == "sink"
    ensures |OwnedBy(d, Effects(d).Keys, a[i].id)| == 1
  {
    hide Index, Owner, Distinct;
    DistinctEffects(d);
    assert HasApplied(d, sink, a[i]);
    var e: nat :| AppliedTo(d, sink, a[i], e);
    Present(d.effects, EffectKey, e);
    var owned := OwnedBy(d, Effects(d).Keys, a[i].id);
    forall key | key in owned ensures key == d.effects[e].key {
      var f := Lookup(d.effects, EffectKey, key);
    }
    assert owned == {d.effects[e].key};
  }

  lemma OwnedNone(a: seq<Accepted>, d: Data, sink: map<string, Json>, k: string)
    requires SinksApplied(a, d, sink) && !IsSinkRun(a, k)
    ensures OwnedBy(d, Effects(d).Keys, k) == {}
  {
    hide Index, Owner, IsSinkRun, HasApplied, HasEffect;
    forall key | key in Effects(d) ensures Owner(d, Effects(d)[key]) != k {
      var e := Lookup(d.effects, EffectKey, key);
      assert IsSinkRun(a, Owner(d, d.effects[e]));
    }
  }

  lemma OwnedOnce(a: seq<Accepted>, d: Data, sink: map<string, Json>, k: string)
    requires Distinct(a, AcceptedId) && SinksApplied(a, d, sink)
    ensures |OwnedBy(d, Effects(d).Keys, k)| == if k in Intended(a) then 1 else 0
  {
    hide Index, Owner, Intended, Distinct, SinksApplied, OwnedBy;
    DistinctIds(a);
    IntendedRows(a);
    if k in Intended(a) {
      var i :| 0 <= i < |a| && a[i].kind == "sink" && a[i].id == k;
      OwnedOne(a, d, sink, i);
    } else {
      OwnedNone(a, d, sink, k);
    }
  }

  lemma AppliedChecks(a: seq<Accepted>, d: Data, sink: map<string, Json>)
    requires Distinct(a, AcceptedId) && SinksApplied(a, d, sink)
    ensures LedgerMatches(d, sink) && EffectsCorrect(a, d, sink) && EffectsOnce(a, d, 0)
  {
    hide Index, Owner, Intended, Distinct, OwnedBy, LedgerMatches;
    LedgerIs(d, sink);
    DistinctIds(a);
    IntendedRows(a);
    forall k ensures |OwnedBy(d, Effects(d).Keys, k)| == if k in Intended(a) then 1 else 0 {
      OwnedOnce(a, d, sink, k);
    }
    forall key | key in Effects(d) ensures EffectOk(a, d, sink, key, Effects(d)[key]) {
      var e := Lookup(d.effects, EffectKey, key);
      var i := AppliedRow(a, d, sink, e);
    }
  }

  lemma SinksAreSame(a: seq<Accepted>, d: Data, sink: map<string, Json>, conflicts: int)
    requires Distinct(a, AcceptedId)
    ensures SinksApplied(a, d, sink) && conflicts == 0 <==>
      LedgerMatches(d, sink) && EffectsCorrect(a, d, sink) && EffectsOnce(a, d, conflicts)
  {
    hide Index, Distinct, EffectsCorrect, HasApplied, HasEffect, OwnedBy;
    if LedgerMatches(d, sink) && EffectsCorrect(a, d, sink) && EffectsOnce(a, d, conflicts) {
      EveryEffect(a, d, sink, conflicts);
      LedgerIs(d, sink);
      forall i | 0 <= i < |a| && a[i].kind == "sink" ensures HasApplied(d, sink, a[i]) {
        AppliedIs(a, d, sink, conflicts, i);
      }
    }
    if SinksApplied(a, d, sink) && conflicts == 0 { AppliedChecks(a, d, sink); }
  }

  // ---------- branches ----------

  lemma {:induction false} StepAtIs(steps: seq<Step>, run: string, node: string)
    ensures match StepAt(steps, run, node)
      case None => forall j :: 0 <= j < |steps| ==> steps[j].run != run || steps[j].node != node
      case Some(step) =>
        exists j :: 0 <= j < |steps| && steps[j] == step && step.run == run && step.node == node
          && forall k :: j < k < |steps| ==> steps[k].run != run || steps[k].node != node
  {
    if steps != [] {
      var n := |steps| - 1;
      if steps[n].run != run || steps[n].node != node {
        StepAtIs(steps[..n], run, node);
        assert forall j :: 0 <= j < n ==> steps[..n][j] == steps[j];
        if StepAt(steps, run, node).Some? {
          var step := StepAt(steps, run, node).value;
          var j :| 0 <= j < n && steps[..n][j] == step && step.run == run && step.node == node
            && forall k :: j < k < n ==> steps[..n][k].run != run || steps[..n][k].node != node;
          assert steps[j] == step;
        }
      }
    }
  }

  lemma FoundStep(d: Data, run: string, node: string) returns (j: nat)
    requires StepAt(d.steps, run, node).Some?
    ensures LastStep(d, run, node, j) && StepAt(d.steps, run, node) == Some(d.steps[j])
    ensures forall k: nat :: LastStep(d, run, node, k) ==> k == j
  {
    hide StepAt;
    StepAtIs(d.steps, run, node);
    var step := StepAt(d.steps, run, node).value;
    j :| 0 <= j < |d.steps| && d.steps[j] == step && step.run == run && step.node == node
      && forall k :: j < k < |d.steps| ==> d.steps[k].run != run || d.steps[k].node != node;
  }

  lemma NoStep(d: Data, run: string, node: string, j: nat)
    requires LastStep(d, run, node, j)
    ensures StepAt(d.steps, run, node).Some?
  {
    hide StepAt;
    StepAtIs(d.steps, run, node);
  }

  lemma TookIs(d: Data, row: Accepted, node: string)
    ensures var at := StepAt(d.steps, row.id, node);
      && (Took(d, row, node) <==> at.Some? && at.value.output == Body(row.value))
      && (Left(d, row, node) <==> at.Some? && at.value.status == "skipped")
  {
    hide StepAt, LastStep;
    if StepAt(d.steps, row.id, node).Some? {
      var j := FoundStep(d, row.id, node);
    } else {
      forall j: nat | LastStep(d, row.id, node, j) ensures false { NoStep(d, row.id, node, j); }
    }
  }

  lemma BranchedIs(d: Data, row: Accepted)
    ensures Branched(d, row) <==> ConditionOk(row, d)
  {
    hide StepAt, Took, Left;
    TookIs(d, row, "positive");
    TookIs(d, row, "negative");
  }

  lemma BranchesAreSame(a: seq<Accepted>, d: Data)
    requires Distinct(a, AcceptedId)
    ensures (forall i :: 0 <= i < |a| ==> Branched(d, a[i]))
        <==> forall k :: k in Expected(a) ==> ConditionOk(Expected(a)[k], d)
  {
    hide Index, Distinct, Branched, ConditionOk;
    if forall k :: k in Expected(a) ==> ConditionOk(Expected(a)[k], d) {
      forall i | 0 <= i < |a| ensures Branched(d, a[i]) {
        Present(a, AcceptedId, i);
        assert Expected(a)[a[i].id] == a[i];
        BranchedIs(d, a[i]);
      }
    }
    if forall i :: 0 <= i < |a| ==> Branched(d, a[i]) {
      forall k | k in Expected(a) ensures ConditionOk(Expected(a)[k], d) {
        var i := Lookup(a, AcceptedId, k);
        BranchedIs(d, a[i]);
      }
    }
  }

  // ---------- the whole report ----------

  lemma ItemChecks(a: seq<Accepted>, d: Data, sink: map<string, Json>, conflicts: int)
    requires Reconciled(a, d, sink, conflicts)
    ensures forall k :: k in Expected(a) ==> ConditionOk(Expected(a)[k], d)
  {
    hide RunIdentityOk, StartReceiptOk, RunsCompleted, JobsSettled, AttemptsMatch, LedgerMatches,
         EffectsCorrect, EffectsOnce, InputOk, ParallelOk, ConditionOk, KindsKnown, Index;
    ExpectedIds(a);
    assert Holds(ConditionOutput, a, d, sink, conflicts);
    forall k | k in Expected(a) ensures ConditionOk(Expected(a)[k], d) {
      assert ItemOk(ConditionOutput, Expected(a)[k], d);
    }
  }

  /** A report passes if and only if the rows account for every accepted run: runs with
      their pinned version, input and output, receipts by start key, the right number of
      jobs, one attempt per completed step, one applied effect per sink run, and the branch
      that each condition's value calls for; nothing else is in the tables or in the sink. */
  lemma PassesIffAccounted(a: seq<Accepted>, d: Data, sink: map<string, Json>, conflicts: int)
    ensures Reconciled(a, d, sink, conflicts) <==> Accounted(a, d, sink, conflicts)
  {
    hide *;
    RunsAreSame(a, d);
    ReceiptsAreSame(a, d);
    StepsAreSame(a, d);
    if Reconciled(a, d, sink, conflicts) {
      AllHold(a, d, sink, conflicts);
      ItemsHold(a, d, sink, conflicts);
      ItemChecks(a, d, sink, conflicts);
      IdsDistinct(a, d);
      JobsAreSame(a, d);
      SinksAreSame(a, d, sink, conflicts);
      BranchesAreSame(a, d);
      AccountedIs(a, d, sink, conflicts);
    }
    if Accounted(a, d, sink, conflicts) {
      AccountedIs(a, d, sink, conflicts);
      IdsDistinct(a, d);
      JobsAreSame(a, d);
      SinksAreSame(a, d, sink, conflicts);
      BranchesAreSame(a, d);
      AllOf(a, d, sink, conflicts);
    }
  }

  lemma AccountedIs(a: seq<Accepted>, d: Data, sink: map<string, Json>, conflicts: int)
    ensures Accounted(a, d, sink, conflicts) <==>
      && SameRuns(a, d) && OneReceiptPerKey(a, d) && JobsDone(a, d) && StepsTried(a, d)
      && SinksApplied(a, d, sink) && conflicts == 0
      && (forall i :: 0 <= i < |a| ==> Branched(d, a[i]))
  { }
}
