/** The end-state checker of the benchmark: does what the database and the sink hold
    account for every accepted run, exactly once?

    Rows arrive as lists and are compared through dictionaries and counters, in which a
    repeated key silently replaces or merges rows. */
module Reconcile {

  datatype Option<+T> = None | Some(value: T)

  // ---------- dictionaries and counters built from rows ----------

  /** A dictionary comprehension: a later row replaces an earlier one with its key. */
  function Index<K, V>(rows: seq<V>, key: V -> K): map<K, V> {
    if rows == [] then map[]
    else
      var last := rows[|rows| - 1];
      Index(rows[..|rows| - 1], key)[key(last) := last]
  }

  /** A counter over the keys of the rows. */
  function Tally<K, V>(rows: seq<V>, key: V -> K): multiset<K> {
    multiset(seq(|rows|, i requires 0 <= i < |rows| => key(rows[i])))
  }

  predicate Distinct<K(==), V>(rows: seq<V>, key: V -> K) {
    forall i, k :: 0 <= i < k < |rows| ==> key(rows[i]) != key(rows[k])
  }

  lemma {:induction false} IndexKeys<K, V>(rows: seq<V>, key: V -> K)
    ensures forall i :: 0 <= i < |rows| ==> key(rows[i]) in Index(rows, key)
    ensures forall k :: k in Index(rows, key) ==>
              Index(rows, key)[k] in rows && key(Index(rows, key)[k]) == k
    ensures |Index(rows, key)| <= |rows|
  {
    if rows != [] {
      var n := |rows| - 1;
      IndexKeys(rows[..n], key);
      forall i | 0 <= i < n ensures key(rows[i]) in Index(rows, key) {
        assert rows[..n][i] == rows[i];
      }
    }
  }

  lemma DistinctStep<K, V>(rows: seq<V>, key: V -> K)
    requires rows != []
    ensures var n := |rows| - 1;
      Distinct(rows, key) <==>
        Distinct(rows[..n], key) && forall i :: 0 <= i < n ==> key(rows[..n][i]) != key(rows[n])
  {
    var n := |rows| - 1;
    if Distinct(rows[..n], key) && forall i :: 0 <= i < n ==> key(rows[..n][i]) != key(rows[n]) {
      forall i, k | 0 <= i < k < |rows| ensures key(rows[i]) != key(rows[k]) {
        assert rows[..n][i] == rows[i] && (k < n ==> rows[..n][k] == rows[k]);
      }
    }
  }

  /** The dictionary is as long as the list exactly when no key repeats, and then it holds
      every row under its key. */
  lemma {:induction false} IndexSize<K, V>(rows: seq<V>, key: V -> K)
    ensures |Index(rows, key)| == |rows| <==> Distinct(rows, key)
    ensures Distinct(rows, key) ==>
              forall i :: 0 <= i < |rows| ==>
                key(rows[i]) in Index(rows, key) && Index(rows, key)[key(rows[i])] == rows[i]
  {
    if rows != [] {
      var n := |rows| - 1;
      var init := rows[..n];
      IndexSize(init, key);
      IndexKeys(init, key);
      DistinctStep(rows, key);
      if key(rows[n]) in Index(init, key) {
        var row := Index(init, key)[key(rows[n])];
        var i :| 0 <= i < |init| && init[i] == row;
        assert key(init[i]) == key(rows[n]);
      } else {
        assert forall i :: 0 <= i < n ==> rows[i] == init[i];
      }
    }
    hide Distinct;
  }

  /** The row a dictionary holds under a key. */
  lemma Lookup<K, V>(rows: seq<V>, key: V -> K, k: K) returns (i: nat)
    requires k in Index(rows, key)
    ensures i < |rows| && rows[i] == Index(rows, key)[k] && key(rows[i]) == k
  {
    IndexKeys(rows, key);
    i :| 0 <= i < |rows| && rows[i] == Index(rows, key)[k];
  }

  lemma Present<K, V>(rows: seq<V>, key: V -> K, i: nat)
    requires i < |rows|
    ensures key(rows[i]) in Index(rows, key)
    ensures Distinct(rows, key) ==> Index(rows, key)[key(rows[i])] == rows[i]
    ensures Distinct(rows, key) ==>
      forall j :: 0 <= j < |rows| && key(rows[j]) == key(rows[i]) ==> j == i
  {
    IndexKeys(rows, key);
    IndexSize(rows, key);
  }

  lemma CountedTwice<K>(keys: seq<K>, a: nat, b: nat)
    requires a < b < |keys| && keys[a] == keys[b]
    ensures multiset(keys)[keys[a]] >= 2
  {
    assert keys == keys[..a] + [keys[a]] + keys[a + 1..b] + [keys[b]] + keys[b + 1..];
  }

  /** A key counted once belongs to exactly one row. */
  lemma CountedOnce<K, V>(rows: seq<V>, key: V -> K, k: K) returns (i: nat)
    requires Tally(rows, key)[k] == 1
    ensures i < |rows| && key(rows[i]) == k
    ensures forall j :: 0 <= j < |rows| && key(rows[j]) == k ==> j == i
  {
    var keys := seq(|rows|, i requires 0 <= i < |rows| => key(rows[i]));
    assert k in multiset(keys);
    i :| 0 <= i < |keys| && keys[i] == k;
    forall j | 0 <= j < |rows| && key(rows[j]) == k ensures j == i {
      if i < j { CountedTwice(keys, i, j); }
      if j < i { CountedTwice(keys, j, i); }
    }
  }

  lemma Counted<K, V>(rows: seq<V>, key: V -> K, i: nat)
    requires i < |rows|
    ensures Tally(rows, key)[key(rows[i])] > 0
  {
    var keys := seq(|rows|, i requires 0 <= i < |rows| => key(rows[i]));
    assert keys[i] in keys;
  }

  // ---------- rows ----------

  datatype Json = Null | Num(value: real) | Text(text: string) | Arr(items: seq<Json>)
                | Obj(fields: map<string, Json>)

  datatype Accepted = Accepted(id: string, kind: string, value: Json, startKey: string, version: string)

  datatype Start = Start(key: string, run: string)

  datatype Run = Run(id: string, status: string, version: string, input: Json, output: Json)

  datatype Job = Job(id: string, run: string, status: string)

  datatype Step = Step(id: string, run: string, node: string, status: string, output: Json)

  datatype Attempt = Attempt(step: string, status: string)

  datatype Effect = Effect(key: string, step: string, request: Json, status: string, result: Json)

  datatype Data = Data(
    starts: seq<Start>, runs: seq<Run>, jobs: seq<Job>, steps: seq<Step>,
    attempts: seq<Attempt>, effects: seq<Effect>)

  function AcceptedId(row: Accepted): string { row.id }
  function StartKey(row: Accepted): string { row.startKey }
  function StartRowKey(row: Start): string { row.key }
  function RunId(row: Run): string { row.id }
  function JobId(row: Job): string { row.id }
  function JobRun(row: Job): string { row.run }
  function StepId(row: Step): string { row.id }
  function AttemptStep(row: Attempt): string { row.step }
  function EffectKey(row: Effect): string { row.key }

  datatype Mismatch =
    | RunIdentity | StartReceipt | NoncompletedRuns | UnsettledJobs | AttemptOrStep
    | SinkLedger | IncorrectEffect | MissingOrDuplicateEffects | PinnedInput
    | ParallelOutput | ConditionOutput

  datatype Report = Report(passed: bool, errors: set<Mismatch>) | Raised

  function Body(value: Json): Json {
    Obj(map["value" := value])
  }

  function Expected(a: seq<Accepted>): map<string, Accepted> {
    Index(a, AcceptedId)
  }

  function Runs(d: Data): map<string, Run> {
    Index(d.runs, RunId)
  }

  function Steps(d: Data): map<string, Step> {
    Index(d.steps, StepId)
  }

  function Effects(d: Data): map<string, Effect> {
    Index(d.effects, EffectKey)
  }

  function Receipts(d: Data): map<string, string> {
    var rows := Index(d.starts, StartRowKey);
    map k | k in rows :: rows[k].run
  }

  function Issued(a: seq<Accepted>): map<string, string> {
    var rows := Index(a, StartKey);
    map k | k in rows :: rows[k].id
  }

  function IsSink(row: Accepted): bool {
    row.kind == "sink"
  }

  function SinksOf(a: seq<Accepted>): seq<Accepted> {
    if a == [] then []
    else SinksOf(a[..|a| - 1]) + (if IsSink(a[|a| - 1]) then [a[|a| - 1]] else [])
  }

  function Intended(a: seq<Accepted>): map<string, Json> {
    var rows := Index(SinksOf(a), AcceptedId);
    map k | k in rows :: Body(rows[k].value)
  }

  /** `dict.get` with the default None. */
  function Get(m: map<string, Json>, k: string): Json {
    if k in m then m[k] else Null
  }

  function Quota(kind: string): Option<nat> {
    if kind == "condition" || kind == "sink" then Some(3)
    else if kind == "parallel" then Some(4)
    else None
  }

  // ---------- each check, in terms of the rows ----------

  predicate RunIdentityOk(a: seq<Accepted>, d: Data) {
    && Runs(d).Keys == Expected(a).Keys
    && Distinct(a, AcceptedId)
    && Distinct(d.runs, RunId)
  }

  predicate StartReceiptOk(a: seq<Accepted>, d: Data) {
    Receipts(d) == Issued(a) && Distinct(d.starts, StartRowKey)
  }

  predicate RunsCompleted(d: Data) {
    forall k :: k in Runs(d) ==> Runs(d)[k].status == "completed"
  }

  predicate KindsKnown(a: seq<Accepted>) {
    forall k :: k in Expected(a) ==> Quota(Expected(a)[k].kind).Some?
  }

  function JobQuota(a: seq<Accepted>, k: string): nat {
    if k in Expected(a) && Quota(Expected(a)[k].kind).Some? then Quota(Expected(a)[k].kind).value else 0
  }

  ghost predicate JobsSettled(a: seq<Accepted>, d: Data) {
    && (forall k :: Tally(d.jobs, JobRun)[k] == JobQuota(a, k))
    && (forall i :: 0 <= i < |d.jobs| ==> d.jobs[i].status == "completed")
    && Distinct(d.jobs, JobId)
  }

  predicate StepDone(d: Data, k: string) {
    k in Steps(d) && Steps(d)[k].status == "completed"
  }

  ghost predicate AttemptsMatch(a: seq<Accepted>, d: Data) {
    && (forall k :: Tally(d.attempts, AttemptStep)[k] == if StepDone(d, k) then 1 else 0)
    && (forall i :: 0 <= i < |d.attempts| ==> d.attempts[i].status == "completed")
    && (forall k :: k in Expected(a) <==> exists i :: 0 <= i < |d.steps| && d.steps[i].run == k)
    && Distinct(d.steps, StepId)
  }

  predicate LedgerMatches(d: Data, sink: map<string, Json>) {
    Distinct(d.effects, EffectKey) && Effects(d).Keys == sink.Keys
  }

  /** The run that an effect is booked to, by way of its step. */
  function Owner(d: Data, e: Effect): string {
    if e.step in Steps(d) then Steps(d)[e.step].run else "missing"
  }

  predicate EffectOk(a: seq<Accepted>, d: Data, sink: map<string, Json>, key: string, e: Effect) {
    var body := Get(Intended(a), Owner(d, e));
    && e.status in {"succeeded", "reconciled"}
    && e.request == body
    && Get(sink, key) == body
    && e.result == Obj(map["status" := Num(200.0), "body" := body])
  }

  predicate EffectsCorrect(a: seq<Accepted>, d: Data, sink: map<string, Json>) {
    forall key :: key in Effects(d) ==> EffectOk(a, d, sink, key, Effects(d)[key])
  }

  function OwnedBy(d: Data, keys: set<string>, owner: string): set<string>
    requires keys <= Effects(d).Keys
  {
    set key | key in keys && Owner(d, Effects(d)[key]) == owner
  }

  ghost predicate EffectsOnce(a: seq<Accepted>, d: Data, conflicts: int) {
    && (forall k :: |OwnedBy(d, Effects(d).Keys, k)| == if k in Intended(a) then 1 else 0)
    && conflicts == 0
  }

  function RunOf(d: Data, k: string): Option<Run> {
    if k in Runs(d) then Some(Runs(d)[k]) else None
  }

  /** `input["payload"]["arguments"]`, each absent level counting as an empty object;
      a level that is not an object raises. */
  function Arguments(run: Option<Run>): Option<Json> {
    var input := if run.Some? then run.value.input else Obj(map[]);
    if !input.Obj? then None
    else
      var payload := if "payload" in input.fields then input.fields["payload"] else Obj(map[]);
      if !payload.Obj? then None else Some(Get(payload.fields, "arguments"))
  }

  predicate InputOk(item: Accepted, run: Option<Run>) {
    var version := if run.Some? then run.value.version else "None";
    && version == item.version
    && if item.kind == "sink" then Arguments(run) == Some(Body(item.value))
       else run.Some? && run.value.input == Body(item.value)
  }

  predicate ParallelOk(item: Accepted, run: Option<Run>) {
    item.kind == "parallel" ==>
      run.Some? && run.value.output == Obj(map["left" := item.value, "right" := item.value])
  }

  /** The step row that the run's table of steps ends up with for a node. */
  function StepAt(steps: seq<Step>, run: string, node: string): Option<Step> {
    if steps == [] then None
    else
      var last := steps[|steps| - 1];
      if last.run == run && last.node == node then Some(last)
      else StepAt(steps[..|steps| - 1], run, node)
  }

  predicate ConditionOk(item: Accepted, d: Data) {
    item.kind == "condition" && item.value.Num? ==>
      var positive := item.value.value >= 0.0;
      var chosen := StepAt(d.steps, item.id, if positive then "positive" else "negative");
      var other := StepAt(d.steps, item.id, if positive then "negative" else "positive");
      && chosen.Some? && chosen.value.output == Body(item.value)
      && other.Some? && other.value.status == "skipped"
  }

  ghost predicate Holds(check: Mismatch, a: seq<Accepted>, d: Data, sink: map<string, Json>, conflicts: int) {
    match check
    case RunIdentity => RunIdentityOk(a, d)
    case StartReceipt => StartReceiptOk(a, d)
    case NoncompletedRuns => RunsCompleted(d)
    case UnsettledJobs => JobsSettled(a, d)
    case AttemptOrStep => AttemptsMatch(a, d)
    case SinkLedger => LedgerMatches(d, sink)
    case IncorrectEffect => EffectsCorrect(a, d, sink)
    case MissingOrDuplicateEffects => EffectsOnce(a, d, conflicts)
    case _ => forall k :: k in Expected(a) ==> ItemOk(check, Expected(a)[k], d)
  }

  /** The checks that look at one accepted run. */
  predicate ItemOk(check: Mismatch, item: Accepted, d: Data) {
    match check
    case PinnedInput => InputOk(item, RunOf(d, item.id))
    case ParallelOutput => ParallelOk(item, RunOf(d, item.id))
    case ConditionOutput => ConditionOk(item, d)
    case _ => true
  }

  /** An accepted row of an unknown kind, a sink run whose input is not made of objects, or
      a condition value that is not a number stops the checker with an exception. */
  predicate Comparable(d: Data, item: Accepted) {
    && Quota(item.kind).Some?
    && (item.kind == "sink" ==> Arguments(RunOf(d, item.id)).Some?)
    && (item.kind == "condition" ==> item.value.Num?)
  }

  predicate Answers(a: seq<Accepted>, d: Data) {
    forall k :: k in Expected(a) ==> Comparable(d, Expected(a)[k])
  }

  // ---------- the checker ----------

  /** The jobs each accepted run must have, or nothing for a kind that is not known. */
  method JobQuotas(a: seq<Accepted>, expected: map<string, Accepted>) returns (quotas: Option<multiset<string>>)
    requires expected == Expected(a)
    ensures quotas.Some? <==> KindsKnown(a)
    ensures quotas.Some? ==> forall k :: quotas.value[k] == JobQuota(a, k)
  {
    var todo, counts := expected.Keys, multiset{};
    while todo != {}
      invariant todo <= expected.Keys
      invariant forall k :: k in expected && k !in todo ==> Quota(expected[k].kind).Some?
      invariant forall k :: counts[k] == if k in expected && k !in todo then Quota(expected[k].kind).value else 0
      decreases |todo|
    {
      var k :| k in todo;
      var quota := Quota(expected[k].kind);
      if quota.None? { return None; }
      counts := counts[k := quota.value];
      todo := todo - {k};
    }
    quotas := Some(counts);
  }

  /** One attempt for every completed step. */
  method StepsDone(d: Data, steps: map<string, Step>) returns (done: multiset<string>)
    requires steps == Steps(d)
    ensures forall k :: done[k] == if StepDone(d, k) then 1 else 0
  {
    var todo := steps.Keys;
    done := multiset{};
    while todo != {}
      invariant todo <= steps.Keys
      invariant forall k :: done[k] == if k !in todo && StepDone(d, k) then 1 else 0
      decreases |todo|
    {
      var k :| k in todo;
      if steps[k].status == "completed" { done := done[k := 1]; }
      todo := todo - {k};
    }
  }

  /** The last row of each node, by run. */
  method StepsByRun(d: Data) returns (table: map<string, map<string, Step>>)
    ensures forall k :: k in table <==> exists i :: 0 <= i < |d.steps| && d.steps[i].run == k
    ensures forall k, n :: StepIn(table, k, n) == StepAt(d.steps, k, n)
  {
    table := map[];
    var i := 0;
    while i < |d.steps|
      invariant i <= |d.steps|
      invariant forall k :: k in table <==> exists j :: 0 <= j < i && d.steps[j].run == k
      invariant forall k, n :: StepIn(table, k, n) == StepAt(d.steps[..i], k, n)
    {
      var step := d.steps[i];
      assert d.steps[..i + 1][..i] == d.steps[..i];
      var own := if step.run in table then table[step.run] else map[];
      table := table[step.run := own[step.node := step]];
      i := i + 1;
    }
    assert d.steps[..i] == d.steps;
  }

  function StepIn(table: map<string, map<string, Step>>, k: string, n: string): Option<Step> {
    if k in table && n in table[k] then Some(table[k][n]) else None
  }

  lemma OneMore(d: Data, keys: set<string>, key: string, k: string)
    requires keys <= Effects(d).Keys && key in Effects(d) && key !in keys
    ensures |OwnedBy(d, keys + {key}, k)|
         == |OwnedBy(d, keys, k)| + if Owner(d, Effects(d)[key]) == k then 1 else 0
  {
    if Owner(d, Effects(d)[key]) == k {
      assert OwnedBy(d, keys + {key}, k) == OwnedBy(d, keys, k) + {key};
    } else {
      assert OwnedBy(d, keys + {key}, k) == OwnedBy(d, keys, k);
    }
  }

  /** Book every effect to the run it belongs to, and look at what it did. */
  method BookEffects(a: seq<Accepted>, d: Data, sink: map<string, Json>)
    returns (observed: multiset<string>, correct: bool)
    ensures correct <==> EffectsCorrect(a, d, sink)
    ensures forall k :: observed[k] == |OwnedBy(d, Effects(d).Keys, k)|
  {
    var steps, effects, intended := Steps(d), Effects(d), Intended(a);
    var todo := effects.Keys;
    observed, correct := multiset{}, true;
    assert forall k :: OwnedBy(d, {}, k) == {};
    while todo != {}
      invariant todo <= effects.Keys
      invariant correct <==> forall key :: key in effects && key !in todo ==> EffectOk(a, d, sink, key, effects[key])
      invariant forall k :: observed[k] == |OwnedBy(d, effects.Keys - todo, k)|
      decreases |todo|
    {
      var key :| key in todo;
      var effect := effects[key];
      var owner := if effect.step in steps then steps[effect.step].run else "missing";
      forall k
        ensures |OwnedBy(d, effects.Keys - (todo - {key}), k)|
             == |OwnedBy(d, effects.Keys - todo, k)| + if owner == k then 1 else 0
      {
        assert effects.Keys - (todo - {key}) == (effects.Keys - todo) + {key};
        OneMore(d, effects.Keys - todo, key, k);
      }
      observed := observed[owner := observed[owner] + 1];
      var body := Get(intended, owner);
      if effect.status !in {"succeeded", "reconciled"} || effect.request != body || Get(sink, key) != body
         || effect.result != Obj(map["status" := Num(200.0), "body" := body]) {
        correct := false;
      }
      todo := todo - {key};
    }
    assert effects.Keys - todo == effects.Keys;
  }

  /** Compare one accepted run with its rows. */
  method CompareItem(d: Data, item: Accepted, run: Option<Run>, table: map<string, map<string, Step>>)
    returns (faults: Option<set<Mismatch>>)
    requires Quota(item.kind).Some? && run == RunOf(d, item.id)
    requires forall n :: StepIn(table, item.id, n) == StepAt(d.steps, item.id, n)
    ensures faults.Some? <==> Comparable(d, item)
    ensures faults.Some? ==> forall check :: check in faults.value <==> !ItemOk(check, item, d)
  {
    hide StepAt, Arguments;
    var found := {};
    if item.kind == "sink" && Arguments(run).None? { return None; }
    if !InputOk(item, run) { found := found + {PinnedInput}; }
    if !ParallelOk(item, run) { found := found + {ParallelOutput}; }
    if item.kind == "condition" {
      if !item.value.Num? { return None; }
      var positive := item.value.value >= 0.0;
      var chosen := StepIn(table, item.id, if positive then "positive" else "negative");
      var other := StepIn(table, item.id, if positive then "negative" else "positive");
      if chosen.None? || chosen.value.output != Body(item.value)
         || other.None? || other.value.status != "skipped" {
        found := found + {ConditionOutput};
      }
    }
    faults := Some(found);
  }

  /** Compare every accepted run with its rows. */
  method CompareItems(a: seq<Accepted>, d: Data) returns (faults: Option<set<Mismatch>>)
    requires KindsKnown(a)
    ensures faults.Some? <==> Answers(a, d)
    ensures faults.Some? ==> forall check :: check in faults.value <==>
      exists k :: k in Expected(a) && !ItemOk(check, Expected(a)[k], d)
  {
    hide Comparable, ItemOk, StepAt, StepIn, Index;
    var expected, runs := Expected(a), Runs(d);
    ExpectedIds(a);
    var table := StepsByRun(d);
    var todo, found := expected.Keys, {};
    while todo != {}
      invariant todo <= expected.Keys
      invariant forall k :: k in expected && k !in todo ==> Comparable(d, expected[k])
      invariant forall check :: check in found <==>
        exists k :: k in expected && k !in todo && !ItemOk(check, expected[k], d)
      decreases |todo|
    {
      var k :| k in todo;
      var run := if k in runs then Some(runs[k]) else None;
      var own := CompareItem(d, expected[k], run, table);
      if own.None? { return None; }
      found := found + own.value;
      todo := todo - {k};
    }
    faults := Some(found);
  }

  lemma ExpectedIds(a: seq<Accepted>)
    ensures forall k :: k in Expected(a) ==> Expected(a)[k].id == k
  {
    IndexKeys(a, AcceptedId);
  }

  method CheckRuns(a: seq<Accepted>, d: Data) returns (identity: bool, receipts: bool, completed: bool)
    ensures identity <==> RunIdentityOk(a, d)
    ensures receipts <==> StartReceiptOk(a, d)
    ensures completed <==> RunsCompleted(d)
  {
    hide Index, Distinct, Issued, Receipts;
    var runs, expected := Runs(d), Expected(a);
    Sizes(a, d);
    identity := runs.Keys == expected.Keys && |expected| == |a| && |runs| == |d.runs|;
    receipts := Receipts(d) == Issued(a) && |Receipts(d)| == |d.starts|;
    completed := forall k :: k in runs ==> runs[k].status == "completed";
  }

  /** Whether the jobs are settled; nothing for an unknown kind, which raises. */
  method CheckJobs(a: seq<Accepted>, d: Data) returns (ok: Option<bool>)
    ensures ok.Some? <==> KindsKnown(a)
    ensures ok.Some? ==> (ok.value <==> JobsSettled(a, d))
  {
    hide Index, Distinct, Tally;
    Sizes(a, d);
    var quotas := JobQuotas(a, Expected(a));
    if quotas.None? { return None; }
    var settled := forall i :: 0 <= i < |d.jobs| ==> d.jobs[i].status == "completed";
    ok := Some(Tally(d.jobs, JobRun) == quotas.value && settled && |Index(d.jobs, JobId)| == |d.jobs|);
  }

  method CheckAttempts(a: seq<Accepted>, d: Data) returns (ok: bool)
    ensures ok <==> AttemptsMatch(a, d)
  {
    hide Index, Distinct, Tally, StepDone, StepAt;
    Sizes(a, d);
    var done := StepsDone(d, Steps(d));
    var table := StepsByRun(d);
    var settled := forall i :: 0 <= i < |d.attempts| ==> d.attempts[i].status == "completed";
    ok := Tally(d.attempts, AttemptStep) == done && settled && table.Keys == Expected(a).Keys
          && |Steps(d)| == |d.steps|;
  }

  method CheckEffects(a: seq<Accepted>, d: Data, sink: map<string, Json>, conflicts: int)
    returns (ledger: bool, correct: bool, once: bool)
    ensures ledger <==> LedgerMatches(d, sink)
    ensures correct <==> EffectsCorrect(a, d, sink)
    ensures once <==> EffectsOnce(a, d, conflicts)
  {
    hide Index, Distinct, EffectOk, OwnedBy, Intended;
    var effects := Effects(d);
    Sizes(a, d);
    ledger := |effects| == |d.effects| && effects.Keys == sink.Keys;
    var observed;
    observed, correct := BookEffects(a, d, sink);
    var intended := multiset(Intended(a).Keys);
    assert forall k :: intended[k] == if k in Intended(a) then 1 else 0;
    once := observed == intended && conflicts == 0;
  }

  lemma UnknownKind(a: seq<Accepted>, d: Data)
    requires Answers(a, d)
    ensures KindsKnown(a)
  {
    hide Index, Arguments;
  }

  /** The report names exactly the checks that do not hold. */
  method Reconcile(a: seq<Accepted>, d: Data, sink: map<string, Json>, conflicts: int) returns (r: Report)
    ensures r.Raised? <==> !Answers(a, d)
    ensures r.Report? ==>
      && (forall check :: check in r.errors <==> !Holds(check, a, d, sink, conflicts))
      && (r.passed <==> Reconciled(a, d, sink, conflicts))
  {
    hide *;
    var identity, receipts, completed := CheckRuns(a, d);
    var errors := Unless(identity, RunIdentity) + Unless(receipts, StartReceipt)
                  + Unless(completed, NoncompletedRuns);
    var jobs := CheckJobs(a, d);
    if jobs.None? {
      if Answers(a, d) { UnknownKind(a, d); }
      return Raised;
    }
    var attempts := CheckAttempts(a, d);
    var ledger, correct, once := CheckEffects(a, d, sink, conflicts);
    errors := errors + Unless(jobs.value, UnsettledJobs) + Unless(attempts, AttemptOrStep)
              + Unless(ledger, SinkLedger) + Unless(correct, IncorrectEffect)
              + Unless(once, MissingOrDuplicateEffects);
    var faults := CompareItems(a, d);
    if faults.None? { return Raised; }
    errors := errors + faults.value;
    forall check ensures check in errors <==> !Holds(check, a, d, sink, conflicts) {
      Named(a, d, sink, conflicts, check);
      Separate(identity, receipts, completed, jobs.value, attempts, ledger, correct, once, check);
    }
    ReconciledIs(a, d, sink, conflicts);
    assert errors == {} <==> forall check :: check !in errors;
    r := Report(errors == {}, errors);
  }

  lemma ReconciledIs(a: seq<Accepted>, d: Data, sink: map<string, Json>, conflicts: int)
    ensures Reconciled(a, d, sink, conflicts) <==>
      KindsKnown(a) && forall check :: Holds(check, a, d, sink, conflicts)
  { }

  function Unless(ok: bool, check: Mismatch): set<Mismatch> {
    if ok then {} else {check}
  }

  lemma Separate(b0: bool, b1: bool, b2: bool, b3: bool, b4: bool, b5: bool, b6: bool, b7: bool, check: Mismatch)
    ensures check in Unless(b0, RunIdentity) + Unless(b1, StartReceipt) + Unless(b2, NoncompletedRuns)
                     + Unless(b3, UnsettledJobs) + Unless(b4, AttemptOrStep) + Unless(b5, SinkLedger)
                     + Unless(b6, IncorrectEffect) + Unless(b7, MissingOrDuplicateEffects)
      <==> match check
           case RunIdentity => !b0
           case StartReceipt => !b1
           case NoncompletedRuns => !b2
           case UnsettledJobs => !b3
           case AttemptOrStep => !b4
           case SinkLedger => !b5
           case IncorrectEffect => !b6
           case MissingOrDuplicateEffects => !b7
           case _ => false
  { }

  lemma Named(a: seq<Accepted>, d: Data, sink: map<string, Json>, conflicts: int, check: Mismatch)
    ensures match check
      case RunIdentity => Holds(check, a, d, sink, conflicts) == RunIdentityOk(a, d)
      case StartReceipt => Holds(check, a, d, sink, conflicts) == StartReceiptOk(a, d)
      case NoncompletedRuns => Holds(check, a, d, sink, conflicts) == RunsCompleted(d)
      case UnsettledJobs => Holds(check, a, d, sink, conflicts) == JobsSettled(a, d)
      case AttemptOrStep => Holds(check, a, d, sink, conflicts) == AttemptsMatch(a, d)
      case SinkLedger => Holds(check, a, d, sink, conflicts) == LedgerMatches(d, sink)
      case IncorrectEffect => Holds(check, a, d, sink, conflicts) == EffectsCorrect(a, d, sink)
      case MissingOrDuplicateEffects => Holds(check, a, d, sink, conflicts) == EffectsOnce(a, d, conflicts)
      case _ => true
    ensures check in {PinnedInput, ParallelOutput, ConditionOutput} ==>
      Holds(check, a, d, sink, conflicts)
        == !(exists k :: k in Expected(a) && !ItemOk(check, Expected(a)[k], d))
    ensures check !in {PinnedInput, ParallelOutput, ConditionOutput} ==>
      !(exists k :: k in Expected(a) && !ItemOk(check, Expected(a)[k], d))
  {
    hide RunIdentityOk, StartReceiptOk, RunsCompleted, JobsSettled, AttemptsMatch, LedgerMatches,
         EffectsCorrect, EffectsOnce, InputOk, ParallelOk, ConditionOk, Index;
  }

  /** A dictionary is shorter than its list exactly when a key repeats. */
  lemma Sizes(a: seq<Accepted>, d: Data)
    ensures |Expected(a)| == |a| <==> Distinct(a, AcceptedId)
    ensures |Runs(d)| == |d.runs| <==> Distinct(d.runs, RunId)
    ensures |Receipts(d)| == |d.starts| <==> Distinct(d.starts, StartRowKey)
    ensures |Index(d.jobs, JobId)| == |d.jobs| <==> Distinct(d.jobs, JobId)
    ensures |Steps(d)| == |d.steps| <==> Distinct(d.steps, StepId)
    ensures |Effects(d)| == |d.effects| <==> Distinct(d.effects, EffectKey)
  {
    IndexSize(a, AcceptedId);
    IndexSize(d.runs, RunId);
    IndexSize(d.starts, StartRowKey);
    IndexSize(d.jobs, JobId);
    IndexSize(d.steps, StepId);
    IndexSize(d.effects, EffectKey);
    assert Receipts(d).Keys == Index(d.starts, StartRowKey).Keys;
    assert |Receipts(d)| == |Receipts(d).Keys|;
    assert |Index(d.starts, StartRowKey)| == |Index(d.starts, StartRowKey).Keys|;
  }

  // ---------- what a report without errors means ----------

  ghost predicate Reconciled(a: seq<Accepted>, d: Data, sink: map<string, Json>, conflicts: int) {
    KindsKnown(a) && forall check :: Holds(check, a, d, sink, conflicts)
  }

  lemma AllHold(a: seq<Accepted>, d: Data, sink: map<string, Json>, conflicts: int)
    requires Reconciled(a, d, sink, conflicts)
    ensures KindsKnown(a) && RunIdentityOk(a, d) && StartReceiptOk(a, d) && RunsCompleted(d)
    ensures JobsSettled(a, d) && AttemptsMatch(a, d) && LedgerMatches(d, sink)
    ensures EffectsCorrect(a, d, sink) && EffectsOnce(a, d, conflicts)
  {
    hide RunIdentityOk, StartReceiptOk, RunsCompleted, JobsSettled, AttemptsMatch, LedgerMatches,
         EffectsCorrect, EffectsOnce, ItemOk, KindsKnown;
    assert Holds(RunIdentity, a, d, sink, conflicts) && Holds(StartReceipt, a, d, sink, conflicts);
    assert Holds(NoncompletedRuns, a, d, sink, conflicts) && Holds(UnsettledJobs, a, d, sink, conflicts);
    assert Holds(AttemptOrStep, a, d, sink, conflicts) && Holds(SinkLedger, a, d, sink, conflicts);
    assert Holds(IncorrectEffect, a, d, sink, conflicts);
    assert Holds(MissingOrDuplicateEffects, a, d, sink, conflicts);
  }

  predicate HasRun(d: Data, id: string) {
    exists j :: 0 <= j < |d.runs| && d.runs[j].id == id
  }

  predicate IsAccepted(a: seq<Accepted>, id: string) {
    exists i :: 0 <= i < |a| && a[i].id == id
  }

  /** Every accepted run has exactly one run row, there are no others, and all completed. */
  lemma RunsMatchOneToOne(a: seq<Accepted>, d: Data)
    requires RunIdentityOk(a, d) && RunsCompleted(d)
    ensures |d.runs| == |a|
    ensures forall i :: 0 <= i < |a| ==> HasRun(d, a[i].id)
    ensures forall j :: 0 <= j < |d.runs| ==> d.runs[j].status == "completed" && IsAccepted(a, d.runs[j].id)
    ensures forall j, k :: 0 <= j < k < |d.runs| ==> d.runs[j].id != d.runs[k].id
    ensures forall i, k :: 0 <= i < k < |a| ==> a[i].id != a[k].id
  {
    hide Index;
    IndexSize(a, AcceptedId);
    IndexSize(d.runs, RunId);
    assert |Runs(d).Keys| == |Expected(a).Keys|;
    forall i | 0 <= i < |a| ensures HasRun(d, a[i].id) {
      Present(a, AcceptedId, i);
      var j := Lookup(d.runs, RunId, a[i].id);
    }
    forall j | 0 <= j < |d.runs| ensures d.runs[j].status == "completed" && IsAccepted(a, d.runs[j].id) {
      Present(d.runs, RunId, j);
      var i := Lookup(a, AcceptedId, d.runs[j].id);
    }
    forall j, k | 0 <= j < k < |d.runs| ensures d.runs[j].id != d.runs[k].id {
      assert RunId(d.runs[j]) != RunId(d.runs[k]);
    }
    DistinctIds(a);
  }

  lemma DistinctIds(a: seq<Accepted>)
    requires Distinct(a, AcceptedId)
    ensures forall i, k :: 0 <= i < k < |a| ==> a[i].id != a[k].id
  {
    forall i, k | 0 <= i < k < |a| ensures a[i].id != a[k].id {
      assert AcceptedId(a[i]) != AcceptedId(a[k]);
    }
  }

  function Kinds(a: seq<Accepted>, kind: string): nat {
    if a == [] then 0
    else Kinds(a[..|a| - 1], kind) + if a[|a| - 1].kind == kind then 1 else 0
  }

  lemma {:induction false} QuotaTotal(a: seq<Accepted>, counts: multiset<string>)
    requires forall i, k :: 0 <= i < k < |a| ==> a[i].id != a[k].id
    requires forall i :: 0 <= i < |a| ==> Quota(a[i].kind) == Some(counts[a[i].id])
    requires forall k :: counts[k] > 0 ==> exists i :: 0 <= i < |a| && a[i].id == k
    ensures |counts| == 3 * Kinds(a, "condition") + 4 * Kinds(a, "parallel") + 3 * Kinds(a, "sink")
  {
    if a == [] {
      assert forall k :: counts[k] == 0;
      assert counts == multiset{};
    } else {
      var last, init := a[|a| - 1], a[..|a| - 1];
      var rest := counts[last.id := 0];
      forall k | rest[k] > 0 ensures exists i :: 0 <= i < |init| && init[i].id == k {
        var i :| 0 <= i < |a| && a[i].id == k;
        assert init[i].id == k;
      }
      QuotaTotal(init, rest);
    }
  }

  /** The queue did exactly three jobs for each condition run and each sink run and four
      for each parallel run, every one of them completed. */
  lemma JobTotal(a: seq<Accepted>, d: Data)
    requires KindsKnown(a) && RunIdentityOk(a, d) && JobsSettled(a, d)
    ensures |d.jobs| == 3 * Kinds(a, "condition") + 4 * Kinds(a, "parallel") + 3 * Kinds(a, "sink")
    ensures forall i :: 0 <= i < |d.jobs| ==> d.jobs[i].status == "completed"
  {
    hide Index, Quota, Kinds;
    var counts := Tally(d.jobs, JobRun);
    forall i | 0 <= i < |a| ensures Quota(a[i].kind) == Some(counts[a[i].id]) {
      Present(a, AcceptedId, i);
    }
    forall k | counts[k] > 0 ensures exists i :: 0 <= i < |a| && a[i].id == k {
      var i := Lookup(a, AcceptedId, k);
    }
    DistinctIds(a);
    QuotaTotal(a, counts);
  }

  /** Attempts and completed steps correspond one to one. */
  lemma AttemptsMatchOneToOne(a: seq<Accepted>, d: Data)
    requires AttemptsMatch(a, d)
    ensures forall i :: 0 <= i < |d.attempts| ==>
      d.attempts[i].status == "completed"
      && exists j :: 0 <= j < |d.steps| && d.steps[j].id == d.attempts[i].step && d.steps[j].status == "completed"
    ensures forall j :: 0 <= j < |d.steps| && d.steps[j].status == "completed" ==>
      exists i :: 0 <= i < |d.attempts| && d.attempts[i].step == d.steps[j].id
    ensures forall i, k :: 0 <= i < k < |d.attempts| ==> d.attempts[i].step != d.attempts[k].step
  {
    hide Index, Tally;
    forall i | 0 <= i < |d.attempts|
      ensures exists j :: 0 <= j < |d.steps| && d.steps[j].id == d.attempts[i].step && d.steps[j].status == "completed"
      ensures forall k :: 0 <= k < |d.attempts| && d.attempts[k].step == d.attempts[i].step ==> k == i
    {
      Counted(d.attempts, AttemptStep, i);
      var id := AttemptStep(d.attempts[i]);
      assert StepDone(d, id);
      var j := Lookup(d.steps, StepId, id);
      var only := CountedOnce(d.attempts, AttemptStep, id);
      assert forall k :: 0 <= k < |d.attempts| && d.attempts[k].step == id ==> AttemptStep(d.attempts[k]) == id;
    }
    forall j | 0 <= j < |d.steps| && d.steps[j].status == "completed"
      ensures exists i :: 0 <= i < |d.attempts| && d.attempts[i].step == d.steps[j].id
    {
      Present(d.steps, StepId, j);
      assert StepDone(d, d.steps[j].id);
      var i := CountedOnce(d.attempts, AttemptStep, d.steps[j].id);
      assert AttemptStep(d.attempts[i]) == d.steps[j].id;
    }
  }

  lemma {:induction false} SinkRows(a: seq<Accepted>)
    ensures forall row :: row in SinksOf(a) <==> row in a && row.kind == "sink"
  {
    if a != [] {
      SinkRows(a[..|a| - 1]);
      assert a == a[..|a| - 1] + [a[|a| - 1]];
    }
  }

  /** With distinct ids, the intended effects are those of the accepted sink runs. */
  lemma IntendedRows(a: seq<Accepted>)
    requires forall i, k :: 0 <= i < k < |a| ==> a[i].id != a[k].id
    ensures forall i :: 0 <= i < |a| && a[i].kind == "sink" ==>
      a[i].id in Intended(a) && Intended(a)[a[i].id] == Body(a[i].value)
    ensures forall k :: k in Intended(a) ==> exists i :: 0 <= i < |a| && a[i].kind == "sink" && a[i].id == k
  {
    var rows := Index(SinksOf(a), AcceptedId);
    SinkRows(a);
    IndexKeys(SinksOf(a), AcceptedId);
    forall i | 0 <= i < |a| && a[i].kind == "sink"
      ensures a[i].id in Intended(a) && Intended(a)[a[i].id] == Body(a[i].value)
    {
      assert a[i] in SinksOf(a);
      var j :| 0 <= j < |SinksOf(a)| && SinksOf(a)[j] == a[i];
      assert AcceptedId(SinksOf(a)[j]) in rows;
      var k :| 0 <= k < |a| && a[k] == rows[a[i].id];
      assert AcceptedId(a[k]) == a[i].id;
    }
    forall k | k in Intended(a) ensures exists i :: 0 <= i < |a| && a[i].kind == "sink" && a[i].id == k {
      var i :| 0 <= i < |a| && a[i] == rows[k];
      assert AcceptedId(a[i]) == k;
    }
  }

  lemma OnlyOne(s: set<string>, x: string)
    requires x in s && |s| == 1
    ensures s == {x}
  {
    assert |s - {x}| == 0;
  }

  /** Every accepted sink run has exactly one effect row, booked through a step of that run,
      and the sink holds the intended body under its key.  (An effect whose step is unknown
      is booked to the name "missing", which no generated id equals.) */
  lemma EffectsMatchOneToOne(a: seq<Accepted>, d: Data, sink: map<string, Json>, conflicts: int, i: nat)
    returns (e: nat)
    requires Distinct(a, AcceptedId) && LedgerMatches(d, sink)
    requires EffectsCorrect(a, d, sink) && EffectsOnce(a, d, conflicts)
    requires i < |a| && a[i].kind == "sink"
    ensures e < |d.effects| && Owner(d, d.effects[e]) == a[i].id
    ensures (exists j :: 0 <= j < |d.steps| && d.steps[j].id == d.effects[e].step && d.steps[j].run == a[i].id)
            || a[i].id == "missing"
    ensures d.effects[e].request == Body(a[i].value)
    ensures d.effects[e].key in sink && sink[d.effects[e].key] == Body(a[i].value)
    ensures forall f :: 0 <= f < |d.effects| && Owner(d, d.effects[f]) == a[i].id ==> f == e
  {
    hide Index, Intended;
    DistinctIds(a);
    IntendedRows(a);
    var owned := OwnedBy(d, Effects(d).Keys, a[i].id);
    assert |owned| == 1;
    var key :| key in owned;
    OnlyOne(owned, key);
    e := Lookup(d.effects, EffectKey, key);
    assert EffectOk(a, d, sink, key, Effects(d)[key]);
    if d.effects[e].step in Steps(d) { var j := Lookup(d.steps, StepId, d.effects[e].step); }
    forall f | 0 <= f < |d.effects| && Owner(d, d.effects[f]) == a[i].id ensures f == e {
      Present(d.effects, EffectKey, f);
      assert d.effects[f].key in owned;
    }
  }

  /** Every effect row belongs to an accepted sink run, and the sink holds nothing else. */
  lemma NoForeignEffect(a: seq<Accepted>, d: Data, sink: map<string, Json>, conflicts: int, e: nat)
    returns (i: nat)
    requires Distinct(a, AcceptedId) && LedgerMatches(d, sink) && EffectsOnce(a, d, conflicts)
    requires e < |d.effects|
    ensures i < |a| && a[i].kind == "sink" && a[i].id == Owner(d, d.effects[e])
    ensures forall key :: key in sink <==> exists f :: 0 <= f < |d.effects| && d.effects[f].key == key
  {
    hide Index, Intended;
    DistinctIds(a);
    IntendedRows(a);
    Present(d.effects, EffectKey, e);
    var owner := Owner(d, d.effects[e]);
    assert d.effects[e].key in OwnedBy(d, Effects(d).Keys, owner);
    assert |OwnedBy(d, Effects(d).Keys, owner)| > 0;
    i :| 0 <= i < |a| && a[i].kind == "sink" && a[i].id == owner;
    forall key | key in sink ensures exists f :: 0 <= f < |d.effects| && d.effects[f].key == key {
      var f := Lookup(d.effects, EffectKey, key);
    }
    forall f | 0 <= f < |d.effects| ensures d.effects[f].key in sink {
      Present(d.effects, EffectKey, f);
    }
  }

  /** An accepted run has a start receipt that carries its key and its id. */
  predicate HasReceipt(d: Data, row: Accepted) {
    exists s :: 0 <= s < |d.starts| && d.starts[s] == Start(row.startKey, row.id)
  }

  /** The receipt check compares dictionaries by start key, so it accounts for every
      accepted run exactly when no two accepted runs share a start key. */
  lemma ReceiptsCoverDistinctKeys(a: seq<Accepted>, d: Data)
    requires StartReceiptOk(a, d) && Distinct(a, AcceptedId)
    ensures (forall i :: 0 <= i < |a| ==> HasReceipt(d, a[i])) <==> Distinct(a, StartKey)
  {
    hide Index;
    var issued, kept := Index(a, StartKey), Index(d.starts, StartRowKey);
    IndexKeys(a, StartKey);
    IndexSize(a, StartKey);
    IndexKeys(d.starts, StartRowKey);
    if Distinct(a, StartKey) {
      forall i | 0 <= i < |a| ensures HasReceipt(d, a[i]) {
        var key := StartKey(a[i]);
        assert key in Issued(a) && Issued(a)[key] == a[i].id;
        assert key in Receipts(d) && kept[key].run == a[i].id;
        var s :| 0 <= s < |d.starts| && d.starts[s] == kept[key];
        assert StartRowKey(d.starts[s]) == key;
        assert d.starts[s] == Start(a[i].startKey, a[i].id);
      }
    }
    if forall i :: 0 <= i < |a| ==> HasReceipt(d, a[i]) {
      forall i, k | 0 <= i < k < |a| ensures StartKey(a[i]) != StartKey(a[k]) {
        assert HasReceipt(d, a[i]) && HasReceipt(d, a[k]);
        var s :| 0 <= s < |d.starts| && d.starts[s] == Start(a[i].startKey, a[i].id);
        var r :| 0 <= r < |d.starts| && d.starts[r] == Start(a[k].startKey, a[k].id);
        assert AcceptedId(a[i]) != AcceptedId(a[k]);
        if s < r { assert StartRowKey(d.starts[s]) != StartRowKey(d.starts[r]); }
        if r < s { assert StartRowKey(d.starts[r]) != StartRowKey(d.starts[s]); }
      }
    }
  }

  // ---------- what a passing report says, all in all ----------

  /** Effect `e` is the one of this sink run, and the sink holds what was intended. */
  predicate EffectOf(d: Data, sink: map<string, Json>, row: Accepted, e: nat) {
    && e < |d.effects| && Owner(d, d.effects[e]) == row.id
    && d.effects[e].request == Body(row.value)
    && d.effects[e].key in sink && sink[d.effects[e].key] == Body(row.value)
    && forall f :: 0 <= f < |d.effects| && Owner(d, d.effects[f]) == row.id ==> f == e
  }

  predicate AttemptOf(d: Data, step: Step, i: nat) {
    i < |d.attempts| && d.attempts[i].step == step.id && d.attempts[i].status == "completed"
    && forall k :: 0 <= k < |d.attempts| && d.attempts[k].step == step.id ==> k == i
  }

  predicate IsDone(d: Data, step: string) {
    exists j :: 0 <= j < |d.steps| && d.steps[j].id == step && d.steps[j].status == "completed"
  }

  predicate IsSinkRun(a: seq<Accepted>, id: string) {
    exists i :: 0 <= i < |a| && a[i].kind == "sink" && a[i].id == id
  }

  /** The run row of an accepted run has its version, its input, and for a parallel run both
      branches' output. */
  predicate RunFor(d: Data, row: Accepted, j: nat) {
    && j < |d.runs| && d.runs[j].id == row.id
    && d.runs[j].status == "completed" && d.runs[j].version == row.version
    && (row.kind != "sink" ==> d.runs[j].input == Body(row.value))
    && (row.kind == "sink" ==> Arguments(Some(d.runs[j])) == Some(Body(row.value)))
    && (row.kind == "parallel" ==> d.runs[j].output == Obj(map["left" := row.value, "right" := row.value]))
  }

  lemma RunOfRow(a: seq<Accepted>, d: Data, i: nat) returns (j: nat)
    requires RunIdentityOk(a, d) && RunsCompleted(d) && i < |a|
    requires forall k :: k in Expected(a) ==>
      InputOk(Expected(a)[k], RunOf(d, k)) && ParallelOk(Expected(a)[k], RunOf(d, k))
    ensures RunFor(d, a[i], j)
  {
    hide Index, Arguments;
    Present(a, AcceptedId, i);
    j := Lookup(d.runs, RunId, a[i].id);
    assert RunOf(d, a[i].id) == Some(d.runs[j]);
  }

  lemma ItemsHold(a: seq<Accepted>, d: Data, sink: map<string, Json>, conflicts: int)
    requires Reconciled(a, d, sink, conflicts)
    ensures forall k :: k in Expected(a) ==>
      InputOk(Expected(a)[k], RunOf(d, k)) && ParallelOk(Expected(a)[k], RunOf(d, k))
  {
    hide RunIdentityOk, StartReceiptOk, RunsCompleted, JobsSettled, AttemptsMatch, LedgerMatches,
         EffectsCorrect, EffectsOnce, InputOk, ParallelOk, ConditionOk, KindsKnown, Index;
    ExpectedIds(a);
    assert Holds(PinnedInput, a, d, sink, conflicts) && Holds(ParallelOutput, a, d, sink, conflicts);
    forall k | k in Expected(a)
      ensures InputOk(Expected(a)[k], RunOf(d, k)) && ParallelOk(Expected(a)[k], RunOf(d, k))
    {
      assert ItemOk(PinnedInput, Expected(a)[k], d) && ItemOk(ParallelOutput, Expected(a)[k], d);
    }
  }

  ghost predicate HasRunFor(d: Data, row: Accepted) {
    exists j: nat :: RunFor(d, row, j)
  }

  ghost predicate EveryRunFor(a: seq<Accepted>, d: Data) {
    forall i :: 0 <= i < |a| ==> HasRunFor(d, a[i])
  }

  ghost predicate EveryAttemptOf(d: Data) {
    && (forall i :: 0 <= i < |d.attempts| ==> IsDone(d, d.attempts[i].step))
    && (forall j :: 0 <= j < |d.steps| && d.steps[j].status == "completed" ==>
          exists i: nat :: AttemptOf(d, d.steps[j], i))
  }

  ghost predicate EveryEffectOf(a: seq<Accepted>, d: Data, sink: map<string, Json>) {
    && (forall i :: 0 <= i < |a| && a[i].kind == "sink" ==> exists e: nat :: EffectOf(d, sink, a[i], e))
    && (forall e :: 0 <= e < |d.effects| ==> IsSinkRun(a, Owner(d, d.effects[e])))
    && |sink| == |d.effects|
  }

  lemma EveryAttempt(a: seq<Accepted>, d: Data)
    requires AttemptsMatch(a, d)
    ensures EveryAttemptOf(d)
  {
    hide Index, Tally, AttemptsMatch;
    AttemptsMatchOneToOne(a, d);
    forall j | 0 <= j < |d.steps| && d.steps[j].status == "completed"
      ensures exists i: nat :: AttemptOf(d, d.steps[j], i)
    {
      var i :| 0 <= i < |d.attempts| && d.attempts[i].step == d.steps[j].id;
      assert AttemptOf(d, d.steps[j], i);
    }
  }

  lemma EveryEffect(a: seq<Accepted>, d: Data, sink: map<string, Json>, conflicts: int)
    requires Distinct(a, AcceptedId) && LedgerMatches(d, sink)
    requires EffectsCorrect(a, d, sink) && EffectsOnce(a, d, conflicts)
    ensures EveryEffectOf(a, d, sink)
  {
    hide Index, Owner, EffectsCorrect, EffectsOnce, Distinct;
    IndexSize(d.effects, EffectKey);
    assert |sink| == |sink.Keys| && |Effects(d)| == |Effects(d).Keys|;
    forall i | 0 <= i < |a| && a[i].kind == "sink" ensures exists e: nat :: EffectOf(d, sink, a[i], e) {
      var e := EffectsMatchOneToOne(a, d, sink, conflicts, i);
      assert EffectOf(d, sink, a[i], e);
    }
    forall e | 0 <= e < |d.effects| ensures IsSinkRun(a, Owner(d, d.effects[e])) {
      var i := NoForeignEffect(a, d, sink, conflicts, e);
    }
  }

  lemma IdsDistinct(a: seq<Accepted>, d: Data)
    requires RunIdentityOk(a, d)
    ensures Distinct(a, AcceptedId)
  { }

  lemma RunsAccounted(a: seq<Accepted>, d: Data)
    requires RunIdentityOk(a, d) && RunsCompleted(d)
    requires forall k :: k in Expected(a) ==>
      InputOk(Expected(a)[k], RunOf(d, k)) && ParallelOk(Expected(a)[k], RunOf(d, k))
    ensures |d.runs| == |a| && EveryRunFor(a, d)
  {
    hide RunFor, Index, InputOk, ParallelOk, RunIdentityOk, RunsCompleted;
    RunsMatchOneToOne(a, d);
    forall i | 0 <= i < |a| ensures HasRunFor(d, a[i]) {
      var j := RunOfRow(a, d, i);
      assert RunFor(d, a[i], j);
    }
  }

  /** A passing report accounts for everything, in terms of the rows themselves: runs are the
      accepted ones with their pinned version and input, the queue did the expected number of
      jobs, every completed step has exactly one attempt and no other attempt exists, every
      sink run had exactly one effect and the sink holds nothing else, and every run has its
      receipt exactly when start keys are distinct. */
  lemma PassingReport(a: seq<Accepted>, d: Data, sink: map<string, Json>, conflicts: int)
    requires Reconciled(a, d, sink, conflicts)
    ensures |d.runs| == |a| && EveryRunFor(a, d) && EveryAttemptOf(d) && EveryEffectOf(a, d, sink)
    ensures |d.jobs| == 3 * Kinds(a, "condition") + 4 * Kinds(a, "parallel") + 3 * Kinds(a, "sink")
    ensures forall i :: 0 <= i < |d.jobs| ==> d.jobs[i].status == "completed"
    ensures (forall i :: 0 <= i < |a| ==> HasReceipt(d, a[i])) <==> Distinct(a, StartKey)
  {
    hide *;
    AllHold(a, d, sink, conflicts);
    ItemsHold(a, d, sink, conflicts);
    RunsAccounted(a, d);
    JobTotal(a, d);
    EveryAttempt(a, d);
    IdsDistinct(a, d);
    EveryEffect(a, d, sink, conflicts);
    ReceiptsCoverDistinctKeys(a, d);
  }

  // ---------- a start key that is shared ----------

  /** Two accepted condition runs under one start key, with all their rows but for one
      receipt. */
  function SharedKey(): (r: (seq<Accepted>, Data)) {
    var one := Body(Num(1.0));
    ([Accepted("r1", "condition", Num(1.0), "k", "v"), Accepted("r2", "condition", Num(1.0), "k", "v")],
     Data([Start("k", "r2")],
          [Run("r1", "completed", "v", one, one), Run("r2", "completed", "v", one, one)],
          [Job("j1", "r1", "completed"), Job("j2", "r1", "completed"), Job("j3", "r1", "completed"),
           Job("j4", "r2", "completed"), Job("j5", "r2", "completed"), Job("j6", "r2", "completed")],
          [Step("s1", "r1", "positive", "completed", one), Step("s2", "r1", "negative", "skipped", Null),
           Step("s3", "r2", "positive", "completed", one), Step("s4", "r2", "negative", "skipped", Null)],
          [Attempt("s1", "completed"), Attempt("s3", "completed")],
          []))
  }

  lemma IndexOne<K, V>(rows: seq<V>, key: V -> K, n: nat)
    requires 0 < n <= |rows|
    ensures Index(rows[..n], key) == Index(rows[..n - 1], key)[key(rows[n - 1]) := rows[n - 1]]
  {
    assert rows[..n][..n - 1] == rows[..n - 1];
  }

  lemma IndexTwo<K, V>(x: V, y: V, key: V -> K)
    ensures Index([x, y], key) == map[key(x) := x, key(y) := y]
  {
    assert [x, y][..1] == [x] && [x][..0] == [];
    assert Index([x], key) == map[key(x) := x];
  }

  lemma SharedRuns()
    ensures var (a, d) := SharedKey();
      && RunIdentityOk(a, d) && StartReceiptOk(a, d) && RunsCompleted(d) && KindsKnown(a)
      && !HasReceipt(d, a[0])
      && Expected(a) == map["r1" := a[0], "r2" := a[1]] && Runs(d) == map["r1" := d.runs[0], "r2" := d.runs[1]]
  {
    var (a, d) := SharedKey();
    IndexTwo(a[0], a[1], AcceptedId);
    IndexTwo(a[0], a[1], StartKey);
    IndexTwo(d.runs[0], d.runs[1], RunId);
    assert d.starts[..0] == [];
    assert Index(d.starts, StartRowKey) == map["k" := d.starts[0]];
    assert Issued(a) == map["k" := "r2"] == Receipts(d);
  }

  lemma TallyIs<K, V>(rows: seq<V>, key: V -> K, keys: seq<K>)
    requires |keys| == |rows| && forall i :: 0 <= i < |rows| ==> key(rows[i]) == keys[i]
    ensures Tally(rows, key) == multiset(keys)
  {
    assert seq(|rows|, i requires 0 <= i < |rows| => key(rows[i])) == keys;
  }

  lemma Names()
    ensures "r1" != "r2" && "positive" != "negative" && "condition" != "sink" && "completed" != "skipped"
    ensures "s1" != "s2" && "s1" != "s3" && "s1" != "s4" && "s2" != "s3" && "s2" != "s4" && "s3" != "s4"
  {
    assert "r1"[1] != "r2"[1] && "positive"[0] != "negative"[0];
    assert |"condition"| != |"sink"| && |"completed"| != |"skipped"|;
    assert "s1"[1] == '1' && "s2"[1] == '2' && "s3"[1] == '3' && "s4"[1] == '4';
  }

  lemma Three(x: string)
    ensures forall k :: multiset([x, x, x])[k] == if k == x then 3 else 0
  { }

  lemma SharedJobIds()
    ensures var (a, d) := SharedKey();
      Distinct(d.jobs, JobId) && forall i :: 0 <= i < |d.jobs| ==> d.jobs[i].status == "completed"
  {
    var (a, d) := SharedKey();
    var digits := "123456";
    assert forall i :: 0 <= i < |d.jobs| ==> d.jobs[i].id[1] == digits[i];
  }

  lemma SharedJobs()
    ensures var (a, d) := SharedKey(); JobsSettled(a, d)
  {
    hide Index, Tally, RunIdentityOk, StartReceiptOk, RunsCompleted, HasReceipt, Distinct;
    var (a, d) := SharedKey();
    SharedRuns();
    SharedJobIds();
    Names();
    var keys := ["r1", "r1", "r1"] + ["r2", "r2", "r2"];
    TallyIs(d.jobs, JobRun, keys);
    Three("r1");
    Three("r2");
    forall k ensures multiset(keys)[k] == JobQuota(a, k) {
      assert multiset(keys) == multiset(["r1", "r1", "r1"]) + multiset(["r2", "r2", "r2"]);
    }
  }

  lemma SharedSteps()
    ensures var (a, d) := SharedKey();
      && Steps(d) == map["s1" := d.steps[0], "s2" := d.steps[1], "s3" := d.steps[2], "s4" := d.steps[3]]
  {
    var (a, d) := SharedKey();
    IndexTwo(d.steps[0], d.steps[1], StepId);
    IndexOne(d.steps, StepId, 3);
    IndexOne(d.steps, StepId, 4);
    hide Index;
    assert d.steps[..4] == d.steps && d.steps[..2] == [d.steps[0], d.steps[1]];
  }

  lemma SharedAttempts()
    ensures var (a, d) := SharedKey(); AttemptsMatch(a, d)
  {
    hide Index, Tally, RunIdentityOk, StartReceiptOk, RunsCompleted, HasReceipt, KindsKnown;
    var (a, d) := SharedKey();
    SharedSteps();
    SharedRuns();
    Names();
    TallyIs(d.attempts, AttemptStep, ["s1", "s3"]);
    assert forall k :: multiset(["s1", "s3"])[k] == if k == "s1" || k == "s3" then 1 else 0;
    assert forall k :: StepDone(d, k) <==> k == "s1" || k == "s3";
    assert d.steps[0].run == "r1" && d.steps[2].run == "r2";
  }

  lemma SharedEffects()
    ensures var (a, d) := SharedKey();
      LedgerMatches(d, map[]) && EffectsCorrect(a, d, map[]) && EffectsOnce(a, d, 0)
  {
    var (a, d) := SharedKey();
    Names();
    var init := a[..1];
    assert init[..0] == [] && SinksOf(init) == [];
    assert SinksOf(a) == SinksOf(init);
    assert Intended(a) == map[];
    assert forall k :: OwnedBy(d, Effects(d).Keys, k) == {};
  }

  lemma StepAtOne(steps: seq<Step>, n: nat, run: string, node: string)
    requires 0 < n <= |steps|
    ensures StepAt(steps[..n], run, node) ==
      if steps[n - 1].run == run && steps[n - 1].node == node then Some(steps[n - 1])
      else StepAt(steps[..n - 1], run, node)
  {
    assert steps[..n][..n - 1] == steps[..n - 1];
  }

  lemma SharedConditions()
    ensures var (a, d) := SharedKey();
      && StepAt(d.steps, "r1", "positive") == Some(d.steps[0]) && StepAt(d.steps, "r1", "negative") == Some(d.steps[1])
      && StepAt(d.steps, "r2", "positive") == Some(d.steps[2]) && StepAt(d.steps, "r2", "negative") == Some(d.steps[3])
  {
    var (a, d) := SharedKey();
    Names();
    assert d.steps[..4] == d.steps;
    StepAtOne(d.steps, 4, "r1", "positive");
    StepAtOne(d.steps, 3, "r1", "positive");
    StepAtOne(d.steps, 2, "r1", "positive");
    StepAtOne(d.steps, 1, "r1", "positive");
    StepAtOne(d.steps, 4, "r1", "negative");
    StepAtOne(d.steps, 3, "r1", "negative");
    StepAtOne(d.steps, 2, "r1", "negative");
    StepAtOne(d.steps, 4, "r2", "positive");
    StepAtOne(d.steps, 3, "r2", "positive");
    StepAtOne(d.steps, 4, "r2", "negative");
    hide StepAt;
  }

  lemma SharedItem(k: string)
    requires var (a, d) := SharedKey(); k in Expected(a)
    ensures var (a, d) := SharedKey();
      && InputOk(Expected(a)[k], RunOf(d, k)) && ParallelOk(Expected(a)[k], RunOf(d, k))
      && ConditionOk(Expected(a)[k], d) && Comparable(d, Expected(a)[k])
  {
    hide Index, StepAt, RunIdentityOk, StartReceiptOk, RunsCompleted, KindsKnown, HasReceipt;
    SharedRuns();
    SharedConditions();
    Names();
  }

  lemma SharedAnswers()
    ensures var (a, d) := SharedKey(); Answers(a, d)
  {
    hide Index, Comparable;
    var (a, d) := SharedKey();
    forall k | k in Expected(a) ensures Comparable(d, Expected(a)[k]) { SharedItem(k); }
  }

  lemma AllOf(a: seq<Accepted>, d: Data, sink: map<string, Json>, conflicts: int)
    requires KindsKnown(a) && RunIdentityOk(a, d) && StartReceiptOk(a, d) && RunsCompleted(d)
    requires JobsSettled(a, d) && AttemptsMatch(a, d) && LedgerMatches(d, sink)
    requires EffectsCorrect(a, d, sink) && EffectsOnce(a, d, conflicts)
    requires forall k :: k in Expected(a) ==>
      && InputOk(Expected(a)[k], RunOf(d, k)) && ParallelOk(Expected(a)[k], RunOf(d, k))
      && ConditionOk(Expected(a)[k], d)
    ensures Reconciled(a, d, sink, conflicts)
  {
    hide RunIdentityOk, StartReceiptOk, RunsCompleted, JobsSettled, AttemptsMatch, LedgerMatches,
         EffectsCorrect, EffectsOnce, InputOk, ParallelOk, ConditionOk, KindsKnown, Index;
    ExpectedIds(a);
    forall check, k | k in Expected(a) ensures ItemOk(check, Expected(a)[k], d) { }
  }

  /** The whole report passes for them, although the first run has no receipt. */
  lemma SharedStartKeyPasses()
    ensures var (a, d) := SharedKey(); Answers(a, d) && Reconciled(a, d, map[], 0) && !HasReceipt(d, a[0])
  {
    hide *;
    var (a, d) := SharedKey();
    SharedRuns();
    SharedJobs();
    SharedAttempts();
    SharedEffects();
    forall k | k in Expected(a)
      ensures InputOk(Expected(a)[k], RunOf(d, k)) && ParallelOk(Expected(a)[k], RunOf(d, k))
              && ConditionOk(Expected(a)[k], d)
    { SharedItem(k); }
    SharedAnswers();
    AllOf(a, d, map[], 0);
  }
}
