/** The read model that older screens use of a durable execution.

    `Sync` copies the execution into rows it finds or creates by id, so it may be repeated
    at every commit; cost events are written once, when an attempt has ended. */
module Projection {

  datatype Option<+T> = None | Some(value: T)

  // ---------- the execution ----------

  datatype Status = Pending | Running | Waiting | Retrying | Completed | Failed | Cancelled | Skipped

  /** Token usage of an attempt, with its price per million tokens and, when the model is
      priced, its estimated cost in dollars. */
  datatype Usage = Usage(
    model: string, input: nat, output: nat, total: nat, latency: nat, cost: Option<real>,
    inputPrice: real, outputPrice: real)

  datatype Attempt = Attempt(id: nat, status: Status, usage: Option<Usage>)

  datatype Step = Step(
    id: nat, node: string, llm: bool, status: Status, iteration: nat,
    input: Option<string>, output: Option<string>, error: Option<string>, attempts: seq<Attempt>)

  datatype Approval = Approval(id: nat, status: string, payload: string, shown: string, feedback: Option<string>)

  datatype Event = Event(id: nat, entity: string, from: Option<string>, to: string)

  datatype Source = Source(
    status: Status, revision: nat, output: Option<string>,
    steps: seq<Step>, approvals: seq<Approval>, events: seq<Event>)

  // ---------- its projection ----------

  datatype AgentStep = AgentStep(
    node: string, order: nat, status: string, retries: nat,
    input: Option<string>, output: Option<string>, error: Option<string>,
    inputTokens: Option<nat>, outputTokens: Option<nat>, totalTokens: Option<nat>,
    latency: Option<nat>, cost: Option<real>)

  datatype CostEvent = CostEvent(
    step: nat, model: string, input: nat, output: nat, total: nat,
    inputCost: real, outputCost: real, cost: real)

  datatype HumanApproval = HumanApproval(status: string, edited: Option<string>, feedback: Option<string>)

  datatype WorkflowEvent = WorkflowEvent(kind: string, message: string)

  datatype Run = Run(
    status: string, output: Option<string>, totalTokens: Option<nat>, cost: Option<real>,
    latency: Option<nat>, revision: nat)

  /** Rows by id; a cost event's id is derived from its attempt's. */
  datatype Target = Target(
    run: Run, steps: map<nat, AgentStep>, costs: map<nat, CostEvent>,
    approvals: map<nat, HumanApproval>, events: map<nat, WorkflowEvent>)

  function LlmSteps(steps: seq<Step>): seq<Step> {
    if steps == [] then []
    else LlmSteps(steps[..|steps| - 1])
         + (if steps[|steps| - 1].llm then [steps[|steps| - 1]] else [])
  }

  // ---------- usage ----------

  function UsageOf(attempts: seq<Attempt>): seq<Usage> {
    if attempts == [] then []
    else
      var last := attempts[|attempts| - 1];
      UsageOf(attempts[..|attempts| - 1]) + (if last.usage.Some? then [last.usage.value] else [])
  }

  function AllUsage(rows: seq<Step>): seq<Usage> {
    if rows == [] then [] else AllUsage(rows[..|rows| - 1]) + UsageOf(rows[|rows| - 1].attempts)
  }

  function Sum(usage: seq<Usage>, f: Usage -> nat): nat {
    if usage == [] then 0 else Sum(usage[..|usage| - 1], f) + f(usage[|usage| - 1])
  }

  function InputTokens(u: Usage): nat { u.input }
  function OutputTokens(u: Usage): nat { u.output }
  function TotalTokens(u: Usage): nat { u.total }
  function Latency(u: Usage): nat { u.latency }

  /** A total, or nothing when there is nothing to add up. */
  function Total(usage: seq<Usage>, f: Usage -> nat): Option<nat> {
    if usage == [] then None else Some(Sum(usage, f))
  }

  function CostSum(usage: seq<Usage>): real {
    if usage == [] then 0.0
    else
      var last := usage[|usage| - 1];
      CostSum(usage[..|usage| - 1]) + if last.cost.Some? then last.cost.value else 0.0
  }

  predicate Priced(usage: seq<Usage>) {
    forall i :: 0 <= i < |usage| ==> usage[i].cost.Some?
  }

  function TotalCost(usage: seq<Usage>): Option<real> {
    if usage == [] || !Priced(usage) then None else Some(CostSum(usage))
  }

  // ---------- what one row is projected to ----------

  function StepStatus(s: Status): string {
    match s
    case Pending => "pending"
    case Completed => "completed"
    case Failed => "failed"
    case Cancelled => "failed"
    case Skipped => "failed"
    case _ => "running"
  }

  function RunStatus(s: Status): string {
    match s
    case Pending => "created"
    case Running => "running"
    case Waiting => "waiting_for_human"
    case Retrying => "retrying"
    case Completed => "completed"
    case Failed => "failed"
    case Cancelled => "cancelled"
    case Skipped => "skipped"
  }

  /** A step keeps the name and place it was first projected with. */
  function Projected(row: Step, order: nat, existing: Option<AgentStep>): AgentStep {
    var usage := UsageOf(row.attempts);
    AgentStep(if existing.Some? then existing.value.node else row.node,
              if existing.Some? then existing.value.order else order,
              StepStatus(row.status), row.iteration, row.input, row.output, row.error,
              Total(usage, InputTokens), Total(usage, OutputTokens), Total(usage, TotalTokens),
              Total(usage, Latency), TotalCost(usage))
  }

  /** The attempt has ended and its cost is known. */
  predicate Billable(a: Attempt) {
    a.status !in {Pending, Running} && a.usage.Some? && a.usage.value.cost.Some?
  }

  function Bill(step: nat, a: Attempt): CostEvent
    requires Billable(a)
  {
    var u := a.usage.value;
    CostEvent(step, u.model, u.input, u.output, u.total,
              u.input as real * u.inputPrice / 1000000.0, u.output as real * u.outputPrice / 1000000.0,
              u.cost.value)
  }

  function ProjectedApproval(a: Approval): HumanApproval {
    HumanApproval(a.status, if a.payload != a.shown then Some(a.payload) else None, a.feedback)
  }

  function ProjectedEvent(e: Event): WorkflowEvent {
    var kind :=
      if e.entity == "workflow_executions" && e.to in {"completed", "failed", "cancelled"}
      then "workflow_" + e.to
      else if e.entity == "workflow_executions" && e.from.None? && e.to == "pending"
      then "workflow_started" else "state_transition";
    WorkflowEvent(kind, e.entity + ": " + e.to)
  }

  function ProjectedRun(s: Source): Run {
    var usage := AllUsage(LlmSteps(s.steps));
    Run(RunStatus(s.status), s.output, Total(usage, TotalTokens), TotalCost(usage),
        Total(usage, Latency), s.revision + 1)
  }

  // ---------- the whole projection, by id ----------

  /** Primary keys. */
  predicate SourceOk(s: Source) {
    && RowsOk(LlmSteps(s.steps))
    && (forall i, k :: 0 <= i < k < |s.approvals| ==> s.approvals[i].id != s.approvals[k].id)
    && (forall i, k :: 0 <= i < k < |s.events| ==> s.events[i].id != s.events[k].id)
  }

  predicate RowsOk(rows: seq<Step>) {
    && (forall i, k :: 0 <= i < k < |rows| ==> rows[i].id != rows[k].id)
    && (forall i, k, a, b | 0 <= i < |rows| && 0 <= k < |rows| && 0 <= a < |rows[i].attempts|
          && 0 <= b < |rows[k].attempts| && rows[i].attempts[a].id == rows[k].attempts[b].id ::
          i == k && a == b)
  }

  function Lookup<V>(m: map<nat, V>, k: nat): Option<V> {
    if k in m then Some(m[k]) else None
  }

  function StepId(row: Step): nat { row.id }
  function ApprovalId(row: Approval): nat { row.id }
  function EventId(row: Event): nat { row.id }

  predicate Has<T>(rows: seq<T>, id: T -> nat, k: nat) {
    exists i :: 0 <= i < |rows| && id(rows[i]) == k
  }

  lemma HasNext<T>(rows: seq<T>, id: T -> nat, i: nat)
    requires i < |rows|
    ensures forall k :: Has(rows[..i + 1], id, k) <==> Has(rows[..i], id, k) || k == id(rows[i])
  {
    forall k: nat | Has(rows[..i], id, k) || k == id(rows[i]) ensures Has(rows[..i + 1], id, k) {
      if Has(rows[..i], id, k) {
        var j :| 0 <= j < i && id(rows[..i][j]) == k;
        assert id(rows[..i + 1][j]) == k;
      } else {
        assert id(rows[..i + 1][i]) == k;
      }
    }
    forall k: nat | Has(rows[..i + 1], id, k) ensures Has(rows[..i], id, k) || k == id(rows[i]) {
      var j :| 0 <= j < i + 1 && id(rows[..i + 1][j]) == k;
      if j < i { assert id(rows[..i][j]) == k; }
    }
  }

  predicate StepsSynced(rows: seq<Step>, t: map<nat, AgentStep>, u: map<nat, AgentStep>) {
    && (forall i :: 0 <= i < |rows| ==>
          rows[i].id in u && u[rows[i].id] == Projected(rows[i], i + 1, Lookup(t, rows[i].id)))
    && (forall k :: k in t && !Has(rows, StepId, k) ==> k in u && u[k] == t[k])
    && (forall k :: k in u ==> k in t || Has(rows, StepId, k))
  }

  /** Attempt `a` of row `i` is billed under the id `k`. */
  predicate BilledAt(rows: seq<Step>, i: nat, a: nat, k: nat) {
    i < |rows| && a < |rows[i].attempts| && Billable(rows[i].attempts[a]) && rows[i].attempts[a].id == k
  }

  ghost predicate Billed(rows: seq<Step>, k: nat) {
    exists i: nat, a: nat :: BilledAt(rows, i, a, k)
  }

  /** Existing cost events stay as they are; each billable attempt has one. */
  ghost predicate CostsSynced(rows: seq<Step>, t: map<nat, CostEvent>, u: map<nat, CostEvent>) {
    && (forall k :: k in t ==> k in u && u[k] == t[k])
    && (forall k :: k in u && k !in t ==> Billed(rows, k))
    && (forall i: nat, a: nat, k: nat :: BilledAt(rows, i, a, k) ==>
          k in u && (k !in t ==> u[k] == Bill(rows[i].id, rows[i].attempts[a])))
  }

  predicate ApprovalsSynced(rows: seq<Approval>, t: map<nat, HumanApproval>, u: map<nat, HumanApproval>) {
    && (forall i :: 0 <= i < |rows| ==> rows[i].id in u && u[rows[i].id] == ProjectedApproval(rows[i]))
    && (forall k :: k in t && !Has(rows, ApprovalId, k) ==> k in u && u[k] == t[k])
    && (forall k :: k in u ==> k in t || Has(rows, ApprovalId, k))
  }

  predicate EventsSynced(rows: seq<Event>, t: map<nat, WorkflowEvent>, u: map<nat, WorkflowEvent>) {
    && (forall k :: k in t ==> k in u && u[k] == t[k])
    && (forall i :: 0 <= i < |rows| ==>
          rows[i].id in u && (rows[i].id !in t ==> u[rows[i].id] == ProjectedEvent(rows[i])))
    && (forall k :: k in u ==> k in t || Has(rows, EventId, k))
  }

  /** `u` is the projection `t` brought up to date with the execution `s`. */
  ghost predicate Synced(s: Source, t: Target, u: Target) {
    && u.run == ProjectedRun(s)
    && StepsSynced(LlmSteps(s.steps), t.steps, u.steps)
    && CostsSynced(LlmSteps(s.steps), t.costs, u.costs)
    && ApprovalsSynced(s.approvals, t.approvals, u.approvals)
    && EventsSynced(s.events, t.events, u.events)
  }

  class ReadModel {
    var run: Run
    var steps: map<nat, AgentStep>
    var costs: map<nat, CostEvent>
    var approvals: map<nat, HumanApproval>
    var events: map<nat, WorkflowEvent>

    function Rows(): Target
      reads this
    {
      Target(run, steps, costs, approvals, events)
    }

    constructor (run: Run)
      ensures Rows() == Target(run, map[], map[], map[], map[])
    {
      this.run := run;
      steps, costs, approvals, events := map[], map[], map[], map[];
    }

    /** Write the cost events of one step's ended attempts that have none yet. */
    method BillAttempts(row: Step)
      requires forall a, b :: 0 <= a < b < |row.attempts| ==> row.attempts[a].id != row.attempts[b].id
      modifies this`costs
      ensures CostsSynced([row], old(costs), costs)
    {
      hide Bill, Billable;
      ghost var was := costs;
      var a := 0;
      while a < |row.attempts|
        invariant a <= |row.attempts|
        invariant forall k :: k in was ==> k in costs && costs[k] == was[k]
        invariant forall k :: k in costs && k !in was ==> exists b: nat :: b < a && BilledAt([row], 0, b, k)
        invariant forall b: nat, k: nat :: b < a && BilledAt([row], 0, b, k) ==>
          k in costs && (k !in was ==> costs[k] == Bill(row.id, row.attempts[b]))
      {
        var item := row.attempts[a];
        if Billable(item) && item.id !in costs {
          assert BilledAt([row], 0, a, item.id);
          costs := costs[item.id := Bill(row.id, item)];
        }
        a := a + 1;
      }
      forall i: nat, b: nat, k: nat | BilledAt([row], i, b, k)
        ensures k in costs && (k !in was ==> costs[k] == Bill([row][i].id, [row][i].attempts[b]))
      { assert i == 0 && b < a; }
    }

    /** Project the language-model steps and bill their attempts. */
    method SyncSteps(rows: seq<Step>)
      requires RowsOk(rows)
      modifies this`steps, this`costs
      ensures StepsSynced(rows, old(steps), steps) && CostsSynced(rows, old(costs), costs)
    {
      ghost var was, had := steps, costs;
      var i := 0;
      while i < |rows|
        invariant i <= |rows|
        invariant StepsSynced(rows[..i], was, steps) && CostsSynced(rows[..i], had, costs)
      {
        var row := rows[i];
        ghost var before, billed := steps, costs;
        FreshStep(rows, i, was, before);
        var existing := if row.id in steps then Some(steps[row.id]) else None;
        steps := steps[row.id := Projected(row, i + 1, existing)];
        BillAttempts(row);
        NextStep(rows, i, was, before, steps);
        NextCosts(rows, i, had, billed, costs);
        i := i + 1;
      }
      assert rows[..i] == rows;
    }

    method SyncApprovals(rows: seq<Approval>)
      requires forall i, k :: 0 <= i < k < |rows| ==> rows[i].id != rows[k].id
      modifies this`approvals
      ensures ApprovalsSynced(rows, old(approvals), approvals)
    {
      hide ProjectedApproval;
      ghost var was := approvals;
      var i := 0;
      while i < |rows|
        invariant i <= |rows|
        invariant ApprovalsSynced(rows[..i], was, approvals)
      {
        ghost var before := approvals;
        approvals := approvals[rows[i].id := ProjectedApproval(rows[i])];
        NextApproval(rows, i, was, before);
        i := i + 1;
      }
      assert rows[..i] == rows;
    }

    method SyncEvents(rows: seq<Event>)
      requires forall i, k :: 0 <= i < k < |rows| ==> rows[i].id != rows[k].id
      modifies this`events
      ensures EventsSynced(rows, old(events), events)
    {
      hide ProjectedEvent, EventsSynced;
      NoEvents(rows, events);
      ghost var was := events;
      var i := 0;
      while i < |rows|
        invariant i <= |rows|
        invariant EventsSynced(rows[..i], was, events)
      {
        NextEvent(rows, i, was, events);
        if rows[i].id !in events { events := events[rows[i].id := ProjectedEvent(rows[i])]; }
        i := i + 1;
      }
      assert rows[..i] == rows;
    }

    /** Bring the read model up to date with the execution. */
    method Sync(s: Source)
      requires SourceOk(s)
      modifies this
      ensures Synced(s, old(Rows()), Rows())
    {
      hide StepsSynced, CostsSynced, ApprovalsSynced, EventsSynced, RowsOk, Total, TotalCost, AllUsage, LlmSteps;
      var rows := LlmSteps(s.steps);
      SyncSteps(rows);
      SyncApprovals(s.approvals);
      var usage := AllUsage(rows);
      run := Run(RunStatus(s.status), s.output, Total(usage, TotalTokens), TotalCost(usage),
                 Total(usage, Latency), s.revision + 1);
      SyncEvents(s.events);
    }
  }

  lemma FreshStep(rows: seq<Step>, i: nat, was: map<nat, AgentStep>, steps: map<nat, AgentStep>)
    requires RowsOk(rows) && i < |rows| && StepsSynced(rows[..i], was, steps)
    ensures Lookup(steps, rows[i].id) == Lookup(was, rows[i].id)
  {
    assert !Has(rows[..i], StepId, rows[i].id);
  }

  lemma NewStep(rows: seq<Step>, i: nat)
    requires RowsOk(rows) && i < |rows|
    ensures forall k :: 0 <= k < i ==> rows[k].id != rows[i].id
    ensures !Has(rows[..i], StepId, rows[i].id)
  { }

  lemma NextStep(rows: seq<Step>, i: nat, was: map<nat, AgentStep>, steps: map<nat, AgentStep>,
                 next: map<nat, AgentStep>)
    requires RowsOk(rows) && i < |rows| && StepsSynced(rows[..i], was, steps)
    requires next == steps[rows[i].id := Projected(rows[i], i + 1, Lookup(was, rows[i].id))]
    ensures StepsSynced(rows[..i + 1], was, next)
  {
    hide Projected, Has, RowsOk;
    HasNext(rows, StepId, i);
    NewStep(rows, i);
    forall k | 0 <= k < i + 1
      ensures rows[..i + 1][k].id in next
      ensures next[rows[k].id] == Projected(rows[k], k + 1, Lookup(was, rows[k].id))
    {
      if k < i { assert rows[..i][k] == rows[k]; }
    }
  }

  lemma Apart(rows: seq<Approval>, i: nat)
    requires i < |rows|
    requires forall j, k :: 0 <= j < k < |rows| ==> rows[j].id != rows[k].id
    ensures !Has(rows[..i], ApprovalId, rows[i].id)
  { }

  lemma NextApproval(rows: seq<Approval>, i: nat, was: map<nat, HumanApproval>, approvals: map<nat, HumanApproval>)
    requires i < |rows| && ApprovalsSynced(rows[..i], was, approvals)
    requires forall j, k :: 0 <= j < k < |rows| ==> rows[j].id != rows[k].id
    ensures ApprovalsSynced(rows[..i + 1], was, approvals[rows[i].id := ProjectedApproval(rows[i])])
  {
    hide ProjectedApproval, Has;
    HasNext(rows, ApprovalId, i);
    assert forall k :: 0 <= k < i ==> rows[..i + 1][k] == rows[..i][k];
    Apart(rows, i);
  }

  lemma NoEvents(rows: seq<Event>, events: map<nat, WorkflowEvent>)
    ensures EventsSynced(rows[..0], events, events)
  { }

  lemma NextEvent(rows: seq<Event>, i: nat, was: map<nat, WorkflowEvent>, events: map<nat, WorkflowEvent>)
    requires i < |rows| && EventsSynced(rows[..i], was, events)
    requires forall j, k :: 0 <= j < k < |rows| ==> rows[j].id != rows[k].id
    ensures EventsSynced(rows[..i + 1], was,
      if rows[i].id in events then events else events[rows[i].id := ProjectedEvent(rows[i])])
  {
    hide ProjectedEvent, Has;
    HasNext(rows, EventId, i);
    assert forall k :: 0 <= k < i ==> rows[..i + 1][k] == rows[..i][k];
    NewEvent(rows, i);
  }

  lemma NewEvent(rows: seq<Event>, i: nat)
    requires i < |rows|
    requires forall j, k :: 0 <= j < k < |rows| ==> rows[j].id != rows[k].id
    ensures !Has(rows[..i], EventId, rows[i].id)
  { }

  lemma BilledOnce(rows: seq<Step>, i: nat, a: nat, k: nat)
    requires RowsOk(rows) && BilledAt(rows, i, a, k)
    ensures !Billed(rows[..i], k)
  { }

  lemma NextCosts(rows: seq<Step>, i: nat, had: map<nat, CostEvent>, costs: map<nat, CostEvent>,
                  next: map<nat, CostEvent>)
    requires RowsOk(rows) && i < |rows|
    requires CostsSynced(rows[..i], had, costs) && CostsSynced([rows[i]], costs, next)
    ensures CostsSynced(rows[..i + 1], had, next)
  {
    hide Bill, Billable;
    forall k | k in next && k !in had ensures Billed(rows[..i + 1], k) {
      if k in costs {
        var j: nat, a: nat :| BilledAt(rows[..i], j, a, k);
        assert BilledAt(rows[..i + 1], j, a, k);
      } else {
        var j: nat, a: nat :| BilledAt([rows[i]], j, a, k);
        assert BilledAt(rows[..i + 1], i, a, k);
      }
    }
    forall j: nat, a: nat, k: nat | BilledAt(rows[..i + 1], j, a, k)
      ensures k in next && (k !in had ==> next[k] == Bill(rows[j].id, rows[j].attempts[a]))
    {
      if j < i {
        assert BilledAt(rows[..i], j, a, k);
      } else {
        assert BilledAt([rows[i]], 0, a, k);
        BilledOnce(rows, i, a, k);
      }
    }
  }

  // ---------- repeating a synchronisation ----------

  /** Synchronising again with an unchanged execution changes nothing, whatever the read
      model held before. */
  lemma SyncIsIdempotent(s: Source, t: Target, u: Target, v: Target)
    requires SourceOk(s) && Synced(s, t, u) && Synced(s, u, v)
    ensures v == u
  {
    var rows := LlmSteps(s.steps);
    hide LlmSteps, ProjectedRun, ProjectedEvent, ProjectedApproval;
    StepsTwice(rows, t.steps, u.steps, v.steps);
    CostsTwice(rows, t.costs, u.costs, v.costs);
    ApprovalsTwice(s.approvals, t.approvals, u.approvals, v.approvals);
    assert v.events == u.events by { EventsTwice(s.events, t.events, u.events, v.events); }
  }

  lemma StepsTwice(rows: seq<Step>, t: map<nat, AgentStep>, u: map<nat, AgentStep>, v: map<nat, AgentStep>)
    requires StepsSynced(rows, t, u) && StepsSynced(rows, u, v)
    ensures v == u
  {
    hide UsageOf, Total, TotalCost, StepStatus;
    forall k | k in u || k in v ensures k in u && k in v && u[k] == v[k] {
      if Has(rows, StepId, k) {
        var i :| 0 <= i < |rows| && StepId(rows[i]) == k;
        assert Lookup(u, rows[i].id) == Some(u[k]);
      }
    }
  }

  lemma CostsTwice(rows: seq<Step>, t: map<nat, CostEvent>, u: map<nat, CostEvent>, v: map<nat, CostEvent>)
    requires CostsSynced(rows, t, u) && CostsSynced(rows, u, v)
    ensures v == u
  {
    hide Bill, Billable;
    forall k | k in v ensures k in u {
      if Billed(rows, k) { var i: nat, a: nat :| BilledAt(rows, i, a, k); }
    }
  }

  lemma ApprovalsTwice(rows: seq<Approval>, t: map<nat, HumanApproval>, u: map<nat, HumanApproval>,
                       v: map<nat, HumanApproval>)
    requires ApprovalsSynced(rows, t, u) && ApprovalsSynced(rows, u, v)
    ensures v == u
  {
    forall k | k in u || k in v ensures k in u && k in v && u[k] == v[k] {
      if Has(rows, ApprovalId, k) { var i :| 0 <= i < |rows| && ApprovalId(rows[i]) == k; }
    }
  }

  lemma EventsTwice(rows: seq<Event>, t: map<nat, WorkflowEvent>, u: map<nat, WorkflowEvent>,
                    v: map<nat, WorkflowEvent>)
    requires EventsSynced(rows, t, u) && EventsSynced(rows, u, v)
    ensures v == u
  {
    forall k | k in v ensures k in u {
      if Has(rows, EventId, k) { var i :| 0 <= i < |rows| && EventId(rows[i]) == k; }
    }
  }

  // ---------- usage totals ----------

  function OrZero(n: Option<nat>): nat {
    if n.Some? then n.value else 0
  }

  /** What the projected steps of `rows` add up to. */
  function StepSum(rows: seq<Step>, steps: map<nat, AgentStep>, f: AgentStep -> Option<nat>): nat
    requires forall i :: 0 <= i < |rows| ==> rows[i].id in steps
  {
    if rows == [] then 0
    else StepSum(rows[..|rows| - 1], steps, f) + OrZero(f(steps[rows[|rows| - 1].id]))
  }

  function StepTokens(a: AgentStep): Option<nat> { a.totalTokens }
  function StepLatency(a: AgentStep): Option<nat> { a.latency }

  lemma {:induction false} SumConcat(a: seq<Usage>, b: seq<Usage>, f: Usage -> nat)
    ensures Sum(a + b, f) == Sum(a, f) + Sum(b, f)
  {
    if b == [] {
      assert a + b == a;
    } else {
      assert (a + b)[..|a + b| - 1] == a + b[..|b| - 1];
      SumConcat(a, b[..|b| - 1], f);
    }
  }

  /** The run's total is the total over all usage, counted step by step. */
  lemma {:induction false} TotalsAddUp(rows: seq<Step>, steps: map<nat, AgentStep>, f: Usage -> nat,
                                       g: AgentStep -> Option<nat>)
    requires forall i :: 0 <= i < |rows| ==>
      rows[i].id in steps && g(steps[rows[i].id]) == Total(UsageOf(rows[i].attempts), f)
    ensures Sum(AllUsage(rows), f) == StepSum(rows, steps, g)
    ensures AllUsage(rows) == [] <==> forall i :: 0 <= i < |rows| ==> g(steps[rows[i].id]).None?
  {
    hide UsageOf;
    if rows != [] {
      var n := |rows| - 1;
      var init, last := AllUsage(rows[..n]), UsageOf(rows[n].attempts);
      TotalsAddUp(rows[..n], steps, f, g);
      SumConcat(init, last, f);
      assert forall i :: 0 <= i < n ==> rows[..n][i] == rows[i];
      assert AllUsage(rows) == init + last;
      assert AllUsage(rows) == [] <==> init == [] && last == [];
    }
    hide Sum;
  }

  /** The run's token and latency totals are the sums over its projected steps, and are
      unknown exactly when every step's are. */
  lemma RunTotalsAreStepTotals(s: Source, t: Target, u: Target)
    requires Synced(s, t, u)
    ensures var rows := LlmSteps(s.steps);
      && (forall i :: 0 <= i < |rows| ==> rows[i].id in u.steps)
      && OrZero(u.run.totalTokens) == StepSum(rows, u.steps, StepTokens)
      && OrZero(u.run.latency) == StepSum(rows, u.steps, StepLatency)
      && (u.run.totalTokens.None? <==> forall i :: 0 <= i < |rows| ==> u.steps[rows[i].id].totalTokens.None?)
      && (u.run.latency.None? <==> forall i :: 0 <= i < |rows| ==> u.steps[rows[i].id].latency.None?)
  {
    var rows := LlmSteps(s.steps);
    hide LlmSteps, UsageOf, AllUsage, CostsSynced, ApprovalsSynced, EventsSynced, TotalCost, StepStatus;
    TotalsAddUp(rows, u.steps, TotalTokens, StepTokens);
    TotalsAddUp(rows, u.steps, Latency, StepLatency);
    assert forall i :: 0 <= i < |rows| ==> StepTokens(u.steps[rows[i].id]) == u.steps[rows[i].id].totalTokens;
    assert forall i :: 0 <= i < |rows| ==> StepLatency(u.steps[rows[i].id]) == u.steps[rows[i].id].latency;
  }

  // ---------- costs over a whole run ----------

  /** Later states of an execution: an ended attempt keeps its step and its usage. */
  ghost predicate Evolves(s: Source, s': Source) {
    var rows, rows' := LlmSteps(s.steps), LlmSteps(s'.steps);
    forall i: nat, a: nat, k: nat :: BilledAt(rows, i, a, k) ==>
      BilledAs(rows', k, Bill(rows[i].id, rows[i].attempts[a]))
  }

  /** The attempt with id `k` is billed with exactly this event. */
  ghost predicate BilledAs(rows: seq<Step>, k: nat, event: CostEvent) {
    exists j: nat, b: nat :: BilledAt(rows, j, b, k) && Bill(rows[j].id, rows[j].attempts[b]) == event
  }

  /** There is one cost event for each ended and priced attempt, with its amounts. */
  ghost predicate CostsExact(rows: seq<Step>, costs: map<nat, CostEvent>) {
    && (forall k :: k in costs ==> Billed(rows, k))
    && (forall i: nat, a: nat, k: nat :: BilledAt(rows, i, a, k) ==>
          k in costs && costs[k] == Bill(rows[i].id, rows[i].attempts[a]))
  }

  /** A run of the projector: it starts empty and synchronises with one state of the
      execution after the other, any number of times. */
  ghost predicate Projecting(sources: seq<Source>, targets: seq<Target>) {
    && |targets| == |sources| + 1 && targets[0].costs == map[]
    && (forall i :: 0 <= i < |sources| ==> SourceOk(sources[i]) && Synced(sources[i], targets[i], targets[i + 1]))
  }

  /** Between synchronisations, attempts that were billed stay billed the same. */
  ghost predicate BillsStay(sources: seq<Source>) {
    forall i :: 0 < i < |sources| ==> Evolves(sources[i - 1], sources[i])
  }

  lemma ExactFrom(rows: seq<Step>, t: map<nat, CostEvent>, u: map<nat, CostEvent>)
    requires RowsOk(rows) && CostsSynced(rows, t, u)
    requires forall k :: k in t ==> BilledAs(rows, k, t[k])
    ensures CostsExact(rows, u)
  {
    hide Bill, Billable;
    forall k | k in u ensures Billed(rows, k) {
      if k in t {
        var i: nat, a: nat :| BilledAt(rows, i, a, k) && t[k] == Bill(rows[i].id, rows[i].attempts[a]);
      }
    }
    forall i: nat, a: nat, k: nat | BilledAt(rows, i, a, k)
      ensures k in u && u[k] == Bill(rows[i].id, rows[i].attempts[a])
    {
      if k in t {
        var j: nat, b: nat :| BilledAt(rows, j, b, k) && t[k] == Bill(rows[j].id, rows[j].attempts[b]);
        assert rows[i].attempts[a].id == rows[j].attempts[b].id;
      }
    }
  }

  /** A cost event is never revised, so a synchronisation leaves the events exact only when
      every attempt billed before is still billed with the same amounts. */
  lemma ExactIffKept(rows: seq<Step>, t: map<nat, CostEvent>, u: map<nat, CostEvent>)
    requires RowsOk(rows) && CostsSynced(rows, t, u)
    ensures CostsExact(rows, u) <==> forall k :: k in t ==> BilledAs(rows, k, t[k])
  {
    hide Bill, Billable;
    if CostsExact(rows, u) {
      forall k | k in t ensures BilledAs(rows, k, t[k]) {
        assert Billed(rows, k);
        var i: nat, a: nat :| BilledAt(rows, i, a, k);
      }
    }
    if forall k :: k in t ==> BilledAs(rows, k, t[k]) { ExactFrom(rows, t, u); }
  }

  lemma Carried(s: Source, s': Source, t: map<nat, CostEvent>)
    requires Evolves(s, s') && CostsExact(LlmSteps(s.steps), t)
    ensures forall k :: k in t ==> BilledAs(LlmSteps(s'.steps), k, t[k])
  {
    hide LlmSteps, Bill, Billable, BilledAs;
    forall k | k in t ensures BilledAs(LlmSteps(s'.steps), k, t[k]) {
      var i: nat, a: nat :| BilledAt(LlmSteps(s.steps), i, a, k);
    }
  }

  /** The other way round: events that are exact before and after are for the same bills. */
  lemma ExactEvolves(s: Source, s': Source, t: map<nat, CostEvent>, u: map<nat, CostEvent>)
    requires CostsExact(LlmSteps(s.steps), t) && CostsExact(LlmSteps(s'.steps), u)
    requires forall k :: k in t ==> k in u && u[k] == t[k]
    ensures Evolves(s, s')
  {
    hide LlmSteps, Bill, Billable;
    var rows, rows' := LlmSteps(s.steps), LlmSteps(s'.steps);
    forall i: nat, a: nat, k: nat | BilledAt(rows, i, a, k)
      ensures BilledAs(rows', k, Bill(rows[i].id, rows[i].attempts[a]))
    {
      assert Billed(rows', k);
      var j: nat, b: nat :| BilledAt(rows', j, b, k);
    }
  }

  lemma {:induction false} ExactWhileBillsStay(sources: seq<Source>, targets: seq<Target>, i: nat)
    requires Projecting(sources, targets) && i < |sources|
    requires forall k :: 0 < k <= i ==> Evolves(sources[k - 1], sources[k])
    ensures CostsExact(LlmSteps(sources[i].steps), targets[i + 1].costs)
  {
    var rows := LlmSteps(sources[i].steps);
    hide LlmSteps, StepsSynced, ApprovalsSynced, EventsSynced, CostsSynced, CostsExact, BilledAs, RowsOk,
         ProjectedRun, Evolves;
    assert Synced(sources[i], targets[i], targets[i + 1]) && SourceOk(sources[i]);
    if i > 0 {
      ExactWhileBillsStay(sources, targets, i - 1);
      Carried(sources[i - 1], sources[i], targets[i].costs);
    }
    ExactFrom(rows, targets[i].costs, targets[i + 1].costs);
  }

  /** After every synchronisation of a history the cost events are exactly those of the
      attempts that have ended with a known cost, once each, if and only if no attempt that
      was billed is ever billed differently. */
  lemma CostEventsAreExact(sources: seq<Source>, targets: seq<Target>)
    requires Projecting(sources, targets)
    ensures (forall i :: 0 <= i < |sources| ==> CostsExact(LlmSteps(sources[i].steps), targets[i + 1].costs))
        <==> BillsStay(sources)
  {
    hide LlmSteps, CostsExact, Evolves;
    if BillsStay(sources) {
      forall i | 0 <= i < |sources| ensures CostsExact(LlmSteps(sources[i].steps), targets[i + 1].costs) {
        ExactWhileBillsStay(sources, targets, i);
      }
    }
    if forall i :: 0 <= i < |sources| ==> CostsExact(LlmSteps(sources[i].steps), targets[i + 1].costs) {
      forall i | 0 < i < |sources| ensures Evolves(sources[i - 1], sources[i]) {
        assert CostsExact(LlmSteps(sources[i - 1].steps), targets[i - 1 + 1].costs);
        assert Synced(sources[i], targets[i], targets[i + 1]);
        ExactEvolves(sources[i - 1], sources[i], targets[i].costs, targets[i + 1].costs);
      }
    }
  }

  /** One language-model step whose only attempt has ended and has cost `dollars`. */
  function Spent(dollars: real): Source {
    Source(Completed, 1, None,
           [Step(1, "n", true, Completed, 0, None, None, None,
                 [Attempt(7, Completed, Some(Usage("m", 10, 10, 20, 5, Some(dollars), 1.0, 1.0)))])],
           [], [])
  }

  lemma SpentUsage(dollars: real)
    ensures AllUsage(Spent(dollars).steps) == [Spent(dollars).steps[0].attempts[0].usage.value]
  {
    var rows := Spent(dollars).steps;
    assert rows[..0] == [] && rows[0].attempts[..0] == [];
    assert UsageOf(rows[0].attempts) == [rows[0].attempts[0].usage.value];
  }

  lemma SpentOk(dollars: real)
    ensures LlmSteps(Spent(dollars).steps) == Spent(dollars).steps
    ensures RowsOk(Spent(dollars).steps)
  {
    hide UsageOf, AllUsage;
    var rows := Spent(dollars).steps;
    assert rows[..0] == [];
    assert LlmSteps(rows) == LlmSteps(rows[..0]) + [rows[0]];
  }

  lemma SpentRows(dollars: real)
    ensures LlmSteps(Spent(dollars).steps) == Spent(dollars).steps && SourceOk(Spent(dollars))
    ensures AllUsage(Spent(dollars).steps) == [Spent(dollars).steps[0].attempts[0].usage.value]
    ensures BilledAt(Spent(dollars).steps, 0, 0, 7)
  {
    hide UsageOf, AllUsage, LlmSteps, RowsOk;
    SpentUsage(dollars);
    SpentOk(dollars);
  }

  lemma SpentMore()
    ensures !Evolves(Spent(1.0), Spent(2.0))
  {
    var rows, rows' := Spent(1.0).steps, Spent(2.0).steps;
    SpentRows(1.0);
    SpentRows(2.0);
    hide LlmSteps, RowsOk, AllUsage;
    assert !BilledAs(rows', 7, Bill(rows[0].id, rows[0].attempts[0]));
  }

  lemma SpentSynced(dollars: real, t: Target, u: Target)
    requires Synced(Spent(dollars), t, u)
    ensures u.run.cost == Some(dollars) && 7 in u.costs && (7 !in t.costs ==> u.costs[7].cost == dollars)
    ensures (forall k :: k in t.costs ==> k in u.costs && u.costs[k] == t.costs[k])
    ensures (forall k :: k in u.costs ==> k in t.costs || k == 7)
  {
    SpentRows(dollars);
    hide LlmSteps, RowsOk, AllUsage, StepsSynced, ApprovalsSynced, EventsSynced;
    var usage := Spent(dollars).steps[0].attempts[0].usage.value;
    assert [usage][..0] == [] && CostSum([usage]) == dollars;
  }

  /** When the recorded usage of an ended attempt changes from one dollar to two, the run
      shows two and the cost events still add up to one. */
  lemma StaleEvent(t: Target, u: Target, v: Target)
    requires t.costs == map[] && Synced(Spent(1.0), t, u) && Synced(Spent(2.0), u, v)
    ensures Projecting([Spent(1.0), Spent(2.0)], [t, u, v]) && !BillsStay([Spent(1.0), Spent(2.0)])
    ensures v.run.cost == Some(2.0) && v.costs.Keys == {7} && v.costs[7].cost == 1.0
    ensures !CostsExact(LlmSteps(Spent(2.0).steps), v.costs)
  {
    hide Synced, Evolves, Spent, SourceOk, CostsExact;
    var sources, targets := [Spent(1.0), Spent(2.0)], [t, u, v];
    SpentSynced(1.0, t, u);
    SpentSynced(2.0, u, v);
    SpentRows(1.0);
    SpentRows(2.0);
    SpentMore();
    assert !Evolves(sources[1 - 1], sources[1]);
    if CostsExact(LlmSteps(Spent(2.0).steps), v.costs) { NotExact(v.costs); }
  }

  lemma NotExact(costs: map<nat, CostEvent>)
    requires CostsExact(LlmSteps(Spent(2.0).steps), costs)
    ensures 7 in costs && costs[7].cost == 2.0
  {
    SpentRows(2.0);
    hide LlmSteps, RowsOk;
  }

  /** What the cost events of these attempts add up to. */
  function EventSum(attempts: seq<Attempt>, costs: map<nat, CostEvent>): real {
    if attempts == [] then 0.0
    else
      var last := attempts[|attempts| - 1];
      EventSum(attempts[..|attempts| - 1], costs) + if last.id in costs then costs[last.id].cost else 0.0
  }

  function RunEventSum(rows: seq<Step>, costs: map<nat, CostEvent>): real {
    if rows == [] then 0.0
    else RunEventSum(rows[..|rows| - 1], costs) + EventSum(rows[|rows| - 1].attempts, costs)
  }

  function StepCostSum(rows: seq<Step>, steps: map<nat, AgentStep>): real
    requires forall i :: 0 <= i < |rows| ==> rows[i].id in steps
  {
    if rows == [] then 0.0
    else
      var cost := steps[rows[|rows| - 1].id].cost;
      StepCostSum(rows[..|rows| - 1], steps) + if cost.Some? then cost.value else 0.0
  }

  predicate Ended(rows: seq<Step>) {
    forall i, a :: 0 <= i < |rows| && 0 <= a < |rows[i].attempts| ==>
      rows[i].attempts[a].status !in {Pending, Running}
  }

  lemma {:induction false} CostConcat(a: seq<Usage>, b: seq<Usage>)
    ensures CostSum(a + b) == CostSum(a) + CostSum(b)
    ensures Priced(a + b) <==> Priced(a) && Priced(b)
  {
    if b == [] {
      assert a + b == a;
    } else {
      assert (a + b)[..|a + b| - 1] == a + b[..|b| - 1];
      CostConcat(a, b[..|b| - 1]);
      assert forall i :: 0 <= i < |a| ==> (a + b)[i] == a[i];
      assert forall i :: 0 <= i < |b| ==> (a + b)[|a| + i] == b[i];
    }
  }

  /** The events of ended attempts carry exactly the usage that has a cost. */
  lemma {:induction false} EventsCarryUsage(attempts: seq<Attempt>, costs: map<nat, CostEvent>)
    requires forall a :: 0 <= a < |attempts| ==>
      && (attempts[a].id in costs <==> attempts[a].usage.Some? && attempts[a].usage.value.cost.Some?)
      && (attempts[a].id in costs ==> costs[attempts[a].id].cost == attempts[a].usage.value.cost.value)
    ensures EventSum(attempts, costs) == CostSum(UsageOf(attempts))
  {
    if attempts != [] {
      var n := |attempts| - 1;
      EventsCarryUsage(attempts[..n], costs);
      if attempts[n].usage.Some? {
        var u := attempts[n].usage.value;
        CostConcat(UsageOf(attempts[..n]), [u]);
        assert [u][..0] == [] && CostSum([u]) == if u.cost.Some? then u.cost.value else 0.0;
      } else {
        assert UsageOf(attempts) == UsageOf(attempts[..n]);
      }
    }
  }

  lemma {:induction false} RunEventsCarryUsage(rows: seq<Step>, costs: map<nat, CostEvent>)
    requires forall i, a :: 0 <= i < |rows| && 0 <= a < |rows[i].attempts| ==>
      var item := rows[i].attempts[a];
      && (item.id in costs <==> item.usage.Some? && item.usage.value.cost.Some?)
      && (item.id in costs ==> costs[item.id].cost == item.usage.value.cost.value)
    ensures RunEventSum(rows, costs) == CostSum(AllUsage(rows))
  {
    if rows != [] {
      var n := |rows| - 1;
      RunEventsCarryUsage(rows[..n], costs);
      EventsCarryUsage(rows[n].attempts, costs);
      CostConcat(AllUsage(rows[..n]), UsageOf(rows[n].attempts));
    }
  }

  lemma {:induction false} StepCostsAddUp(rows: seq<Step>, steps: map<nat, AgentStep>)
    requires forall i :: 0 <= i < |rows| ==>
      rows[i].id in steps && steps[rows[i].id].cost == TotalCost(UsageOf(rows[i].attempts))
    requires Priced(AllUsage(rows))
    ensures StepCostSum(rows, steps) == CostSum(AllUsage(rows))
  {
    if rows != [] {
      var n := |rows| - 1;
      CostConcat(AllUsage(rows[..n]), UsageOf(rows[n].attempts));
      StepCostsAddUp(rows[..n], steps);
    }
  }

  lemma ExactMeans(rows: seq<Step>, costs: map<nat, CostEvent>, i: nat, a: nat)
    requires RowsOk(rows) && Ended(rows) && CostsExact(rows, costs)
    requires i < |rows| && a < |rows[i].attempts|
    ensures var item := rows[i].attempts[a];
      && (item.id in costs <==> item.usage.Some? && item.usage.value.cost.Some?)
      && (item.id in costs ==> costs[item.id].cost == item.usage.value.cost.value)
  {
    var item := rows[i].attempts[a];
    if Billable(item) { assert BilledAt(rows, i, a, item.id); }
    if item.id in costs {
      var j: nat, b: nat :| BilledAt(rows, j, b, item.id);
      assert rows[j].attempts[b].id == item.id;
    }
  }

  // ---------- the cost table as a whole ----------

  /** What all the cost events add up to. */
  ghost function TableSum(costs: map<nat, CostEvent>): real
    decreases |costs|
  {
    if costs == map[] then 0.0
    else
      var k :| k in costs;
      costs[k].cost + TableSum(costs - {k})
  }

  /** The order in which events are added up does not matter. */
  lemma {:induction false} TableMinus(costs: map<nat, CostEvent>, k: nat)
    requires k in costs
    ensures TableSum(costs) == costs[k].cost + TableSum(costs - {k})
    decreases |costs|
  {
    var first :| first in costs && TableSum(costs) == costs[first].cost + TableSum(costs - {first});
    if first != k {
      TableMinus(costs - {first}, k);
      TableMinus(costs - {k}, first);
      assert costs - {first} - {k} == costs - {k} - {first};
    }
  }

  function AttemptIds(attempts: seq<Attempt>): set<nat> {
    set i | 0 <= i < |attempts| :: attempts[i].id
  }

  function RowIds(rows: seq<Step>): set<nat> {
    set i, a | 0 <= i < |rows| && 0 <= a < |rows[i].attempts| :: rows[i].attempts[a].id
  }

  lemma {:induction false} TakeAttempts(attempts: seq<Attempt>, costs: map<nat, CostEvent>)
    requires forall a, b :: 0 <= a < b < |attempts| ==> attempts[a].id != attempts[b].id
    ensures TableSum(costs) == TableSum(costs - AttemptIds(attempts)) + EventSum(attempts, costs)
  {
    if attempts == [] {
      assert costs - AttemptIds(attempts) == costs;
    } else {
      var n := |attempts| - 1;
      var init, last := attempts[..n], attempts[n];
      TakeAttempts(init, costs);
      var rest := costs - AttemptIds(init);
      assert last.id !in AttemptIds(init);
      assert AttemptIds(attempts) == AttemptIds(init) + {last.id};
      assert costs - AttemptIds(attempts) == rest - {last.id};
      if last.id in costs { TableMinus(rest, last.id); } else { assert rest - {last.id} == rest; }
    }
  }

  lemma {:induction false} SameEvents(attempts: seq<Attempt>, costs: map<nat, CostEvent>, fewer: map<nat, CostEvent>)
    requires forall a :: 0 <= a < |attempts| ==>
      && (attempts[a].id in fewer <==> attempts[a].id in costs)
      && (attempts[a].id in fewer ==> fewer[attempts[a].id] == costs[attempts[a].id])
    ensures EventSum(attempts, fewer) == EventSum(attempts, costs)
  {
    if attempts != [] { SameEvents(attempts[..|attempts| - 1], costs, fewer); }
  }

  lemma {:induction false} TakeRows(rows: seq<Step>, costs: map<nat, CostEvent>)
    requires RowsOk(rows)
    ensures TableSum(costs) == TableSum(costs - RowIds(rows)) + RunEventSum(rows, costs)
  {
    if rows == [] {
      assert costs - RowIds(rows) == costs;
    } else {
      var n := |rows| - 1;
      var init, last := rows[..n], rows[n].attempts;
      RowsSplit(rows);
      TakeRows(init, costs);
      var rest := costs - RowIds(init);
      TakeAttempts(last, rest);
      SameEvents(last, costs, rest);
      assert costs - RowIds(rows) == rest - AttemptIds(last);
    }
  }

  lemma RowsSplit(rows: seq<Step>)
    requires RowsOk(rows) && rows != []
    ensures var n := |rows| - 1;
      && RowsOk(rows[..n]) && RowIds(rows) == RowIds(rows[..n]) + AttemptIds(rows[n].attempts)
      && (forall a :: 0 <= a < |rows[n].attempts| ==> rows[n].attempts[a].id !in RowIds(rows[..n]))
      && (forall a, b :: 0 <= a < b < |rows[n].attempts| ==> rows[n].attempts[a].id != rows[n].attempts[b].id)
  {
    var n := |rows| - 1;
    assert forall i :: 0 <= i < n ==> rows[..n][i] == rows[i];
    forall k ensures k in RowIds(rows) <==> k in RowIds(rows[..n]) + AttemptIds(rows[n].attempts) { }
  }

  /** Exact events are those of the attempts and no others. */
  lemma TableIsRows(rows: seq<Step>, costs: map<nat, CostEvent>)
    requires RowsOk(rows) && CostsExact(rows, costs)
    ensures TableSum(costs) == RunEventSum(rows, costs)
  {
    hide RowsOk, RunEventSum;
    TakeRows(rows, costs);
    forall k | k in costs ensures k in RowIds(rows) {
      var i: nat, a: nat :| BilledAt(rows, i, a, k);
    }
    assert costs - RowIds(rows) == map[];
  }

  /** Once every attempt has ended, the run's cost is known exactly when there is usage and
      all of it is priced; it then equals both the sum of the whole table of cost events and
      the sum of the projected steps' costs, in every history in which bills stay. */
  lemma CostIsConserved(sources: seq<Source>, targets: seq<Target>)
    requires Projecting(sources, targets) && |sources| > 0
    requires Ended(LlmSteps(sources[|sources| - 1].steps))
    ensures var rows, u := LlmSteps(sources[|sources| - 1].steps), targets[|sources|];
      && (forall i :: 0 <= i < |rows| ==> rows[i].id in u.steps)
      && (u.run.cost.Some? <==> AllUsage(rows) != [] && Priced(AllUsage(rows)))
      && (u.run.cost.Some? ==> u.run.cost.value == StepCostSum(rows, u.steps))
      && (u.run.cost.Some? && BillsStay(sources) ==> u.run.cost.value == TableSum(u.costs))
  {
    var s, t, u := sources[|sources| - 1], targets[|sources| - 1], targets[|sources|];
    var rows := LlmSteps(s.steps);
    CostEventsAreExact(sources, targets);
    assert Synced(s, t, u) && SourceOk(s);
    hide LlmSteps, CostsExact, RowsOk, Ended, ApprovalsSynced, EventsSynced, CostsSynced,
         UsageOf, AllUsage, CostSum, TableSum, BillsStay;
    if BillsStay(sources) {
      assert CostsExact(rows, targets[|sources| - 1 + 1].costs);
      hide Projecting;
      EndedCosts(rows, u.costs);
    }
    if Priced(AllUsage(rows)) { StepCostsAddUp(rows, u.steps); }
  }

  lemma EndedCosts(rows: seq<Step>, costs: map<nat, CostEvent>)
    requires RowsOk(rows) && Ended(rows) && CostsExact(rows, costs)
    ensures TableSum(costs) == CostSum(AllUsage(rows))
  {
    hide RowsOk, Ended, CostsExact, TableSum, CostSum, AllUsage;
    forall i, a | 0 <= i < |rows| && 0 <= a < |rows[i].attempts|
      ensures var item := rows[i].attempts[a];
        && (item.id in costs <==> item.usage.Some? && item.usage.value.cost.Some?)
        && (item.id in costs ==> costs[item.id].cost == item.usage.value.cost.value)
    { ExactMeans(rows, costs, i, a); }
    RunEventsCarryUsage(rows, costs);
    TableIsRows(rows, costs);
  }
}
