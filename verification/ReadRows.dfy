/** What a screen reads in the rows of the read model, in terms of the execution alone. */
module ReadRows {
  import opened Projection

  // ---------- usage of a step ----------

  /** Some attempt has usage. */
  predicate AnyUsage(attempts: seq<Attempt>) {
    exists a :: 0 <= a < |attempts| && attempts[a].usage.Some?
  }

  /** Some attempt has usage whose cost is not known. */
  predicate AnyUnpriced(attempts: seq<Attempt>) {
    exists a :: 0 <= a < |attempts| && attempts[a].usage.Some? && attempts[a].usage.value.cost.None?
  }

  /** The sum of `f` over the attempts with usage, from the first attempt on. */
  function Added(attempts: seq<Attempt>, f: Usage -> nat): nat {
    if attempts == [] then 0
    else (if attempts[0].usage.Some? then f(attempts[0].usage.value) else 0) + Added(attempts[1..], f)
  }

  function AddedCost(attempts: seq<Attempt>): real {
    if attempts == [] then 0.0
    else
      var first := attempts[0].usage;
      (if first.Some? && first.value.cost.Some? then first.value.cost.value else 0.0) + AddedCost(attempts[1..])
  }

  /** A count that is unknown without any usage. */
  predicate Counts(shown: Option<nat>, attempts: seq<Attempt>, f: Usage -> nat) {
    shown == if AnyUsage(attempts) then Some(Added(attempts, f)) else None
  }

  lemma {:induction false} AddedLast(attempts: seq<Attempt>, f: Usage -> nat)
    requires attempts != []
    ensures var last := attempts[|attempts| - 1].usage;
      && Added(attempts, f) == Added(attempts[..|attempts| - 1], f) + (if last.Some? then f(last.value) else 0)
      && AddedCost(attempts) == AddedCost(attempts[..|attempts| - 1])
           + (if last.Some? && last.value.cost.Some? then last.value.cost.value else 0.0)
  {
    var n := |attempts| - 1;
    if n > 0 {
      AddedLast(attempts[1..], f);
      assert attempts[1..][..n - 1] == attempts[..n][1..];
    }
  }

  lemma UsageLast(attempts: seq<Attempt>, f: Usage -> nat)
    requires attempts != []
    ensures var init, last := UsageOf(attempts[..|attempts| - 1]), attempts[|attempts| - 1].usage;
      && (UsageOf(attempts) == [] <==> init == [] && last.None?)
      && (Priced(UsageOf(attempts)) <==> Priced(init) && (last.Some? ==> last.value.cost.Some?))
      && Sum(UsageOf(attempts), f) == Sum(init, f) + (if last.Some? then f(last.value) else 0)
      && CostSum(UsageOf(attempts))
           == CostSum(init) + (if last.Some? && last.value.cost.Some? then last.value.cost.value else 0.0)
  {
    var n := |attempts| - 1;
    var init, last := UsageOf(attempts[..n]), attempts[n].usage;
    if last.Some? {
      var all := init + [last.value];
      assert all[..|all| - 1] == init && all[|all| - 1] == last.value;
      CostConcat(init, [last.value]);
      assert UsageOf(attempts) == all;
    } else {
      assert UsageOf(attempts) == init;
    }
  }

  lemma {:induction false} UsageIs(attempts: seq<Attempt>, f: Usage -> nat)
    ensures UsageOf(attempts) == [] <==> !AnyUsage(attempts)
    ensures Priced(UsageOf(attempts)) <==> !AnyUnpriced(attempts)
    ensures Sum(UsageOf(attempts), f) == Added(attempts, f)
    ensures CostSum(UsageOf(attempts)) == AddedCost(attempts)
  {
    if attempts != [] {
      hide *;
      var n := |attempts| - 1;
      UsageIs(attempts[..n], f);
      AddedLast(attempts, f);
      AnyLast(attempts);
      UsageLast(attempts, f);
    }
  }

  lemma AnyLast(attempts: seq<Attempt>)
    requires attempts != []
    ensures var n := |attempts| - 1;
      && (AnyUsage(attempts) <==> AnyUsage(attempts[..n]) || attempts[n].usage.Some?)
      && (AnyUnpriced(attempts) <==>
            AnyUnpriced(attempts[..n]) || (attempts[n].usage.Some? && attempts[n].usage.value.cost.None?))
  {
    var n := |attempts| - 1;
    assert forall a :: 0 <= a < n ==> attempts[..n][a] == attempts[a];
    if AnyUsage(attempts[..n]) {
      var a :| 0 <= a < n && attempts[..n][a].usage.Some?;
      assert attempts[a].usage.Some?;
    }
    if AnyUnpriced(attempts[..n]) {
      var a :| 0 <= a < n && attempts[..n][a].usage.Some? && attempts[..n][a].usage.value.cost.None?;
      assert attempts[a].usage.Some? && attempts[a].usage.value.cost.None?;
    }
  }

  // ---------- rows ----------

  /** A step that is over shows how; one that is not is running, unless it has not begun. */
  predicate ShowsStatus(shown: string, status: Status) {
    && (shown == "completed" <==> status == Completed)
    && (shown == "failed" <==> status in {Failed, Cancelled, Skipped})
    && (shown == "pending" <==> status == Pending)
    && (shown == "running" <==> status in {Running, Waiting, Retrying})
  }

  /** The projected step shows its execution: every attempt's usage under its own name, the
      retries as its iteration, and a name and a place that never change once given. */
  predicate ShowsStep(shown: AgentStep, row: Step, place: nat, before: Option<AgentStep>) {
    && shown.node == (if before.Some? then before.value.node else row.node)
    && shown.order == (if before.Some? then before.value.order else place)
    && ShowsStatus(shown.status, row.status)
    && shown.retries == row.iteration
    && shown.input == row.input && shown.output == row.output && shown.error == row.error
    && Counts(shown.inputTokens, row.attempts, (u: Usage) => u.input)
    && Counts(shown.outputTokens, row.attempts, (u: Usage) => u.output)
    && Counts(shown.totalTokens, row.attempts, (u: Usage) => u.total)
    && Counts(shown.latency, row.attempts, (u: Usage) => u.latency)
    && shown.cost == (if AnyUsage(row.attempts) && !AnyUnpriced(row.attempts)
                      then Some(AddedCost(row.attempts)) else None)
  }

  lemma {:induction false} SameSum(usage: seq<Usage>, f: Usage -> nat, g: Usage -> nat)
    requires forall u :: f(u) == g(u)
    ensures Sum(usage, f) == Sum(usage, g)
  {
    if usage != [] { SameSum(usage[..|usage| - 1], f, g); }
  }

  lemma CountsIs(attempts: seq<Attempt>, f: Usage -> nat, g: Usage -> nat)
    requires forall u :: f(u) == g(u)
    ensures Counts(Total(UsageOf(attempts), f), attempts, g)
  {
    hide Sum, UsageOf, Added, AnyUsage, AnyUnpriced, Priced;
    UsageIs(attempts, g);
    SameSum(UsageOf(attempts), f, g);
  }

  lemma StepIsShown(row: Step, place: nat, before: Option<AgentStep>)
    ensures ShowsStep(Projected(row, place, before), row, place, before)
  {
    hide UsageOf, Sum, Total, Counts, Added, AnyUsage, AnyUnpriced, Priced, CostSum, AddedCost;
    CountsIs(row.attempts, InputTokens, (u: Usage) => u.input);
    CountsIs(row.attempts, OutputTokens, (u: Usage) => u.output);
    CountsIs(row.attempts, TotalTokens, (u: Usage) => u.total);
    CountsIs(row.attempts, Latency, (u: Usage) => u.latency);
    UsageIs(row.attempts, (u: Usage) => u.input);
    StatusIsShown(row.status);
    hide StepStatus, ShowsStatus;
  }

  lemma StatusIsShown(status: Status)
    ensures ShowsStatus(StepStatus(status), status)
  {
    assert "completed"[0] == 'c' && "failed"[0] == 'f' && "pending"[0] == 'p' && "running"[0] == 'r';
  }

  /** A cost event shows the usage of its attempt, and its parts are tokens times price. */
  predicate ShowsBill(event: CostEvent, step: nat, u: Usage) {
    && event.step == step && event.model == u.model
    && event.input == u.input && event.output == u.output && event.total == u.total
    && event.inputCost * 1000000.0 == u.input as real * u.inputPrice
    && event.outputCost * 1000000.0 == u.output as real * u.outputPrice
    && Some(event.cost) == u.cost
  }

  /** Attempts that have ended and have priced usage are billed, and no others. */
  predicate Due(item: Attempt) {
    && item.status in {Waiting, Retrying, Completed, Failed, Cancelled, Skipped}
    && item.usage.Some? && item.usage.value.cost.Some?
  }

  lemma BillIsShown(step: nat, item: Attempt)
    ensures Billable(item) <==> Due(item)
    ensures Due(item) ==> item.usage.Some? && ShowsBill(Bill(step, item), step, item.usage.value)
  {
    match item.status {
      case Pending => assert item.status !in {Waiting, Retrying, Completed, Failed, Cancelled, Skipped};
      case Running => assert item.status !in {Waiting, Retrying, Completed, Failed, Cancelled, Skipped};
      case _ => assert item.status !in {Pending, Running};
    }
  }

  predicate ShowsApproval(shown: HumanApproval, row: Approval) {
    && shown.status == row.status && shown.feedback == row.feedback
    && (shown.edited.Some? <==> row.payload != row.shown)
    && (shown.edited.Some? ==> shown.edited.value == row.payload)
  }

  /** An event of the run itself tells of its start or its end; any other is a transition. */
  predicate ShowsEvent(shown: WorkflowEvent, event: Event) {
    && shown.message == event.entity + ": " + event.to
    && var ofRun := event.entity == "workflow_executions";
       if ofRun && event.to == "completed" then shown.kind == "workflow_completed"
       else if ofRun && event.to == "failed" then shown.kind == "workflow_failed"
       else if ofRun && event.to == "cancelled" then shown.kind == "workflow_cancelled"
       else if ofRun && event.from.None? && event.to == "pending" then shown.kind == "workflow_started"
       else shown.kind == "state_transition"
  }

  lemma EventIsShown(event: Event)
    ensures ShowsEvent(ProjectedEvent(event), event)
  {
    assert "workflow_" + "completed" == "workflow_completed";
    assert "workflow_" + "failed" == "workflow_failed";
    assert "workflow_" + "cancelled" == "workflow_cancelled";
  }

  predicate ShowsRun(shown: Run, s: Source) {
    && shown.output == s.output && shown.revision == s.revision + 1
    && match s.status
       case Pending => shown.status == "created"
       case Waiting => shown.status == "waiting_for_human"
       case Running => shown.status == "running"
       case Retrying => shown.status == "retrying"
       case Completed => shown.status == "completed"
       case Failed => shown.status == "failed"
       case Cancelled => shown.status == "cancelled"
       case Skipped => shown.status == "skipped"
  }

  // ---------- the steps that are shown ----------

  /** How many of the steps call a language model. */
  function Models(steps: seq<Step>): nat {
    if steps == [] then 0 else Models(steps[..|steps| - 1]) + if steps[|steps| - 1].llm then 1 else 0
  }

  /** The steps that call a language model are shown in the order of the execution. */
  lemma {:induction false} ShownInOrder(steps: seq<Step>, i: nat)
    requires i < |steps| && steps[i].llm
    ensures |LlmSteps(steps)| == Models(steps)
    ensures Models(steps[..i]) < |LlmSteps(steps)| && LlmSteps(steps)[Models(steps[..i])] == steps[i]
    decreases |steps|
  {
    var n := |steps| - 1;
    ModelCount(steps);
    if i < n {
      ShownInOrder(steps[..n], i);
      assert steps[..n][..i] == steps[..i];
    } else {
      ModelCount(steps[..n]);
    }
  }

  lemma {:induction false} ModelCount(steps: seq<Step>)
    ensures |LlmSteps(steps)| == Models(steps)
  {
    if steps != [] { ModelCount(steps[..|steps| - 1]); }
  }

  /** After a synchronisation every step that calls a language model is shown as it is now, at
      its place among them; so are the run, its approvals, and the bills of attempts that had
      none and of events that were not shown before. */
  lemma RowsShowExecution(s: Source, t: Target, u: Target, i: nat)
    requires Synced(s, t, u)
    ensures ShowsRun(u.run, s)
    ensures i < |s.steps| && s.steps[i].llm ==>
      && var row := s.steps[i];
      && row.id in u.steps
      && ShowsStep(u.steps[row.id], row, Models(s.steps[..i]) + 1,
                   if row.id in t.steps then Some(t.steps[row.id]) else None)
      && forall a :: 0 <= a < |row.attempts| && Due(row.attempts[a]) ==>
           && row.attempts[a].id in u.costs
           && (row.attempts[a].id !in t.costs ==>
                 ShowsBill(u.costs[row.attempts[a].id], row.id, row.attempts[a].usage.value))
    ensures i < |s.approvals| ==>
      s.approvals[i].id in u.approvals && ShowsApproval(u.approvals[s.approvals[i].id], s.approvals[i])
    ensures i < |s.events| ==>
      && s.events[i].id in u.events
      && (s.events[i].id !in t.events ==> ShowsEvent(u.events[s.events[i].id], s.events[i]))
  {
    hide LlmSteps, Models, Projected, Bill, Billable, ShowsStep, ShowsBill, ProjectedEvent, ShowsEvent, AllUsage,
         Total, TotalCost;
    if i < |s.events| { EventIsShown(s.events[i]); }
    if i < |s.steps| && s.steps[i].llm {
      var row, place := s.steps[i], Models(s.steps[..i]);
      ShownInOrder(s.steps, i);
      StepIsShown(row, place + 1, Lookup(t.steps, row.id));
      forall a | 0 <= a < |row.attempts| && Due(row.attempts[a])
        ensures row.attempts[a].id in u.costs
        ensures row.attempts[a].id !in t.costs ==>
                  ShowsBill(u.costs[row.attempts[a].id], row.id, row.attempts[a].usage.value)
      {
        BillIsShown(row.id, row.attempts[a]);
        assert BilledAt(LlmSteps(s.steps), place, a, row.attempts[a].id);
      }
    }
  }
}
