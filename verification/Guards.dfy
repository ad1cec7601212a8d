/** The guards on rows, and what they keep by themselves.

    The trigger on job rows, the unique constraints, the transition table and the records
    service each refuse some writes.  Whoever writes through them, in whatever order, the
    rows stay in order: the services of the runtime are not needed for these results. */
module Guards {
  import opened Records
  import opened Runtime
  import opened Tables
  import opened History

  // ---------- the guards ----------

  /** The state machine of runs, steps and attempts. */
  predicate MayMove(from: Status, to: Status) {
    match from
    case Pending => to in {Running, Failed, Cancelled, Skipped}
    case Running => to in {Waiting, Retrying, Completed, Failed, Cancelled}
    case Waiting => to in {Running, Completed, Failed, Cancelled}
    case Retrying => to in {Running, Failed, Cancelled}
    case _ => false
  }

  predicate AttemptMayMove(s: State, a: nat, to: Status)
    requires a < |s.attempts|
  {
    && MayMove(s.attempts[a].status, to)
    && to !in {Waiting, Retrying, Skipped}
    && s.attempts[a].step < |s.steps|
    && !Terminal(s.run.status)
    && (to == Running ==> s.run.status == Running && s.steps[s.attempts[a].step].status == Running)
  }

  predicate StepMayMove(s: State, st: nat, to: Status)
    requires st < |s.steps|
  {
    && MayMove(s.steps[st].status, to)
    && !Terminal(s.run.status)
    && (to == Running ==> s.run.status == Running)
    && (Terminal(to) || to in {Retrying, Waiting} ==>
          forall a :: 0 <= a < |s.attempts| && s.attempts[a].step == st ==> Terminal(s.attempts[a].status))
  }

  predicate RunMayMove(s: State, to: Status) {
    && MayMove(s.run.status, to) && to != Skipped
    && (Terminal(to) ==> forall i :: 0 <= i < |s.steps| ==> Terminal(s.steps[i].status))
    && (to == Completed ==>
          |s.steps| > 0 && forall i :: 0 <= i < |s.steps| ==> Succeeded(s.steps[i].status))
  }

  /** The trigger, and the constraint that a running job has a lease. */
  predicate JobMayChange(before: Job, after: Job, now: int) {
    TriggerAccepts(before, after, now) && (after.status == JobRunning ==> after.lease.Some?)
  }

  /** Two jobs that the index on active jobs tells apart only by being settled. */
  predicate SameLane(a: Target, b: Target) {
    && (if a.node.Some? then a.node.value else "") == (if b.node.Some? then b.node.value else "")
    && a.iteration == b.iteration
  }

  /** The constraints on a new job: its sequence is free, and so is its lane if it is active. */
  predicate MayInsert(jobs: seq<Job>, job: Job) {
    && (job.status == JobRunning ==> job.lease.Some?)
    && (forall i :: 0 <= i < |jobs| ==> jobs[i].sequence != job.sequence)
    && (Active(job.status) ==>
          forall i :: 0 <= i < |jobs| && Active(jobs[i].status) ==> !SameLane(jobs[i].target, job.target))
  }

  predicate StepMayBeAdded(c: Config, s: State, node: string, iteration: nat) {
    && s.run.status in {Pending, Running}
    && node in c.nodes
    && forall i :: 0 <= i < |s.steps| && s.steps[i].node == node ==> s.steps[i].iteration != iteration
  }

  /** The greatest number of an attempt of step `st`. */
  function Greatest(attempts: seq<Attempt>, st: nat): nat {
    if attempts == [] then 0
    else
      var n := |attempts| - 1;
      var rest := Greatest(attempts[..n], st);
      if attempts[n].step == st && rest < attempts[n].number then attempts[n].number else rest
  }

  predicate AttemptMayBeAdded(c: Config, s: State, st: nat)
    requires st < |s.steps|
  {
    && s.run.status == Running && s.steps[st].status in {Pending, Retrying}
    && (forall a :: 0 <= a < |s.attempts| && s.attempts[a].step == st ==> Terminal(s.attempts[a].status))
    && s.steps[st].node in c.nodes
    && Greatest(s.attempts, st) < c.nodes[s.steps[st].node].retry.maxAttempts
  }

  function AddedAttempt(c: Config, s: State, st: nat): Attempt
    requires st < |s.steps| && s.steps[st].node in c.nodes
  {
    var limit := s.clock + c.nodes[s.steps[st].node].timeout;
    Attempt(st, Greatest(s.attempts, st) + 1, s.steps[st].key, Pending,
            if s.run.deadline.Some? then Min(limit, s.run.deadline.value) else limit,
            s.steps[st].input, None, None)
  }

  // ---------- any writer ----------

  /** A write that somebody attempts, or time that passes.  Statuses change through the
      transition authority alone; other fields are written directly. */
  datatype Write =
    | UpdateJob(j: nat, job: Job)
    | InsertJob(job: Job)
    | WriteRun(run: Run)
    | WriteStep(st: nat, step: Step)
    | WriteAttempt(a: nat, attempt: Attempt)
    | MoveRun(to: Status)
    | MoveStep(st: nat, to: Status)
    | MoveAttempt(a: nat, to: Status)
    | AddStep(node: string, iteration: nat)
    | AddAttempt(st: nat)
    | Pass(seconds: nat)

  /** What the guards let through. */
  predicate Allowed(c: Config, s: State, w: Write) {
    match w
    case UpdateJob(j, job) => j < |s.jobs| && JobMayChange(s.jobs[j], job, s.clock)
    case InsertJob(job) => MayInsert(s.jobs, job)
    case WriteRun(run) => !Terminal(s.run.status) && run.status == s.run.status
    case WriteStep(st, step) =>
      st < |s.steps| && !Terminal(s.steps[st].status) && SameIdentity(s.steps[st], step)
      && step.status == s.steps[st].status
    case WriteAttempt(a, attempt) =>
      a < |s.attempts| && !Terminal(s.attempts[a].status) && SameAttempt(s.attempts[a], attempt)
      && attempt.status == s.attempts[a].status
    case MoveRun(to) => RunMayMove(s, to)
    case MoveStep(st, to) => st < |s.steps| && StepMayMove(s, st, to)
    case MoveAttempt(a, to) => a < |s.attempts| && AttemptMayMove(s, a, to)
    case AddStep(node, iteration) => StepMayBeAdded(c, s, node, iteration)
    case AddAttempt(st) => st < |s.steps| && AttemptMayBeAdded(c, s, st)
    case Pass(seconds) => true
  }

  function Written(c: Config, s: State, w: Write): State {
    if !Allowed(c, s, w) then s
    else
      match w
      case UpdateJob(j, job) => s.(jobs := s.jobs[j := job])
      case InsertJob(job) => s.(jobs := s.jobs + [job])
      case WriteRun(run) => s.(run := run)
      case WriteStep(st, step) => s.(steps := s.steps[st := step])
      case WriteAttempt(a, attempt) => s.(attempts := s.attempts[a := attempt])
      case MoveRun(to) => s.(run := s.run.(status := to))
      case MoveStep(st, to) => s.(steps := s.steps[st := s.steps[st].(status := to)])
      case MoveAttempt(a, to) => s.(attempts := s.attempts[a := s.attempts[a].(status := to)])
      case AddStep(node, iteration) => s.(steps := s.steps + [NewStep(node, iteration, Pending)])
      case AddAttempt(st) => s.(attempts := s.attempts + [AddedAttempt(c, s, st)])
      case Pass(seconds) => s.(clock := s.clock + seconds)
  }

  function WriteAll(c: Config, s: State, writes: seq<Write>): State {
    if writes == [] then s
    else Written(c, WriteAll(c, s, writes[..|writes| - 1]), writes[|writes| - 1])
  }

  // ---------- what the guards keep ----------

  /** Sequences are distinct, and no two active jobs share a lane. */
  predicate JobsApart(jobs: seq<Job>) {
    forall i, k :: 0 <= i < k < |jobs| ==>
      && jobs[i].sequence != jobs[k].sequence
      && (Active(jobs[i].status) && Active(jobs[k].status) ==> !SameLane(jobs[i].target, jobs[k].target))
  }

  predicate StepsApart(steps: seq<Step>) {
    && (forall i :: 0 <= i < |steps| ==> steps[i].key == Key(steps[i].node, steps[i].iteration))
    && (forall i, k :: 0 <= i < k < |steps| ==> steps[i].key != steps[k].key)
  }

  /** Attempts belong to steps and are numbered without a gap up to the pinned limit; a
      finished step has only finished attempts, and so has every step but for its last. */
  predicate AttemptsCounted(c: Config, steps: seq<Step>, attempts: seq<Attempt>) {
    && (forall a :: 0 <= a < |attempts| ==> attempts[a].step < |steps|)
    && (forall a :: 0 <= a < |attempts| ==>
          && attempts[a].number == Greatest(attempts[..a], attempts[a].step) + 1
          && attempts[a].key == steps[attempts[a].step].key
          && steps[attempts[a].step].node in c.nodes
          && attempts[a].number <= c.nodes[steps[attempts[a].step].node].retry.maxAttempts
          && (Terminal(steps[attempts[a].step].status) ==> Terminal(attempts[a].status)))
    && (forall a, b :: 0 <= a < b < |attempts| && attempts[a].step == attempts[b].step ==>
          Terminal(attempts[a].status))
  }

  predicate RunCloses(run: Run, steps: seq<Step>) {
    && (Terminal(run.status) ==> forall i :: 0 <= i < |steps| ==> Terminal(steps[i].status))
    && (run.status == Completed ==>
          |steps| > 0 && forall i :: 0 <= i < |steps| ==> Succeeded(steps[i].status))
  }

  predicate InOrder(c: Config, s: State) {
    && JobsApart(s.jobs)
    && StepsApart(s.steps)
    && AttemptsCounted(c, s.steps, s.attempts)
    && RunCloses(s.run, s.steps)
  }

  /** Rows stay, under their identities, and settled rows stay as they are; a finished run
      keeps all its records. */
  predicate Preserves(s: State, t: State) {
    && |s.jobs| <= |t.jobs| && |s.steps| <= |t.steps| && |s.attempts| <= |t.attempts|
    && (forall j :: 0 <= j < |s.jobs| ==>
          && t.jobs[j].sequence == s.jobs[j].sequence && t.jobs[j].target == s.jobs[j].target
          && t.jobs[j].createdAt == s.jobs[j].createdAt)
    && (forall i :: 0 <= i < |s.steps| ==>
          && t.steps[i].node == s.steps[i].node && t.steps[i].iteration == s.steps[i].iteration
          && t.steps[i].key == s.steps[i].key)
    && (forall a :: 0 <= a < |s.attempts| ==>
          && t.attempts[a].step == s.attempts[a].step && t.attempts[a].number == s.attempts[a].number
          && t.attempts[a].key == s.attempts[a].key && t.attempts[a].deadline == s.attempts[a].deadline)
    && (forall j :: 0 <= j < |s.jobs| && !Active(s.jobs[j].status) ==> t.jobs[j] == s.jobs[j])
    && (forall i :: 0 <= i < |s.steps| && Terminal(s.steps[i].status) ==> t.steps[i] == s.steps[i])
    && (forall a :: 0 <= a < |s.attempts| && Terminal(s.attempts[a].status) ==> t.attempts[a] == s.attempts[a])
    && (Terminal(s.run.status) ==> t.run == s.run && t.steps == s.steps && t.attempts == s.attempts)
  }

  lemma JobUpdateKeeps(jobs: seq<Job>, j: nat, job: Job, now: int)
    requires JobsApart(jobs) && j < |jobs| && TriggerAccepts(jobs[j], job, now)
    ensures JobsApart(jobs[j := job])
  { }

  lemma JobInsertKeeps(jobs: seq<Job>, job: Job)
    requires JobsApart(jobs) && MayInsert(jobs, job)
    ensures JobsApart(jobs + [job])
  { }

  /** Numbers depend on the steps and numbers of the attempts alone. */
  lemma {:induction false} SameGreatest(attempts: seq<Attempt>, attempts': seq<Attempt>, st: nat)
    requires |attempts'| == |attempts|
    requires forall i :: 0 <= i < |attempts| ==>
      attempts'[i].step == attempts[i].step && attempts'[i].number == attempts[i].number
    ensures Greatest(attempts', st) == Greatest(attempts, st)
  {
    if attempts != [] {
      var n := |attempts| - 1;
      SameGreatest(attempts[..n], attempts'[..n], st);
    }
  }

  lemma AttemptChangeKeeps(c: Config, steps: seq<Step>, attempts: seq<Attempt>, a: nat, attempt: Attempt)
    requires AttemptsCounted(c, steps, attempts) && a < |attempts|
    requires SameAttempt(attempts[a], attempt)
    requires Terminal(attempts[a].status) ==> attempt == attempts[a]
    ensures AttemptsCounted(c, steps, attempts[a := attempt])
  {
    var attempts' := attempts[a := attempt];
    forall b | 0 <= b < |attempts'|
      ensures attempts'[b].number == Greatest(attempts'[..b], attempts'[b].step) + 1
    {
      SameGreatest(attempts[..b], attempts'[..b], attempts[b].step);
    }
    hide Greatest;
  }

  lemma StepChangeKeeps(c: Config, steps: seq<Step>, attempts: seq<Attempt>, st: nat, step: Step)
    requires AttemptsCounted(c, steps, attempts) && st < |steps| && SameIdentity(steps[st], step)
    requires Terminal(step.status) && !Terminal(steps[st].status) ==>
      forall a :: 0 <= a < |attempts| && attempts[a].step == st ==> Terminal(attempts[a].status)
    ensures AttemptsCounted(c, steps[st := step], attempts)
  { }

  lemma StepAddKeeps(c: Config, s: State, node: string, iteration: nat)
    requires StepsApart(s.steps) && AttemptsCounted(c, s.steps, s.attempts) && RunCloses(s.run, s.steps)
    requires StepMayBeAdded(c, s, node, iteration)
    ensures var steps := s.steps + [NewStep(node, iteration, Pending)];
      StepsApart(steps) && AttemptsCounted(c, steps, s.attempts) && RunCloses(s.run, steps)
  {
    hide Greatest;
  }

  lemma {:induction false} AttemptAddKeeps(c: Config, steps: seq<Step>, attempts: seq<Attempt>, attempt: Attempt)
    requires AttemptsCounted(c, steps, attempts) && attempt.step < |steps|
    requires forall a :: 0 <= a < |attempts| && attempts[a].step == attempt.step ==> Terminal(attempts[a].status)
    requires var step := steps[attempt.step];
      && !Terminal(step.status) && attempt.key == step.key && step.node in c.nodes
      && attempt.number == Greatest(attempts, attempt.step) + 1 <= c.nodes[step.node].retry.maxAttempts
    ensures AttemptsCounted(c, steps, attempts + [attempt])
  {
    hide Greatest;
    var all := attempts + [attempt];
    assert all[..|attempts|] == attempts;
    forall a | 0 <= a < |attempts| ensures all[..a] == attempts[..a] && all[a] == attempts[a] { }
  }

  lemma FinishedRun(c: Config, s: State)
    requires InOrder(c, s) && Terminal(s.run.status)
    ensures forall a :: 0 <= a < |s.attempts| ==> Terminal(s.attempts[a].status)
  {
    hide Greatest, JobsApart;
    forall a | 0 <= a < |s.attempts| ensures Terminal(s.attempts[a].status) {
      assert Terminal(s.steps[s.attempts[a].step].status);
    }
  }

  lemma WritePreserves(c: Config, s: State, w: Write)
    requires InOrder(c, s)
    ensures Preserves(s, Written(c, s, w))
  {
    hide InOrder, Greatest, MayInsert;
    if Terminal(s.run.status) {
      FinishedRun(c, s);
      FinishedSteps(c, s);
    }
  }

  lemma FinishedSteps(c: Config, s: State)
    requires InOrder(c, s) && Terminal(s.run.status)
    ensures forall i :: 0 <= i < |s.steps| ==> Terminal(s.steps[i].status)
  {
    hide AttemptsCounted, JobsApart, StepsApart;
  }

  /** One write keeps the order, whoever makes it. */
  lemma WriteKeeps(c: Config, s: State, w: Write)
    requires InOrder(c, s)
    ensures InOrder(c, Written(c, s, w)) && Preserves(s, Written(c, s, w))
  {
    hide JobsApart, AttemptsCounted, Greatest, MayInsert, SameLane, Preserves;
    WritePreserves(c, s, w);
    if Allowed(c, s, w) {
      if Terminal(s.run.status) { FinishedRun(c, s); }
      match w
      case UpdateJob(j, job) => JobUpdateKeeps(s.jobs, j, job, s.clock);
      case InsertJob(job) => JobInsertKeeps(s.jobs, job);
      case WriteStep(st, step) => StepChangeKeeps(c, s.steps, s.attempts, st, step);
      case WriteAttempt(a, attempt) => AttemptChangeKeeps(c, s.steps, s.attempts, a, attempt);
      case MoveStep(st, to) => StepChangeKeeps(c, s.steps, s.attempts, st, s.steps[st].(status := to));
      case MoveAttempt(a, to) =>
        AttemptChangeKeeps(c, s.steps, s.attempts, a, s.attempts[a].(status := to));
      case AddStep(node, iteration) => StepAddKeeps(c, s, node, iteration);
      case AddAttempt(st) => AttemptAddKeeps(c, s.steps, s.attempts, AddedAttempt(c, s, st));
      case _ =>
    }
  }

  /** Whatever anybody writes through the guards, the rows stay in order, settled rows
      stay as they are, and a finished run keeps all its records. */
  lemma {:induction false} GuardsKeepOrder(c: Config, s: State, writes: seq<Write>)
    requires InOrder(c, s)
    ensures InOrder(c, WriteAll(c, s, writes)) && Preserves(s, WriteAll(c, s, writes))
  {
    hide InOrder, Written;
    if writes == [] {
    } else {
      var init := writes[..|writes| - 1];
      GuardsKeepOrder(c, s, init);
      WriteKeeps(c, WriteAll(c, s, init), writes[|writes| - 1]);
    }
  }

  lemma StartIsInOrder(c: Config, deadline: Option<int>, now: int)
    ensures InOrder(c, Start(deadline, now))
  { }

  /** So every table that grew from an accepted start through the guards is in order. */
  lemma AnyWriter(c: Config, deadline: Option<int>, now: int, writes: seq<Write>)
    ensures InOrder(c, WriteAll(c, Start(deadline, now), writes))
  {
    StartIsInOrder(c, deadline, now);
    hide InOrder, Start;
    GuardsKeepOrder(c, Start(deadline, now), writes);
  }

  // ---------- how often a job can be taken ----------

  /** How many of the writes changed job `j` in the way `what` says. */
  function Times(c: Config, s: State, writes: seq<Write>, j: nat, what: (Job, Job) -> bool): nat {
    if writes == [] then 0
    else
      var before := WriteAll(c, s, writes[..|writes| - 1]);
      var after := WriteAll(c, s, writes);
      Times(c, s, writes[..|writes| - 1], j, what)
      + if j < |before.jobs| && j < |after.jobs| && what(before.jobs[j], after.jobs[j]) then 1 else 0
  }

  /** The job goes to a worker. */
  const Taken: (Job, Job) -> bool :=
    (before: Job, after: Job) => before.status == JobQueued && after.status == JobRunning

  /** The job gets a token that it did not have. */
  const Granted: (Job, Job) -> bool :=
    (before: Job, after: Job) => after.token.Some? && after.token != before.token

  lemma JobAfter(c: Config, s: State, w: Write, j: nat)
    requires j < |s.jobs|
    ensures var t := Written(c, s, w);
      && j < |t.jobs|
      && (t.jobs[j] == s.jobs[j] || TriggerAccepts(s.jobs[j], t.jobs[j], s.clock))
  { }

  /** Only a recovery puts a job back or takes its token away, so whoever writes, a job is
      taken and is given a token at most once more often than it is recovered. */
  lemma {:induction false} TakenWithinRecoveries(c: Config, s: State, writes: seq<Write>, j: nat)
    requires j < |s.jobs|
    ensures j < |WriteAll(c, s, writes).jobs|
    ensures var old_, new_ := s.jobs[j], WriteAll(c, s, writes).jobs[j];
      && old_.recoveries <= new_.recoveries
      && Times(c, s, writes, j, Taken) + (if new_.status == JobQueued then 1 else 0)
         <= new_.recoveries - old_.recoveries + (if old_.status == JobQueued then 1 else 0)
      && Times(c, s, writes, j, Granted) + (if new_.token.None? then 1 else 0)
         <= new_.recoveries - old_.recoveries + (if old_.token.None? then 1 else 0)
  {
    if writes == [] {
    } else {
      var init, last := writes[..|writes| - 1], writes[|writes| - 1];
      TakenWithinRecoveries(c, s, init, j);
      JobAfter(c, WriteAll(c, s, init), last, j);
      hide Written;
    }
  }

  // ---------- how a worker loses a job ----------

  /** Something of the worker's claim was replaced: the token, or a mark that it had made. */
  predicate Replaced(before: Job, after: Job) {
    || after.token != before.token
    || (before.attempt.Some? && after.attempt != before.attempt)
    || (before.dispatchedAt.Some? && after.dispatchedAt != before.dispatchedAt)
  }

  /** The job went back to the queue, counted as a recovery, after its lease had run out. */
  predicate LostByExpiry(before: Job, after: Job, now: int) {
    && before.status == JobRunning && before.lease.Some? && before.lease.value <= now
    && after.status == JobQueued && after.recoveries == before.recoveries + 1
  }

  lemma ReplacedByExpiry(held: Job, before: Job, after: Job, now: int)
    requires held.token.Some? && !Replaced(held, before) && Replaced(held, after)
    requires TriggerAccepts(before, after, now)
    ensures before.token == held.token && LostByExpiry(before, after, now)
  { }

  lemma LastWrite(c: Config, s: State, writes: seq<Write>, j: nat)
    requires writes != [] && j < |WriteAll(c, s, writes[..|writes| - 1]).jobs|
    ensures var p, q := WriteAll(c, s, writes[..|writes| - 1]), WriteAll(c, s, writes);
      && j < |q.jobs|
      && (q.jobs[j] == p.jobs[j] || TriggerAccepts(p.jobs[j], q.jobs[j], p.clock))
  {
    hide Written, TriggerAccepts;
    JobAfter(c, WriteAll(c, s, writes[..|writes| - 1]), writes[|writes| - 1], j);
  }

  lemma {:induction false} JobsStay(c: Config, s: State, writes: seq<Write>, j: nat)
    requires j < |s.jobs|
    ensures j < |WriteAll(c, s, writes).jobs|
  {
    hide TriggerAccepts;
    if writes != [] {
      JobsStay(c, s, writes[..|writes| - 1], j);
      LastWrite(c, s, writes, j);
    }
  }

  /** Whatever anybody writes, a worker that has a job keeps its claim until, at some write,
      its lease has run out and the job is recovered. */
  lemma {:induction false} ClaimsEndByExpiry(c: Config, s: State, writes: seq<Write>, j: nat) returns (i: nat)
    requires j < |s.jobs| && s.jobs[j].token.Some?
    requires var t := WriteAll(c, s, writes); j < |t.jobs| ==> Replaced(s.jobs[j], t.jobs[j])
    ensures i < |writes|
    ensures var p, q := WriteAll(c, s, writes[..i]), WriteAll(c, s, writes[..i + 1]);
      && j < |p.jobs| && j < |q.jobs| && p.jobs[j].token == s.jobs[j].token
      && LostByExpiry(p.jobs[j], q.jobs[j], p.clock)
  {
    JobsStay(c, s, writes, j);
    assert writes != [];
    hide WriteAll, LostByExpiry, TriggerAccepts;
    i := |writes| - 1;
    JobsStay(c, s, writes[..i], j);
    LastWrite(c, s, writes, j);
    assert writes[..i + 1] == writes;
    if Replaced(s.jobs[j], WriteAll(c, s, writes[..i]).jobs[j]) {
      var init := writes[..i];
      i := ClaimsEndByExpiry(c, s, init, j);
      assert init[..i] == writes[..i] && init[..i + 1] == writes[..i + 1];
    } else {
      var p, q := WriteAll(c, s, writes[..i]), WriteAll(c, s, writes);
      ReplacedByExpiry(s.jobs[j], p.jobs[j], q.jobs[j], p.clock);
    }
  }
}
