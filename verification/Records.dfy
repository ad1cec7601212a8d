/** The rows of one durable execution: the run, its logical steps, their attempts, the
    queue jobs and the approval snapshots.

    A row's identity is its position in its table, which plays the part of a fresh
    uuid4.  A JSON value is its canonical text, and a SHA-256 digest is the tuple that
    is digested, so that digests are injective. */
module Records {
  datatype Option<+T> = None | Some(value: T)

  type Json = string

  // ---------- status values ----------

  datatype Status =
    | Pending | Running | Waiting | Retrying
    | Completed | Failed | Cancelled | Skipped

  predicate Terminal(s: Status) {
    s in {Completed, Failed, Cancelled, Skipped}
  }

  predicate Succeeded(s: Status) {
    s in {Completed, Skipped}
  }

  datatype JobStatus = JobQueued | JobRunning | JobCompleted | JobFailed | JobCancelled

  predicate Active(s: JobStatus) {
    s in {JobQueued, JobRunning}
  }

  datatype ApprovalStatus =
    | AwaitingDecision | Approved | Rejected | RetryRequested
    | Superseded | Invalidated | ApprovalCancelled | ApprovalExpired

  // ---------- the pinned workflow version ----------

  datatype RetryPolicy = RetryPolicy(maxAttempts: nat, retryable: set<string>)

  /** An approval node's configuration.  `validate` is the output schema together with
      the registered validator, which may also rewrite the payload. */
  datatype Gate = Gate(
    deadline: Option<nat>,
    timeoutRejects: bool,
    maxReviewRetries: nat,
    reviewers: set<string>,
    validate: Json -> Option<Json>)

  /** `at` is the absolute wake time, used when no relative duration is given. */
  datatype Timer = Timer(seconds: Option<nat>, at: int, acceptsEmpty: bool)

  datatype Kind = Work | Delay(timer: Timer) | Approval(gate: Gate)

  datatype Node = Node(kind: Kind, timeout: nat, retry: RetryPolicy)

  datatype Config = Config(nodes: map<string, Node>, maxRecoveries: nat, leaseSeconds: nat)

  predicate ConfigOk(c: Config) {
    && c.nodes.Keys != {}
    && (forall n :: n in c.nodes ==>
          && c.nodes[n].retry.maxAttempts >= 1
          && (c.nodes[n].kind.Approval? ==> c.nodes[n].kind.gate.reviewers != {}))
  }

  // ---------- rows ----------

  /** A `Good` value or the code of a typed execution error. */
  datatype Outcome<+T> = Good(value: T) | Bad(code: string)

  datatype Retry = Retry(node: string, iteration: nat, payload: Json, feedback: Option<string>)

  datatype Run = Run(
    status: Status,
    revision: nat,
    cancelRequested: bool,
    deadline: Option<int>,
    error: Option<string>,
    retry: Option<Retry>,
    output: Option<Json>)

  /** The resolved input of a step: for an approval node it may carry a payload and a
      structured review. */
  datatype Input = Input(text: Json, payload: Option<Json>, review: Option<Review>)

  datatype Review = Review(text: Json, severe: bool)

  datatype Key = Key(node: string, iteration: nat)

  datatype WaitReason = NotWaiting | ForDelay | ForApproval

  datatype Step = Step(
    node: string,
    iteration: nat,
    key: Key,
    status: Status,
    input: Option<Input>,
    output: Option<Json>,
    waiting: WaitReason,
    wakeAt: Option<int>,
    nextAttemptAt: Option<int>,
    error: Option<string>)

  datatype Attempt = Attempt(
    step: nat,
    number: nat,
    key: Key,
    status: Status,
    deadline: int,
    input: Option<Input>,
    output: Option<Json>,
    error: Option<string>)

  /** The branch target of a job; every job of a linear run has the target `Main`. */
  datatype Target = Target(node: Option<string>, iteration: nat, branch: string)

  const Main := Target(None, 0, "main")

  datatype Job = Job(
    sequence: nat,
    target: Target,
    createdAt: int,
    status: JobStatus,
    token: Option<nat>,
    attempt: Option<nat>,
    dispatchedAt: Option<int>,
    dueAt: int,
    lease: Option<int>,
    recoveries: nat,
    completedAt: Option<int>,
    error: Option<string>)

  datatype Source = Source(step: nat, node: string, iteration: nat, input: Option<Input>)

  datatype PayloadDigest = PayloadDigest(source: Source, payload: Json, review: Review, revision: nat)

  datatype Action = Approve | Reject | RequestRetry | Edit(payload: Json)

  datatype Request = Request(action: Action, expected: PayloadDigest, feedback: Option<string>)

  datatype Snapshot = Snapshot(
    step: nat,
    node: string,
    iteration: nat,
    revision: nat,
    status: ApprovalStatus,
    source: Source,
    digest: PayloadDigest,
    payload: Json,
    review: Review,
    feedback: Option<string>,
    expiresAt: Option<int>,
    resolvedAt: Option<int>,
    decidedBy: Option<string>,
    request: Option<Request>,
    replacement: Option<nat>)

  /** Everything one execution owns, with the database clock and the supply of fresh
      claim tokens. */
  datatype State = State(
    run: Run,
    steps: seq<Step>,
    attempts: seq<Attempt>,
    jobs: seq<Job>,
    approvals: seq<Snapshot>,
    clock: int,
    tokens: nat)

  predicate Reached(deadline: Option<int>, now: int) {
    deadline.Some? && now >= deadline.value
  }

  function Max(a: int, b: int): int {
    if a < b then b else a
  }

  function Min(a: int, b: int): int {
    if a < b then a else b
  }
}
