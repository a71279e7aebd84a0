/** The rows of the control store and the values its callers exchange.

    Identifiers are opaque integers and instants are integers.  Columns that no rule of the
    control plane ever reads back (output, error text, creation times) are not kept. */
module Records {
  import PlanGraph

  datatype Option<+T> = None | Some(value: T)

  type RunId = int
  type AttemptId = int
  type ActionId = int
  type PlanId = int
  type ConversationId = int
  type Instant = int

  datatype RunStatus = QUEUED | RUNNING | WAITING | SUCCEEDED | FAILED | CANCELLED

  datatype RunPhase = DIRECT | PLANNING | WAITING_APPROVAL | EXECUTING | COMPLETED

  datatype AttemptStatus =
    | AttemptRunning
    | AttemptWaiting
    | AttemptSucceeded
    | AttemptFailed
    | AttemptCancelled
    | AttemptInterrupted

  datatype DispatchState = NOT_SENT | DISPATCHING | ACCEPTED | SETTLED | UNKNOWN

  datatype ConversationStatus = ACTIVE | BLOCKED | CLOSED

  datatype ActionKind = UserInput | PlanApproval

  datatype ActionStatus = Pending | Answered | Consumed | Expired | ActionCancelled

  datatype PlanStatus = Proposed | Approved | Rejected

  /** Who asked for what: the part of a Run that never changes. */
  datatype Request = Request(
    tenant: string,
    principal: string,
    agent: string,
    fingerprint: string,
    input: string,
    metadata: string)

  /** `conversation_id` and `sequence` are both NULL or both set (CHECK constraint). */
  datatype Place = Place(conversation: ConversationId, sequence: nat)

  datatype Run = Run(
    id: RunId,
    place: Option<Place>,
    request: Request,
    phase: RunPhase,
    status: RunStatus,
    revision: nat,
    attemptCount: nat,
    activeAttempt: Option<AttemptId>,
    requiredAction: Option<ActionId>,
    plan: Option<PlanId>,
    cancelRequested: bool)

  /** The `worker_id` and `lease_token` columns of an Attempt. */
  datatype Fence = Fence(worker: string, token: nat)

  datatype Attempt = Attempt(
    id: AttemptId,
    run: RunId,
    number: nat,
    phase: RunPhase,
    status: AttemptStatus,
    dispatch: DispatchState,
    fence: Option<Fence>,
    revision: nat)

  datatype Conversation = Conversation(
    id: ConversationId,
    tenant: string,
    principal: string,
    agent: string,
    fingerprint: string,
    status: ConversationStatus,
    nextSequence: nat,
    revision: nat)

  /** The identity of a Plan that a decision has to name. */
  datatype PlanRef = PlanRef(plan: PlanId, revision: nat, sha256: string)

  datatype Payload = Questions(text: string) | Proposal(ref: PlanRef)

  datatype Response = Answers(text: string) | Decision(approve: bool, ref: PlanRef)

  datatype Action = Action(
    id: ActionId,
    run: RunId,
    attempt: AttemptId,
    conversation: Option<ConversationId>,
    tenant: string,
    principal: string,
    kind: ActionKind,
    status: ActionStatus,
    payload: Payload,
    response: Option<Response>,
    expiresAt: Option<Instant>,
    consumedBy: Option<AttemptId>,
    revision: nat)

  datatype WorkflowArgs =
    | WorkflowArgs(
        workflowId: string,
        workflowVersion: string,
        originalInput: string,
        approvedTools: seq<string>,
        steps: seq<PlanGraph.PlanStep>)
    | OtherArgs(json: string)

  /** The part of a Plan that is compiled, shown for approval and run. */
  datatype PlanContent = PlanContent(
    summary: string,
    steps: seq<PlanGraph.PlanStep>,
    tools: seq<string>,
    workflowId: string,
    workflowVersion: string,
    scriptSha256: string,
    args: WorkflowArgs,
    argsSha256: string)

  datatype Plan = Plan(
    id: PlanId,
    run: RunId,
    status: PlanStatus,
    revision: nat,
    sha256: string,
    decidedBy: Option<string>,
    content: PlanContent)

  datatype Resource = RunResource(run: RunId) | ConversationResource(conversation: ConversationId)

  /** A row of `worker_leases`. */
  datatype LeaseRow = LeaseRow(worker: string, token: nat, expiresAt: Instant)

  /** What a Worker holds in its hand after a claim. */
  datatype Lease = Lease(resource: Resource, worker: string, token: nat)

  datatype Key = Key(tenant: string, idempotencyKey: string)

  /** A collision-free digest of a submission is the submission itself. */
  datatype Digest = Digest(
    fingerprint: string,
    conversation: Option<ConversationId>,
    input: string,
    metadata: string,
    principal: string)

  datatype Prior = Prior(digest: Digest, run: RunId)

  predicate Terminal(status: RunStatus) {
    status.SUCCEEDED? || status.FAILED? || status.CANCELLED?
  }

  /** The statuses covered by the unique index `uq_runs_conversation_active`. */
  predicate Occupying(status: RunStatus) {
    status.RUNNING? || status.WAITING?
  }

  predicate AttemptTerminal(status: AttemptStatus) {
    !status.AttemptRunning? && !status.AttemptWaiting?
  }

  predicate InConversation(run: Run, c: ConversationId) {
    run.place.Some? && run.place.value.conversation == c
  }

  function ResourceOf(run: Run): Resource {
    if run.place.Some? then ConversationResource(run.place.value.conversation) else RunResource(run.id)
  }

  function DigestOf(request: Request, conversation: Option<ConversationId>): Digest {
    Digest(request.fingerprint, conversation, request.input, request.metadata, request.principal)
  }

  lemma NotEmpty(ids: set<int>)
    requires ids != {}
    ensures exists id :: id in ids
  {
    assert (forall id :: id !in ids) ==> ids == {};
  }
}
