/** What each transaction of `PostgresControlStore` does to the database, as a function of
    the rows it finds.  A transaction commits with a new database or aborts with an error and
    leaves the old one. */
module Transactions {
  import opened Records
  import opened Text

  datatype Db = Db(
    conversations: map<ConversationId, Conversation>,
    runs: map<RunId, Run>,
    idempotency: map<Key, Prior>,
    attempts: map<AttemptId, Attempt>,
    actions: map<ActionId, Action>,
    plans: map<RunId, Plan>,
    leases: map<Resource, LeaseRow>)

  datatype Constraint =
    | PrimaryKey
    | RunsConversationSequence
    | RunsConversationActive
    | AttemptsRunNumber
    | ActionsPendingRun
    | PlansRun

  datatype StoreError =
    | LeaseLost
    | RevisionConflict
    | NotFound
    | InvalidArgument
    | UniqueViolation(constraint: Constraint)
    | ForeignKeyViolation
    | ConversationNotActive
    | IdentityMismatch
    | IdempotencyConflict
    | PendingRequiredAction

  datatype Outcome = Committed(db: Db) | Aborted(error: StoreError) {
    predicate IsFailure() { Aborted? }

    function PropagateFailure(): Outcome
      requires Aborted?
    {
      this
    }

    function Extract(): Db
      requires Committed?
    {
      db
    }

    /** The database after the transaction, whichever way it ended. */
    function Final(before: Db): Db {
      if Committed? then db else before
    }
  }

  const EMPTY := Db(map[], map[], map[], map[], map[], map[], map[])

  // ----- Leases -----

  predicate LeaseCurrent(db: Db, lease: Lease) {
    && lease.resource in db.leases
    && db.leases[lease.resource].worker == lease.worker
    && db.leases[lease.resource].token == lease.token
  }

  predicate LeaseValid(db: Db, lease: Lease, now: Instant) {
    LeaseCurrent(db, lease) && db.leases[lease.resource].expiresAt > now
  }

  function AssertLease(db: Db, lease: Option<Lease>, now: Instant): Outcome {
    if lease.None? || LeaseValid(db, lease.value, now) then Committed(db) else Aborted(LeaseLost)
  }

  predicate Busy(db: Db, c: ConversationId) {
    exists r :: r in db.runs && InConversation(db.runs[r], c) && Occupying(db.runs[r].status)
  }

  /** A row of the candidate SELECT of `claim_work`. */
  predicate Runnable(db: Db, r: RunId) {
    && r in db.runs
    && db.runs[r].status.QUEUED?
    && (db.runs[r].place.Some? ==>
          var c := db.runs[r].place.value.conversation;
          c in db.conversations && db.conversations[c].status.ACTIVE? && !Busy(db, c))
  }

  predicate Claimable(db: Db, resource: Resource, now: Instant) {
    resource !in db.leases || db.leases[resource].expiresAt <= now
  }

  /** The token the next grant of a resource carries. */
  function NextToken(db: Db, resource: Resource): nat {
    if resource in db.leases then db.leases[resource].token + 1 else 1
  }

  function Grant(db: Db, resource: Resource, worker: string, expiresAt: Instant): (granted: (Db, Lease)) {
    var token := NextToken(db, resource);
    (db.(leases := db.leases[resource := LeaseRow(worker, token, expiresAt)]), Lease(resource, worker, token))
  }

  datatype Claim = Granted(db: Db, lease: Lease) | NoWork | BadClaim

  /** The position of the first candidate whose resource nobody holds. */
  function FirstClaimable(db: Db, candidates: seq<RunId>, now: Instant): (k: nat)
    requires forall i :: 0 <= i < |candidates| ==> candidates[i] in db.runs
    ensures k <= |candidates|
    ensures forall i :: 0 <= i < k ==> !Claimable(db, ResourceOf(db.runs[candidates[i]]), now)
    ensures k < |candidates| ==> Claimable(db, ResourceOf(db.runs[candidates[k]]), now)
  {
    if candidates == [] || Claimable(db, ResourceOf(db.runs[candidates[0]]), now) then 0
    else 1 + FirstClaimable(db, candidates[1..], now)
  }

  /** `candidates` are the Runnable rows the SELECT returned, in its order: at most 32, and
      without the rows that other transactions hold locked. */
  function ClaimWork(db: Db, candidates: seq<RunId>, worker: string, seconds: int, now: Instant): Claim
    requires forall i :: 0 <= i < |candidates| ==> candidates[i] in db.runs
  {
    if Blank(worker) || seconds <= 0 then
      BadClaim
    else
      var k := FirstClaimable(db, candidates, now);
      if k == |candidates| then
        NoWork
      else
        var (db', lease) := Grant(db, ResourceOf(db.runs[candidates[k]]), worker, now + seconds);
        Granted(db', lease)
  }

  function Expire(db: Db, resource: Resource, expiresAt: Instant): Db
    requires resource in db.leases
  {
    db.(leases := db.leases[resource := db.leases[resource].(expiresAt := expiresAt)])
  }

  function RenewLease(db: Db, lease: Lease, seconds: int, now: Instant): Db {
    if seconds > 0 && LeaseValid(db, lease, now) then Expire(db, lease.resource, now + seconds) else db
  }

  function ReleaseLease(db: Db, lease: Lease, now: Instant): Db {
    if LeaseCurrent(db, lease) then Expire(db, lease.resource, now) else db
  }

  // ----- Row writes -----

  predicate OccupiedByAnother(db: Db, run: Run) {
    && run.place.Some?
    && Occupying(run.status)
    && exists r :: r in db.runs && r != run.id && InConversation(db.runs[r], run.place.value.conversation)
                   && Occupying(db.runs[r].status)
  }

  /** `UPDATE runs ... WHERE run_id = $ AND revision = $`, with the constraints of the table. */
  function UpdateRun(db: Db, run: Run, expected: nat): Outcome {
    if run.id !in db.runs || db.runs[run.id].revision != expected then
      Aborted(RevisionConflict)
    else if OccupiedByAnother(db, run) then
      Aborted(UniqueViolation(RunsConversationActive))
    else if run.activeAttempt.Some? && run.activeAttempt.value !in db.attempts then
      Aborted(ForeignKeyViolation)
    else
      Committed(db.(runs := db.runs[run.id := run]))
  }

  function UpdateAttempt(db: Db, attempt: Attempt, expected: nat): Outcome {
    if attempt.id !in db.attempts || db.attempts[attempt.id].revision != expected then
      Aborted(RevisionConflict)
    else
      Committed(db.(attempts := db.attempts[attempt.id := attempt]))
  }

  function UpdateAction(db: Db, action: Action, expected: nat, status: ActionStatus): Outcome {
    if action.id !in db.actions || db.actions[action.id].revision != expected
       || db.actions[action.id].status != status then
      Aborted(RevisionConflict)
    else
      Committed(db.(actions := db.actions[action.id := action]))
  }

  function UpdatePlan(db: Db, plan: Plan, expected: nat): Outcome {
    if plan.run !in db.plans || db.plans[plan.run].id != plan.id || db.plans[plan.run].revision != expected then
      Aborted(RevisionConflict)
    else
      Committed(db.(plans := db.plans[plan.run := plan]))
  }

  function InsertRun(db: Db, run: Run): Outcome {
    if run.id in db.runs then
      Aborted(UniqueViolation(PrimaryKey))
    else if run.place.Some? && exists r :: r in db.runs && db.runs[r].place == run.place then
      Aborted(UniqueViolation(RunsConversationSequence))
    else
      Committed(db.(runs := db.runs[run.id := run]))
  }

  function InsertAttempt(db: Db, attempt: Attempt): Outcome {
    if attempt.id in db.attempts then
      Aborted(UniqueViolation(PrimaryKey))
    else if attempt.run !in db.runs then
      Aborted(ForeignKeyViolation)
    else if exists a :: a in db.attempts && db.attempts[a].run == attempt.run
                        && db.attempts[a].number == attempt.number then
      Aborted(UniqueViolation(AttemptsRunNumber))
    else
      Committed(db.(attempts := db.attempts[attempt.id := attempt]))
  }

  function InsertAction(db: Db, action: Action): Outcome {
    if action.id in db.actions then
      Aborted(UniqueViolation(PrimaryKey))
    else if action.run !in db.runs || action.attempt !in db.attempts then
      Aborted(ForeignKeyViolation)
    else if action.status.Pending?
            && exists x :: x in db.actions && db.actions[x].run == action.run && db.actions[x].status.Pending? then
      Aborted(UniqueViolation(ActionsPendingRun))
    else
      Committed(db.(actions := db.actions[action.id := action]))
  }

  function InsertPlan(db: Db, plan: Plan): Outcome {
    if exists r :: r in db.plans && db.plans[r].id == plan.id then
      Aborted(UniqueViolation(PrimaryKey))
    else if plan.run in db.plans then
      Aborted(UniqueViolation(PlansRun))
    else
      Committed(db.(plans := db.plans[plan.run := plan]))
  }

  // ----- Transactions -----

  function CreateConversation(db: Db, conversation: Conversation): Outcome {
    if conversation.id in db.conversations then
      Aborted(UniqueViolation(PrimaryKey))
    else
      Committed(db.(conversations := db.conversations[conversation.id := conversation]))
  }

  function ReplaceConversation(db: Db, conversation: Conversation, expected: nat): Outcome {
    if conversation.revision != expected + 1 then
      Aborted(InvalidArgument)
    else if conversation.id !in db.conversations || db.conversations[conversation.id].revision != expected then
      Aborted(RevisionConflict)
    else
      Committed(db.(conversations := db.conversations[conversation.id := conversation]))
  }

  predicate SameIdentity(request: Request, conversation: Conversation) {
    && request.tenant == conversation.tenant
    && request.principal == conversation.principal
    && request.agent == conversation.agent
    && request.fingerprint == conversation.fingerprint
  }

  /** A submission creates a Run, finds the Run an earlier one created, or fails. */
  datatype Submission = Created(db: Db, run: Run) | Replayed(run: Run) | Refused(error: StoreError) {
    function Final(before: Db): Db {
      if Created? then db else before
    }
  }

  function RecordKey(db: Db, run: Run, key: Option<string>, digest: Digest): Db {
    if key.None? then db
    else db.(idempotency := db.idempotency[Key(run.request.tenant, key.value) := Prior(digest, run.id)])
  }

  function Insert(db: Db, run: Run, key: Option<string>, digest: Digest): Submission {
    match InsertRun(db, run)
    case Aborted(error) => Refused(error)
    case Committed(db') => Created(RecordKey(db', run, key, digest), run)
  }

  function FindPrior(db: Db, prior: Prior, digest: Digest): Submission {
    if prior.digest != digest then Refused(IdempotencyConflict)
    else if prior.run !in db.runs then Refused(NotFound)
    else Replayed(db.runs[prior.run])
  }

  function CreateConversationRun(db: Db, c: ConversationId, run: Run, key: Option<string>, digest: Digest): Submission {
    if c !in db.conversations then
      Refused(NotFound)
    else
      var conversation := db.conversations[c];
      if !conversation.status.ACTIVE? then
        Refused(ConversationNotActive)
      else if !SameIdentity(run.request, conversation) then
        Refused(IdentityMismatch)
      else if key.Some? && Key(run.request.tenant, key.value) in db.idempotency then
        FindPrior(db, db.idempotency[Key(run.request.tenant, key.value)], digest)
      else if exists r :: r in db.runs && InConversation(db.runs[r], c) && db.runs[r].status.WAITING? then
        Refused(PendingRequiredAction)
      else
        var persisted := run.(place := Some(Place(c, conversation.nextSequence)));
        var advanced := conversation.(nextSequence := conversation.nextSequence + 1,
                                      revision := conversation.revision + 1);
        Insert(db.(conversations := db.conversations[c := advanced]), persisted, key, digest)
  }

  function CreateRun(db: Db, run: Run, key: Option<string>, digest: Digest): Submission {
    if key.Some? && Key(run.request.tenant, key.value) in db.idempotency then
      FindPrior(db, db.idempotency[Key(run.request.tenant, key.value)], digest)
    else
      Insert(db, run, key, digest)
  }

  function ReplaceRun(db: Db, run: Run, expected: nat): Outcome {
    if run.revision != expected + 1 then Aborted(InvalidArgument) else UpdateRun(db, run, expected)
  }

  /** `action` carries the consumed Action and the revision expected of its row. */
  function BeginAttempt(db: Db, run: Run, attempt: Attempt, expectedRun: nat, lease: Option<Lease>,
                        action: Option<(Action, nat)>, now: Instant): Outcome
  {
    if run.revision != expectedRun + 1 || (action.Some? && action.value.0.revision != action.value.1 + 1) then
      Aborted(InvalidArgument)
    else
      var db1 :- AssertLease(db, lease, now);
      var db2 :- InsertAttempt(db1, attempt);
      var db3 :- UpdateRun(db2, run, expectedRun);
      if action.None? then Committed(db3) else UpdateAction(db3, action.value.0, action.value.1, Answered)
  }

  function ReplaceAttempt(db: Db, attempt: Attempt, expected: nat, lease: Option<Lease>, now: Instant): Outcome {
    if attempt.revision != expected + 1 then
      Aborted(InvalidArgument)
    else
      var db1 :- AssertLease(db, lease, now);
      UpdateAttempt(db1, attempt, expected)
  }

  function SettleAttempt(db: Db, run: Run, attempt: Attempt, expectedRun: nat, expectedAttempt: nat,
                         lease: Option<Lease>, action: Option<(Action, nat)>, now: Instant): Outcome
  {
    if run.revision != expectedRun + 1 || attempt.revision != expectedAttempt + 1
       || (action.Some? && action.value.0.revision != action.value.1 + 1) then
      Aborted(InvalidArgument)
    else
      var db1 :- AssertLease(db, lease, now);
      var db2 :- UpdateAttempt(db1, attempt, expectedAttempt);
      var db3 :- UpdateRun(db2, run, expectedRun);
      if action.None? then Committed(db3) else UpdateAction(db3, action.value.0, action.value.1, Pending)
  }

  function WaitingRun(run: Run, action: ActionId): Run {
    run.(status := WAITING, requiredAction := Some(action), revision := run.revision + 1)
  }

  function WaitingAttempt(attempt: Attempt): Attempt {
    attempt.(status := AttemptWaiting, dispatch := SETTLED, revision := attempt.revision + 1)
  }

  function EnterRequiredAction(db: Db, action: Action, lease: Option<Lease>, now: Instant): Outcome {
    if !action.status.Pending? then
      Aborted(InvalidArgument)
    else
      var db1 :- AssertLease(db, lease, now);
      if action.run !in db1.runs || action.attempt !in db1.attempts then
        Aborted(NotFound)
      else
        var run, attempt := db1.runs[action.run], db1.attempts[action.attempt];
        if !run.status.RUNNING? || run.activeAttempt != Some(attempt.id) || !attempt.status.AttemptRunning? then
          Aborted(RevisionConflict)
        else if (if run.place.Some? then Some(run.place.value.conversation) else None) != action.conversation then
          Aborted(InvalidArgument)
        else
          var db2 :- InsertAction(db1, action);
          var db3 :- UpdateAttempt(db2, WaitingAttempt(attempt), attempt.revision);
          UpdateRun(db3, WaitingRun(run, action.id), run.revision)
  }

  function AnswerRequiredAction(db: Db, run: Run, action: Action, expectedRun: nat, expectedAction: nat): Outcome {
    if run.revision != expectedRun + 1 || action.revision != expectedAction + 1 then
      Aborted(InvalidArgument)
    else
      var db1 :- UpdateAction(db, action, expectedAction, Pending);
      UpdateRun(db1, run, expectedRun)
  }

  function CompletePlanning(db: Db, run: Run, attempt: Attempt, plan: Plan, action: Action, expectedRun: nat,
                            expectedAttempt: nat, lease: Option<Lease>, now: Instant): Outcome
  {
    if run.revision != expectedRun + 1 || attempt.revision != expectedAttempt + 1
       || plan.run != run.id || attempt.run != run.id || action.run != run.id || action.attempt != attempt.id
       || !action.kind.PlanApproval? || !action.status.Pending? || run.requiredAction != Some(action.id) then
      Aborted(InvalidArgument)
    else
      var db1 :- AssertLease(db, lease, now);
      var db2 :- UpdateAttempt(db1, attempt, expectedAttempt);
      var db3 :- UpdateRun(db2, run, expectedRun);
      var db4 :- InsertPlan(db3, plan);
      InsertAction(db4, action)
  }

  function DecidePlan(db: Db, run: Run, plan: Plan, action: Action, expectedRun: nat, expectedPlan: nat,
                      expectedAction: nat): Outcome
  {
    if run.revision != expectedRun + 1 || plan.revision != expectedPlan + 1 || action.revision != expectedAction + 1
       || plan.run != run.id || action.run != run.id || !action.kind.PlanApproval? then
      Aborted(InvalidArgument)
    else
      var db1 :- UpdatePlan(db, plan, expectedPlan);
      var db2 :- UpdateRun(db1, run, expectedRun);
      UpdateAction(db2, action, expectedAction, Pending)
  }

  // ----- Recovery -----

  predicate LeaseHolds(db: Db, resource: Resource, fence: Fence, now: Instant) {
    LeaseValid(db, Lease(resource, fence.worker, fence.token), now)
  }

  /** A row of the SELECT of `interrupt_expired_attempts`: a running Attempt whose own lease
      is gone or has expired. */
  predicate Abandoned(db: Db, r: RunId, now: Instant) {
    && r in db.runs
    && db.runs[r].status.RUNNING?
    && db.runs[r].activeAttempt.Some?
    && db.runs[r].activeAttempt.value in db.attempts
    && var attempt := db.attempts[db.runs[r].activeAttempt.value];
       && attempt.status.AttemptRunning?
       && attempt.fence.Some?
       && !LeaseHolds(db, ResourceOf(db.runs[r]), attempt.fence.value, now)
  }

  function InterruptedAttempt(attempt: Attempt): Attempt {
    attempt.(status := AttemptInterrupted, dispatch := UNKNOWN, revision := attempt.revision + 1)
  }

  function FailedRun(run: Run): Run {
    run.(status := FAILED, revision := run.revision + 1)
  }

  function Min(a: int, b: int): int {
    if a <= b then a else b
  }

  function LowerLease(leases: map<Resource, LeaseRow>, lease: Lease, now: Instant): map<Resource, LeaseRow> {
    if lease.resource in leases && leases[lease.resource].worker == lease.worker
       && leases[lease.resource].token == lease.token then
      leases[lease.resource := leases[lease.resource].(expiresAt := Min(leases[lease.resource].expiresAt, now))]
    else
      leases
  }

  /** The loop body of `interrupt_expired_attempts` for one selected row. */
  function Interrupt(db: Db, run: Run, attempt: Attempt, now: Instant): Outcome
    requires attempt.fence.Some?
  {
    var lease := Lease(ResourceOf(run), attempt.fence.value.worker, attempt.fence.value.token);
    var db1 :- UpdateAttempt(db, InterruptedAttempt(attempt), attempt.revision);
    var db2 :- UpdateRun(db1, FailedRun(run), run.revision);
    Committed(db2.(leases := LowerLease(db2.leases, lease, now)))
  }

  /** The whole recovery pass over the rows that its SELECT returned. */
  function InterruptAll(db: Db, picks: seq<(Run, Attempt)>, now: Instant): Outcome
    requires forall i :: 0 <= i < |picks| ==> picks[i].1.fence.Some?
    decreases |picks|
  {
    if picks == [] then
      Committed(db)
    else
      var db1 :- Interrupt(db, picks[0].0, picks[0].1, now);
      InterruptAll(db1, picks[1..], now)
  }

  /** The pair of payloads the SELECT returns for an abandoned Run. */
  function Pick(db: Db, r: RunId, now: Instant): (Run, Attempt)
    requires Abandoned(db, r, now)
  {
    (db.runs[r], db.attempts[db.runs[r].activeAttempt.value])
  }
}
