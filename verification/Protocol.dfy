/** The control plane in Worker mode as a step system: one database, the tasks that hold a
    Worker lease, and any number of API calls.

    Every transaction is one atomic step.  Everything a task or a call read before its
    transaction may be out of date by then: a step takes its snapshots as arguments, and they
    may be any values that the rows have ever had (`seen`), of any mixture of ages.  A step
    whose own checks or whose transaction fail changes no row, so every sequence of steps is a
    history of the system. */
module Protocol {
  import PlanCompiler
  import opened Records
  import opened Transactions

  datatype Principal = Principal(tenant: string, id: string)

  /** What the DSH turn of an Attempt is given to work on. */
  datatype TurnInput = OriginalInput(text: string) | ActionResponse(action: ActionId, response: Response)

  /** Where the sequential task of one lease stands. */
  datatype Task =
    | Idle
    | Selected(run: RunId)
    | Executing(run: RunId, attempt: AttemptId, phase: RunPhase, input: TurnInput, asked: bool)

  /** `later` pairs a Run with the Actions read after it: what a reader can hold who reads the
      Run first. */
  datatype Seen = Seen(
    runs: set<Run>,
    attempts: set<Attempt>,
    actions: set<Action>,
    plans: set<Plan>,
    conversations: set<Conversation>,
    later: set<(Run, Action)>)

  /** A submission that carried an idempotency key and was accepted. */
  datatype Submitted = Submitted(key: Key, digest: Digest, run: RunId, created: bool)

  /** `credits`, `approvals` and `submissions` only record what happened. */
  datatype System = System(
    db: Db,
    seen: Seen,
    tasks: map<Lease, Task>,
    clock: Instant,
    credits: map<RunId, nat>,
    approvals: map<RunId, PlanRef>,
    submissions: seq<Submitted>)

  const INITIAL := System(EMPTY, Seen({}, {}, {}, {}, {}, {}), map[], 0, map[], map[], [])

  datatype Step =
    // leases
    | Claim(candidates: seq<RunId>, worker: string, seconds: int, now: Instant)
    | Renew(lease: Lease, seconds: int, now: Instant)
    | Release(lease: Lease, now: Instant)
    // the task of a lease
    | Select(lease: Lease, conversation: Option<Conversation>, choice: RunId)
    | Begin(lease: Lease, run: Run, attemptId: AttemptId, action: Option<Action>, now: Instant)
    | SetDispatch(lease: Lease, attempt: Attempt, state: DispatchState, now: Instant)
    | Ask(lease: Lease, actionId: ActionId, questions: string, expiresAt: Instant, now: Instant)
    | SettleSuccess(lease: Lease, run: Run, attempt: Attempt, now: Instant)
    | SettleFailure(lease: Lease, run: Run, attempt: Attempt, now: Instant)
    | SettlePlanning(lease: Lease, run: Run, attempt: Attempt, planId: PlanId, sha256: string, content: PlanContent,
                     actionId: ActionId, now: Instant)
    | Leave(lease: Lease)
    | End(lease: Lease)
    // the API
    | OpenConversation(created: Conversation)
    | SubmitToConversation(place: ConversationId, runId: RunId, request: Request, key: Option<string>)
    | Submit(runId: RunId, request: Request, planReact: bool, key: Option<string>)
    | Cancel(principal: Principal, run: Run, active: Option<Attempt>, action: Option<Action>, plan: Option<Plan>)
    | Retry(principal: Principal, run: Run)
    | Resume(principal: Principal, run: Run, pending: Action, answers: string)
    | ExpireAction(principal: Principal, run: Run, pending: Action, attempt: Attempt)
    | Decide(principal: Principal, run: Run, pending: Action, proposal: Plan, decision: Response, script: string,
             digests: PlanCompiler.Digests)
    // housekeeping
    | Block(blocked: Conversation)
    | Recover(rows: seq<RunId>, now: Instant)

  predicate Owns(principal: Principal, run: Run) {
    run.request.tenant == principal.tenant && run.request.principal == principal.id
  }

  predicate OwnsAction(principal: Principal, action: Action) {
    action.tenant == principal.tenant && action.principal == principal.id
  }

  function ConversationOf(run: Run): Option<ConversationId> {
    if run.place.Some? then Some(run.place.value.conversation) else None
  }

  function Deliver(s: System, outcome: Outcome): System {
    s.(db := outcome.Final(s.db))
  }

  function Goto(s: System, lease: Lease, task: Task): System {
    s.(tasks := s.tasks[lease := task])
  }

  /** `execute_leased_work` returned: a Conversation task polls again, a Run task is over. */
  function Finish(s: System, lease: Lease): System {
    if lease.resource.ConversationResource? then Goto(s, lease, Idle) else s.(tasks := s.tasks - {lease})
  }

  // ----- Leases -----

  function DoClaim(s: System, candidates: seq<RunId>, worker: string, seconds: int, now: Instant): System {
    if forall i :: 0 <= i < |candidates| ==> Runnable(s.db, candidates[i]) then
      match ClaimWork(s.db, candidates, worker, seconds, now)
      case Granted(db, lease) => Goto(s.(db := db), lease, Idle)
      case _ => s
    else s
  }

  // ----- The task of a lease -----

  /** The Run that `execute_leased_work` picks from one listing of the Conversation. */
  predicate NextInLine(db: Db, c: ConversationId, r: RunId) {
    && !Busy(db, c)
    && r in db.runs
    && InConversation(db.runs[r], c)
    && db.runs[r].status.QUEUED?
    && forall q :: q in db.runs && InConversation(db.runs[q], c) && db.runs[q].status.QUEUED?
         ==> db.runs[r].place.value.sequence <= db.runs[q].place.value.sequence
  }

  function DoSelect(s: System, lease: Lease, conversation: Option<Conversation>, r: RunId): System {
    if lease !in s.tasks || !s.tasks[lease].Idle? then
      s
    else
      match lease.resource
      case RunResource(own) =>
        if r == own && r in s.db.runs && s.db.runs[r].status.QUEUED? then Goto(s, lease, Selected(r)) else s
      case ConversationResource(c) =>
        if conversation.Some? && conversation.value in s.seen.conversations && conversation.value.id == c
           && conversation.value.status.ACTIVE? && NextInLine(s.db, c, r) then
          Goto(s, lease, Selected(r))
        else s
  }

  function StartedRun(run: Run, attempt: AttemptId): Run {
    run.(status := RUNNING, revision := run.revision + 1, attemptCount := run.attemptCount + 1,
         activeAttempt := Some(attempt),
         requiredAction := if run.place.Some? then None else run.requiredAction)
  }

  function StartedAttempt(run: Run, attempt: AttemptId, lease: Lease): Attempt {
    Attempt(attempt, run.id, run.attemptCount + 1, run.phase, AttemptRunning, NOT_SENT,
            Some(Fence(lease.worker, lease.token)), 1)
  }

  function ConsumedAction(action: Action, attempt: AttemptId): Action {
    action.(status := Consumed, revision := action.revision + 1, consumedBy := Some(attempt))
  }

  /** A Conversation Run that continues after a question needs the answered Action. */
  predicate CanBegin(s: System, run: Run, action: Option<Action>) {
    && run in s.seen.runs
    && run.status.QUEUED?
    && if run.place.Some? && run.requiredAction.Some?
       then action.Some? && action.value in s.seen.actions && action.value.id == run.requiredAction.value
            && action.value.status.Answered? && action.value.response.Some?
       else action.None?
  }

  function InputOf(run: Run, action: Option<Action>): TurnInput
    requires action.Some? ==> action.value.response.Some?
  {
    if action.None? then OriginalInput(run.request.input)
    else ActionResponse(action.value.id, action.value.response.value)
  }

  function BeginOutcome(s: System, lease: Lease, run: Run, attempt: AttemptId, action: Option<Action>,
                        now: Instant): Outcome
  {
    BeginAttempt(s.db, StartedRun(run, attempt), StartedAttempt(run, attempt, lease), run.revision, Some(lease),
                 if action.None? then None
                 else Some((ConsumedAction(action.value, attempt), action.value.revision)), now)
  }

  function DoBegin(s: System, lease: Lease, run: Run, attempt: AttemptId, action: Option<Action>, now: Instant): System {
    if lease !in s.tasks || s.tasks[lease] != Selected(run.id) || !CanBegin(s, run, action) then
      s
    else
      match BeginOutcome(s, lease, run, attempt, action, now)
      case Aborted(_) => s
      case Committed(db) =>
        Goto(s.(db := db), lease, Executing(run.id, attempt, run.phase, InputOf(run, action), false))
  }

  /** The task of the lease is executing this Attempt and may still report on it. */
  predicate Reporting(s: System, lease: Lease, attempt: AttemptId) {
    lease in s.tasks && s.tasks[lease].Executing? && s.tasks[lease].attempt == attempt
  }

  function DoSetDispatch(s: System, lease: Lease, attempt: Attempt, state: DispatchState, now: Instant): System {
    if !Reporting(s, lease, attempt.id) || attempt !in s.seen.attempts || !attempt.status.AttemptRunning?
       || attempt.dispatch == state || (state != DISPATCHING && state != ACCEPTED) then
      s
    else
      Deliver(s, ReplaceAttempt(s.db, attempt.(dispatch := state, revision := attempt.revision + 1),
                                attempt.revision, Some(lease), now))
  }

  function Question(run: Run, attempt: AttemptId, id: ActionId, questions: string, expiresAt: Instant): Action {
    Action(id, run.id, attempt, ConversationOf(run), run.request.tenant, run.request.principal, UserInput, Pending,
           Questions(questions), None, Some(expiresAt), None, 1)
  }

  /** `request_user_input`, which only Conversation Runs are given, at most once per Attempt. */
  function DoAsk(s: System, lease: Lease, id: ActionId, questions: string, expiresAt: Instant, now: Instant): System {
    if lease !in s.tasks || !s.tasks[lease].Executing? || s.tasks[lease].asked
       || !lease.resource.ConversationResource? || s.tasks[lease].run !in s.db.runs then
      s
    else
      var task := s.tasks[lease];
      var action := Question(s.db.runs[task.run], task.attempt, id, questions, expiresAt);
      match EnterRequiredAction(s.db, action, Some(lease), now)
      case Aborted(_) => s
      case Committed(db) => Goto(s.(db := db), lease, task.(asked := true))
  }

  function SettledAttempt(attempt: Attempt, status: AttemptStatus): Attempt {
    attempt.(status := status, dispatch := SETTLED, revision := attempt.revision + 1)
  }

  function SucceededRun(run: Run): Run {
    run.(status := SUCCEEDED, phase := COMPLETED, revision := run.revision + 1)
  }

  /** What `_settle_success`, `_settle_failure` and `_settle_planning` check after reading. */
  predicate CanSettle(s: System, lease: Lease, run: Run, attempt: Attempt) {
    && Reporting(s, lease, attempt.id)
    && !s.tasks[lease].asked
    && run in s.seen.runs && run.id == s.tasks[lease].run
    && attempt in s.seen.attempts
    && !run.status.CANCELLED?
  }

  function SettleOutcome(s: System, lease: Lease, run: Run, attempt: Attempt, success: bool, now: Instant): Outcome {
    SettleAttempt(s.db, if success then SucceededRun(run) else FailedRun(run),
                  SettledAttempt(attempt, if success then AttemptSucceeded else AttemptFailed),
                  run.revision, attempt.revision, Some(lease), None, now)
  }

  function DoSettle(s: System, lease: Lease, run: Run, attempt: Attempt, success: bool, now: Instant): System {
    if !CanSettle(s, lease, run, attempt) || (success && s.tasks[lease].phase.PLANNING?) then
      s
    else
      match SettleOutcome(s, lease, run, attempt, success, now)
      case Aborted(_) => s
      case Committed(db) => Finish(s.(db := db), lease)
  }

  function ProposedRun(run: Run, plan: PlanId, action: ActionId): Run {
    run.(status := WAITING, phase := WAITING_APPROVAL, plan := Some(plan), requiredAction := Some(action),
         revision := run.revision + 1)
  }

  function Approval(run: Run, attempt: AttemptId, id: ActionId, ref: PlanRef): Action {
    Action(id, run.id, attempt, ConversationOf(run), run.request.tenant, run.request.principal, PlanApproval, Pending,
           Proposal(ref), None, None, None, 1)
  }

  function PlanningOutcome(s: System, run: Run, attempt: Attempt, planId: PlanId, sha256: string, content: PlanContent,
                           actionId: ActionId, lease: Lease, now: Instant): Outcome
  {
    CompletePlanning(s.db, ProposedRun(run, planId, actionId), SettledAttempt(attempt, AttemptSucceeded),
                     Plan(planId, run.id, Proposed, 1, sha256, None, content),
                     Approval(run, attempt.id, actionId, PlanRef(planId, 1, sha256)),
                     run.revision, attempt.revision, Some(lease), now)
  }

  function DoSettlePlanning(s: System, lease: Lease, run: Run, attempt: Attempt, planId: PlanId, sha256: string,
                            content: PlanContent, actionId: ActionId, now: Instant): System
  {
    if !CanSettle(s, lease, run, attempt) || !s.tasks[lease].phase.PLANNING? then
      s
    else
      match PlanningOutcome(s, run, attempt, planId, sha256, content, actionId, lease, now)
      case Aborted(_) => s
      case Committed(db) => Finish(s.(db := db), lease)
  }

  // ----- The API -----

  function NewRun(id: RunId, request: Request, phase: RunPhase): Run {
    Run(id, None, request, phase, QUEUED, 1, 0, None, None, None, false)
  }

  function Note(s: System, submission: Submission, request: Request, key: Option<string>, digest: Digest): System {
    match submission
    case Refused(_) => s
    case Replayed(run) =>
      if key.None? then s
      else s.(submissions := s.submissions + [Submitted(Key(request.tenant, key.value), digest, run.id, false)])
    case Created(db, run) =>
      var s' := s.(db := db, credits := s.credits[run.id := 1]);
      if key.None? then s'
      else s'.(submissions := s.submissions + [Submitted(Key(request.tenant, key.value), digest, run.id, true)])
  }

  function DoSubmitToConversation(s: System, c: ConversationId, id: RunId, request: Request, key: Option<string>): System {
    var digest := DigestOf(request, Some(c));
    Note(s, CreateConversationRun(s.db, c, NewRun(id, request, DIRECT), key, digest), request, key, digest)
  }

  function DoSubmit(s: System, id: RunId, request: Request, planReact: bool, key: Option<string>): System {
    var digest := DigestOf(request, None);
    Note(s, CreateRun(s.db, NewRun(id, request, if planReact then PLANNING else DIRECT), key, digest),
         request, key, digest)
  }

  function CancelledRun(run: Run): Run {
    run.(status := CANCELLED,
         activeAttempt := if run.phase.WAITING_APPROVAL? || run.requiredAction.Some? then None else run.activeAttempt,
         requiredAction := None, cancelRequested := true, revision := run.revision + 1)
  }

  function CancelledAction(action: Action): Action {
    action.(status := ActionCancelled, revision := action.revision + 1)
  }

  function DecidedPlan(plan: Plan, status: PlanStatus, principal: Principal): Plan {
    plan.(status := status, revision := plan.revision + 1, decidedBy := Some(principal.id))
  }

  /** The reads of `cancel` beyond the Run itself. */
  predicate CanCancel(s: System, principal: Principal, run: Run, active: Option<Attempt>, action: Option<Action>,
                      plan: Option<Plan>)
  {
    && run in s.seen.runs
    && Owns(principal, run)
    && !Terminal(run.status)
    && (if run.requiredAction.Some?
        then action.Some? && action.value in s.seen.actions && (run, action.value) in s.seen.later
             && action.value.id == run.requiredAction.value && action.value.status.Pending?
        else action.None?)
    && (if run.phase.WAITING_APPROVAL?
        then action.Some? && plan.Some? && plan.value in s.seen.plans && plan.value.run == run.id
        else run.activeAttempt.Some? ==>
               active.Some? && active.value in s.seen.attempts && active.value.id == run.activeAttempt.value)
  }

  function CancelOutcome(s: System, principal: Principal, run: Run, active: Option<Attempt>, action: Option<Action>,
                         plan: Option<Plan>): Outcome
    requires CanCancel(s, principal, run, active, action, plan)
  {
    var settled := if action.None? then None
                   else Some((CancelledAction(action.value), action.value.revision));
    if run.phase.WAITING_APPROVAL? then
      DecidePlan(s.db, CancelledRun(run), DecidedPlan(plan.value, Rejected, principal), settled.value.0,
                 run.revision, plan.value.revision, settled.value.1)
    else if run.activeAttempt.Some? && !AttemptTerminal(active.value.status) then
      SettleAttempt(s.db, CancelledRun(run), SettledAttempt(active.value, AttemptCancelled),
                    run.revision, active.value.revision, None, settled, 0)
    else
      ReplaceRun(s.db, CancelledRun(run), run.revision)
  }

  function DoCancel(s: System, principal: Principal, run: Run, active: Option<Attempt>, action: Option<Action>,
                    plan: Option<Plan>): System
  {
    if !CanCancel(s, principal, run, active, action, plan) then s
    else Deliver(s, CancelOutcome(s, principal, run, active, action, plan))
  }

  function Credit(s: System, r: RunId): System {
    s.(credits := s.credits[r := (if r in s.credits then s.credits[r] else 0) + 1])
  }

  function RetriedRun(run: Run): Run {
    run.(status := QUEUED, revision := run.revision + 1, activeAttempt := None, cancelRequested := false)
  }

  function DoRetry(s: System, principal: Principal, run: Run): System {
    if run !in s.seen.runs || !Owns(principal, run) || run.place.Some?
       || !(run.status.FAILED? || run.status.CANCELLED?) || run.phase.WAITING_APPROVAL? then
      s
    else
      match ReplaceRun(s.db, RetriedRun(run), run.revision)
      case Aborted(_) => s
      case Committed(db) => Credit(s.(db := db), run.id)
  }

  function AnsweredAction(action: Action, answers: string): Action {
    action.(status := Answered, response := Some(Answers(answers)), revision := action.revision + 1)
  }

  function ResumedRun(run: Run): Run {
    run.(status := QUEUED, revision := run.revision + 1, activeAttempt := None)
  }

  predicate CanResume(s: System, principal: Principal, run: Run, action: Action) {
    && run in s.seen.runs
    && action in s.seen.actions
    && Owns(principal, run)
    && run.status.WAITING?
    && run.requiredAction == Some(action.id)
    && run.place.Some?
    && action.run == run.id && action.conversation == ConversationOf(run)
    && OwnsAction(principal, action)
    && action.status.Pending?
    && action.kind.UserInput?
  }

  function DoResume(s: System, principal: Principal, run: Run, action: Action, answers: string): System {
    if !CanResume(s, principal, run, action) then
      s
    else
      match AnswerRequiredAction(s.db, ResumedRun(run), AnsweredAction(action, answers), run.revision, action.revision)
      case Aborted(_) => s
      case Committed(db) => Credit(s.(db := db), run.id)
  }

  function ExpiredAction(action: Action): Action {
    action.(status := Expired, revision := action.revision + 1)
  }

  function ExpiredRun(run: Run): Run {
    run.(status := CANCELLED, revision := run.revision + 1, activeAttempt := None, requiredAction := None)
  }

  /** `resume` of an Action whose `expires_at` has passed. */
  function DoExpireAction(s: System, principal: Principal, run: Run, action: Action, attempt: Attempt): System {
    if !CanResume(s, principal, run, action) || action.expiresAt.None? || run.activeAttempt != Some(action.attempt)
       || attempt !in s.seen.attempts || attempt.id != action.attempt then
      s
    else
      Deliver(s, SettleAttempt(s.db, ExpiredRun(run), SettledAttempt(attempt, AttemptCancelled), run.revision,
                               attempt.revision, None, Some((ExpiredAction(action), action.revision)), 0))
  }

  function RefOf(plan: Plan): PlanRef {
    PlanRef(plan.id, plan.revision, plan.sha256)
  }

  predicate CanDecide(s: System, principal: Principal, run: Run, action: Action, plan: Plan, decision: Response,
                      script: string, digests: PlanCompiler.Digests)
  {
    && run in s.seen.runs && action in s.seen.actions && plan in s.seen.plans
    && Owns(principal, run)
    && run.status.WAITING? && run.phase.WAITING_APPROVAL?
    && run.requiredAction == Some(action.id)
    && action.run == run.id && run.activeAttempt == Some(action.attempt)
    && action.conversation == ConversationOf(run)
    && OwnsAction(principal, action)
    && action.kind.PlanApproval? && action.status.Pending?
    && plan.run == run.id && plan.status.Proposed?
    && decision.Decision?
    && decision.ref == RefOf(plan)
    && action.payload == Proposal(RefOf(plan))
    && (decision.approve ==> PlanCompiler.Verify(plan, script, digests).Ok?)
  }

  function DecidedRun(run: Run, approve: bool): Run {
    run.(status := if approve then QUEUED else CANCELLED, phase := if approve then EXECUTING else run.phase,
         revision := run.revision + 1, activeAttempt := None, requiredAction := None, cancelRequested := !approve)
  }

  function ResolvedAction(action: Action, decision: Response): Action {
    action.(status := Consumed, response := Some(decision), revision := action.revision + 1)
  }

  function DecideOutcome(s: System, principal: Principal, run: Run, action: Action, plan: Plan, decision: Response): Outcome
    requires decision.Decision?
  {
    DecidePlan(s.db, DecidedRun(run, decision.approve),
               DecidedPlan(plan, if decision.approve then Approved else Rejected, principal),
               ResolvedAction(action, decision), run.revision, plan.revision, action.revision)
  }

  function DoDecide(s: System, principal: Principal, run: Run, action: Action, plan: Plan, decision: Response,
                    script: string, digests: PlanCompiler.Digests): System
  {
    if !CanDecide(s, principal, run, action, plan, decision, script, digests) then
      s
    else
      match DecideOutcome(s, principal, run, action, plan, decision)
      case Aborted(_) => s
      case Committed(db) =>
        if decision.approve
        then Credit(s.(db := db, approvals := s.approvals[run.id := decision.ref]), run.id)
        else s.(db := db)
  }

  // ----- Housekeeping -----

  function BlockedConversation(conversation: Conversation): Conversation {
    conversation.(status := BLOCKED, revision := conversation.revision + 1)
  }

  function DoBlock(s: System, conversation: Conversation): System {
    if conversation !in s.seen.conversations || !conversation.status.ACTIVE? then s
    else Deliver(s, ReplaceConversation(s.db, BlockedConversation(conversation), conversation.revision))
  }

  predicate AllAbandoned(db: Db, rows: seq<RunId>, now: Instant) {
    && (forall i :: 0 <= i < |rows| ==> Abandoned(db, rows[i], now))
    && (forall i, j :: 0 <= i < j < |rows| ==> rows[i] != rows[j])
  }

  function Picks(db: Db, rows: seq<RunId>, now: Instant): (picks: seq<(Run, Attempt)>)
    requires forall i :: 0 <= i < |rows| ==> Abandoned(db, rows[i], now)
    ensures forall i :: 0 <= i < |picks| ==> picks[i].1.fence.Some?
  {
    if rows == [] then
      []
    else
      assert Abandoned(db, rows[0], now);
      [Pick(db, rows[0], now)] + Picks(db, rows[1..], now)
  }

  function DoRecover(s: System, rows: seq<RunId>, now: Instant): System {
    if !AllAbandoned(s.db, rows, now) then s
    else Deliver(s, InterruptAll(s.db, Picks(s.db, rows, now), now))
  }

  // ----- Steps -----

  function Perform(s: System, step: Step): System {
    match step
    case Claim(candidates, worker, seconds, now) => DoClaim(s, candidates, worker, seconds, now)
    case Renew(lease, seconds, now) => s.(db := RenewLease(s.db, lease, seconds, now))
    case Release(lease, now) => s.(db := ReleaseLease(s.db, lease, now))
    case Select(lease, conversation, choice) => DoSelect(s, lease, conversation, choice)
    case Begin(lease, run, attempt, action, now) => DoBegin(s, lease, run, attempt, action, now)
    case SetDispatch(lease, attempt, state, now) => DoSetDispatch(s, lease, attempt, state, now)
    case Ask(lease, action, questions, expiresAt, now) => DoAsk(s, lease, action, questions, expiresAt, now)
    case SettleSuccess(lease, run, attempt, now) => DoSettle(s, lease, run, attempt, true, now)
    case SettleFailure(lease, run, attempt, now) => DoSettle(s, lease, run, attempt, false, now)
    case SettlePlanning(lease, run, attempt, plan, sha256, content, action, now) =>
      DoSettlePlanning(s, lease, run, attempt, plan, sha256, content, action, now)
    case Leave(lease) => if lease in s.tasks then Finish(s, lease) else s
    case End(lease) => s.(tasks := s.tasks - {lease})
    case OpenConversation(conversation) =>
      Deliver(s, CreateConversation(s.db, conversation.(status := ACTIVE, nextSequence := 1, revision := 1)))
    case SubmitToConversation(c, run, request, key) => DoSubmitToConversation(s, c, run, request, key)
    case Submit(run, request, planReact, key) => DoSubmit(s, run, request, planReact, key)
    case Cancel(principal, run, active, action, plan) => DoCancel(s, principal, run, active, action, plan)
    case Retry(principal, run) => DoRetry(s, principal, run)
    case Resume(principal, run, action, answers) => DoResume(s, principal, run, action, answers)
    case ExpireAction(principal, run, action, attempt) => DoExpireAction(s, principal, run, action, attempt)
    case Decide(principal, run, action, plan, decision, script, digests) =>
      DoDecide(s, principal, run, action, plan, decision, script, digests)
    case Block(conversation) => DoBlock(s, conversation)
    case Recover(rows, now) => DoRecover(s, rows, now)
  }

  /** Whoever reads from now on may read what the rows hold now. */
  function Observe(s: System): System {
    var runs := s.seen.runs + (set r | r in s.db.runs :: s.db.runs[r]);
    s.(seen := Seen(runs,
                    s.seen.attempts + (set a | a in s.db.attempts :: s.db.attempts[a]),
                    s.seen.actions + (set x | x in s.db.actions :: s.db.actions[x]),
                    s.seen.plans + (set r | r in s.db.plans :: s.db.plans[r]),
                    s.seen.conversations + (set c | c in s.db.conversations :: s.db.conversations[c]),
                    s.seen.later + (set run, x | run in runs && x in s.db.actions :: (run, s.db.actions[x]))))
  }

  predicate Timed(step: Step) {
    step.Claim? || step.Renew? || step.Release? || step.Begin? || step.SetDispatch? || step.Ask?
    || step.SettleSuccess? || step.SettleFailure? || step.SettlePlanning? || step.Recover?
  }

  /** `clock` holds the timestamp of the last transaction that used one. */
  function Do(s: System, step: Step): System {
    var s' := Observe(Perform(s, step));
    if Timed(step) then s'.(clock := step.now) else s'
  }

  /** The system after a whole history of steps, oldest first. */
  function After(steps: seq<Step>): System {
    if steps == [] then INITIAL else Do(After(steps[..|steps| - 1]), steps[|steps| - 1])
  }
}
