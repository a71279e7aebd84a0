/** Which step may change which row, and into what: the transition relation that the steps
    leave behind. */
module Changes {
  import PlanCompiler
  import opened Records
  import opened Transactions
  import opened Protocol
  import opened Invariants
  import opened Edges
  import opened WorkerSteps
  import opened BeginSteps
  import opened SubmitSteps
  import opened RecoverSteps

  // ----- Runs -----

  predicate RunMoves(s: System, step: Step, before: Run, after: Run) {
    match step
    case Begin(lease, run, attempt, _, now) =>
      && run == before && before.status.QUEUED? && after == StartedRun(before, attempt)
      && attempt !in s.db.attempts
      && LeaseValid(s.db, lease, now) && lease in s.tasks && s.tasks[lease] == Selected(before.id)
    case Ask(lease, action, _, _, now) =>
      && before.status.RUNNING? && before.place.Some? && after == WaitingRun(before, action)
      && LeaseValid(s.db, lease, now) && lease in s.tasks && s.tasks[lease].Executing?
      && s.tasks[lease].run == before.id && !s.tasks[lease].asked
      && before.activeAttempt == Some(s.tasks[lease].attempt)
    case SettleSuccess(lease, run, attempt, now) =>
      && run == before && after == SucceededRun(before)
      && CanSettle(s, lease, run, attempt) && LeaseValid(s.db, lease, now)
    case SettleFailure(lease, run, attempt, now) =>
      && run == before && after == FailedRun(before)
      && CanSettle(s, lease, run, attempt) && LeaseValid(s.db, lease, now)
    case SettlePlanning(lease, run, attempt, plan, _, _, action, now) =>
      && run == before && after == ProposedRun(before, plan, action) && before.phase.PLANNING?
      && CanSettle(s, lease, run, attempt) && LeaseValid(s.db, lease, now)
    case Cancel(principal, run, _, _, _) =>
      run == before && Owns(principal, before) && !Terminal(before.status) && after == CancelledRun(before)
    case Retry(principal, run) =>
      && run == before && Owns(principal, before) && before.place.None?
      && (before.status.FAILED? || before.status.CANCELLED?) && after == RetriedRun(before)
    case Resume(principal, run, _, _) =>
      && run == before && Owns(principal, before) && before.status.WAITING? && before.place.Some?
      && after == ResumedRun(before)
    case ExpireAction(principal, run, _, _) =>
      && run == before && Owns(principal, before) && before.status.WAITING? && before.place.Some?
      && after == ExpiredRun(before)
    case Decide(principal, run, _, _, decision, _, _) =>
      && run == before && Owns(principal, before) && before.status.WAITING? && before.phase.WAITING_APPROVAL?
      && decision.Decision? && after == DecidedRun(before, decision.approve)
    case Recover(rows, now) =>
      before.id in rows && Abandoned(s.db, before.id, now) && after == FailedRun(before)
    case _ => false
  }

  predicate Submits(s: System, step: Step, run: Run) {
    match step
    case Submit(id, request, planReact, _) => run == NewRun(id, request, if planReact then PLANNING else DIRECT)
    case SubmitToConversation(c, id, request, _) =>
      && c in s.db.conversations
      && run == NewRun(id, request, DIRECT).(place := Some(Place(c, s.db.conversations[c].nextSequence)))
    case _ => false
  }

  ghost predicate RunsMove(s: System, step: Step, runs': map<RunId, Run>) {
    && (forall r :: r in s.db.runs ==>
          r in runs' && (runs'[r] == s.db.runs[r] || RunMoves(s, step, s.db.runs[r], runs'[r])))
    && (forall r :: r in runs' && r !in s.db.runs ==> Submits(s, step, runs'[r]))
  }

  // ----- Attempts -----

  predicate AttemptMoves(s: System, step: Step, before: Attempt, after: Attempt) {
    match step
    case SetDispatch(lease, attempt, state, now) =>
      && attempt == before && before.status.AttemptRunning? && LeaseValid(s.db, lease, now)
      && Reporting(s, lease, before.id)
      && after == before.(dispatch := state, revision := before.revision + 1)
    case Ask(lease, _, _, _, now) =>
      && before.status.AttemptRunning? && after == WaitingAttempt(before) && LeaseValid(s.db, lease, now)
      && Reporting(s, lease, before.id) && !s.tasks[lease].asked
    case SettleSuccess(lease, run, attempt, now) =>
      && attempt == before && CanSettle(s, lease, run, attempt) && LeaseValid(s.db, lease, now)
      && run.id in s.db.runs && s.db.runs[run.id] == run
      && after == SettledAttempt(before, AttemptSucceeded)
    case SettleFailure(lease, run, attempt, now) =>
      && attempt == before && CanSettle(s, lease, run, attempt) && LeaseValid(s.db, lease, now)
      && run.id in s.db.runs && s.db.runs[run.id] == run
      && after == SettledAttempt(before, AttemptFailed)
    case SettlePlanning(lease, run, attempt, _, _, _, _, now) =>
      && attempt == before && CanSettle(s, lease, run, attempt) && LeaseValid(s.db, lease, now)
      && run.id in s.db.runs && s.db.runs[run.id] == run
      && after == SettledAttempt(before, AttemptSucceeded)
    case Cancel(_, _, active, _, _) =>
      active == Some(before) && !AttemptTerminal(before.status) && after == SettledAttempt(before, AttemptCancelled)
    case ExpireAction(_, run, _, attempt) =>
      && attempt == before && after == SettledAttempt(before, AttemptCancelled)
      && run.id in s.db.runs && s.db.runs[run.id] == run && run.status.WAITING? && run.place.Some?
      && run.activeAttempt == Some(before.id)
    case Recover(rows, now) =>
      && before.run in rows && Abandoned(s.db, before.run, now)
      && s.db.runs[before.run].activeAttempt == Some(before.id)
      && after == InterruptedAttempt(before)
    case _ => false
  }

  predicate Starts(s: System, step: Step, attempt: Attempt) {
    && step.Begin? && attempt.id == step.attemptId
    && step.run.id in s.db.runs && s.db.runs[step.run.id] == step.run
    && attempt == StartedAttempt(step.run, attempt.id, step.lease)
  }

  ghost predicate AttemptsMove(s: System, step: Step, attempts': map<AttemptId, Attempt>) {
    && (forall a :: a in s.db.attempts ==>
          a in attempts' && (attempts'[a] == s.db.attempts[a] || AttemptMoves(s, step, s.db.attempts[a], attempts'[a])))
    && (forall a :: a in attempts' && a !in s.db.attempts ==> Starts(s, step, attempts'[a]))
  }

  // ----- Actions, Plans and Conversations -----

  predicate ActionMoves(s: System, step: Step, before: Action, after: Action) {
    match step
    case Begin(lease, run, attempt, action, now) =>
      && action == Some(before) && before.status.Answered? && before.response.Some?
      && after == ConsumedAction(before, attempt)
      && run.requiredAction == Some(before.id) && attempt !in s.db.attempts
      && LeaseValid(s.db, lease, now) && lease in s.tasks && s.tasks[lease] == Selected(run.id)
    case Cancel(principal, run, _, action, _) =>
      && action == Some(before) && before.status.Pending? && after == CancelledAction(before)
      && run.requiredAction == Some(before.id) && Owns(principal, run)
    case Resume(principal, run, pending, answers) =>
      pending == before && CanResume(s, principal, run, before) && after == AnsweredAction(before, answers)
    case ExpireAction(principal, run, pending, _) =>
      pending == before && CanResume(s, principal, run, before) && after == ExpiredAction(before)
    case Decide(principal, run, pending, _, decision, _, _) =>
      && pending == before && before.kind.PlanApproval? && before.status.Pending? && OwnsAction(principal, before)
      && run.requiredAction == Some(before.id) && decision.Decision? && after == ResolvedAction(before, decision)
    case _ => false
  }

  predicate Raises(s: System, step: Step, action: Action) {
    match step
    case Ask(lease, id, questions, expiresAt, now) =>
      && LeaseValid(s.db, lease, now) && lease in s.tasks && s.tasks[lease].Executing? && !s.tasks[lease].asked
      && s.tasks[lease].run in s.db.runs
      && action == Question(s.db.runs[s.tasks[lease].run], s.tasks[lease].attempt, id, questions, expiresAt)
    case SettlePlanning(lease, run, attempt, plan, sha256, _, id, now) =>
      && LeaseValid(s.db, lease, now) && CanSettle(s, lease, run, attempt)
      && action == Approval(run, attempt.id, id, PlanRef(plan, 1, sha256))
    case _ => false
  }

  ghost predicate ActionsMove(s: System, step: Step, actions': map<ActionId, Action>) {
    && (forall x :: x in s.db.actions ==>
          x in actions' && (actions'[x] == s.db.actions[x] || ActionMoves(s, step, s.db.actions[x], actions'[x])))
    && (forall x :: x in actions' && x !in s.db.actions ==> Raises(s, step, actions'[x]))
  }

  predicate PlanMoves(s: System, step: Step, before: Plan, after: Plan) {
    match step
    case Cancel(principal, run, _, _, plan) =>
      && plan == Some(before) && before.run == run.id && before.status.Proposed?
      && run.phase.WAITING_APPROVAL? && Owns(principal, run) && after == DecidedPlan(before, Rejected, principal)
    case Decide(principal, run, action, proposal, decision, script, digests) =>
      && proposal == before && CanDecide(s, principal, run, action, before, decision, script, digests)
      && after == DecidedPlan(before, if decision.approve then Approved else Rejected, principal)
    case _ => false
  }

  predicate Proposes(s: System, step: Step, plan: Plan) {
    && step.SettlePlanning?
    && LeaseValid(s.db, step.lease, step.now) && CanSettle(s, step.lease, step.run, step.attempt)
    && s.tasks[step.lease].phase.PLANNING?
    && plan == Plan(step.planId, step.run.id, Proposed, 1, step.sha256, None, step.content)
  }

  ghost predicate PlansMove(s: System, step: Step, plans': map<RunId, Plan>) {
    && (forall r :: r in s.db.plans ==>
          r in plans' && (plans'[r] == s.db.plans[r] || PlanMoves(s, step, s.db.plans[r], plans'[r])))
    && (forall r :: r in plans' && r !in s.db.plans ==> Proposes(s, step, plans'[r]))
  }

  predicate ConversationMoves(s: System, step: Step, before: Conversation, after: Conversation) {
    match step
    case SubmitToConversation(c, _, request, _) =>
      && c == before.id && before.status.ACTIVE? && SameIdentity(request, before)
      && after == before.(nextSequence := before.nextSequence + 1, revision := before.revision + 1)
    case Block(blocked) =>
      blocked == before && before.status.ACTIVE? && after == BlockedConversation(before)
    case _ => false
  }

  predicate Opens(step: Step, conversation: Conversation) {
    step.OpenConversation? && conversation == step.created.(status := ACTIVE, nextSequence := 1, revision := 1)
  }

  ghost predicate ConversationsMove(s: System, step: Step, conversations': map<ConversationId, Conversation>) {
    && (forall c :: c in s.db.conversations ==>
          && c in conversations'
          && (conversations'[c] == s.db.conversations[c]
              || ConversationMoves(s, step, s.db.conversations[c], conversations'[c])))
    && (forall c :: c in conversations' && c !in s.db.conversations ==> Opens(step, conversations'[c]))
  }

  /** Leases and idempotency keys change in few steps. */
  predicate SidesMove(s: System, step: Step, db': Db) {
    && (step.Claim? || step.Renew? || step.Release? || db'.leases == s.db.leases)
    && (step.Submit? || step.SubmitToConversation? || db'.idempotency == s.db.idempotency)
  }

  ghost predicate OnlyMoves(s: System, step: Step, db': Db) {
    && SidesMove(s, step, db')
    && RunsMove(s, step, db'.runs)
    && AttemptsMove(s, step, db'.attempts)
    && ActionsMove(s, step, db'.actions)
    && PlansMove(s, step, db'.plans)
    && ConversationsMove(s, step, db'.conversations)
  }

  // ----- Step by step -----

  /** Steps that write no row but leases. */
  lemma NothingMoves(s: System, step: Step, db': Db)
    requires db' == s.db.(leases := db'.leases)
    requires step.Claim? || step.Renew? || step.Release? || db' == s.db
    ensures OnlyMoves(s, step, db')
  {
  }

  lemma RunPutMoves(s: System, step: Step, run: Run)
    requires run.id in s.db.runs && (s.db.runs[run.id] == run || RunMoves(s, step, s.db.runs[run.id], run))
    ensures RunsMove(s, step, s.db.runs[run.id := run])
  {
    hide RunMoves, Submits;
  }

  lemma AttemptPutMoves(s: System, step: Step, attempt: Option<Attempt>)
    requires attempt.Some? ==>
               if attempt.value.id in s.db.attempts
               then AttemptMoves(s, step, s.db.attempts[attempt.value.id], attempt.value)
               else Starts(s, step, attempt.value)
    ensures AttemptsMove(s, step, if attempt.Some? then s.db.attempts[attempt.value.id := attempt.value] else s.db.attempts)
  {
    hide AttemptMoves, Starts;
  }

  lemma ActionPutMoves(s: System, step: Step, action: Option<Action>)
    requires action.Some? ==>
               if action.value.id in s.db.actions then ActionMoves(s, step, s.db.actions[action.value.id], action.value)
               else Raises(s, step, action.value)
    ensures ActionsMove(s, step, if action.Some? then s.db.actions[action.value.id := action.value] else s.db.actions)
  {
    hide ActionMoves, Raises;
  }

  lemma PlanPutMoves(s: System, step: Step, plan: Option<Plan>)
    requires plan.Some? ==>
               if plan.value.run in s.db.plans then PlanMoves(s, step, s.db.plans[plan.value.run], plan.value)
               else Proposes(s, step, plan.value)
    ensures PlansMove(s, step, if plan.Some? then s.db.plans[plan.value.run := plan.value] else s.db.plans)
  {
    hide PlanMoves, Proposes;
  }

  lemma {:induction false} LeaseMoves(s: System, step: Step)
    requires step.Claim? || step.Renew? || step.Release? || step.Select? || step.Leave? || step.End?
    ensures OnlyMoves(s, step, Perform(s, step).db)
  {
    hide OnlyMoves, Runnable, NextInLine, FirstClaimable, Claimable, LeaseValid, LeaseCurrent;
    NothingMoves(s, step, Perform(s, step).db);
  }

  /** A step that writes the rows of one Run. */
  lemma PutMoves(s: System, step: Step, run: Run, attempt: Option<Attempt>, action: Option<Action>, plan: Option<Plan>)
    requires run.id in s.db.runs && (s.db.runs[run.id] == run || RunMoves(s, step, s.db.runs[run.id], run))
    requires attempt.Some? ==>
               if attempt.value.id in s.db.attempts
               then AttemptMoves(s, step, s.db.attempts[attempt.value.id], attempt.value)
               else Starts(s, step, attempt.value)
    requires action.Some? ==>
               if action.value.id in s.db.actions then ActionMoves(s, step, s.db.actions[action.value.id], action.value)
               else Raises(s, step, action.value)
    requires plan.Some? ==>
               if plan.value.run in s.db.plans then PlanMoves(s, step, s.db.plans[plan.value.run], plan.value)
               else Proposes(s, step, plan.value)
    ensures OnlyMoves(s, step, Put(s.db, run, attempt, action, plan))
  {
    hide RunMoves, AttemptMoves, ActionMoves, PlanMoves, Starts, Raises, Proposes;
    hide RunsMove, AttemptsMove, ActionsMove, PlansMove, ConversationMoves, Opens;
    RunPutMoves(s, step, run);
    AttemptPutMoves(s, step, attempt);
    ActionPutMoves(s, step, action);
    PlanPutMoves(s, step, plan);
  }

  lemma {:induction false} BeginMoves(s: System, lease: Lease, run: Run, attempt: AttemptId, action: Option<Action>,
                                      now: Instant)
    requires Inv(s)
    ensures OnlyMoves(s, Begin(lease, run, attempt, action, now), DoBegin(s, lease, run, attempt, action, now).db)
  {
    hide Inv, OnlyMoves, BeginOutcome;
    var step := Begin(lease, run, attempt, action, now);
    var s' := DoBegin(s, lease, run, attempt, action, now);
    if s'.db == s.db {
      NothingMoves(s, step, s'.db);
    } else {
      BeginOutcomeIs(s, lease, run, attempt, action, now);
      InvIsSeen(s);
      SwappedRun(s, run);
      if action.Some? {
        SwappedAction(s, action.value);
      }
      hide SeenOk;
      PutMoves(s, step, StartedRun(run, attempt), Some(StartedAttempt(run, attempt, lease)),
               Consumption(action, attempt), None);
    }
  }

  lemma InvIsSeen(s: System)
    requires Inv(s)
    ensures SeenOk(s.db, s.seen) && RowsOk(s.db)
  {
  }

  lemma DispatchMoves(s: System, lease: Lease, attempt: Attempt, state: DispatchState, now: Instant)
    requires Inv(s)
    ensures OnlyMoves(s, SetDispatch(lease, attempt, state, now), DoSetDispatch(s, lease, attempt, state, now).db)
  {
    hide Inv, OnlyMoves;
    var step := SetDispatch(lease, attempt, state, now);
    var s' := DoSetDispatch(s, lease, attempt, state, now);
    if s'.db == s.db {
      NothingMoves(s, step, s'.db);
    } else {
      InvIsSeen(s);
      SwappedAttempt(s, attempt);
      AttemptRow(s.db, attempt.id);
      RunRow(s.db, attempt.run);
      hide SeenOk, RowsOk;
      var attempt' := attempt.(dispatch := state, revision := attempt.revision + 1);
      assert s'.db == Put(s.db, s.db.runs[attempt.run], Some(attempt'), None, None);
      PutMoves(s, step, s.db.runs[attempt.run], Some(attempt'), None, None);
    }
  }

  lemma {:induction false} AskMoves(s: System, lease: Lease, id: ActionId, questions: string, expiresAt: Instant,
                                    now: Instant)
    requires Inv(s)
    ensures OnlyMoves(s, Ask(lease, id, questions, expiresAt, now), DoAsk(s, lease, id, questions, expiresAt, now).db)
  {
    hide OnlyMoves, EnterRequiredAction, SeenOk, RunsOk, AttemptsOk, ActionsOk, InOrder, Numbered, LeasesOk, TasksOk;
    hide LedgerOk;
    var step := Ask(lease, id, questions, expiresAt, now);
    var s' := DoAsk(s, lease, id, questions, expiresAt, now);
    if s'.db == s.db {
      NothingMoves(s, step, s'.db);
    } else {
      var task := s.tasks[lease];
      LiveTask(s, lease);
      var run := s.db.runs[task.run];
      var action := Question(run, task.attempt, id, questions, expiresAt);
      AskOutcome(s.db, action, lease, now);
      AskIsLeased(s.db, action, lease, now);
      RunRow(s.db, task.run);
      AttemptRow(s.db, task.attempt);
      PutMoves(s, step, WaitingRun(run, id), Some(WaitingAttempt(s.db.attempts[task.attempt])), Some(action), None);
    }
  }

  lemma AskIsLeased(db: Db, action: Action, lease: Lease, now: Instant)
    requires EnterRequiredAction(db, action, Some(lease), now).Committed?
    ensures LeaseValid(db, lease, now)
  {
  }

  lemma {:induction false} SettleMoves(s: System, lease: Lease, run: Run, attempt: Attempt, success: bool, now: Instant)
    requires Inv(s)
    ensures OnlyMoves(s, if success then SettleSuccess(lease, run, attempt, now)
                         else SettleFailure(lease, run, attempt, now),
                      DoSettle(s, lease, run, attempt, success, now).db)
  {
    hide Inv, OnlyMoves, SettleOutcome;
    var step := if success then SettleSuccess(lease, run, attempt, now) else SettleFailure(lease, run, attempt, now);
    var s' := DoSettle(s, lease, run, attempt, success, now);
    if s'.db == s.db {
      NothingMoves(s, step, s'.db);
    } else {
      SettleOutcomeIs(s, lease, run, attempt, success, now);
      InvIsSeen(s);
      SwappedRun(s, run);
      SwappedAttempt(s, attempt);
      hide SeenOk, RowsOk;
      PutMoves(s, step, if success then SucceededRun(run) else FailedRun(run),
               Some(SettledAttempt(attempt, if success then AttemptSucceeded else AttemptFailed)), None, None);
    }
  }

  lemma {:induction false} PlanningMoves(s: System, lease: Lease, run: Run, attempt: Attempt, planId: PlanId,
                                         sha256: string, content: PlanContent, actionId: ActionId, now: Instant)
    requires Inv(s)
    ensures OnlyMoves(s, SettlePlanning(lease, run, attempt, planId, sha256, content, actionId, now),
                      DoSettlePlanning(s, lease, run, attempt, planId, sha256, content, actionId, now).db)
  {
    hide OnlyMoves, PlanningOutcome, SeenOk, RunsOk, AttemptsOk, ActionsOk, InOrder, Numbered, LeasesOk, TasksOk, LedgerOk;
    var step := SettlePlanning(lease, run, attempt, planId, sha256, content, actionId, now);
    var s' := DoSettlePlanning(s, lease, run, attempt, planId, sha256, content, actionId, now);
    if s'.db == s.db {
      NothingMoves(s, step, s'.db);
    } else {
      PlanningOutcomeIs(s, run, attempt, planId, sha256, content, actionId, lease, now);
      SwappedRun(s, run);
      SwappedAttempt(s, attempt);
      LiveTask(s, lease);
      PutMoves(s, step, ProposedRun(run, planId, actionId), Some(SettledAttempt(attempt, AttemptSucceeded)),
               Some(Approval(run, attempt.id, actionId, PlanRef(planId, 1, sha256))),
               Some(Plan(planId, run.id, Proposed, 1, sha256, None, content)));
    }
  }

  lemma {:induction false} CancelMoves(s: System, principal: Principal, run: Run, active: Option<Attempt>,
                                       action: Option<Action>, plan: Option<Plan>)
    requires Inv(s)
    ensures OnlyMoves(s, Cancel(principal, run, active, action, plan),
                      DoCancel(s, principal, run, active, action, plan).db)
  {
    hide Inv, OnlyMoves, SeenOk, RowsOk, CancelOutcome;
    var step := Cancel(principal, run, active, action, plan);
    if !CanCancel(s, principal, run, active, action, plan)
       || CancelOutcome(s, principal, run, active, action, plan).Aborted? {
      NothingMoves(s, step, s.db);
    } else if run.phase.WAITING_APPROVAL? {
      CancelPlanMoves(s, principal, run, active, action, plan);
    } else if run.activeAttempt.Some? && !AttemptTerminal(active.value.status) {
      CancelAttemptMoves(s, principal, run, active, action, plan);
    } else {
      CancelQueuedMoves(s, principal, run, active, action, plan);
    }
  }

  lemma CancelQueuedMoves(s: System, principal: Principal, run: Run, active: Option<Attempt>, action: Option<Action>,
                          plan: Option<Plan>)
    requires Inv(s) && CanCancel(s, principal, run, active, action, plan)
    requires !run.phase.WAITING_APPROVAL? && (run.activeAttempt.None? || AttemptTerminal(active.value.status))
    requires CancelOutcome(s, principal, run, active, action, plan).Committed?
    ensures OnlyMoves(s, Cancel(principal, run, active, action, plan),
                      DoCancel(s, principal, run, active, action, plan).db)
  {
    hide Inv, OnlyMoves, SeenOk, RowsOk;
    InvIsSeen(s);
    SwappedRun(s, run);
    PutMoves(s, Cancel(principal, run, active, action, plan), CancelledRun(run), None, None, None);
  }

  lemma {:induction false} CancelAttemptMoves(s: System, principal: Principal, run: Run, active: Option<Attempt>,
                                              action: Option<Action>, plan: Option<Plan>)
    requires Inv(s) && CanCancel(s, principal, run, active, action, plan)
    requires !run.phase.WAITING_APPROVAL? && run.activeAttempt.Some? && !AttemptTerminal(active.value.status)
    requires CancelOutcome(s, principal, run, active, action, plan).Committed?
    ensures OnlyMoves(s, Cancel(principal, run, active, action, plan),
                      DoCancel(s, principal, run, active, action, plan).db)
  {
    hide Inv, OnlyMoves, SeenOk, RowsOk;
    InvIsSeen(s);
    SwappedRun(s, run);
    SwappedAttempt(s, active.value);
    if action.Some? {
      SwappedAction(s, action.value);
    }
    PutMoves(s, Cancel(principal, run, active, action, plan), CancelledRun(run),
             Some(SettledAttempt(active.value, AttemptCancelled)),
             if action.Some? then Some(CancelledAction(action.value)) else None, None);
  }

  lemma {:induction false} CancelPlanMoves(s: System, principal: Principal, run: Run, active: Option<Attempt>,
                                           action: Option<Action>, plan: Option<Plan>)
    requires Inv(s) && CanCancel(s, principal, run, active, action, plan)
    requires run.phase.WAITING_APPROVAL? && CancelOutcome(s, principal, run, active, action, plan).Committed?
    ensures OnlyMoves(s, Cancel(principal, run, active, action, plan),
                      DoCancel(s, principal, run, active, action, plan).db)
  {
    hide Inv, OnlyMoves, SeenOk, RowsOk;
    InvIsSeen(s);
    SwappedRun(s, run);
    SwappedAction(s, action.value);
    SwappedPlan(s, plan.value);
    ProposedPlan(s, run);
    PutMoves(s, Cancel(principal, run, active, action, plan), CancelledRun(run), None,
             Some(CancelledAction(action.value)), Some(DecidedPlan(plan.value, Rejected, principal)));
  }

  /** A Run in phase WAITING_APPROVAL that is not over waits for a decision nobody has made. */
  lemma ProposedPlan(s: System, run: Run)
    requires RowsOk(s.db) && run.id in s.db.runs && s.db.runs[run.id] == run
    requires run.phase.WAITING_APPROVAL? && !Terminal(run.status)
    ensures run.id in s.db.plans && s.db.plans[run.id].status.Proposed?
  {
    assert PhaseOk(s.db, run.id);
  }

  lemma {:induction false} RetryMoves(s: System, principal: Principal, run: Run)
    requires Inv(s)
    ensures OnlyMoves(s, Retry(principal, run), DoRetry(s, principal, run).db)
  {
    hide Inv, OnlyMoves, SeenOk, RowsOk;
    var step := Retry(principal, run);
    if DoRetry(s, principal, run).db == s.db {
      NothingMoves(s, step, s.db);
    } else {
      InvIsSeen(s);
      SwappedRun(s, run);
      PutMoves(s, step, RetriedRun(run), None, None, None);
    }
  }

  lemma {:induction false} ResumeMoves(s: System, principal: Principal, run: Run, action: Action, answers: string)
    requires Inv(s)
    ensures OnlyMoves(s, Resume(principal, run, action, answers), DoResume(s, principal, run, action, answers).db)
  {
    hide Inv, OnlyMoves, SeenOk, RowsOk;
    var step := Resume(principal, run, action, answers);
    if DoResume(s, principal, run, action, answers).db == s.db {
      NothingMoves(s, step, s.db);
    } else {
      InvIsSeen(s);
      SwappedRun(s, run);
      SwappedAction(s, action);
      PutMoves(s, step, ResumedRun(run), None, Some(AnsweredAction(action, answers)), None);
    }
  }

  lemma {:induction false} ExpireMoves(s: System, principal: Principal, run: Run, action: Action, attempt: Attempt)
    requires Inv(s)
    ensures OnlyMoves(s, ExpireAction(principal, run, action, attempt),
                      DoExpireAction(s, principal, run, action, attempt).db)
  {
    hide Inv, OnlyMoves, SeenOk, RowsOk;
    var step := ExpireAction(principal, run, action, attempt);
    if DoExpireAction(s, principal, run, action, attempt).db == s.db {
      NothingMoves(s, step, s.db);
    } else {
      InvIsSeen(s);
      SwappedRun(s, run);
      SwappedAction(s, action);
      SwappedAttempt(s, attempt);
      PutMoves(s, step, ExpiredRun(run), Some(SettledAttempt(attempt, AttemptCancelled)), Some(ExpiredAction(action)),
               None);
    }
  }

  lemma DecideOutcomeIs(s: System, principal: Principal, run: Run, action: Action, plan: Plan, decision: Response)
    requires decision.Decision? && DecideOutcome(s, principal, run, action, plan, decision).Committed?
    ensures run.id in s.db.runs && s.db.runs[run.id].revision == run.revision
    ensures plan.run == run.id && run.id in s.db.plans && s.db.plans[run.id].revision == plan.revision
    ensures action.id in s.db.actions && s.db.actions[action.id].revision == action.revision
    ensures DecideOutcome(s, principal, run, action, plan, decision).db
         == Put(s.db, DecidedRun(run, decision.approve), None, Some(ResolvedAction(action, decision)),
                Some(DecidedPlan(plan, if decision.approve then Approved else Rejected, principal)))
  {
  }

  lemma {:induction false} DecideMoves(s: System, principal: Principal, run: Run, action: Action, plan: Plan,
                                       decision: Response, script: string, digests: PlanCompiler.Digests)
    requires Inv(s)
    ensures OnlyMoves(s, Decide(principal, run, action, plan, decision, script, digests),
                      DoDecide(s, principal, run, action, plan, decision, script, digests).db)
  {
    hide Inv, OnlyMoves, SeenOk, RowsOk, DecideOutcome, PlanCompiler.Verify;
    var step := Decide(principal, run, action, plan, decision, script, digests);
    if !CanDecide(s, principal, run, action, plan, decision, script, digests)
       || DecideOutcome(s, principal, run, action, plan, decision).Aborted? {
      NothingMoves(s, step, s.db);
    } else {
      InvIsSeen(s);
      DecideOutcomeIs(s, principal, run, action, plan, decision);
      SwappedRun(s, run);
      SwappedAction(s, action);
      SwappedPlan(s, plan);
      PutMoves(s, step, DecidedRun(run, decision.approve), None, Some(ResolvedAction(action, decision)),
               Some(DecidedPlan(plan, if decision.approve then Approved else Rejected, principal)));
    }
  }

  lemma {:induction false} BlockMoves(s: System, conversation: Conversation)
    requires Inv(s)
    ensures OnlyMoves(s, Block(conversation), DoBlock(s, conversation).db)
  {
    hide Inv, OnlyMoves, SeenOk, RowsOk;
    var step := Block(conversation);
    if DoBlock(s, conversation).db == s.db {
      NothingMoves(s, step, s.db);
    } else {
      InvIsSeen(s);
      SwappedConversation(s, conversation);
      ConversationPutMoves(s, step, BlockedConversation(conversation));
    }
  }

  lemma {:induction false} ConversationPutMoves(s: System, step: Step, conversation: Conversation)
    requires if conversation.id in s.db.conversations
             then ConversationMoves(s, step, s.db.conversations[conversation.id], conversation)
             else Opens(step, conversation)
    ensures OnlyMoves(s, step, s.db.(conversations := s.db.conversations[conversation.id := conversation]))
  {
    NothingMoves(s, step, s.db);
    hide RunsMove, AttemptsMove, ActionsMove, PlansMove, ConversationMoves, Opens;
  }

  lemma AddedMoves(s: System, step: Step, run: Run, key: Option<string>, digest: Digest)
    requires Fits(s.db, run, key) && Submits(s, step, run) && Keyed(s.db)
    requires run.place.Some? ==>
               var conversation := s.db.conversations[run.place.value.conversation];
               conversation.status.ACTIVE? && SameIdentity(run.request, conversation)
    ensures OnlyMoves(s, step, Added(s.db, run, key, digest))
  {
    NothingMoves(s, step, s.db);
    hide RunMoves, AttemptsMove, ActionsMove, PlansMove;
  }

  lemma SubmitRunMoves(s: System, id: RunId, request: Request, planReact: bool, key: Option<string>)
    requires Keyed(s.db)
    ensures OnlyMoves(s, Submit(id, request, planReact, key), DoSubmit(s, id, request, planReact, key).db)
  {
    hide OnlyMoves, Keyed, Added, Fits, CreateRun;
    var step := Submit(id, request, planReact, key);
    var run, digest := NewRun(id, request, if planReact then PLANNING else DIRECT), DigestOf(request, None);
    RunOutcome(s.db, run, key, digest);
    if CreateRun(s.db, run, key, digest).Created? {
      AddedMoves(s, step, run, key, digest);
    } else {
      NothingMoves(s, step, s.db);
    }
  }

  lemma {:induction false} SubmitToConversationMoves(s: System, c: ConversationId, id: RunId, request: Request,
                                                     key: Option<string>)
    requires Keyed(s.db)
    ensures OnlyMoves(s, SubmitToConversation(c, id, request, key), DoSubmitToConversation(s, c, id, request, key).db)
  {
    hide OnlyMoves, Keyed, Added, Fits;
    var step := SubmitToConversation(c, id, request, key);
    var run, digest := NewRun(id, request, DIRECT), DigestOf(request, Some(c));
    ConversationRunOutcome(s.db, c, run, key, digest);
    var submission := CreateConversationRun(s.db, c, run, key, digest);
    if submission.Created? {
      AddedMoves(s, step, submission.run, key, digest);
    } else {
      NothingMoves(s, step, s.db);
    }
  }

  lemma OpenMoves(s: System, created: Conversation)
    ensures OnlyMoves(s, OpenConversation(created), Perform(s, OpenConversation(created)).db)
  {
    hide OnlyMoves;
    var step := OpenConversation(created);
    if created.id in s.db.conversations {
      NothingMoves(s, step, s.db);
    } else {
      ConversationPutMoves(s, step, created.(status := ACTIVE, nextSequence := 1, revision := 1));
    }
  }

  // ----- The recovery pass -----

  /** What the whole pass has done: it failed each selected Run and interrupted its active
      Attempt.  It lowers no lease, for those of abandoned Attempts are over already. */
  ghost predicate Recovered(db: Db, db': Db, rows: seq<RunId>) {
    && db' == db.(runs := db'.runs, attempts := db'.attempts)
    && db'.runs.Keys == db.runs.Keys
    && (forall r :: r in db.runs ==> db'.runs[r] == if r in rows then FailedRun(db.runs[r]) else db.runs[r])
    && db'.attempts.Keys == db.attempts.Keys
    && (forall a :: a in db.attempts ==>
          db'.attempts[a] ==
            if db.attempts[a].run in rows && db.attempts[a].run in db.runs
               && db.runs[db.attempts[a].run].activeAttempt == Some(a)
            then InterruptedAttempt(db.attempts[a]) else db.attempts[a])
  }

  lemma InterruptedIsRecovered(db: Db, r: RunId, now: Instant)
    requires RowsOk(db) && Abandoned(db, r, now)
    ensures Recovered(db, Interrupted(db, Pick(db, r, now).0, Pick(db, r, now).1, now), [r])
  {
    AbandonedRow(db, r, now);
    hide RowsOk;
    var (run, attempt) := Pick(db, r, now);
    assert LowerLease(db.leases, LeaseOf(run, attempt), now) == db.leases;
  }

  lemma RecoveredTwice(db: Db, db1: Db, db2: Db, rows: seq<RunId>)
    requires rows != [] && rows[0] !in rows[1..]
    requires Recovered(db, db1, rows[..1]) && Recovered(db1, db2, rows[1..])
    ensures Recovered(db, db2, rows)
  {
    assert forall r :: r in rows <==> r == rows[0] || r in rows[1..];
  }

  lemma {:induction false} PassRecovers(db: Db, rows: seq<RunId>, now: Instant)
    requires RowsOk(db) && AllAbandoned(db, rows, now)
    ensures Pass(db, rows, now).Committed? && RowsOk(Pass(db, rows, now).db)
    ensures Recovered(db, Pass(db, rows, now).db, rows)
    decreases |rows|
  {
    hide RowsOk, Abandoned, Interrupted, Pick;
    if rows != [] {
      RecoverUnfolds(db, rows, now);
      InterruptedKeepsRows(db, rows[0], now);
      var (run, attempt) := Pick(db, rows[0], now);
      var db1 := Interrupted(db, run, attempt, now);
      InterruptedIsRecovered(db, rows[0], now);
      PassRecovers(db1, rows[1..], now);
      hide AllAbandoned, Recovered;
      assert rows[..1] == [rows[0]];
      RecoveredTwice(db, db1, Pass(db1, rows[1..], now).db, rows);
    }
  }

  lemma {:induction false} InterruptedKeepsRows(db: Db, r: RunId, now: Instant)
    requires RowsOk(db) && Abandoned(db, r, now)
    ensures Pick(db, r, now).1.fence.Some?
    ensures RowsOk(Interrupted(db, Pick(db, r, now).0, Pick(db, r, now).1, now))
  {
    InterruptedRows(db, r, now);
    InterruptedIsRecovered(db, r, now);
    hide RowsOk;
    var (run, attempt) := Pick(db, r, now);
    assert Interrupted(db, run, attempt, now) == Put(db, FailedRun(run), Some(InterruptedAttempt(attempt)), None, None);
  }

  /** What the pass leaves abandoned: what it did not select. */
  lemma RecoveredLeavesTheRest(db: Db, db': Db, rows: seq<RunId>, now: Instant)
    requires RowsOk(db) && AllAbandoned(db, rows, now) && Recovered(db, db', rows)
    ensures forall r :: Abandoned(db', r, now) <==> Abandoned(db, r, now) && r !in rows
  {
    forall r ensures Abandoned(db', r, now) <==> Abandoned(db, r, now) && r !in rows {
      if r in db.runs {
        RunRow(db, r);
      }
    }
  }

  lemma RecoverMoves(s: System, rows: seq<RunId>, now: Instant)
    requires Inv(s)
    ensures OnlyMoves(s, Recover(rows, now), DoRecover(s, rows, now).db)
  {
    hide RunsOk, AttemptsOk, ActionsOk, InOrder, Numbered, LeasesOk, TasksOk, LedgerOk, SeenOk, AllAbandoned, OnlyMoves;
    hide Recovered;
    if AllAbandoned(s.db, rows, now) {
      PassRecovers(s.db, rows, now);
      RecoveredMoves(s, Pass(s.db, rows, now).db, rows, now);
    } else {
      NothingMoves(s, Recover(rows, now), s.db);
    }
  }

  lemma RecoveredMoves(s: System, db': Db, rows: seq<RunId>, now: Instant)
    requires Recovered(s.db, db', rows) && AllAbandoned(s.db, rows, now) && Keyed(s.db)
    ensures OnlyMoves(s, Recover(rows, now), db')
  {
  }

  // ----- All steps -----

  lemma {:induction false} StepMoves(s: System, step: Step)
    requires Inv(s)
    ensures OnlyMoves(s, step, Do(s, step).db)
  {
    hide Inv, OnlyMoves;
    hide DoBegin, DoSetDispatch, DoAsk, DoSettle, DoSettlePlanning, DoCancel, DoRecover;
    assert Keyed(s.db) by { InvIsSeen(s); }
    hide RowsOk, Keyed;
    hide DoClaim, DoSelect, DoSubmit, DoSubmitToConversation, DoRetry, DoResume, DoExpireAction, DoDecide, DoBlock;
    assert Do(s, step).db == Perform(s, step).db;
    hide Do, Observe;
    match step
    case Begin(lease, run, attempt, action, now) => BeginMoves(s, lease, run, attempt, action, now);
    case SetDispatch(lease, attempt, state, now) => DispatchMoves(s, lease, attempt, state, now);
    case Ask(lease, action, questions, expiresAt, now) => AskMoves(s, lease, action, questions, expiresAt, now);
    case SettleSuccess(lease, run, attempt, now) => SettleMoves(s, lease, run, attempt, true, now);
    case SettleFailure(lease, run, attempt, now) => SettleMoves(s, lease, run, attempt, false, now);
    case SettlePlanning(lease, run, attempt, plan, sha256, content, action, now) =>
      PlanningMoves(s, lease, run, attempt, plan, sha256, content, action, now);
    case Cancel(principal, run, active, action, plan) => CancelMoves(s, principal, run, active, action, plan);
    case Recover(rows, now) => RecoverMoves(s, rows, now);
    case Retry(principal, run) => RetryMoves(s, principal, run);
    case Resume(principal, run, action, answers) => ResumeMoves(s, principal, run, action, answers);
    case ExpireAction(principal, run, action, attempt) => ExpireMoves(s, principal, run, action, attempt);
    case Decide(principal, run, action, plan, decision, script, digests) =>
      DecideMoves(s, principal, run, action, plan, decision, script, digests);
    case Block(conversation) => BlockMoves(s, conversation);
    case Submit(run, request, planReact, key) => SubmitRunMoves(s, run, request, planReact, key);
    case SubmitToConversation(c, run, request, key) => SubmitToConversationMoves(s, c, run, request, key);
    case OpenConversation(created) => OpenMoves(s, created);
    case _ => LeaseMoves(s, step);
  }

  // ----- Row by row -----

  lemma {:induction false} RowOrMove(s: System, step: Step, r: RunId)
    requires Inv(s)
    ensures r in s.db.runs ==>
              && r in Do(s, step).db.runs
              && (Do(s, step).db.runs[r] == s.db.runs[r]
                  || RunMoves(s, step, s.db.runs[r], Do(s, step).db.runs[r]))
    ensures r !in s.db.runs && r in Do(s, step).db.runs ==> Submits(s, step, Do(s, step).db.runs[r])
  {
    hide Inv, Do, SidesMove, AttemptsMove, ActionsMove, PlansMove, ConversationsMove, RunMoves, Submits;
    StepMoves(s, step);
  }

  lemma {:induction false} AttemptOrMove(s: System, step: Step, a: AttemptId)
    requires Inv(s) && a in Do(s, step).db.attempts
    ensures if a in s.db.attempts
            then Do(s, step).db.attempts[a] == s.db.attempts[a]
                 || AttemptMoves(s, step, s.db.attempts[a], Do(s, step).db.attempts[a])
            else Starts(s, step, Do(s, step).db.attempts[a]) && Do(s, step).db != s.db
  {
    hide Inv, Do, SidesMove, RunsMove, ActionsMove, PlansMove, ConversationsMove, AttemptMoves, Starts;
    StepMoves(s, step);
  }

  lemma {:induction false} ActionOrMove(s: System, step: Step, x: ActionId)
    requires Inv(s)
    ensures x in s.db.actions ==>
              && x in Do(s, step).db.actions
              && (Do(s, step).db.actions[x] == s.db.actions[x]
                  || ActionMoves(s, step, s.db.actions[x], Do(s, step).db.actions[x]))
    ensures x !in s.db.actions && x in Do(s, step).db.actions ==> Raises(s, step, Do(s, step).db.actions[x])
  {
    hide Inv, Do, SidesMove, RunsMove, AttemptsMove, PlansMove, ConversationsMove, ActionMoves, Raises;
    StepMoves(s, step);
  }

  lemma {:induction false} PlanOrMove(s: System, step: Step, r: RunId)
    requires Inv(s)
    ensures r in s.db.plans ==>
              && r in Do(s, step).db.plans
              && (Do(s, step).db.plans[r] == s.db.plans[r]
                  || PlanMoves(s, step, s.db.plans[r], Do(s, step).db.plans[r]))
    ensures r !in s.db.plans && r in Do(s, step).db.plans ==> Proposes(s, step, Do(s, step).db.plans[r])
  {
    hide Inv, Do, SidesMove, RunsMove, AttemptsMove, ActionsMove, ConversationsMove, PlanMoves, Proposes;
    StepMoves(s, step);
  }
}
