/** Every state the step system can reach satisfies the invariant, and what that means over
    whole histories: exclusion, order, fencing, answers, approvals and numbering. */
module Histories {
  import PlanCompiler
  import opened Records
  import opened Transactions
  import opened Protocol
  import opened Invariants
  import opened Edges
  import opened LeaseSteps
  import opened WorkerSteps
  import opened BeginSteps
  import opened CallSteps
  import opened SubmitSteps
  import opened RecoverSteps
  import opened Changes

  lemma ClockIsFree(s: System, clock: Instant)
    requires Inv(s)
    ensures Inv(s.(clock := clock))
  {
    hide SeenOk, RowsOk, InOrder, Numbered, LeasesOk, TasksOk, CreditsOk, ApprovalsOk, SubmissionsOk;
  }

  lemma {:induction false} LeaseStepKeeps(s: System, step: Step)
    requires Inv(s)
    requires step.Claim? || step.Renew? || step.Release? || step.Select? || step.Leave? || step.End?
    ensures Inv(Observe(Perform(s, step)))
  {
    hide Inv, Observe, DoClaim, DoSelect;
    match step
    case Claim(candidates, worker, seconds, now) => ClaimKeeps(s, candidates, worker, seconds, now);
    case Renew(_, _, _) => TimedLeaseKeeps(s, Perform(s, step));
    case Release(_, _) => TimedLeaseKeeps(s, Perform(s, step));
    case Select(lease, conversation, choice) => SelectKeeps(s, lease, conversation, choice);
    case Leave(lease) => if lease in s.tasks { FinishKeeps(s, lease); } else { IdleStep(s); }
    case End(lease) => EndKeeps(s, lease);
  }

  /** One step, whichever it is, keeps the invariant. */
  lemma {:induction false} StepKeeps(s: System, step: Step)
    requires Inv(s)
    ensures Inv(Do(s, step))
  {
    hide Inv, Observe;
    hide DoBegin, DoSetDispatch, DoAsk, DoSettle, DoSettlePlanning, DoCancel, DoRecover;
    hide DoClaim, DoSelect, DoSubmit, DoSubmitToConversation, DoRetry, DoResume, DoExpireAction, DoDecide, DoBlock;
    assert Inv(Observe(Perform(s, step))) || step.OpenConversation? by {
      match step
      case Begin(lease, run, attempt, action, now) => BeginKeeps(s, lease, run, attempt, action, now);
      case SetDispatch(lease, attempt, state, now) => DispatchKeeps(s, lease, attempt, state, now);
      case Ask(lease, action, questions, expiresAt, now) => AskKeeps(s, lease, action, questions, expiresAt, now);
      case SettleSuccess(lease, run, attempt, now) => SettleKeeps(s, lease, run, attempt, true, now);
      case SettleFailure(lease, run, attempt, now) => SettleKeeps(s, lease, run, attempt, false, now);
      case SettlePlanning(lease, run, attempt, plan, sha256, content, action, now) =>
        PlanningKeeps(s, lease, run, attempt, plan, sha256, content, action, now);
      case OpenConversation(_) =>
      case SubmitToConversation(c, run, request, key) => SubmitToConversationKeeps(s, c, run, request, key);
      case Submit(run, request, planReact, key) => SubmitKeeps(s, run, request, planReact, key);
      case Cancel(principal, run, active, action, plan) => CancelKeeps(s, principal, run, active, action, plan);
      case Retry(principal, run) => RetryKeeps(s, principal, run);
      case Resume(principal, run, action, answers) => ResumeKeeps(s, principal, run, action, answers);
      case ExpireAction(principal, run, action, attempt) => ExpireKeeps(s, principal, run, action, attempt);
      case Decide(principal, run, action, plan, decision, script, digests) =>
        DecideKeeps(s, principal, run, action, plan, decision, script, digests);
      case Block(conversation) => BlockKeeps(s, conversation);
      case Recover(rows, now) => RecoverKeeps(s, rows, now);
      case _ => LeaseStepKeeps(s, step);
    }
    if step.OpenConversation? {
      OpenKeeps(s, step.created);
    } else if Timed(step) {
      ClockIsFree(Observe(Perform(s, step)), step.now);
    }
  }

  lemma {:induction false} Reachable(steps: seq<Step>)
    ensures Inv(After(steps))
  {
    if steps != [] {
      Reachable(steps[..|steps| - 1]);
      StepKeeps(After(steps[..|steps| - 1]), steps[|steps| - 1]);
    }
  }

  lemma {:induction false} OneMore(steps: seq<Step>, more: seq<Step>)
    requires more != []
    ensures After(steps + more) == Do(After(steps + more[..|more| - 1]), more[|more| - 1])
  {
    hide Do;
    assert (steps + more)[..|steps + more| - 1] == steps + more[..|more| - 1];
  }

  // ----- Exclusion and order -----

  /** Two Runs of one Conversation are never RUNNING or WAITING together. */
  lemma {:induction false} MutualExclusion(steps: seq<Step>, p: RunId, q: RunId, c: ConversationId)
    requires p in After(steps).db.runs && InConversation(After(steps).db.runs[p], c)
    requires q in After(steps).db.runs && InConversation(After(steps).db.runs[q], c)
    requires Occupying(After(steps).db.runs[p].status) && Occupying(After(steps).db.runs[q].status)
    ensures p == q
  {
    var db := After(steps).db;
    Reachable(steps);
    assert StatusOk(db, p) && StatusOk(db, q);
  }

  lemma NobodyElseOccupies(db: Db, run: Run)
    requires InOrder(db) && RunsOk(db) && Keyed(db)
    requires run.id in db.runs && db.runs[run.id].place == run.place && Occupying(db.runs[run.id].status)
    ensures !OccupiedByAnother(db, run)
  {
    assert StatusOk(db, run.id);
    forall r | r in db.runs && r != run.id && run.place.Some? && InConversation(db.runs[r], run.place.value.conversation)
      ensures !Occupying(db.runs[r].status)
    {
      assert StatusOk(db, r);
    }
  }

  lemma NobodyOccupiesWhenClear(s: System, lease: Lease, run: Run)
    requires Inv(s) && lease in s.tasks && s.tasks[lease] == Selected(run.id)
    requires LeaseCurrent(s.db, lease) && run.id in s.db.runs && s.db.runs[run.id] == run
    ensures forall r :: r in s.db.runs && r != run.id && run.place.Some?
                        && InConversation(s.db.runs[r], run.place.value.conversation) ==>
              !Occupying(s.db.runs[r].status)
  {
    SelectedTask(s, lease);
    hide Inv;
    assert run.place.Some? ==> Clear(s.db, run.place.value.conversation, run.id);
  }

  lemma BeginConflictIs(s: System, lease: Lease, run: Run, attempt: AttemptId, action: Option<Action>, now: Instant)
    requires BeginOutcome(s, lease, run, attempt, action, now) == Aborted(UniqueViolation(RunsConversationActive))
    ensures LeaseCurrent(s.db, lease)
    ensures run.id in s.db.runs && s.db.runs[run.id].revision == run.revision
    ensures run.place.Some?
            && exists r :: r in s.db.runs && r != run.id && InConversation(s.db.runs[r], run.place.value.conversation)
                           && Occupying(s.db.runs[r].status)
  {
  }

  lemma BeginFindsNoOccupant(s: System, lease: Lease, run: Run, attempt: AttemptId, action: Option<Action>,
                             now: Instant)
    requires Inv(s) && lease in s.tasks && s.tasks[lease] == Selected(run.id) && run in s.seen.runs
    ensures BeginOutcome(s, lease, run, attempt, action, now) != Aborted(UniqueViolation(RunsConversationActive))
  {
    hide Inv, SeenOk, RowsOk, BeginOutcome;
    if BeginOutcome(s, lease, run, attempt, action, now) == Aborted(UniqueViolation(RunsConversationActive)) {
      BeginConflictIs(s, lease, run, attempt, action, now);
      InvIsSeen(s);
      SwappedRun(s, run);
      NobodyOccupiesWhenClear(s, lease, run);
    }
  }

  /** The unique index on active Runs never rejects the `begin_attempt` of a Worker, however old
      the list is from which its task picked the Run. */
  lemma {:induction false} IndexNeverRejectsBegin(steps: seq<Step>, lease: Lease, run: Run, attempt: AttemptId,
                                                  action: Option<Action>, now: Instant)
    requires var s := After(steps);
             lease in s.tasks && s.tasks[lease] == Selected(run.id) && CanBegin(s, run, action)
    ensures BeginOutcome(After(steps), lease, run, attempt, action, now)
            != Aborted(UniqueViolation(RunsConversationActive))
  {
    assert run in After(steps).seen.runs;
    hide After, Inv, BeginOutcome, CanBegin;
    Reachable(steps);
    BeginFindsNoOccupant(After(steps), lease, run, attempt, action, now);
  }

  lemma NoPendingAction(db: Db, r: RunId)
    requires ActionsOk(db) && RunsOk(db) && r in db.runs && db.runs[r].status.RUNNING?
    ensures forall x :: x in db.actions && db.actions[x].run == r ==> !db.actions[x].status.Pending?
  {
    assert RequiredActionOk(db, r);
    forall x | x in db.actions && db.actions[x].run == r
      ensures !db.actions[x].status.Pending?
    {
      assert ActionOk(db, x);
    }
  }

  lemma AskFindsNoOccupant(s: System, lease: Lease, action: Action, now: Instant)
    requires Inv(s) && action.run in s.db.runs
    ensures var outcome := EnterRequiredAction(s.db, action, Some(lease), now);
            && outcome != Aborted(UniqueViolation(RunsConversationActive))
            && outcome != Aborted(UniqueViolation(ActionsPendingRun))
  {
    var run := s.db.runs[action.run];
    RunRow(s.db, action.run);
    if run.status.RUNNING? {
      NoPendingAction(s.db, action.run);
      NobodyElseOccupies(s.db, WaitingRun(run, action.id));
    }
    hide Inv, SeenOk, RowsOk, InOrder, RunsOk, AttemptsOk, ActionsOk;
  }

  /** Neither do the indexes on active Runs and pending Actions reject a question. */
  lemma {:induction false} IndexesNeverRejectAsk(steps: seq<Step>, lease: Lease, id: ActionId, questions: string,
                                                 expiresAt: Instant, now: Instant)
    requires var s := After(steps);
             lease in s.tasks && s.tasks[lease].Executing? && s.tasks[lease].run in s.db.runs
    ensures var s := After(steps);
            var run := s.db.runs[s.tasks[lease].run];
            var action := Question(run, s.tasks[lease].attempt, id, questions, expiresAt);
            var outcome := EnterRequiredAction(s.db, action, Some(lease), now);
            && outcome != Aborted(UniqueViolation(RunsConversationActive))
            && outcome != Aborted(UniqueViolation(ActionsPendingRun))
  {
    hide After, EnterRequiredAction;
    Reachable(steps);
    var s := After(steps);
    LiveTask(s, lease);
    RunRow(s.db, s.tasks[lease].run);
    hide Inv;
    AskFindsNoOccupant(s, lease, Question(s.db.runs[s.tasks[lease].run], s.tasks[lease].attempt, id, questions, expiresAt),
                       now);
  }

  /** What holds between a Run and the same Run at any later time. */
  predicate RunLater(x: Run, y: Run) {
    && y.id == x.id && y.place == x.place && y.request == x.request
    && x.revision <= y.revision && (x.revision == y.revision ==> x == y)
    && x.attemptCount <= y.attemptCount
    && (x.place.Some? && Terminal(x.status) ==> Terminal(y.status))
  }

  lemma MoveIsLater(s: System, step: Step, x: Run, y: Run)
    requires RunMoves(s, step, x, y)
    requires x.place.Some? ==> !x.phase.PLANNING? && !x.phase.WAITING_APPROVAL?
    ensures RunLater(x, y) && y.revision == x.revision + 1
  {
  }

  /** Runs are never deleted; who asked for what and the place in line never change; the Run of
      a Conversation that is over stays over. */
  lemma {:induction false} RunsLast(steps: seq<Step>, more: seq<Step>, r: RunId)
    requires r in After(steps).db.runs
    ensures r in After(steps + more).db.runs && RunLater(After(steps).db.runs[r], After(steps + more).db.runs[r])
    decreases |more|
  {
    if more == [] {
      assert steps + more == steps;
    } else {
      var before := After(steps + more[..|more| - 1]);
      RunsLast(steps, more[..|more| - 1], r);
      Reachable(steps + more[..|more| - 1]);
      OneMore(steps, more);
      StepMoves(before, more[|more| - 1]);
      RunRow(before.db, r);
      hide Inv, After, Do, RunMoves, RowsOk;
      var after := After(steps + more).db.runs[r];
      if after != before.db.runs[r] {
        MoveIsLater(before, more[|more| - 1], before.db.runs[r], after);
      }
    }
  }

  /** Once a Run has had an Attempt, every Run in front of it is over and stays over. */
  lemma {:induction false} SequenceOrder(steps: seq<Step>, more: seq<Step>, p: RunId, q: RunId, c: ConversationId)
    requires q in After(steps).db.runs && InConversation(After(steps).db.runs[q], c)
    requires After(steps).db.runs[q].attemptCount > 0
    requires p in After(steps + more).db.runs && InConversation(After(steps + more).db.runs[p], c)
    requires After(steps + more).db.runs[p].place.value.sequence < After(steps).db.runs[q].place.value.sequence
    ensures Terminal(After(steps + more).db.runs[p].status)
  {
    RunsLast(steps, more, q);
    Reachable(steps + more);
  }

  // ----- Fencing -----

  predicate Granting(s: System, step: Step, resource: Resource) {
    && step.Claim?
    && (forall i :: 0 <= i < |step.candidates| ==> Runnable(s.db, step.candidates[i]))
    && var claim := ClaimWork(s.db, step.candidates, step.worker, step.seconds, step.now);
       claim.Granted? && claim.lease.resource == resource
  }

  /** How often a resource has been granted. */
  function Grants(steps: seq<Step>, resource: Resource): nat {
    if steps == [] then 0
    else
      var before := steps[..|steps| - 1];
      Grants(before, resource) + (if Granting(After(before), steps[|steps| - 1], resource) then 1 else 0)
  }

  function Token(db: Db, resource: Resource): nat {
    if resource in db.leases then db.leases[resource].token else 0
  }

  lemma LeaseStepTokens(s: System, step: Step, resource: Resource)
    requires step.Claim? || step.Renew? || step.Release?
    ensures Token(Perform(s, step).db, resource)
            == Token(s.db, resource) + (if Granting(s, step, resource) then 1 else 0)
  {
    hide FirstClaimable, Runnable;
  }

  lemma {:induction false} StepTokens(s: System, step: Step, resource: Resource)
    requires Inv(s)
    ensures Token(Do(s, step).db, resource)
            == Token(s.db, resource) + (if Granting(s, step, resource) then 1 else 0)
  {
    hide RunsMove, AttemptsMove, ActionsMove, PlansMove, ConversationsMove;
    StepMoves(s, step);
    hide Inv;
    assert Do(s, step).db == Perform(s, step).db;
    hide Do, Observe, Perform;
    if step.Claim? || step.Renew? || step.Release? {
      LeaseStepTokens(s, step, resource);
    }
  }

  /** Tokens are exactly the count of grants, across release, expiry and recovery. */
  lemma {:induction false} TokensCountGrants(steps: seq<Step>, resource: Resource)
    ensures Token(After(steps).db, resource) == Grants(steps, resource)
  {
    if steps != [] {
      var before := steps[..|steps| - 1];
      TokensCountGrants(before, resource);
      Reachable(before);
      StepTokens(After(before), steps[|steps| - 1], resource);
    }
  }

  predicate Leased(step: Step) {
    step.Begin? || step.SetDispatch? || step.Ask? || step.SettleSuccess? || step.SettleFailure? || step.SettlePlanning?
  }

  lemma LeasedStepIsGuarded(s: System, step: Step)
    requires Leased(step) && Do(s, step).db != s.db
    ensures LeaseValid(s.db, step.lease, step.now)
  {
    hide InsertAttempt, InsertAction, InsertPlan, UpdateRun, UpdateAttempt, UpdateAction, CanBegin, CanSettle;
    assert Do(s, step).db == Perform(s, step).db;
    hide Observe, Do;
  }

  /** A leased write commits only under the newest grant of its resource. */
  lemma {:induction false} FencedWrite(steps: seq<Step>, step: Step)
    requires Leased(step) && Do(After(steps), step).db != After(steps).db
    ensures step.lease.token == Grants(steps, step.lease.resource)
    ensures LeaseValid(After(steps).db, step.lease, step.now)
  {
    LeasedStepIsGuarded(After(steps), step);
    TokensCountGrants(steps, step.lease.resource);
  }

  lemma {:induction false} GrantsGrow(steps: seq<Step>, more: seq<Step>, resource: Resource)
    ensures Grants(steps, resource) <= Grants(steps + more, resource)
    decreases |more|
  {
    if more == [] {
      assert steps + more == steps;
    } else {
      assert (steps + more)[..|steps + more| - 1] == steps + more[..|more| - 1];
      GrantsGrow(steps, more[..|more| - 1], resource);
    }
  }

  /** After a newer grant, nothing that carries an older token is ever written again. */
  lemma {:induction false} StaleTokensNeverWrite(steps: seq<Step>, more: seq<Step>, step: Step)
    requires Leased(step) && step.lease.token < Grants(steps, step.lease.resource)
    ensures Do(After(steps + more), step).db == After(steps + more).db
  {
    GrantsGrow(steps, more, step.lease.resource);
    if Do(After(steps + more), step).db != After(steps + more).db {
      FencedWrite(steps + more, step);
    }
  }

  // ----- Questions and answers -----

  /** `required_action_id` is set exactly while the Run waits for the pending Action or is
      queued with the answered one. */
  lemma {:induction false} RequiredActionCoherence(steps: seq<Step>, r: RunId, x: ActionId)
    requires r in After(steps).db.runs && After(steps).db.runs[r].place.Some?
    ensures var db := After(steps).db;
            db.runs[r].requiredAction == Some(x) <==>
              && x in db.actions && db.actions[x].run == r
              && (|| (db.runs[r].status.WAITING? && db.actions[x].status.Pending?)
                  || (db.runs[r].status.QUEUED? && db.actions[x].status.Answered?))
  {
    var db := After(steps).db;
    Reachable(steps);
    RunRow(db, r);
    assert x in db.actions ==> ActionOk(db, x);
  }

  /** An open Action is the one its Run refers to: there is at most one. */
  lemma {:induction false} OneOpenAction(steps: seq<Step>, x: ActionId, y: ActionId)
    requires var actions := After(steps).db.actions;
             && x in actions && y in actions && actions[x].run == actions[y].run
             && (actions[x].status.Pending? || actions[x].status.Answered?)
             && (actions[y].status.Pending? || actions[y].status.Answered?)
    ensures x == y
  {
    Reachable(steps);
    assert ActionOk(After(steps).db, x) && ActionOk(After(steps).db, y);
  }

  /** An answer is consumed by the Attempt that follows the one that asked. */
  lemma {:induction false} ConsumedByTheNextAttempt(steps: seq<Step>, x: ActionId)
    requires x in After(steps).db.actions && After(steps).db.actions[x].kind.UserInput?
    requires After(steps).db.actions[x].status.Consumed?
    ensures var db := After(steps).db;
            var action := db.actions[x];
            && action.response.Some? && action.consumedBy.Some?
            && action.attempt in db.attempts && action.consumedBy.value in db.attempts
            && db.attempts[action.consumedBy.value].run == db.attempts[action.attempt].run
            && db.attempts[action.consumedBy.value].number == db.attempts[action.attempt].number + 1
  {
    Reachable(steps);
    assert ActionOk(After(steps).db, x);
  }

  /** An Action that has been consumed, expired or cancelled never changes again; one that has
      been answered keeps its answer. */
  predicate ActionLater(x: Action, y: Action) {
    && y.id == x.id && y.run == x.run && y.attempt == x.attempt && y.kind == x.kind && y.payload == x.payload
    && (!x.status.Pending? && !x.status.Answered? ==> y == x)
    && (x.status.Answered? ==> (y.status.Answered? || y.status.Consumed?) && y.response == x.response)
  }

  lemma ActionMoveIsLater(s: System, step: Step, x: Action, y: Action)
    requires ActionMoves(s, step, x, y)
    ensures ActionLater(x, y)
  {
  }

  lemma {:induction false} ActionsLast(steps: seq<Step>, more: seq<Step>, x: ActionId)
    requires x in After(steps).db.actions
    ensures x in After(steps + more).db.actions
            && ActionLater(After(steps).db.actions[x], After(steps + more).db.actions[x])
    decreases |more|
  {
    hide Do, ActionMoves;
    if more == [] {
      assert steps + more == steps;
    } else {
      var before := After(steps + more[..|more| - 1]);
      ActionsLast(steps, more[..|more| - 1], x);
      Reachable(steps + more[..|more| - 1]);
      OneMore(steps, more);
      ActionOrMove(before, more[|more| - 1], x);
      hide Inv, After;
      var after := After(steps + more).db.actions[x];
      if after != before.db.actions[x] {
        ActionMoveIsLater(before, more[|more| - 1], before.db.actions[x], after);
      }
    }
  }

  // ----- Plans -----

  /** A decided Plan never changes again. */
  lemma {:induction false} DecisionsLast(steps: seq<Step>, more: seq<Step>, r: RunId)
    requires r in After(steps).db.plans && !After(steps).db.plans[r].status.Proposed?
    ensures r in After(steps + more).db.plans && After(steps + more).db.plans[r] == After(steps).db.plans[r]
    decreases |more|
  {
    hide Do;
    if more == [] {
      assert steps + more == steps;
    } else {
      var before := After(steps + more[..|more| - 1]);
      DecisionsLast(steps, more[..|more| - 1], r);
      Reachable(steps + more[..|more| - 1]);
      OneMore(steps, more);
      PlanOrMove(before, more[|more| - 1], r);
      hide Inv, After;
    }
  }

  /** What a Plan says, and the digest it says it under, never changes. */
  lemma {:induction false} PlanContentLasts(steps: seq<Step>, more: seq<Step>, r: RunId)
    requires r in After(steps).db.plans
    ensures r in After(steps + more).db.plans
    ensures var plan, later := After(steps).db.plans[r], After(steps + more).db.plans[r];
            later == plan.(status := later.status, revision := later.revision, decidedBy := later.decidedBy)
    decreases |more|
  {
    hide Do;
    if more == [] {
      assert steps + more == steps;
    } else {
      var before := After(steps + more[..|more| - 1]);
      PlanContentLasts(steps, more[..|more| - 1], r);
      Reachable(steps + more[..|more| - 1]);
      OneMore(steps, more);
      PlanOrMove(before, more[|more| - 1], r);
      hide Inv, After;
    }
  }

  predicate Approves(s: System, step: Step, r: RunId, ref: PlanRef) {
    && step.Decide? && step.run.id == r
    && step.decision == Decision(true, ref)
    && Owns(step.principal, step.run)
    && r in s.db.plans && s.db.plans[r] == step.proposal && step.proposal.status.Proposed?
    && RefOf(step.proposal) == ref
    && PlanCompiler.Verify(step.proposal, step.script, step.digests).Ok?
    && Do(s, step).db != s.db
  }

  /** Steps of a Worker leave the records of calls alone. */
  lemma WorkersKeepRecords(s: System, step: Step)
    requires Leased(step) || step.Claim? || step.Renew? || step.Release? || step.Select? || step.Leave? || step.End?
    ensures var s' := Perform(s, step);
            s'.credits == s.credits && s'.approvals == s.approvals && s'.submissions == s.submissions
  {
    hide BeginOutcome, SettleOutcome, PlanningOutcome, EnterRequiredAction, ReplaceAttempt, ClaimWork, CanBegin, CanSettle;
    hide NextInLine, RenewLease, ReleaseLease, Runnable;
  }

  lemma ApprovalsComeFromDecisions(s: System, step: Step)
    requires !step.Decide?
    ensures Perform(s, step).approvals == s.approvals
  {
    if Leased(step) || step.Claim? || step.Renew? || step.Release? || step.Select? || step.Leave? || step.End? {
      WorkersKeepRecords(s, step);
    } else {
      hide CanCancel, CancelOutcome, CreateRun, CreateConversationRun, InterruptAll, AllAbandoned, AnswerRequiredAction;
      hide ReplaceRun, SettleAttempt, CanResume, ReplaceConversation, CreateConversation;
    }
  }

  lemma DecisionWrites(s: System, principal: Principal, run: Run, action: Action, plan: Plan, decision: Response)
    requires decision.Decision? && DecideOutcome(s, principal, run, action, plan, decision).Committed?
    ensures plan.run in s.db.plans && s.db.plans[plan.run].revision == plan.revision && run.id in s.db.runs
    ensures DecideOutcome(s, principal, run, action, plan, decision).db != s.db
  {
    DecideOutcomeIs(s, principal, run, action, plan, decision);
    assert DecidedRun(run, decision.approve).revision != s.db.runs[run.id].revision;
    hide DecideOutcome;
  }

  lemma ApprovingCommits(s: System, principal: Principal, run: Run, action: Action, plan: Plan, decision: Response,
                         script: string, digests: PlanCompiler.Digests)
    requires DoDecide(s, principal, run, action, plan, decision, script, digests).approvals != s.approvals
    ensures CanDecide(s, principal, run, action, plan, decision, script, digests) && decision.approve
    ensures DecideOutcome(s, principal, run, action, plan, decision).Committed?
    ensures var s' := DoDecide(s, principal, run, action, plan, decision, script, digests);
            && s'.db == DecideOutcome(s, principal, run, action, plan, decision).db
            && s'.approvals == s.approvals[run.id := decision.ref]
  {
    hide DecideOutcome;
  }

  lemma DecisionsAreApprovals(s: System, step: Step, r: RunId)
    requires Inv(s) && step.Decide?
    requires r in Perform(s, step).approvals
    requires r !in s.approvals || s.approvals[r] != Perform(s, step).approvals[r]
    ensures step.run.id == r && step.decision == Decision(true, Perform(s, step).approvals[r])
    ensures Owns(step.principal, step.run)
    ensures r in s.db.plans && s.db.plans[r] == step.proposal && step.proposal.status.Proposed?
    ensures RefOf(step.proposal) == Perform(s, step).approvals[r]
    ensures PlanCompiler.Verify(step.proposal, step.script, step.digests).Ok?
    ensures Perform(s, step).db != s.db
  {
    match step
    case Decide(principal, run, action, plan, decision, script, digests) =>
      hide DoDecide, Inv, DecideOutcome, PlanCompiler.Verify;
      assert Perform(s, step) == DoDecide(s, principal, run, action, plan, decision, script, digests);
      ApprovingCommits(s, principal, run, action, plan, decision, script, digests);
      DecisionWrites(s, principal, run, action, plan, decision);
      assert SeenOk(s.db, s.seen) by { InvIsSeen(s); }
      SwappedPlan(s, plan);
  }

  lemma {:induction false} StepApprovals(s: System, step: Step, r: RunId)
    requires Inv(s)
    requires r in Do(s, step).approvals
    requires r !in s.approvals || s.approvals[r] != Do(s, step).approvals[r]
    ensures Approves(s, step, r, Do(s, step).approvals[r])
  {
    hide Inv, Perform;
    assert Do(s, step).db == Perform(s, step).db && Do(s, step).approvals == Perform(s, step).approvals;
    hide Do, Observe;
    if step.Decide? {
      DecisionsAreApprovals(s, step, r);
    } else {
      ApprovalsComeFromDecisions(s, step);
    }
  }

  lemma {:induction false} ApprovalsWereGiven(steps: seq<Step>, r: RunId) returns (k: nat)
    requires r in After(steps).approvals
    ensures k < |steps| && Approves(After(steps[..k]), steps[k], r, After(steps).approvals[r])
  {
    hide Do, Approves;
    var before := steps[..|steps| - 1];
    assert After(steps) == Do(After(before), steps[|steps| - 1]);
    hide After;
    if r in After(before).approvals && After(before).approvals[r] == After(steps).approvals[r] {
      k := ApprovalsWereGiven(before, r);
      assert before[..k] == steps[..k];
    } else {
      k := |steps| - 1;
      Reachable(before);
      StepApprovals(After(before), steps[k], r);
    }
  }

  /** A Run executes a Plan, or has an Attempt that did, only after its owner approved exactly
      that Plan at its proposed revision and digest. */
  lemma {:induction false} OnlyApprovedPlansExecute(steps: seq<Step>, r: RunId) returns (k: nat)
    requires r in After(steps).db.runs
    requires After(steps).db.runs[r].phase.EXECUTING?
             || exists a :: a in After(steps).db.attempts && After(steps).db.attempts[a].run == r
                            && After(steps).db.attempts[a].phase.EXECUTING?
    ensures r in After(steps).db.plans && After(steps).db.plans[r].status.Approved?
    ensures var plan := After(steps).db.plans[r];
            k < |steps| && Approves(After(steps[..k]), steps[k], r, PlanRef(plan.id, 1, plan.sha256))
  {
    var s := After(steps);
    Reachable(steps);
    RunRow(s.db, r);
    if !s.db.runs[r].phase.EXECUTING? {
      var a :| a in s.db.attempts && s.db.attempts[a].run == r && s.db.attempts[a].phase.EXECUTING?;
      assert AttemptOk(s.db, a);
    }
    k := ApprovalsWereGiven(steps, r);
  }

  /** The Run of a rejected Plan never gets to execute it. */
  lemma {:induction false} RejectedPlansNeverExecute(steps: seq<Step>, more: seq<Step>, r: RunId)
    requires r in After(steps).db.plans && After(steps).db.plans[r].status.Rejected?
    ensures var db := After(steps + more).db;
            && r in db.runs && !db.runs[r].phase.EXECUTING?
            && forall a :: a in db.attempts && db.attempts[a].run == r ==> !db.attempts[a].phase.EXECUTING?
  {
    DecisionsLast(steps, more, r);
    Reachable(steps + more);
    var db := After(steps + more).db;
    RunRow(db, r);
    forall a | a in db.attempts && db.attempts[a].run == r ensures !db.attempts[a].phase.EXECUTING? {
      assert AttemptOk(db, a);
    }
  }

  /** Cancelling a Run that waits for the decision rejects its Plan: no retry gets it to execute. */
  lemma {:induction false} CancelledProposalsNeverExecute(steps: seq<Step>, more: seq<Step>, r: RunId)
    requires r in After(steps).db.runs
    requires After(steps).db.runs[r].phase.WAITING_APPROVAL? && After(steps).db.runs[r].status.CANCELLED?
    ensures var db := After(steps + more).db;
            && r in db.runs && !db.runs[r].phase.EXECUTING?
            && forall a :: a in db.attempts && db.attempts[a].run == r ==> !db.attempts[a].phase.EXECUTING?
  {
    hide After;
    Reachable(steps);
    RunRow(After(steps).db, r);
    RejectedPlansNeverExecute(steps, more, r);
  }

  // ----- No silent replay -----

  /** A call of the owner that queues the Run again. */
  predicate Requeues(s: System, step: Step, r: RunId) {
    && (step.Retry? || step.Resume? || (step.Decide? && step.decision.Decision? && step.decision.approve))
    && step.run.id == r
    && Do(s, step).db != s.db
  }

  function Requeued(steps: seq<Step>, r: RunId): nat {
    if steps == [] then 0
    else
      var before := steps[..|steps| - 1];
      Requeued(before, r) + (if Requeues(After(before), steps[|steps| - 1], r) then 1 else 0)
  }

  /** The call queued the Run again, and gave it a credit, or did nothing to it. */
  predicate CreditsFollow(s: System, s': System, run: Run, again: bool) {
    && (again <==> s'.db != s.db)
    && (again ==> run.id in s.db.runs && s' == Credit(s.(db := s'.db), run.id))
  }

  lemma RetryCredits(s: System, principal: Principal, run: Run)
    ensures var s' := DoRetry(s, principal, run);
            CreditsFollow(s, s', run, s'.db != s.db) && (s'.db == s.db ==> s' == s)
  {
  }

  lemma ResumeCredits(s: System, principal: Principal, run: Run, action: Action, answers: string)
    ensures var s' := DoResume(s, principal, run, action, answers);
            CreditsFollow(s, s', run, s'.db != s.db) && (s'.db == s.db ==> s' == s)
  {
    hide CanResume;
  }

  lemma DecideCredits(s: System, principal: Principal, run: Run, action: Action, plan: Plan, decision: Response,
                      script: string, digests: PlanCompiler.Digests)
    ensures var s' := DoDecide(s, principal, run, action, plan, decision, script, digests);
            && s'.credits == (if s'.db != s.db && decision.Decision? && decision.approve
                              then Credit(s, run.id).credits else s.credits)
            && (s'.db != s.db ==> run.id in s.db.runs)
  {
    assert CanDecide(s, principal, run, action, plan, decision, script, digests) ==> decision.Decision?;
    hide CanDecide, DecideOutcome;
    if decision.Decision? && DecideOutcome(s, principal, run, action, plan, decision).Committed? {
      DecisionWrites(s, principal, run, action, plan, decision);
    }
  }

  lemma RequeueCredits(s: System, step: Step, r: RunId)
    requires step.Retry? || step.Resume? || step.Decide?
    ensures var s' := Perform(s, step);
            var again := step.run.id == r && s'.db != s.db
                         && (step.Decide? ==> step.decision.Decision? && step.decision.approve);
            && (again ==> r in s.db.runs)
            && (r in s.credits ==> r in s'.credits && s'.credits[r] == s.credits[r] + (if again then 1 else 0))
  {
    hide DoRetry, DoResume, DoDecide;
    match step
    case Retry(principal, run) =>
      assert Perform(s, step) == DoRetry(s, principal, run);
      hide Perform;
      RetryCredits(s, principal, run);
    case Resume(principal, run, action, answers) =>
      assert Perform(s, step) == DoResume(s, principal, run, action, answers);
      hide Perform;
      ResumeCredits(s, principal, run, action, answers);
    case Decide(principal, run, action, plan, decision, script, digests) =>
      assert Perform(s, step) == DoDecide(s, principal, run, action, plan, decision, script, digests);
      hide Perform;
      DecideCredits(s, principal, run, action, plan, decision, script, digests);
  }

  lemma NoteCredits(s: System, submission: Submission, run: Run, key: Option<string>, digest: Digest, r: RunId)
    requires submission.Created? ==> submission == Created(Added(s.db, run, key, digest), run) && Fits(s.db, run, key)
    ensures var s' := Note(s, submission, run.request, key, digest);
            && (r in s.db.runs ==> r in s'.db.runs && (r in s.credits ==> r in s'.credits && s'.credits[r] == s.credits[r]))
            && (r !in s.db.runs && r in s'.db.runs ==> r in s'.credits && s'.credits[r] == 1)
  {
  }

  lemma {:induction false} SubmissionCredits(s: System, step: Step, r: RunId)
    requires step.Submit? || step.SubmitToConversation?
    requires Keyed(s.db)
    ensures var s' := Perform(s, step);
            && (r in s.db.runs ==> r in s'.db.runs && (r in s.credits ==> r in s'.credits && s'.credits[r] == s.credits[r]))
            && (r !in s.db.runs && r in s'.db.runs ==> r in s'.credits && s'.credits[r] == 1)
  {
    hide Keyed, CreateRun, CreateConversationRun, Note, Added, Fits;
    match step
    case Submit(id, request, planReact, key) =>
      var run, digest := NewRun(id, request, if planReact then PLANNING else DIRECT), DigestOf(request, None);
      RunOutcome(s.db, run, key, digest);
      NoteCredits(s, CreateRun(s.db, run, key, digest), run, key, digest, r);
    case SubmitToConversation(c, id, request, key) =>
      var run, digest := NewRun(id, request, DIRECT), DigestOf(request, Some(c));
      ConversationRunOutcome(s.db, c, run, key, digest);
      var submission := CreateConversationRun(s.db, c, run, key, digest);
      NoteCredits(s, submission, if submission.Created? then submission.run else run, key, digest, r);
  }

  lemma OthersKeepCredits(s: System, step: Step)
    requires step.OpenConversation? || step.Cancel? || step.ExpireAction? || step.Block? || step.Recover?
    ensures Perform(s, step).credits == s.credits
  {
    hide CanCancel, CancelOutcome, InterruptAll, AllAbandoned, SettleAttempt, CanResume;
  }

  lemma {:induction false} PerformCredits(s: System, step: Step, r: RunId)
    requires Keyed(s.db)
    requires r in s.db.runs ==> r in s.credits
    ensures var s' := Perform(s, step);
            var again := (step.Retry? || step.Resume? || (step.Decide? && step.decision.Decision? && step.decision.approve))
                         && step.run.id == r && s'.db != s.db;
            && (again ==> r in s.db.runs)
            && (r in s.db.runs ==> r in s'.credits && s'.credits[r] == s.credits[r] + (if again then 1 else 0))
            && (step.Submit? || step.SubmitToConversation? ==> r !in s.db.runs && r in s'.db.runs ==>
                  r in s'.credits && s'.credits[r] == 1)
  {
    hide Perform, Keyed;
    if step.Retry? || step.Resume? || step.Decide? {
      RequeueCredits(s, step, r);
    } else if step.Submit? || step.SubmitToConversation? {
      SubmissionCredits(s, step, r);
    } else if step.OpenConversation? || step.Cancel? || step.ExpireAction? || step.Block? || step.Recover? {
      OthersKeepCredits(s, step);
    } else {
      WorkersKeepRecords(s, step);
    }
  }

  lemma {:induction false} RowStays(s: System, step: Step, r: RunId)
    requires Inv(s)
    ensures r in s.db.runs ==> r in Do(s, step).db.runs
    ensures r !in s.db.runs && r in Do(s, step).db.runs ==> step.Submit? || step.SubmitToConversation?
  {
    hide Inv, Do, SidesMove, AttemptsMove, ActionsMove, PlansMove, ConversationsMove, RunMoves;
    StepMoves(s, step);
  }

  lemma {:induction false} StepCredits(s: System, step: Step, r: RunId)
    requires Inv(s)
    requires r in s.db.runs ==> r in s.credits
    ensures var s' := Do(s, step);
            && (r in s.db.runs ==> r in s'.db.runs)
            && (r in s'.db.runs ==>
                  && r in s'.credits
                  && s'.credits[r] == (if r in s.db.runs then s.credits[r] else 1)
                                      + (if Requeues(s, step, r) then 1 else 0))
    ensures Requeues(s, step, r) ==> r in s.db.runs
  {
    hide Perform;
    assert Do(s, step).db == Perform(s, step).db && Do(s, step).credits == Perform(s, step).credits;
    assert Requeues(s, step, r) <==>
             (step.Retry? || step.Resume? || (step.Decide? && step.decision.Decision? && step.decision.approve))
             && step.run.id == r && Perform(s, step).db != s.db;
    hide Do, Observe, Keyed, Requeues;
    assert Keyed(s.db) by { InvIsSeen(s); }
    hide Inv;
    RowStays(s, step, r);
    PerformCredits(s, step, r);
  }

  lemma {:induction false} CreditsCountCalls(steps: seq<Step>, r: RunId)
    ensures if r in After(steps).db.runs
            then r in After(steps).credits && After(steps).credits[r] == 1 + Requeued(steps, r)
            else Requeued(steps, r) == 0
  {
    if steps != [] {
      var before := steps[..|steps| - 1];
      CreditsCountCalls(before, r);
      Reachable(before);
      assert After(steps) == Do(After(before), steps[|steps| - 1]);
      hide After, Do, Inv;
      StepCredits(After(before), steps[|steps| - 1], r);
    }
  }

  /** A Run is dispatched once, and once more for every retry, answer or approval: crashes,
      expired leases and recovery dispatch nothing by themselves. */
  lemma {:induction false} NoSilentReplay(steps: seq<Step>, r: RunId)
    requires r in After(steps).db.runs
    ensures var run := After(steps).db.runs[r];
            run.attemptCount + (if run.status.QUEUED? then 1 else 0) <= 1 + Requeued(steps, r)
  {
    CreditsCountCalls(steps, r);
    Reachable(steps);
  }

  // ----- Numbering -----

  /** Sequences of a Conversation and numbers of Attempts have no gap and no double. */
  lemma {:induction false} NumbersHaveNoGaps(steps: seq<Step>)
    ensures var db := After(steps).db;
            && (forall c :: c in db.conversations ==>
                  db.conversations[c].nextSequence >= 1
                  && SequencesOf(db.runs, c) == Upto(db.conversations[c].nextSequence - 1))
            && (forall r :: r in db.runs ==> NumbersOf(db.attempts, r) == Upto(db.runs[r].attemptCount))
    ensures var db := After(steps).db;
            && (forall p, q :: p in db.runs && q in db.runs && p != q && db.runs[p].place.Some? ==>
                  db.runs[p].place != db.runs[q].place)
            && (forall a, b :: a in db.attempts && b in db.attempts && a != b
                               && db.attempts[a].run == db.attempts[b].run ==>
                  db.attempts[a].number != db.attempts[b].number)
  {
    Reachable(steps);
    hide After;
  }

  datatype RowKey =
    | KeyOfRun(r: RunId)
    | KeyOfAttempt(a: AttemptId)
    | KeyOfAction(x: ActionId)
    | KeyOfPlan(p: RunId)
    | KeyOfConversation(c: ConversationId)

  datatype Row =
    | NoRow
    | RunIs(run: Run)
    | AttemptIs(attempt: Attempt)
    | ActionIs(action: Action)
    | PlanIs(plan: Plan)
    | ConversationIs(conversation: Conversation)
  {
    function Revision(): nat {
      match this
      case NoRow => 0
      case RunIs(run) => run.revision
      case AttemptIs(attempt) => attempt.revision
      case ActionIs(action) => action.revision
      case PlanIs(plan) => plan.revision
      case ConversationIs(conversation) => conversation.revision
    }
  }

  function RowAt(db: Db, key: RowKey): Row {
    match key
    case KeyOfRun(r) => if r in db.runs then RunIs(db.runs[r]) else NoRow
    case KeyOfAttempt(a) => if a in db.attempts then AttemptIs(db.attempts[a]) else NoRow
    case KeyOfAction(x) => if x in db.actions then ActionIs(db.actions[x]) else NoRow
    case KeyOfPlan(p) => if p in db.plans then PlanIs(db.plans[p]) else NoRow
    case KeyOfConversation(c) => if c in db.conversations then ConversationIs(db.conversations[c]) else NoRow
  }

  /** How often a row was written, its creation included. */
  function Writes(steps: seq<Step>, key: RowKey): nat {
    if steps == [] then 0
    else
      var before := steps[..|steps| - 1];
      Writes(before, key) + (if RowAt(After(steps).db, key) != RowAt(After(before).db, key) then 1 else 0)
  }

  lemma MoveBumpsRun(s: System, step: Step, x: Run, y: Run)
    requires RunMoves(s, step, x, y)
    ensures y.revision == x.revision + 1
  {
  }

  lemma MoveBumpsAttempt(s: System, step: Step, x: Attempt, y: Attempt)
    requires AttemptMoves(s, step, x, y)
    ensures y.revision == x.revision + 1
  {
  }

  lemma RunRevision(s: System, step: Step, runs': map<RunId, Run>, r: RunId)
    requires RunsMove(s, step, runs')
    ensures r in s.db.runs ==> r in runs' && (runs'[r] == s.db.runs[r] || runs'[r].revision == s.db.runs[r].revision + 1)
    ensures r !in s.db.runs && r in runs' ==> runs'[r].revision == 1
  {
    hide RunMoves;
    if r in s.db.runs && runs'[r] != s.db.runs[r] {
      MoveBumpsRun(s, step, s.db.runs[r], runs'[r]);
    }
  }

  lemma AttemptRevision(s: System, step: Step, attempts': map<AttemptId, Attempt>, a: AttemptId)
    requires AttemptsMove(s, step, attempts')
    ensures a in s.db.attempts ==>
              a in attempts' && (attempts'[a] == s.db.attempts[a]
                                 || attempts'[a].revision == s.db.attempts[a].revision + 1)
    ensures a !in s.db.attempts && a in attempts' ==> attempts'[a].revision == 1
  {
    hide AttemptMoves;
    if a in s.db.attempts && attempts'[a] != s.db.attempts[a] {
      MoveBumpsAttempt(s, step, s.db.attempts[a], attempts'[a]);
    }
  }

  lemma ActionRevision(s: System, step: Step, rows': map<ActionId, Action>, k: ActionId)
    requires ActionsMove(s, step, rows')
    ensures k in s.db.actions ==>
              k in rows' && (rows'[k] == s.db.actions[k] || rows'[k].revision == s.db.actions[k].revision + 1)
    ensures k !in s.db.actions && k in rows' ==> rows'[k].revision == 1
  {
    hide CanDecide, CanResume, CanSettle, LeaseValid;
  }

  lemma PlanRevision(s: System, step: Step, rows': map<RunId, Plan>, k: RunId)
    requires PlansMove(s, step, rows')
    ensures k in s.db.plans ==>
              k in rows' && (rows'[k] == s.db.plans[k] || rows'[k].revision == s.db.plans[k].revision + 1)
    ensures k !in s.db.plans && k in rows' ==> rows'[k].revision == 1
  {
    hide CanDecide, CanResume, CanSettle, LeaseValid;
  }

  lemma ConversationRevision(s: System, step: Step, rows': map<ConversationId, Conversation>, k: ConversationId)
    requires ConversationsMove(s, step, rows')
    ensures k in s.db.conversations ==>
              k in rows' && (rows'[k] == s.db.conversations[k] || rows'[k].revision == s.db.conversations[k].revision + 1)
    ensures k !in s.db.conversations && k in rows' ==> rows'[k].revision == 1
  {
    hide CanDecide, CanResume, CanSettle, LeaseValid;
  }

  lemma MovesBumpRow(s: System, step: Step, db': Db, key: RowKey)
    requires OnlyMoves(s, step, db')
    ensures RowAt(db', key) != RowAt(s.db, key) ==> RowAt(db', key).Revision() == RowAt(s.db, key).Revision() + 1
  {
    hide SidesMove, RunsMove, AttemptsMove, ActionsMove, PlansMove, ConversationsMove;
    match key
    case KeyOfRun(r) => RunRevision(s, step, db'.runs, r);
    case KeyOfAttempt(a) => AttemptRevision(s, step, db'.attempts, a);
    case KeyOfAction(x) => ActionRevision(s, step, db'.actions, x);
    case KeyOfPlan(p) => PlanRevision(s, step, db'.plans, p);
    case KeyOfConversation(c) => ConversationRevision(s, step, db'.conversations, c);
  }

  lemma {:induction false} StepRevision(s: System, step: Step, key: RowKey)
    requires Inv(s)
    ensures RowAt(Do(s, step).db, key) != RowAt(s.db, key) ==>
              RowAt(Do(s, step).db, key).Revision() == RowAt(s.db, key).Revision() + 1
  {
    hide Inv, Do, OnlyMoves, RowAt;
    StepMoves(s, step);
    MovesBumpRow(s, step, Do(s, step).db, key);
  }

  /** The revision of a row is the number of transactions that wrote it. */
  lemma {:induction false} RevisionsCountWrites(steps: seq<Step>, key: RowKey)
    ensures RowAt(After(steps).db, key).Revision() == Writes(steps, key)
  {
    if steps != [] {
      var before := steps[..|steps| - 1];
      RevisionsCountWrites(before, key);
      Reachable(before);
      StepRevision(After(before), steps[|steps| - 1], key);
    }
  }
}
