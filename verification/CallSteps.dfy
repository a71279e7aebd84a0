/** The API calls and the recovery keep the invariant. */
module CallSteps {
  import PlanCompiler
  import opened Records
  import opened Transactions
  import opened Protocol
  import opened Invariants
  import opened Edges

  // ----- retry -----

  lemma RetryRows(db: Db, run: Run)
    requires RowsOk(db)
    requires run.id in db.runs && db.runs[run.id] == run
    requires run.place.None? && (run.status.FAILED? || run.status.CANCELLED?) && !run.phase.WAITING_APPROVAL?
    ensures RowsOk(Put(db, RetriedRun(run), None, None, None))
  {
    PutKeepsRows(db, RetriedRun(run), None, None, None);
  }

  lemma {:induction false} RetryKeeps(s: System, principal: Principal, run: Run)
    requires Inv(s)
    ensures Inv(Observe(DoRetry(s, principal, run)))
  {
    hide SeenOk, TasksOk, InOrder, Numbered, LeasesOk, SubmissionsOk, RunsOk, AttemptsOk, ActionsOk, Keyed;
    var s' := DoRetry(s, principal, run);
    if s' == s {
      IdleStep(s);
    } else {
      SwappedRun(s, run);
      RetryRows(s.db, run);
      PutStep(s, s', RetriedRun(run), None, None, None, None);
    }
  }

  // ----- resume -----

  lemma ResumeRows(db: Db, run: Run, action: Action, answers: string)
    requires RowsOk(db)
    requires run.id in db.runs && db.runs[run.id] == run && action.id in db.actions && db.actions[action.id] == action
    requires run.status.WAITING? && run.place.Some? && run.requiredAction == Some(action.id) && action.run == run.id
    ensures RowsOk(Put(db, ResumedRun(run), None, Some(AnsweredAction(action, answers)), None))
  {
    PutKeepsRows(db, ResumedRun(run), None, Some(AnsweredAction(action, answers)), None);
  }

  lemma {:induction false} ResumeKeeps(s: System, principal: Principal, run: Run, action: Action, answers: string)
    requires Inv(s)
    ensures Inv(Observe(DoResume(s, principal, run, action, answers)))
  {
    hide SeenOk, TasksOk, InOrder, Numbered, LeasesOk, SubmissionsOk, RunsOk, AttemptsOk, ActionsOk, Keyed;
    var s' := DoResume(s, principal, run, action, answers);
    if s' == s {
      IdleStep(s);
    } else {
      SwappedRun(s, run);
      SwappedAction(s, action);
      ResumeRows(s.db, run, action, answers);
      PutStep(s, s', ResumedRun(run), None, Some(AnsweredAction(action, answers)), None, None);
    }
  }

  lemma ExpireRows(db: Db, run: Run, action: Action, attempt: Attempt)
    requires RowsOk(db)
    requires run.id in db.runs && db.runs[run.id] == run && action.id in db.actions && db.actions[action.id] == action
    requires attempt.id in db.attempts && db.attempts[attempt.id] == attempt
    requires run.status.WAITING? && run.place.Some? && run.requiredAction == Some(action.id) && action.run == run.id
    requires run.activeAttempt == Some(attempt.id)
    ensures RowsOk(Put(db, ExpiredRun(run), Some(SettledAttempt(attempt, AttemptCancelled)),
                       Some(ExpiredAction(action)), None))
  {
    PutKeepsRows(db, ExpiredRun(run), Some(SettledAttempt(attempt, AttemptCancelled)), Some(ExpiredAction(action)), None);
  }

  lemma {:induction false} ExpireKeeps(s: System, principal: Principal, run: Run, action: Action, attempt: Attempt)
    requires Inv(s)
    ensures Inv(Observe(DoExpireAction(s, principal, run, action, attempt)))
  {
    hide SeenOk, TasksOk, InOrder, Numbered, LeasesOk, SubmissionsOk, RunsOk, AttemptsOk, ActionsOk, Keyed;
    var s' := DoExpireAction(s, principal, run, action, attempt);
    if s' == s {
      IdleStep(s);
    } else {
      SwappedRun(s, run);
      SwappedAction(s, action);
      SwappedAttempt(s, attempt);
      ExpireRows(s.db, run, action, attempt);
      PutStep(s, s', ExpiredRun(run), Some(SettledAttempt(attempt, AttemptCancelled)), Some(ExpiredAction(action)),
              None, None);
    }
  }

  // ----- cancel -----

  lemma {:induction false} CancelRows(db: Db, run: Run, attempt: Option<Attempt>, action: Option<Action>)
    requires RowsOk(db)
    requires run.id in db.runs && db.runs[run.id] == run
    requires !Terminal(run.status) && !run.phase.WAITING_APPROVAL?
    requires if run.activeAttempt.Some?
             then attempt.Some? && attempt.value.id == run.activeAttempt.value
                  && attempt.value.id in db.attempts && db.attempts[attempt.value.id] == attempt.value
             else attempt.None?
    requires if run.requiredAction.Some?
             then action.Some? && action.value.id == run.requiredAction.value && action.value.status.Pending?
                  && action.value.id in db.actions && db.actions[action.value.id] == action.value
             else action.None?
    ensures RowsOk(Put(db, CancelledRun(run),
                       if attempt.Some? then Some(SettledAttempt(attempt.value, AttemptCancelled)) else None,
                       if action.Some? then Some(CancelledAction(action.value)) else None, None))
  {
    PutKeepsRows(db, CancelledRun(run),
                 if attempt.Some? then Some(SettledAttempt(attempt.value, AttemptCancelled)) else None,
                 if action.Some? then Some(CancelledAction(action.value)) else None, None);
  }

  lemma RejectRows(db: Db, run: Run, run': Run, plan: Plan, plan': Plan, action: Action, action': Action)
    requires RowsOk(db)
    requires run.id in db.runs && db.runs[run.id] == run
    requires action.id in db.actions && db.actions[action.id] == action && run.requiredAction == Some(action.id)
    requires plan.run == run.id && run.id in db.plans && db.plans[run.id] == plan
    requires run.status.WAITING? && run.phase.WAITING_APPROVAL?
    requires run' == run.(status := CANCELLED, activeAttempt := None, requiredAction := None,
                          cancelRequested := true, revision := run.revision + 1)
    requires plan'.run == plan.run && plan'.id == plan.id && plan'.status.Rejected? && plan'.revision == plan.revision + 1
    requires action'.id == action.id && action'.run == action.run && action'.attempt == action.attempt
             && action'.kind == action.kind && action'.revision == action.revision + 1
    requires action'.status.Consumed? || action'.status.ActionCancelled?
    ensures RowsOk(Put(db, run', None, Some(action'), Some(plan')))
  {
    PutKeepsRows(db, run', None, Some(action'), Some(plan'));
  }

  lemma DecisionKeepsApprovals(db: Db, db': Db, plan: Plan, plan': Plan, approvals: map<RunId, PlanRef>,
                               approvals': map<RunId, PlanRef>)
    requires ApprovalsOk(db, approvals)
    requires plan.run in db.plans && db.plans[plan.run] == plan && plan.status.Proposed?
    requires db'.plans == db.plans[plan.run := plan']
    requires plan'.id == plan.id && plan'.sha256 == plan.sha256 && plan'.revision == plan.revision + 1
    requires plan'.status.Rejected? || plan'.status.Approved?
    requires if plan'.status.Approved? then approvals' == approvals[plan.run := RefOf(plan)] else approvals' == approvals
    ensures ApprovalsOk(db', approvals')
  {
  }

  lemma {:induction false} CancelPlanKeeps(s: System, principal: Principal, run: Run, active: Option<Attempt>,
                                           action: Option<Action>, plan: Option<Plan>)
    requires Inv(s) && CanCancel(s, principal, run, active, action, plan)
    requires run.phase.WAITING_APPROVAL? && CancelOutcome(s, principal, run, active, action, plan).Committed?
    ensures Inv(Observe(DoCancel(s, principal, run, active, action, plan)))
  {
    hide SeenOk, TasksOk, InOrder, Numbered, LeasesOk, SubmissionsOk, RunsOk, AttemptsOk, ActionsOk, Keyed, ApprovalsOk;
    var s' := DoCancel(s, principal, run, active, action, plan);
    SwappedRun(s, run);
    SwappedAction(s, action.value);
    SwappedPlan(s, plan.value);
    WaitingRunRows(s.db, run.id);
    var plan', action' := DecidedPlan(plan.value, Rejected, principal), CancelledAction(action.value);
    RejectRows(s.db, run, CancelledRun(run), plan.value, plan', action.value, action');
    DecisionKeepsApprovals(s.db, s'.db, plan.value, plan', s.approvals, s'.approvals);
    PutStep(s, s', CancelledRun(run), None, Some(action'), Some(plan'), None);
  }

  /** The facts about one Run row that the steps need. */
  lemma WaitingRunRows(db: Db, r: RunId)
    requires RowsOk(db) && r in db.runs
    ensures db.runs[r].id == r && StatusOk(db, r) && RequiredActionOk(db, r) && PhaseOk(db, r)
    ensures r in db.plans ==> db.plans[r].run == r
  {
  }

  lemma {:induction false} CancelKeeps(s: System, principal: Principal, run: Run, active: Option<Attempt>,
                                       action: Option<Action>, plan: Option<Plan>)
    requires Inv(s)
    ensures Inv(Observe(DoCancel(s, principal, run, active, action, plan)))
  {
    hide SeenOk, TasksOk, InOrder, Numbered, LeasesOk, SubmissionsOk, RunsOk, AttemptsOk, ActionsOk, Keyed;
    var s' := DoCancel(s, principal, run, active, action, plan);
    if s' == s {
      IdleStep(s);
    } else if run.phase.WAITING_APPROVAL? {
      CancelPlanKeeps(s, principal, run, active, action, plan);
    } else {
      SwappedRun(s, run);
      WaitingRunRows(s.db, run.id);
      if run.activeAttempt.Some? && !AttemptTerminal(active.value.status) {
        SwappedAttempt(s, active.value);
        if action.Some? {
          SwappedAction(s, action.value);
        }
        CancelRows(s.db, run, active, action);
        PutStep(s, s', CancelledRun(run), Some(SettledAttempt(active.value, AttemptCancelled)),
                if action.Some? then Some(CancelledAction(action.value)) else None, None, None);
      } else {
        CancelWithoutAttempt(s, principal, run, active, action, plan);
        CancelRows(s.db, run, None, None);
        PutStep(s, s', CancelledRun(run), None, None, None, None);
      }
    }
  }

  /** A Run without a live Attempt has no open question either: `cancel` reads the Run before
      the Action, and only a QUEUED Run gets here. */
  lemma CancelWithoutAttempt(s: System, principal: Principal, run: Run, active: Option<Attempt>, action: Option<Action>,
                             plan: Option<Plan>)
    requires Inv(s) && CanCancel(s, principal, run, active, action, plan)
    requires run.id in s.db.runs && s.db.runs[run.id] == run && !run.phase.WAITING_APPROVAL?
    requires run.activeAttempt.None? || AttemptTerminal(active.value.status)
    ensures run.status.QUEUED? && run.activeAttempt.None? && run.requiredAction.None?
  {
    assert run.activeAttempt.Some? ==> AttemptFresh(s.db, active.value);
    assert run.requiredAction.Some? ==> ReadInOrder(run, action.value);
    assert StatusOk(s.db, run.id) && RequiredActionOk(s.db, run.id);
  }

  // ----- the decision about a Plan -----

  lemma ApproveRows(db: Db, run: Run, plan: Plan, plan': Plan, action: Action, action': Action)
    requires RowsOk(db)
    requires run.id in db.runs && db.runs[run.id] == run
    requires action.id in db.actions && db.actions[action.id] == action && run.requiredAction == Some(action.id)
    requires plan.run == run.id && run.id in db.plans && db.plans[run.id] == plan
    requires run.status.WAITING? && run.phase.WAITING_APPROVAL?
    requires plan'.run == plan.run && plan'.id == plan.id && plan'.status.Approved? && plan'.revision == plan.revision + 1
    requires action'.id == action.id && action'.run == action.run && action'.attempt == action.attempt
             && action'.kind == action.kind && action'.revision == action.revision + 1 && action'.status.Consumed?
    ensures RowsOk(Put(db, DecidedRun(run, true), None, Some(action'), Some(plan')))
  {
    PutKeepsRows(db, DecidedRun(run, true), None, Some(action'), Some(plan'));
  }

  lemma {:induction false} DecideKeeps(s: System, principal: Principal, run: Run, action: Action, plan: Plan,
                                       decision: Response, script: string, digests: PlanCompiler.Digests)
    requires Inv(s)
    ensures Inv(Observe(DoDecide(s, principal, run, action, plan, decision, script, digests)))
  {
    hide SeenOk, TasksOk, InOrder, Numbered, LeasesOk, SubmissionsOk, RunsOk, AttemptsOk, ActionsOk, Keyed, ApprovalsOk;
    var s' := DoDecide(s, principal, run, action, plan, decision, script, digests);
    if s' == s {
      IdleStep(s);
    } else {
      SwappedRun(s, run);
      SwappedAction(s, action);
      SwappedPlan(s, plan);
      WaitingRunRows(s.db, run.id);
      var run', action' := DecidedRun(run, decision.approve), ResolvedAction(action, decision);
      var plan' := DecidedPlan(plan, if decision.approve then Approved else Rejected, principal);
      if decision.approve {
        ApproveRows(s.db, run, plan, plan', action, action');
      } else {
        RejectRows(s.db, run, run', plan, plan', action, action');
      }
      DecisionKeepsApprovals(s.db, s'.db, plan, plan', s.approvals, s'.approvals);
      PutStep(s, s', run', None, Some(action'), Some(plan'), None);
    }
  }
}
