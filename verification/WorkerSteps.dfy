/** The transactions that a task makes under its lease, and the recovery of what it leaves,
    keep the invariant. */
module WorkerSteps {
  import opened Records
  import opened Transactions
  import opened Protocol
  import opened Invariants
  import opened Edges

  /** What a task that still has its lease knows about the Run it executes. */
  lemma LiveTask(s: System, lease: Lease)
    requires Inv(s) && lease in s.tasks && s.tasks[lease].Executing?
    ensures ExecutingOk(s.db, lease, s.tasks[lease])
    ensures TaskOk(s.db, lease, s.tasks[lease])
  {
    assert TaskOk(s.db, lease, s.tasks[lease]);
  }

  lemma RunRow(db: Db, r: RunId)
    requires RowsOk(db) && r in db.runs
    ensures db.runs[r].id == r && StatusOk(db, r) && RequiredActionOk(db, r) && PhaseOk(db, r)
  {
  }

  lemma AttemptRow(db: Db, a: AttemptId)
    requires RowsOk(db) && a in db.attempts
    ensures db.attempts[a].id == a && AttemptOk(db, a)
  {
  }

  lemma FundedRow(db: Db, credits: map<RunId, nat>, r: RunId)
    requires CreditsOk(db, credits) && r in db.runs && db.runs[r].id == r
    ensures Funded(db.runs[r], credits)
  {
  }

  // ----- _set_dispatch_state -----

  lemma DispatchRunRows(db: Db, attempt: Attempt, state: DispatchState)
    requires RowsOk(db)
    requires attempt.id in db.attempts && db.attempts[attempt.id] == attempt && attempt.run in db.runs
    ensures RunRowsOk(Put(db, db.runs[attempt.run], Some(attempt.(dispatch := state, revision := attempt.revision + 1)),
                          None, None), attempt.run)
  {
    hide DistinctNumbers;
    var attempt' := attempt.(dispatch := state, revision := attempt.revision + 1);
    var db' := Put(db, db.runs[attempt.run], Some(attempt'), None, None);
    RunRow(db, attempt.run);
    forall a | a in db'.attempts && db'.attempts[a].run == attempt.run ensures AttemptOk(db', a) {
      AttemptRow(db, a);
    }
    forall x | x in db'.actions && db'.actions[x].run == attempt.run ensures ActionOk(db', x) {
      assert ActionOk(db, x);
    }
  }

  lemma DispatchRows(db: Db, attempt: Attempt, state: DispatchState)
    requires RowsOk(db)
    requires attempt.id in db.attempts && db.attempts[attempt.id] == attempt
    ensures attempt.run in db.runs
    ensures RowsOk(Put(db, db.runs[attempt.run], Some(attempt.(dispatch := state, revision := attempt.revision + 1)),
                       None, None))
  {
    hide RunsOk, ActionsOk, DistinctNumbers, RunRowsOk, Keyed, AttemptOk;
    AttemptRow(db, attempt.id);
    assert attempt.run in db.runs by { AttemptRun(db, attempt.id); }
    var attempt' := attempt.(dispatch := state, revision := attempt.revision + 1);
    RunRow(db, attempt.run);
    SameNumbersStayDistinct(db.attempts, attempt');
    DispatchRunRows(db, attempt, state);
    PutRowsKeepRows(db, db.runs[attempt.run], Some(attempt'), None, None);
  }

  lemma AttemptRun(db: Db, a: AttemptId)
    requires RowsOk(db) && a in db.attempts
    ensures db.attempts[a].run in db.runs
  {
    assert AttemptOk(db, a);
  }

  lemma {:induction false} DispatchKeeps(s: System, lease: Lease, attempt: Attempt, state: DispatchState, now: Instant)
    requires Inv(s)
    ensures Inv(Observe(DoSetDispatch(s, lease, attempt, state, now)))
  {
    hide SeenOk, InOrder, Numbered, LeasesOk, SubmissionsOk, RowsOk, TasksOk, Quiet, Bumps, ConsumedStays;
    var s' := DoSetDispatch(s, lease, attempt, state, now);
    if s' == s {
      IdleStep(s);
    } else {
      SwappedAttempt(s, attempt);
      LiveTask(s, lease);
      AttemptRow(s.db, attempt.id);
      RunRow(s.db, attempt.run);
      DispatchRows(s.db, attempt, state);
      var attempt' := attempt.(dispatch := state, revision := attempt.revision + 1);
      assert s'.db == Put(s.db, s.db.runs[attempt.run], Some(attempt'), None, None);
      AttemptWriteIsQuiet(s.db, attempt');
      assert TaskOk(s'.db, lease, s.tasks[lease]);
      QuietStep(s, s', attempt.run, Some(lease));
    }
  }

  lemma AttemptWriteIsQuiet(db: Db, attempt: Attempt)
    requires attempt.run in db.runs && db.runs[attempt.run].id == attempt.run && AttemptPut(db, attempt)
    ensures var db' := Put(db, db.runs[attempt.run], Some(attempt), None, None);
            Quiet(db, db', attempt.run) && Bumps(db, db') && ConsumedStays(db, db')
  {
  }

  // ----- enter_required_action -----

  lemma {:induction false} AskRows(db: Db, run: Run, attempt: Attempt, action: Action)
    requires RowsOk(db)
    requires run.id in db.runs && db.runs[run.id] == run && attempt.id in db.attempts && db.attempts[attempt.id] == attempt
    requires run.place.Some? && run.status.RUNNING? && run.activeAttempt == Some(attempt.id)
    requires attempt.status.AttemptRunning? && attempt.run == run.id
    requires action.id !in db.actions && action.run == run.id && action.attempt == attempt.id
    requires action.kind.UserInput? && action.status.Pending? && action.consumedBy.None?
    ensures RowsOk(Put(db, WaitingRun(run, action.id), Some(WaitingAttempt(attempt)), Some(action), None))
  {
    PutKeepsRows(db, WaitingRun(run, action.id), Some(WaitingAttempt(attempt)), Some(action), None);
  }

  /** What a committed `enter_required_action` has found and done. */
  lemma AskOutcome(db: Db, action: Action, lease: Lease, now: Instant)
    requires EnterRequiredAction(db, action, Some(lease), now).Committed? && Keyed(db)
    ensures action.status.Pending? && LeaseCurrent(db, lease)
    ensures action.run in db.runs && action.attempt in db.attempts && action.id !in db.actions
    ensures var run, attempt := db.runs[action.run], db.attempts[action.attempt];
            && run.status.RUNNING? && run.activeAttempt == Some(attempt.id) && attempt.status.AttemptRunning?
            && EnterRequiredAction(db, action, Some(lease), now).db
               == Put(db, WaitingRun(run, action.id), Some(WaitingAttempt(attempt)), Some(action), None)
  {
  }

  lemma {:induction false} AskKeeps(s: System, lease: Lease, id: ActionId, questions: string, expiresAt: Instant,
                                    now: Instant)
    requires Inv(s)
    ensures Inv(Observe(DoAsk(s, lease, id, questions, expiresAt, now)))
  {
    hide SeenOk, InOrder, Numbered, LeasesOk, SubmissionsOk, RunsOk, AttemptsOk, ActionsOk, TasksOk, EnterRequiredAction;
    var s' := DoAsk(s, lease, id, questions, expiresAt, now);
    if s' == s {
      IdleStep(s);
    } else {
      var task := s.tasks[lease];
      LiveTask(s, lease);
      var run := s.db.runs[task.run];
      var action := Question(run, task.attempt, id, questions, expiresAt);
      AskOutcome(s.db, action, lease, now);
      var attempt := s.db.attempts[task.attempt];
      RunRow(s.db, task.run);
      AttemptRow(s.db, task.attempt);
      AskRows(s.db, run, attempt, action);
      FundedRow(s.db, s.credits, task.run);
      PutStep(s, s', WaitingRun(run, id), Some(WaitingAttempt(attempt)), Some(action), None, Some(lease));
    }
  }

  // ----- _settle_success, _settle_failure and _settle_planning -----

  /** What a task that holds its lease finds before it settles. */
  predicate Settling(db: Db, run: Run, attempt: Attempt, phase: RunPhase) {
    && run.id in db.runs && db.runs[run.id] == run
    && attempt.id in db.attempts && db.attempts[attempt.id] == attempt && attempt.run == run.id
    && run.phase == phase && (phase.DIRECT? || phase.PLANNING? || phase.EXECUTING?)
    && (run.place.Some? ==> run.status.RUNNING? || Terminal(run.status))
    && (run.status.RUNNING? ==> run.activeAttempt == Some(attempt.id))
  }

  lemma {:induction false} SettleRows(db: Db, run: Run, attempt: Attempt, phase: RunPhase, success: bool)
    requires RowsOk(db) && Settling(db, run, attempt, phase) && (success ==> !phase.PLANNING?)
    ensures RowsOk(Put(db, if success then SucceededRun(run) else FailedRun(run),
                       Some(SettledAttempt(attempt, if success then AttemptSucceeded else AttemptFailed)), None, None))
  {
    assert StatusOk(db, run.id) && RequiredActionOk(db, run.id) && PhaseOk(db, run.id);
    PutKeepsRows(db, if success then SucceededRun(run) else FailedRun(run),
                 Some(SettledAttempt(attempt, if success then AttemptSucceeded else AttemptFailed)), None, None);
  }

  lemma SettleOutcomeIs(s: System, lease: Lease, run: Run, attempt: Attempt, success: bool, now: Instant)
    requires SettleOutcome(s, lease, run, attempt, success, now).Committed?
    ensures LeaseCurrent(s.db, lease) && LeaseValid(s.db, lease, now)
    ensures run.id in s.db.runs && s.db.runs[run.id].revision == run.revision
    ensures attempt.id in s.db.attempts && s.db.attempts[attempt.id].revision == attempt.revision
    ensures SettleOutcome(s, lease, run, attempt, success, now).db
         == Put(s.db, if success then SucceededRun(run) else FailedRun(run),
                Some(SettledAttempt(attempt, if success then AttemptSucceeded else AttemptFailed)), None, None)
  {
  }

  lemma SettleIsPut(db: Db, run: Run, attempt: Attempt, phase: RunPhase, success: bool)
    requires Settling(db, run, attempt, phase) && Keyed(db)
    ensures PutOk(db, if success then SucceededRun(run) else FailedRun(run),
                  Some(SettledAttempt(attempt, if success then AttemptSucceeded else AttemptFailed)), None, None)
  {
  }

  lemma FinishedTaskOk(s: System, s': System, lease: Lease)
    requires lease in s.tasks && TaskOk(s.db, lease, s.tasks[lease]) && s'.db.leases == s.db.leases
    ensures var after := Finish(s', lease);
            lease in after.tasks ==> TaskOk(after.db, lease, after.tasks[lease])
  {
  }

  lemma {:induction false} SettleKeeps(s: System, lease: Lease, run: Run, attempt: Attempt, success: bool, now: Instant)
    requires Inv(s)
    ensures Inv(Observe(DoSettle(s, lease, run, attempt, success, now)))
  {
    hide SeenOk, InOrder, Numbered, LeasesOk, SubmissionsOk, RunsOk, AttemptsOk, ActionsOk, TasksOk, SettleOutcome;
    hide Observe, TaskOk, PutOk;
    var s' := DoSettle(s, lease, run, attempt, success, now);
    if s' == s {
      IdleStep(s);
    } else {
      SettleOutcomeIs(s, lease, run, attempt, success, now);
      SwappedRun(s, run);
      SwappedAttempt(s, attempt);
      LiveTask(s, lease);
      var phase := s.tasks[lease].phase;
      SettleRows(s.db, run, attempt, phase, success);
      SettleIsPut(s.db, run, attempt, phase, success);
      FundedRow(s.db, s.credits, run.id);
      FinishedTaskOk(s, s.(db := SettleOutcome(s, lease, run, attempt, success, now).db), lease);
      PutStep(s, s', if success then SucceededRun(run) else FailedRun(run),
              Some(SettledAttempt(attempt, if success then AttemptSucceeded else AttemptFailed)), None, None, Some(lease));
    }
  }

  lemma {:induction false} PlanningRows(db: Db, run: Run, attempt: Attempt, plan: Plan, action: Action)
    requires RowsOk(db) && Settling(db, run, attempt, PLANNING)
    requires action.id !in db.actions && action.run == run.id && action.attempt == attempt.id
    requires action.kind.PlanApproval? && action.status.Pending? && action.consumedBy.None?
    requires plan.run == run.id && plan.status.Proposed?
    ensures RowsOk(Put(db, ProposedRun(run, plan.id, action.id), Some(SettledAttempt(attempt, AttemptSucceeded)),
                       Some(action), Some(plan)))
  {
    assert StatusOk(db, run.id) && RequiredActionOk(db, run.id) && PhaseOk(db, run.id) && AttemptOk(db, attempt.id);
    PutKeepsRows(db, ProposedRun(run, plan.id, action.id), Some(SettledAttempt(attempt, AttemptSucceeded)),
                 Some(action), Some(plan));
  }

  lemma PlanningOutcomeIs(s: System, run: Run, attempt: Attempt, planId: PlanId, sha256: string, content: PlanContent,
                          actionId: ActionId, lease: Lease, now: Instant)
    requires PlanningOutcome(s, run, attempt, planId, sha256, content, actionId, lease, now).Committed?
    ensures LeaseCurrent(s.db, lease) && LeaseValid(s.db, lease, now)
    ensures run.id in s.db.runs && s.db.runs[run.id].revision == run.revision
    ensures attempt.id in s.db.attempts && s.db.attempts[attempt.id].revision == attempt.revision
    ensures actionId !in s.db.actions && run.id !in s.db.plans && attempt.run == run.id
    ensures PlanningOutcome(s, run, attempt, planId, sha256, content, actionId, lease, now).db
         == Put(s.db, ProposedRun(run, planId, actionId), Some(SettledAttempt(attempt, AttemptSucceeded)),
                Some(Approval(run, attempt.id, actionId, PlanRef(planId, 1, sha256))),
                Some(Plan(planId, run.id, Proposed, 1, sha256, None, content)))
  {
  }

  lemma PlanningIsPut(db: Db, run: Run, attempt: Attempt, plan: Plan, action: Action)
    requires Settling(db, run, attempt, PLANNING) && RowsOk(db) && action.id !in db.actions
    requires plan.run == run.id
    ensures PutOk(db, ProposedRun(run, plan.id, action.id), Some(SettledAttempt(attempt, AttemptSucceeded)),
                  Some(action), Some(plan))
  {
    assert PhaseOk(db, run.id);
  }

  lemma {:induction false} PlanningKeeps(s: System, lease: Lease, run: Run, attempt: Attempt, planId: PlanId,
                                         sha256: string, content: PlanContent, actionId: ActionId, now: Instant)
    requires Inv(s)
    ensures Inv(Observe(DoSettlePlanning(s, lease, run, attempt, planId, sha256, content, actionId, now)))
  {
    hide SeenOk, InOrder, Numbered, LeasesOk, SubmissionsOk, RunsOk, AttemptsOk, ActionsOk, TasksOk, PlanningOutcome;
    hide Observe, TaskOk, PutOk, Keyed;
    var s' := DoSettlePlanning(s, lease, run, attempt, planId, sha256, content, actionId, now);
    if s' == s {
      IdleStep(s);
    } else {
      PlanningOutcomeIs(s, run, attempt, planId, sha256, content, actionId, lease, now);
      SwappedRun(s, run);
      SwappedAttempt(s, attempt);
      LiveTask(s, lease);
      RunRow(s.db, run.id);
      var plan := Plan(planId, run.id, Proposed, 1, sha256, None, content);
      var action := Approval(run, attempt.id, actionId, PlanRef(planId, 1, sha256));
      PlanningRows(s.db, run, attempt, plan, action);
      PlanningIsPut(s.db, run, attempt, plan, action);
      FundedRow(s.db, s.credits, run.id);
      FinishedTaskOk(s, s.(db := PlanningOutcome(s, run, attempt, planId, sha256, content, actionId, lease, now).db), lease);
      PutStep(s, s', ProposedRun(run, planId, actionId), Some(SettledAttempt(attempt, AttemptSucceeded)), Some(action),
              Some(plan), Some(lease));
    }
  }
}
