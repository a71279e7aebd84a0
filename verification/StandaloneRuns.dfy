/** Standalone Runs, which `retry` may queue again while an old Attempt is still executing:
    that Attempt can settle the Run, because the worker only looks for CANCELLED. */
module StandaloneRuns {
  import opened Records
  import opened Transactions
  import opened Protocol
  import opened Invariants
  import opened Edges
  import opened WorkerSteps
  import opened Changes
  import opened Histories
  import opened Settlement
  import opened Text

  /** `_settle_success`, `_settle_failure` and `_settle_planning`. */
  predicate Settles(step: Step) {
    step.SettleSuccess? || step.SettleFailure? || step.SettlePlanning?
  }

  lemma CommittedSettlement(s: System, step: Step)
    requires Settles(step) && Perform(s, step).db != s.db
    ensures CanSettle(s, step.lease, step.run, step.attempt) && LeaseCurrent(s.db, step.lease)
    ensures step.run.id in s.db.runs && s.db.runs[step.run.id].revision == step.run.revision
    ensures step.attempt.id in s.db.attempts && s.db.attempts[step.attempt.id].revision == step.attempt.revision
  {
    hide CanSettle, PlanningOutcome, SettleOutcome;
    match step
    case SettlePlanning(lease, run, attempt, plan, sha256, content, action, now) =>
      assert Perform(s, step) == DoSettlePlanning(s, lease, run, attempt, plan, sha256, content, action, now);
      hide Perform;
      PlanningOutcomeIs(s, run, attempt, plan, sha256, content, action, lease, now);
    case SettleSuccess(lease, run, attempt, now) =>
      assert Perform(s, step) == DoSettle(s, lease, run, attempt, true, now);
      hide Perform;
      SettleOutcomeIs(s, lease, run, attempt, true, now);
    case SettleFailure(lease, run, attempt, now) =>
      assert Perform(s, step) == DoSettle(s, lease, run, attempt, false, now);
      hide Perform;
      SettleOutcomeIs(s, lease, run, attempt, false, now);
  }

  lemma SettlesARunningAttempt(s: System, step: Step)
    requires Inv(s) && Settles(step) && Perform(s, step).db != s.db
    ensures step.attempt.id in s.db.attempts && s.db.attempts[step.attempt.id] == step.attempt
    ensures step.attempt.status.AttemptRunning? <==> step.run.status.RUNNING?
  {
    hide Perform;
    CommittedSettlement(s, step);
    InvIsSeen(s);
    SwappedRun(s, step.run);
    SwappedAttempt(s, step.attempt);
    LiveTask(s, step.lease);
    RunRow(s.db, step.run.id);
    AttemptRow(s.db, step.attempt.id);
    hide Inv, SeenOk, RowsOk;
  }

  /** Exactly when a settlement that commits is one of a running Attempt: when the Run it has read
      was RUNNING.  The check the program makes is weaker, it asks for not CANCELLED. */
  lemma {:induction false} SettlesARunningAttemptIff(steps: seq<Step>, step: Step)
    requires Settles(step) && Do(After(steps), step).db != After(steps).db
    ensures var db := After(steps).db;
            && step.attempt.id in db.attempts && db.attempts[step.attempt.id] == step.attempt
            && (step.attempt.status.AttemptRunning? <==> step.run.status.RUNNING?)
  {
    hide After;
    Reachable(steps);
    PerformIsDone(After(steps), step);
    hide Do, Inv;
    SettlesARunningAttempt(After(steps), step);
  }

  /** The only way to change the row of an Attempt that is over: a settlement whose Run was read in
      another status than RUNNING. */
  lemma {:induction false} TerminalAttemptChanges(s: System, step: Step, a: AttemptId)
    requires Inv(s) && a in s.db.attempts && AttemptTerminal(s.db.attempts[a].status)
    ensures a in Do(s, step).db.attempts
    ensures Do(s, step).db.attempts[a] != s.db.attempts[a] ==>
              Settles(step) && step.attempt == s.db.attempts[a] && !step.run.status.RUNNING?
  {
    PerformIsDone(s, step);
    hide Do, Perform;
    AttemptsStay(s, step, a);
    AttemptOrMove(s, step, a);
    AttemptRow(s.db, a);
    var before := s.db.attempts[a];
    if Do(s, step).db.attempts[a] != before {
      RunRow(s.db, before.run);
      if Settles(step) {
        SettlesARunningAttempt(s, step);
      } else if step.ExpireAction? {
        ExpiresAWaitingAttempt(s, step, a);
      }
      hide Inv;
    }
  }

  lemma ExpiresAWaitingAttempt(s: System, step: Step, a: AttemptId)
    requires Inv(s) && step.ExpireAction? && a in s.db.attempts && step.run.id in s.db.runs
    requires s.db.runs[step.run.id] == step.run && step.run.status.WAITING? && step.run.place.Some?
    requires step.run.activeAttempt == Some(a)
    ensures s.db.attempts[a].status.AttemptWaiting?
  {
    RunRow(s.db, step.run.id);
    hide Inv;
  }

  /** With the stronger check, of RUNNING, every Attempt would be settled once, standalone or not:
      no history whose settlements all pass it changes an Attempt that is over. */
  lemma {:induction false} CheckedSettlementsAreFinal(steps: seq<Step>, more: seq<Step>, a: AttemptId)
    requires a in After(steps).db.attempts && AttemptTerminal(After(steps).db.attempts[a].status)
    requires forall i :: 0 <= i < |more| && Settles(more[i]) ==> more[i].run.status.RUNNING?
    ensures a in After(steps + more).db.attempts && After(steps + more).db.attempts[a] == After(steps).db.attempts[a]
    decreases |more|
  {
    hide Do;
    if more == [] {
      assert steps + more == steps;
    } else {
      var before := steps + more[..|more| - 1];
      CheckedSettlementsAreFinal(steps, more[..|more| - 1], a);
      Reachable(before);
      OneMore(steps, more);
      hide Inv, After;
      TerminalAttemptChanges(After(before), more[|more| - 1], a);
    }
  }

  // ----- A history in which it is not -----

  const OWNER := Principal("t", "p")
  const REQUEST := Request("t", "p", "agent", "fingerprint", "input", "{}")
  const LEASE := Lease(RunResource(1), "worker", 1)
  const SUBMITTED := NewRun(1, REQUEST, DIRECT)
  const STARTED := StartedRun(SUBMITTED, 10)
  const ATTEMPT := StartedAttempt(SUBMITTED, 10, LEASE)
  const CANCELLED_RUN := CancelledRun(STARTED)
  const CANCELLED_ATTEMPT := SettledAttempt(ATTEMPT, AttemptCancelled)
  const SUCCEEDED_ATTEMPT := SettledAttempt(CANCELLED_ATTEMPT, AttemptSucceeded)
  const RETRIED := RetriedRun(CANCELLED_RUN)
  const TASK := Executing(1, 10, DIRECT, OriginalInput("input"), false)

  const STEPS: seq<Step> := [
    Submit(1, REQUEST, false, None),
    Claim([1], "worker", 30, 0),
    Select(LEASE, None, 1),
    Begin(LEASE, SUBMITTED, 10, None, 0),
    Cancel(OWNER, STARTED, Some(ATTEMPT), None, None),
    Retry(OWNER, CANCELLED_RUN),
    SettleSuccess(LEASE, RETRIED, CANCELLED_ATTEMPT, 1)]

  /** A state of the history, as far as its steps look at it. */
  ghost predicate Stage(s: System, run: Run, attempts: map<AttemptId, Attempt>, leases: map<Resource, LeaseRow>,
                        tasks: map<Lease, Task>, clock: Instant)
  {
    && s.db.runs == map[1 := run] && s.db.attempts == attempts && s.db.leases == leases
    && s.db.idempotency == map[] && s.tasks == tasks && s.clock == clock
    && run in s.seen.runs && (forall a :: a in attempts ==> attempts[a] in s.seen.attempts)
  }

  predicate Holds(s: System, run: Run) {
    run.id in s.db.runs && s.db.runs[run.id] == run
  }

  const GRANTED: map<Resource, LeaseRow> := map[RunResource(1) := LeaseRow("worker", 1, 30)]

  lemma RowsAreSeen(s: System, step: Step)
    ensures var s' := Do(s, step);
            && (forall r :: r in s'.db.runs ==> s'.db.runs[r] in s'.seen.runs)
            && (forall a :: a in s'.db.attempts ==> s'.db.attempts[a] in s'.seen.attempts)
            && s'.db == Perform(s, step).db && s'.tasks == Perform(s, step).tasks
            && s'.clock == if Timed(step) then step.now else Perform(s, step).clock
  {
    hide Perform;
  }

  lemma Submitted()
    ensures Stage(Do(INITIAL, STEPS[0]), SUBMITTED, map[], map[], map[], 0)
  {
    RowsAreSeen(INITIAL, STEPS[0]);
    hide Do;
  }

  lemma WorkerIsNamed()
    ensures !Blank("worker")
  {
  }

  lemma Claimed(s: System)
    requires Stage(s, SUBMITTED, map[], map[], map[], 0)
    ensures Stage(Do(s, STEPS[1]), SUBMITTED, map[], GRANTED, map[LEASE := Idle], 0)
  {
    hide Blank;
    RowsAreSeen(s, STEPS[1]);
    assert Perform(s, STEPS[1]) == DoClaim(s, [1], "worker", 30, 0);
    hide Do, Perform;
    WorkerIsNamed();
    assert FirstClaimable(s.db, [1], 0) == 0;
    assert Holds(Do(s, STEPS[1]), SUBMITTED);
  }

  lemma Picked(s: System)
    requires Stage(s, SUBMITTED, map[], GRANTED, map[LEASE := Idle], 0)
    ensures Stage(Do(s, STEPS[2]), SUBMITTED, map[], GRANTED, map[LEASE := Selected(1)], 0)
  {
    RowsAreSeen(s, STEPS[2]);
    hide Do;
  }

  lemma BeginCommits(db: Db)
    requires db.runs == map[1 := SUBMITTED] && db.attempts == map[] && db.leases == GRANTED
    ensures BeginAttempt(db, STARTED, ATTEMPT, 1, Some(LEASE), None, 0)
            == Committed(db.(runs := map[1 := STARTED], attempts := map[10 := ATTEMPT]))
  {
    var db1 := db.(attempts := map[10 := ATTEMPT]);
    assert InsertAttempt(db, ATTEMPT) == Committed(db1);
    assert UpdateRun(db1, STARTED, 1) == Committed(db1.(runs := map[1 := STARTED]));
    hide InsertAttempt, UpdateRun;
  }

  lemma Begun(s: System)
    requires Stage(s, SUBMITTED, map[], GRANTED, map[LEASE := Selected(1)], 0)
    ensures Stage(Do(s, STEPS[3]), STARTED, map[10 := ATTEMPT], GRANTED, map[LEASE := TASK], 0)
  {
    hide BeginAttempt;
    RowsAreSeen(s, STEPS[3]);
    assert Perform(s, STEPS[3]) == DoBegin(s, LEASE, SUBMITTED, 10, None, 0);
    hide Do, Perform;
    BeginCommits(s.db);
    assert SUBMITTED in s.seen.runs && CanBegin(s, SUBMITTED, None);
    assert BeginOutcome(s, LEASE, SUBMITTED, 10, None, 0)
           == BeginAttempt(s.db, STARTED, ATTEMPT, 1, Some(LEASE), None, 0);
    assert s.tasks[LEASE := TASK] == map[LEASE := TASK];
    assert Holds(Do(s, STEPS[3]), STARTED) && 10 in Do(s, STEPS[3]).db.attempts;
  }

  lemma CancelCommits(db: Db)
    requires db.runs == map[1 := STARTED] && db.attempts == map[10 := ATTEMPT] && db.leases == GRANTED
    ensures SettleAttempt(db, CANCELLED_RUN, CANCELLED_ATTEMPT, 2, 1, None, None, 0)
            == Committed(db.(runs := map[1 := CANCELLED_RUN], attempts := map[10 := CANCELLED_ATTEMPT]))
  {
    var db1 := db.(attempts := map[10 := CANCELLED_ATTEMPT]);
    assert UpdateAttempt(db, CANCELLED_ATTEMPT, 1) == Committed(db1);
    assert UpdateRun(db1, CANCELLED_RUN, 2) == Committed(db1.(runs := map[1 := CANCELLED_RUN]));
    hide UpdateAttempt, UpdateRun;
  }

  lemma CancelDoes(s: System)
    requires Stage(s, STARTED, map[10 := ATTEMPT], GRANTED, map[LEASE := TASK], 0)
    ensures DoCancel(s, OWNER, STARTED, Some(ATTEMPT), None, None)
         == s.(db := s.db.(runs := map[1 := CANCELLED_RUN], attempts := map[10 := CANCELLED_ATTEMPT]))
  {
    hide SettleAttempt, DecidePlan, ReplaceRun;
    CancelCommits(s.db);
    assert ATTEMPT == s.db.attempts[10];
    assert CanCancel(s, OWNER, STARTED, Some(ATTEMPT), None, None);
    assert CancelOutcome(s, OWNER, STARTED, Some(ATTEMPT), None, None)
           == SettleAttempt(s.db, CANCELLED_RUN, CANCELLED_ATTEMPT, 2, 1, None, None, 0);
  }

  lemma {:induction false} Cancelled(s: System)
    requires Stage(s, STARTED, map[10 := ATTEMPT], GRANTED, map[LEASE := TASK], 0)
    ensures Stage(Do(s, STEPS[4]), CANCELLED_RUN, map[10 := CANCELLED_ATTEMPT], GRANTED, map[LEASE := TASK], 0)
  {
    hide DoCancel;
    RowsAreSeen(s, STEPS[4]);
    assert Perform(s, STEPS[4]) == DoCancel(s, OWNER, STARTED, Some(ATTEMPT), None, None);
    hide Do, Perform;
    CancelDoes(s);
    assert Holds(Do(s, STEPS[4]), CANCELLED_RUN) && 10 in Do(s, STEPS[4]).db.attempts;
  }

  lemma RetryCommits(db: Db)
    requires db.runs == map[1 := CANCELLED_RUN] && db.attempts == map[10 := CANCELLED_ATTEMPT]
    ensures ReplaceRun(db, RETRIED, 3) == Committed(db.(runs := map[1 := RETRIED]))
  {
  }

  lemma Retried(s: System)
    requires Stage(s, CANCELLED_RUN, map[10 := CANCELLED_ATTEMPT], GRANTED, map[LEASE := TASK], 0)
    ensures Stage(Do(s, STEPS[5]), RETRIED, map[10 := CANCELLED_ATTEMPT], GRANTED, map[LEASE := TASK], 0)
  {
    hide ReplaceRun;
    RowsAreSeen(s, STEPS[5]);
    assert Perform(s, STEPS[5]) == DoRetry(s, OWNER, CANCELLED_RUN);
    hide Do, Perform;
    RetryCommits(s.db);
    assert CANCELLED_RUN in s.seen.runs && Owns(OWNER, CANCELLED_RUN);
    assert ReplaceRun(s.db, RetriedRun(CANCELLED_RUN), CANCELLED_RUN.revision) == ReplaceRun(s.db, RETRIED, 3);
    assert Holds(Do(s, STEPS[5]), RETRIED) && 10 in Do(s, STEPS[5]).db.attempts;
  }

  lemma SettleCommits(db: Db)
    requires db.runs == map[1 := RETRIED] && db.attempts == map[10 := CANCELLED_ATTEMPT] && db.leases == GRANTED
    ensures SettleAttempt(db, SucceededRun(RETRIED), SUCCEEDED_ATTEMPT, 4, 2, Some(LEASE), None, 1)
            == Committed(db.(runs := map[1 := SucceededRun(RETRIED)], attempts := map[10 := SUCCEEDED_ATTEMPT]))
  {
    var db1 := db.(attempts := map[10 := SUCCEEDED_ATTEMPT]);
    assert UpdateAttempt(db, SUCCEEDED_ATTEMPT, 2) == Committed(db1);
    assert UpdateRun(db1, SucceededRun(RETRIED), 4) == Committed(db1.(runs := map[1 := SucceededRun(RETRIED)]));
    hide UpdateAttempt, UpdateRun;
  }

  lemma SettleDoes(s: System)
    requires Stage(s, RETRIED, map[10 := CANCELLED_ATTEMPT], GRANTED, map[LEASE := TASK], 0)
    ensures DoSettle(s, LEASE, RETRIED, CANCELLED_ATTEMPT, true, 1)
         == s.(db := s.db.(runs := map[1 := SucceededRun(RETRIED)], attempts := map[10 := SUCCEEDED_ATTEMPT]),
               tasks := map[])
  {
    hide SettleAttempt;
    SettleCommits(s.db);
    assert CANCELLED_ATTEMPT == s.db.attempts[10];
    assert CanSettle(s, LEASE, RETRIED, CANCELLED_ATTEMPT);
    assert SettleOutcome(s, LEASE, RETRIED, CANCELLED_ATTEMPT, true, 1)
           == SettleAttempt(s.db, SucceededRun(RETRIED), SUCCEEDED_ATTEMPT, 4, 2, Some(LEASE), None, 1);
    assert map[LEASE := TASK] - {LEASE} == map[];
  }

  lemma {:induction false} Settled(s: System)
    requires Stage(s, RETRIED, map[10 := CANCELLED_ATTEMPT], GRANTED, map[LEASE := TASK], 0)
    ensures Stage(Do(s, STEPS[6]), SucceededRun(RETRIED), map[10 := SUCCEEDED_ATTEMPT], GRANTED, map[], 1)
  {
    hide DoSettle;
    RowsAreSeen(s, STEPS[6]);
    assert Perform(s, STEPS[6]) == DoSettle(s, LEASE, RETRIED, CANCELLED_ATTEMPT, true, 1);
    hide Do, Perform;
    SettleDoes(s);
    assert Holds(Do(s, STEPS[6]), SucceededRun(RETRIED)) && 10 in Do(s, STEPS[6]).db.attempts;
  }

  /** On time and under a valid lease, the cancelled Attempt of a Run that waits in the queue
      again turns SUCCEEDED, and the Run with it, although nobody works on it. */
  lemma {:induction false} CancelledAttemptSucceeds()
    ensures Clocked(STEPS)
    ensures var before, after := After(STEPS[..6]).db, After(STEPS).db;
            && 1 in before.runs && before.runs[1].status.QUEUED? && before.runs[1].activeAttempt.None?
            && 10 in before.attempts && before.attempts[10].status.AttemptCancelled?
            && 1 in after.runs && after.runs[1].status.SUCCEEDED?
            && 10 in after.attempts && after.attempts[10].status.AttemptSucceeded?
  {
    Prefixes();
    assert STEPS[..7] == STEPS;
    forall k | 0 <= k < 7 ensures OnTime(After(STEPS[..k]), STEPS[k]) {
      hide After;
      assert k == 0 || k == 1 || k == 2 || k == 3 || k == 4 || k == 5 || k == 6;
    }
    hide After;
    ClockedWhenOnTime(STEPS);
  }

  /** What the rows are after each prefix of the history. */
  lemma {:induction false} Prefixes()
    ensures After(STEPS[..0]).clock == 0
    ensures Stage(After(STEPS[..1]), SUBMITTED, map[], map[], map[], 0)
    ensures Stage(After(STEPS[..2]), SUBMITTED, map[], GRANTED, map[LEASE := Idle], 0)
    ensures Stage(After(STEPS[..3]), SUBMITTED, map[], GRANTED, map[LEASE := Selected(1)], 0)
    ensures Stage(After(STEPS[..4]), STARTED, map[10 := ATTEMPT], GRANTED, map[LEASE := TASK], 0)
    ensures Stage(After(STEPS[..5]), CANCELLED_RUN, map[10 := CANCELLED_ATTEMPT], GRANTED, map[LEASE := TASK], 0)
    ensures Stage(After(STEPS[..6]), RETRIED, map[10 := CANCELLED_ATTEMPT], GRANTED, map[LEASE := TASK], 0)
    ensures Stage(After(STEPS[..7]), SucceededRun(RETRIED), map[10 := SUCCEEDED_ATTEMPT], GRANTED, map[], 1)
  {
    hide Do, Stage;
    forall k | 0 <= k < 7 ensures After(STEPS[..k + 1]) == Do(After(STEPS[..k]), STEPS[k]) {
      assert STEPS[..k + 1][..k] == STEPS[..k];
    }
    assert After(STEPS[..0]) == INITIAL;
    hide After;
    Submitted();
    Claimed(After(STEPS[..1]));
    Picked(After(STEPS[..2]));
    Begun(After(STEPS[..3]));
    Cancelled(After(STEPS[..4]));
    Retried(After(STEPS[..5]));
    Settled(After(STEPS[..6]));
  }
}
