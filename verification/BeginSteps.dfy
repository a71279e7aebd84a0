/** `begin_attempt` and the recovery keep the invariant. */
module BeginSteps {
  import opened Records
  import opened Transactions
  import opened Protocol
  import opened Invariants
  import opened Edges
  import opened WorkerSteps

  /** The row a continuation consumes, if it is one. */
  function Consumption(action: Option<Action>, attempt: AttemptId): Option<Action> {
    if action.None? then None else Some(ConsumedAction(action.value, attempt))
  }

  function BeginDb(db: Db, run: Run, attempt: AttemptId, lease: Lease, action: Option<Action>): Db {
    Put(db, StartedRun(run, attempt), Some(StartedAttempt(run, attempt, lease)), Consumption(action, attempt), None)
  }

  /** What `begin_attempt` has found when it commits. */
  predicate Beginning(db: Db, run: Run, attempt: AttemptId, action: Option<Action>) {
    && run.id in db.runs && db.runs[run.id] == run && run.status.QUEUED?
    && attempt !in db.attempts
    && (if run.place.Some? && run.requiredAction.Some?
        then action.Some? && action.value.id == run.requiredAction.value && action.value.id in db.actions
             && db.actions[action.value.id] == action.value && action.value.response.Some?
        else action.None?)
  }

  lemma BeginOutcomeIs(s: System, lease: Lease, run: Run, attempt: AttemptId, action: Option<Action>, now: Instant)
    requires BeginOutcome(s, lease, run, attempt, action, now).Committed?
    ensures LeaseCurrent(s.db, lease) && LeaseValid(s.db, lease, now)
    ensures run.id in s.db.runs && s.db.runs[run.id].revision == run.revision
    ensures attempt !in s.db.attempts
    ensures action.Some? ==> action.value.id in s.db.actions
                             && s.db.actions[action.value.id].revision == action.value.revision
    ensures forall a :: a in s.db.attempts && s.db.attempts[a].run == run.id ==>
              s.db.attempts[a].number != run.attemptCount + 1
    ensures BeginOutcome(s, lease, run, attempt, action, now).db == BeginDb(s.db, run, attempt, lease, action)
  {
  }

  lemma BeginRunRows(db: Db, run: Run, attempt: AttemptId, lease: Lease, action: Option<Action>)
    requires RowsOk(db) && Beginning(db, run, attempt, action)
    ensures RunRowsOk(BeginDb(db, run, attempt, lease, action), run.id)
  {
    hide DistinctNumbers;
    var db' := BeginDb(db, run, attempt, lease, action);
    RunRow(db, run.id);
    forall a | a in db'.attempts && db'.attempts[a].run == run.id ensures AttemptOk(db', a) {
      assert a in db.attempts ==> AttemptOk(db, a);
    }
    forall x | x in db'.actions && db'.actions[x].run == run.id ensures ActionOk(db', x) {
      assert ActionOk(db, x);
    }
  }

  lemma NewNumberStaysDistinct(attempts: map<AttemptId, Attempt>, attempt: Attempt)
    requires DistinctNumbers(attempts)
    requires attempt.id !in attempts
    requires forall a :: a in attempts && attempts[a].run == attempt.run ==> attempts[a].number != attempt.number
    ensures DistinctNumbers(attempts[attempt.id := attempt])
  {
  }

  lemma {:induction false} BeginRows(db: Db, run: Run, attempt: AttemptId, lease: Lease, action: Option<Action>)
    requires RowsOk(db) && Beginning(db, run, attempt, action)
    requires forall a :: a in db.attempts && db.attempts[a].run == run.id ==>
               db.attempts[a].number != run.attemptCount + 1
    ensures RowsOk(BeginDb(db, run, attempt, lease, action))
  {
    hide RunsOk, ActionsOk, RunRowsOk, DistinctNumbers;
    BeginRunRows(db, run, attempt, lease, action);
    NewNumberStaysDistinct(db.attempts, StartedAttempt(run, attempt, lease));
    RunRow(db, run.id);
    if action.Some? {
      assert ContinuesFrom(db, run.id, action.value.id);
    }
    PutRowsKeepRows(db, StartedRun(run, attempt), Some(StartedAttempt(run, attempt, lease)),
                    Consumption(action, attempt), None);
  }

  lemma BeginBumps(db: Db, run: Run, attempt: AttemptId, lease: Lease, action: Option<Action>)
    requires RowsOk(db) && Beginning(db, run, attempt, action)
    ensures Bumps(db, BeginDb(db, run, attempt, lease, action))
  {
    RunRow(db, run.id);
    hide RowsOk;
  }

  /** The Actions that other Attempts have consumed are not touched. */
  lemma BeginKeepsConsumed(db: Db, run: Run, attempt: AttemptId, lease: Lease, action: Option<Action>)
    requires RowsOk(db) && Beginning(db, run, attempt, action)
    ensures ConsumedStays(db, BeginDb(db, run, attempt, lease, action))
  {
    RunRow(db, run.id);
    hide RowsOk;
  }

  lemma NumbersGrow(attempts: map<AttemptId, Attempt>, attempt: Attempt, r: RunId)
    requires attempt.id !in attempts
    ensures NumbersOf(attempts[attempt.id := attempt], r)
         == NumbersOf(attempts, r) + (if attempt.run == r then {attempt.number} else {})
  {
    var attempts' := attempts[attempt.id := attempt];
    forall k | k in NumbersOf(attempts, r) ensures k in NumbersOf(attempts', r) {
      var a :| a in attempts && attempts[a].run == r && attempts[a].number == k;
      assert a in attempts' && attempts'[a].run == r;
    }
    if attempt.run == r {
      assert attempt.id in attempts' && attempts'[attempt.id].run == r;
    }
    forall k | k in NumbersOf(attempts', r)
      ensures k in NumbersOf(attempts, r) + (if attempt.run == r then {attempt.number} else {})
    {
      var a :| a in attempts' && attempts'[a].run == r && attempts'[a].number == k;
      if a != attempt.id {
        assert a in attempts && attempts[a].run == r;
      }
    }
  }

  lemma BeginIsNumbered(db: Db, run: Run, attempt: AttemptId, lease: Lease, action: Option<Action>)
    requires Numbered(db) && Beginning(db, run, attempt, action)
    ensures Numbered(BeginDb(db, run, attempt, lease, action))
  {
    var db' := BeginDb(db, run, attempt, lease, action);
    forall c | c in db.conversations ensures SequencesOf(db'.runs, c) == SequencesOf(db.runs, c) {
      SequencesStay(db.runs, db'.runs, c);
    }
    hide SequencesOf, NumbersOf;
    forall r | r in db'.runs ensures NumbersOf(db'.attempts, r) == Upto(db'.runs[r].attemptCount) {
      NumbersGrow(db.attempts, StartedAttempt(run, attempt, lease), r);
    }
  }

  lemma BeginIsInOrder(db: Db, run: Run, attempt: AttemptId, lease: Lease, action: Option<Action>)
    requires InOrder(db) && LeasesOk(db) && Beginning(db, run, attempt, action)
    requires run.place.Some? ==> Clear(db, run.place.value.conversation, run.id)
    ensures InOrder(BeginDb(db, run, attempt, lease, action))
    ensures LeasesOk(BeginDb(db, run, attempt, lease, action))
  {
  }

  lemma BeginKeepsTask(db: Db, run: Run, attempt: AttemptId, lease: Lease, action: Option<Action>, other: Lease,
                       task: Task)
    requires Beginning(db, run, attempt, action) && TaskOk(db, other, task) && other != lease
    requires LeaseCurrent(db, lease) && ResourceOf(run) == lease.resource && run.id == db.runs[run.id].id
    requires ConsumedStays(db, BeginDb(db, run, attempt, lease, action))
    ensures TaskOk(BeginDb(db, run, attempt, lease, action), other, task)
  {
    var db' := BeginDb(db, run, attempt, lease, action);
    assert LeaseCurrent(db', other) <==> LeaseCurrent(db, other);
    if task.Selected? && other.resource.ConversationResource? && LeaseCurrent(db, other) {
      assert Clear(db', other.resource.conversation, task.run);
    }
  }

  lemma BegunTaskOk(db: Db, run: Run, attempt: AttemptId, lease: Lease, action: Option<Action>)
    requires RowsOk(db) && Beginning(db, run, attempt, action)
    requires LeaseCurrent(db, lease) && ResourceOf(run) == lease.resource
    ensures TaskOk(BeginDb(db, run, attempt, lease, action), lease,
                   Executing(run.id, attempt, run.phase, InputOf(run, action), false))
  {
    RunRow(db, run.id);
    hide RowsOk;
  }

  lemma SelectedTask(s: System, lease: Lease)
    requires Inv(s) && lease in s.tasks && s.tasks[lease].Selected?
    ensures SelectedOk(s.db, lease, s.tasks[lease].run)
  {
    assert TaskOk(s.db, lease, s.tasks[lease]);
  }

  lemma BeginKeepsLedger(db: Db, credits: map<RunId, nat>, approvals: map<RunId, PlanRef>, submissions: seq<Submitted>,
                         run: Run, attempt: AttemptId, lease: Lease, action: Option<Action>)
    requires CreditsOk(db, credits) && ApprovalsOk(db, approvals) && SubmissionsOk(db, submissions)
    requires Beginning(db, run, attempt, action)
    ensures var db' := BeginDb(db, run, attempt, lease, action);
            CreditsOk(db', credits) && ApprovalsOk(db', approvals) && SubmissionsOk(db', submissions)
  {
  }

  lemma {:induction false} BeginningKeeps(s: System, lease: Lease, run: Run, attempt: AttemptId, action: Option<Action>)
    requires Inv(s) && Beginning(s.db, run, attempt, action)
    requires lease in s.tasks && s.tasks[lease] == Selected(run.id) && LeaseCurrent(s.db, lease)
    requires forall a :: a in s.db.attempts && s.db.attempts[a].run == run.id ==>
               s.db.attempts[a].number != run.attemptCount + 1
    ensures Inv(Observe(Goto(s.(db := BeginDb(s.db, run, attempt, lease, action)), lease,
                             Executing(run.id, attempt, run.phase, InputOf(run, action), false))))
  {
    hide RowsOk, InOrder, Numbered, LeasesOk, TaskOk, SeenOk, Bumps, ConsumedStays, Clear;
    hide CreditsOk, ApprovalsOk, SubmissionsOk, BeginDb;
    SelectedTask(s, lease);
    RunRow(s.db, run.id);
    BeginRows(s.db, run, attempt, lease, action);
    BeginBumps(s.db, run, attempt, lease, action);
    BeginKeepsConsumed(s.db, run, attempt, lease, action);
    BeginIsNumbered(s.db, run, attempt, lease, action);
    BeginIsInOrder(s.db, run, attempt, lease, action);
    BeginKeepsLedger(s.db, s.credits, s.approvals, s.submissions, run, attempt, lease, action);
    var s' := Goto(s.(db := BeginDb(s.db, run, attempt, lease, action)), lease,
                   Executing(run.id, attempt, run.phase, InputOf(run, action), false));
    forall l | l in s'.tasks ensures TaskOk(s'.db, l, s'.tasks[l]) {
      if l == lease {
        BegunTaskOk(s.db, run, attempt, lease, action);
      } else {
        BeginKeepsTask(s.db, run, attempt, lease, action, l, s.tasks[l]);
      }
    }
    SeenStays(s, s');
  }

  lemma {:induction false} BeginKeeps(s: System, lease: Lease, run: Run, attempt: AttemptId, action: Option<Action>,
                                      now: Instant)
    requires Inv(s)
    ensures Inv(Observe(DoBegin(s, lease, run, attempt, action, now)))
  {
    hide RowsOk, InOrder, Numbered, LeasesOk, TasksOk, SeenOk, LedgerOk, BeginOutcome, BeginDb, Observe;
    var s' := DoBegin(s, lease, run, attempt, action, now);
    if s' == s {
      IdleStep(s);
    } else {
      BeginOutcomeIs(s, lease, run, attempt, action, now);
      SwappedRun(s, run);
      if action.Some? {
        SwappedAction(s, action.value);
      }
      BeginningKeeps(s, lease, run, attempt, action);
    }
  }
}
