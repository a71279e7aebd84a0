/** The recovery pass keeps the invariant: it never finds a row changed under it, and each row
    it settles leaves the others as abandoned as they were. */
module RecoverSteps {
  import opened Records
  import opened Transactions
  import opened Protocol
  import opened Invariants
  import opened Edges
  import opened LeaseSteps
  import opened WorkerSteps

  /** The invariant without the snapshots. */
  ghost predicate StateOk(s: System) {
    RowsOk(s.db) && InOrder(s.db) && Numbered(s.db) && LeasesOk(s.db) && TasksOk(s.db, s.tasks) && LedgerOk(s)
  }

  function LeaseOf(run: Run, attempt: Attempt): Lease
    requires attempt.fence.Some?
  {
    Lease(ResourceOf(run), attempt.fence.value.worker, attempt.fence.value.token)
  }

  /** The database after one row of the pass. */
  function Interrupted(db: Db, run: Run, attempt: Attempt, now: Instant): Db
    requires attempt.fence.Some?
  {
    var db' := Put(db, FailedRun(run), Some(InterruptedAttempt(attempt)), None, None);
    db'.(leases := LowerLease(db.leases, LeaseOf(run, attempt), now))
  }

  lemma AbandonedRow(db: Db, r: RunId, now: Instant)
    requires RowsOk(db) && Abandoned(db, r, now)
    ensures var (run, attempt) := Pick(db, r, now);
            && run.id == r && attempt.id == run.activeAttempt.value && attempt.run == r
            && attempt.fence.Some? && run.status.RUNNING? && attempt.status.AttemptRunning?
    ensures StatusOk(db, r) && RequiredActionOk(db, r) && PhaseOk(db, r)
  {
    RunRow(db, r);
  }

  lemma InterruptCommits(db: Db, r: RunId, now: Instant)
    requires RowsOk(db) && Abandoned(db, r, now)
    ensures var (run, attempt) := Pick(db, r, now);
            Interrupt(db, run, attempt, now) == Committed(Interrupted(db, run, attempt, now))
  {
    AbandonedRow(db, r, now);
    hide RowsOk;
  }

  lemma InterruptedRows(db: Db, r: RunId, now: Instant)
    requires RowsOk(db) && Abandoned(db, r, now)
    ensures var (run, attempt) := Pick(db, r, now);
            RowsOk(Put(db, FailedRun(run), Some(InterruptedAttempt(attempt)), None, None))
  {
    var (run, attempt) := Pick(db, r, now);
    AbandonedRow(db, r, now);
    PutKeepsRows(db, FailedRun(run), Some(InterruptedAttempt(attempt)), None, None);
  }

  lemma LoweredOwners(leases: map<Resource, LeaseRow>, lease: Lease, now: Instant)
    ensures SameOwners(leases, LowerLease(leases, lease, now))
  {
  }

  lemma PutKeepsApprovals(db: Db, run: Run, attempt: Option<Attempt>, approvals: map<RunId, PlanRef>)
    requires ApprovalsOk(db, approvals)
    ensures ApprovalsOk(Put(db, run, attempt, None, None), approvals)
  {
  }

  lemma InterruptedPutIsOk(db: Db, r: RunId, now: Instant)
    requires RowsOk(db) && Abandoned(db, r, now)
    ensures var (run, attempt) := Pick(db, r, now);
            PutOk(db, FailedRun(run), Some(InterruptedAttempt(attempt)), None, None)
  {
    AbandonedRow(db, r, now);
    hide RowsOk;
  }

  /** One row of the pass, before its lease is lowered. */
  lemma {:induction false} InterruptPutKeeps(s: System, r: RunId, now: Instant)
    requires StateOk(s) && Abandoned(s.db, r, now)
    ensures var (run, attempt) := Pick(s.db, r, now);
            var s' := s.(db := Put(s.db, FailedRun(run), Some(InterruptedAttempt(attempt)), None, None));
            StateOk(s') && Bumps(s.db, s'.db)
  {
    hide RowsOk, InOrder, Numbered, LeasesOk, TaskOk, Bumps, Quiet, ConsumedStays, CreditsOk, ApprovalsOk, SubmissionsOk;
    hide PutOk;
    var (run, attempt) := Pick(s.db, r, now);
    var db' := Put(s.db, FailedRun(run), Some(InterruptedAttempt(attempt)), None, None);
    AbandonedRow(s.db, r, now);
    InterruptedRows(s.db, r, now);
    InterruptedPutIsOk(s.db, r, now);
    PutIsQuiet(s.db, FailedRun(run), Some(InterruptedAttempt(attempt)), None, None);
    QuietKeepsOrder(s.db, db', r);
    QuietKeepsTasks(s.db, db', r, None, s.tasks);
    QuietKeepsSubmissions(s.db, db', r, s.submissions);
    FundedRow(s.db, s.credits, r);
    PutKeepsCredits(s.db, db', FailedRun(run), s.credits, s.credits);
    PutKeepsApprovals(s.db, FailedRun(run), Some(InterruptedAttempt(attempt)), s.approvals);
  }

  lemma {:induction false} LowerKeeps(s: System, lease: Lease, now: Instant)
    requires StateOk(s)
    ensures var s' := s.(db := s.db.(leases := LowerLease(s.db.leases, lease, now)));
            StateOk(s') && Bumps(s.db, s'.db)
  {
    hide RowsOk, InOrder, Numbered, TaskOk, Bumps, CreditsOk, ApprovalsOk, SubmissionsOk;
    var s' := s.(db := s.db.(leases := LowerLease(s.db.leases, lease, now)));
    LoweredOwners(s.db.leases, lease, now);
    OnlyLeasesKeepsRows(s.db, s'.db);
    OnlyLeasesKeepsLedger(s, s');
    forall l | l in s.tasks ensures TaskOk(s'.db, l, s.tasks[l]) {
      TimedLeaseKeepsTask(s.db, s'.db, l, s.tasks[l]);
    }
  }

  lemma RunsBumpTwice(m0: map<RunId, Run>, m1: map<RunId, Run>, m2: map<RunId, Run>)
    requires RunsBump(m0, m1) && RunsBump(m1, m2)
    ensures RunsBump(m0, m2)
  {
  }

  lemma AttemptsBumpTwice(m0: map<AttemptId, Attempt>, m1: map<AttemptId, Attempt>, m2: map<AttemptId, Attempt>)
    requires AttemptsBump(m0, m1) && AttemptsBump(m1, m2)
    ensures AttemptsBump(m0, m2)
  {
  }

  lemma ActionsBumpTwice(m0: map<ActionId, Action>, m1: map<ActionId, Action>, m2: map<ActionId, Action>)
    requires ActionsBump(m0, m1) && ActionsBump(m1, m2)
    ensures ActionsBump(m0, m2)
  {
  }

  lemma PlansBumpTwice(m0: map<RunId, Plan>, m1: map<RunId, Plan>, m2: map<RunId, Plan>)
    requires PlansBump(m0, m1) && PlansBump(m1, m2)
    ensures PlansBump(m0, m2)
  {
  }

  lemma ConversationsBumpTwice(m0: map<ConversationId, Conversation>, m1: map<ConversationId, Conversation>,
                               m2: map<ConversationId, Conversation>)
    requires ConversationsBump(m0, m1) && ConversationsBump(m1, m2)
    ensures ConversationsBump(m0, m2)
  {
  }

  lemma BumpsTwice(db: Db, db1: Db, db2: Db)
    requires Bumps(db, db1) && Bumps(db1, db2)
    ensures Bumps(db, db2)
  {
    hide RunsBump, AttemptsBump, ActionsBump, PlansBump, ConversationsBump;
    RunsBumpTwice(db.runs, db1.runs, db2.runs);
    AttemptsBumpTwice(db.attempts, db1.attempts, db2.attempts);
    ActionsBumpTwice(db.actions, db1.actions, db2.actions);
    PlansBumpTwice(db.plans, db1.plans, db2.plans);
    ConversationsBumpTwice(db.conversations, db1.conversations, db2.conversations);
  }

  lemma {:induction false} InterruptKeeps(s: System, r: RunId, now: Instant)
    requires StateOk(s) && Abandoned(s.db, r, now)
    ensures var (run, attempt) := Pick(s.db, r, now);
            var s' := s.(db := Interrupted(s.db, run, attempt, now));
            StateOk(s') && Bumps(s.db, s'.db)
  {
    hide RowsOk, InOrder, Numbered, LeasesOk, TasksOk, Bumps, LedgerOk, StateOk;
    var (run, attempt) := Pick(s.db, r, now);
    var s1 := s.(db := Put(s.db, FailedRun(run), Some(InterruptedAttempt(attempt)), None, None));
    InterruptPutKeeps(s, r, now);
    LowerKeeps(s1, LeaseOf(run, attempt), now);
    BumpsTwice(s.db, s1.db, Interrupted(s.db, run, attempt, now));
  }

  /** Settling one abandoned Run leaves another one abandoned, with the same rows. */
  lemma StaysAbandoned(db: Db, r: RunId, q: RunId, now: Instant)
    requires RowsOk(db) && Abandoned(db, r, now) && Abandoned(db, q, now) && q != r
    ensures var (run, attempt) := Pick(db, r, now);
            var db' := Interrupted(db, run, attempt, now);
            Abandoned(db', q, now) && Pick(db', q, now) == Pick(db, q, now)
  {
    AbandonedRow(db, r, now);
    AbandonedRow(db, q, now);
    hide RowsOk;
  }

  lemma PicksAgree(db: Db, db': Db, rows: seq<RunId>, now: Instant)
    requires forall i :: 0 <= i < |rows| ==> Abandoned(db, rows[i], now)
    requires forall i :: 0 <= i < |rows| ==>
               Abandoned(db', rows[i], now) && Pick(db', rows[i], now) == Pick(db, rows[i], now)
    ensures Picks(db', rows, now) == Picks(db, rows, now)
  {
    hide Abandoned, Pick;
    if rows != [] {
      assert Abandoned(db', rows[0], now) && Pick(db', rows[0], now) == Pick(db, rows[0], now);
      PicksAgree(db, db', rows[1..], now);
    }
  }

  function Pass(db: Db, rows: seq<RunId>, now: Instant): Outcome
    requires AllAbandoned(db, rows, now)
  {
    InterruptAll(db, Picks(db, rows, now), now)
  }

  /** The pass commits, and it is the pass over the first row followed by that over the rest. */
  lemma RecoverUnfolds(db: Db, rows: seq<RunId>, now: Instant)
    requires RowsOk(db) && rows != [] && AllAbandoned(db, rows, now)
    ensures Abandoned(db, rows[0], now)
    ensures var (run, attempt) := Pick(db, rows[0], now);
            var db1 := Interrupted(db, run, attempt, now);
            && AllAbandoned(db1, rows[1..], now)
            && Pass(db, rows, now) == Pass(db1, rows[1..], now)
  {
    var (run, attempt) := Pick(db, rows[0], now);
    var db1 := Interrupted(db, run, attempt, now);
    var rest := rows[1..];
    InterruptCommits(db, rows[0], now);
    forall i | 0 <= i < |rest|
      ensures Abandoned(db, rest[i], now) && Abandoned(db1, rest[i], now)
              && Pick(db1, rest[i], now) == Pick(db, rest[i], now)
    {
      assert rest[i] == rows[i + 1];
      StaysAbandoned(db, rows[0], rest[i], now);
    }
    hide RowsOk, Abandoned, Pick, Interrupt, Interrupted;
    PicksAgree(db, db1, rest, now);
    assert Picks(db, rows, now)[1..] == Picks(db, rest, now);
  }

  lemma {:induction false} RecoverAllKeeps(s: System, rows: seq<RunId>, now: Instant)
    requires StateOk(s) && AllAbandoned(s.db, rows, now)
    ensures var outcome := Pass(s.db, rows, now);
            outcome.Committed? && StateOk(s.(db := outcome.db)) && Bumps(s.db, outcome.db)
    decreases |rows|
  {
    hide RowsOk, InOrder, Numbered, LeasesOk, TasksOk, LedgerOk, Abandoned, AllAbandoned, Interrupted, Pick;
    if rows == [] {
      assert s.(db := s.db) == s;
    } else {
      RecoverUnfolds(s.db, rows, now);
      var (run, attempt) := Pick(s.db, rows[0], now);
      var s1 := s.(db := Interrupted(s.db, run, attempt, now));
      InterruptKeeps(s, rows[0], now);
      RecoverAllKeeps(s1, rows[1..], now);
      var outcome := Pass(s1.db, rows[1..], now);
      BumpsTwice(s.db, s1.db, outcome.db);
    }
  }

  lemma {:induction false} RecoverKeeps(s: System, rows: seq<RunId>, now: Instant)
    requires Inv(s)
    ensures Inv(Observe(DoRecover(s, rows, now)))
  {
    hide RowsOk, InOrder, Numbered, LeasesOk, TasksOk, SeenOk, Bumps, CreditsOk, ApprovalsOk, SubmissionsOk;
    if AllAbandoned(s.db, rows, now) {
      RecoverAllKeeps(s, rows, now);
      SeenStays(s, DoRecover(s, rows, now));
    } else {
      IdleStep(s);
    }
  }
}
