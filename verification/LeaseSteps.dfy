/** Leases, the moves of a task that write nothing, Conversations and submissions keep the
    invariant. */
module LeaseSteps {
  import opened Records
  import opened Transactions
  import opened Protocol
  import opened Invariants
  import opened Edges

  // ----- Leases -----

  /** Nothing but `worker_leases` changed. */
  predicate OnlyLeases(db: Db, db': Db) {
    db' == db.(leases := db'.leases)
  }

  lemma OnlyLeasesKeepsRows(db: Db, db': Db)
    requires OnlyLeases(db, db') && RowsOk(db)
    ensures RowsOk(db')
  {
    hide Numbered, InOrder;
    forall r | r in db.runs ensures StatusOk(db', r) && RequiredActionOk(db', r) && PhaseOk(db', r) {
      assert StatusOk(db, r) && RequiredActionOk(db, r) && PhaseOk(db, r);
    }
    forall a | a in db.attempts ensures AttemptOk(db', a) {
      assert AttemptOk(db, a);
    }
    forall x | x in db.actions ensures ActionOk(db', x) {
      assert ActionOk(db, x);
    }
  }

  lemma OnlyLeasesKeepsLedger(s: System, s': System)
    requires OnlyLeases(s.db, s'.db) && s' == s.(db := s'.db, tasks := s'.tasks)
    requires InOrder(s.db) && Numbered(s.db) && LedgerOk(s)
    ensures InOrder(s'.db) && Numbered(s'.db) && LedgerOk(s') && Bumps(s.db, s'.db)
  {
  }

  lemma {:induction false} OnlyLeasesKeeps(s: System, s': System)
    requires Inv(s) && OnlyLeases(s.db, s'.db) && s' == s.(db := s'.db, tasks := s'.tasks)
    requires LeasesOk(s'.db) && TasksOk(s'.db, s'.tasks)
    ensures Inv(Observe(s'))
  {
    hide LeasesOk, TasksOk, RowsOk, InOrder, Numbered, SeenOk, Bumps, CreditsOk, ApprovalsOk, SubmissionsOk;
    OnlyLeasesKeepsRows(s.db, s'.db);
    OnlyLeasesKeepsLedger(s, s');
    SeenStays(s, s');
  }

  lemma TimedLeaseKeepsTask(db: Db, db': Db, lease: Lease, task: Task)
    requires OnlyLeases(db, db') && SameOwners(db.leases, db'.leases)
    requires TaskOk(db, lease, task)
    ensures TaskOk(db', lease, task)
  {
    assert LeaseCurrent(db', lease) <==> LeaseCurrent(db, lease);
    if task.Selected? && lease.resource.ConversationResource? && LeaseCurrent(db, lease) {
      assert Clear(db', lease.resource.conversation, task.run);
    }
  }

  lemma {:induction false} TimedLeaseKeeps(s: System, s': System)
    requires Inv(s) && OnlyLeases(s.db, s'.db) && s' == s.(db := s'.db) && SameOwners(s.db.leases, s'.db.leases)
    ensures Inv(Observe(s'))
  {
    hide TaskOk, RowsOk, InOrder, Numbered, SeenOk, LedgerOk;
    forall lease | lease in s.tasks ensures TaskOk(s'.db, lease, s'.tasks[lease]) {
      TimedLeaseKeepsTask(s.db, s'.db, lease, s.tasks[lease]);
    }
    OnlyLeasesKeeps(s, s');
  }

  /** A grant takes the lease away from whoever had it. */
  lemma GrantKeepsTask(db: Db, resource: Resource, worker: string, expiresAt: Instant, lease: Lease, task: Task)
    requires TaskOk(db, lease, task)
    ensures TaskOk(Grant(db, resource, worker, expiresAt).0, lease, task)
  {
    var db' := Grant(db, resource, worker, expiresAt).0;
    if lease.resource == resource {
      assert !LeaseCurrent(db', lease);
    } else {
      assert LeaseCurrent(db', lease) <==> LeaseCurrent(db, lease);
      if task.Selected? && lease.resource.ConversationResource? && LeaseCurrent(db, lease) {
        assert Clear(db', lease.resource.conversation, task.run);
      }
    }
  }

  lemma {:induction false} GrantKeeps(s: System, r: RunId, worker: string, expiresAt: Instant)
    requires Inv(s) && Runnable(s.db, r)
    ensures var (db', lease) := Grant(s.db, ResourceOf(s.db.runs[r]), worker, expiresAt);
            Inv(Observe(Goto(s.(db := db'), lease, Idle)))
  {
    hide TaskOk, InOrder, SeenOk, LedgerOk, RunsOk, AttemptsOk, ActionsOk;
    var resource := ResourceOf(s.db.runs[r]);
    var (db', lease) := Grant(s.db, resource, worker, expiresAt);
    var s' := Goto(s.(db := db'), lease, Idle);
    forall l | l in s'.tasks ensures TaskOk(db', l, s'.tasks[l]) {
      if l == lease {
        NewTaskOk(db', lease);
      } else {
        GrantKeepsTask(s.db, resource, worker, expiresAt, l, s.tasks[l]);
      }
    }
    OnlyLeasesKeeps(s, s');
  }

  lemma NewTaskOk(db: Db, lease: Lease)
    requires LeaseCurrent(db, lease)
    ensures TaskOk(db, lease, Idle)
  {
  }

  lemma {:induction false} ClaimKeeps(s: System, candidates: seq<RunId>, worker: string, seconds: int, now: Instant)
    requires Inv(s)
    ensures Inv(Observe(DoClaim(s, candidates, worker, seconds, now)))
  {
    hide Inv, Observe, Busy, Claimable;
    if forall i :: 0 <= i < |candidates| ==> Runnable(s.db, candidates[i]) {
      if ClaimWork(s.db, candidates, worker, seconds, now).Granted? {
        GrantKeeps(s, candidates[FirstClaimable(s.db, candidates, now)], worker, now + seconds);
      } else {
        IdleStep(s);
      }
    } else {
      IdleStep(s);
    }
  }

  // ----- The moves of a task -----

  lemma TaskMoveKeeps(s: System, tasks: map<Lease, Task>)
    requires Inv(s) && TasksOk(s.db, tasks)
    ensures Inv(Observe(s.(tasks := tasks)))
  {
    hide TaskOk, RowsOk, InOrder, Numbered, LeasesOk;
    SeenStays(s, s.(tasks := tasks));
  }

  lemma {:induction false} FinishKeeps(s: System, lease: Lease)
    requires Inv(s) && lease in s.tasks
    ensures Inv(Observe(Finish(s, lease)))
  {
    assert TaskOk(s.db, lease, s.tasks[lease]);
    TaskMoveKeeps(s, Finish(s, lease).tasks);
  }

  lemma EndKeeps(s: System, lease: Lease)
    requires Inv(s)
    ensures Inv(Observe(s.(tasks := s.tasks - {lease})))
  {
    TaskMoveKeeps(s, s.tasks - {lease});
  }

  lemma ClearWhenNextInLine(db: Db, c: ConversationId, r: RunId)
    requires NextInLine(db, c, r)
    ensures !Occupying(db.runs[r].status) && Clear(db, c, r)
  {
  }

  lemma {:induction false} SelectKeeps(s: System, lease: Lease, conversation: Option<Conversation>, r: RunId)
    requires Inv(s)
    ensures Inv(Observe(DoSelect(s, lease, conversation, r)))
  {
    var s' := DoSelect(s, lease, conversation, r);
    if s' == s {
      IdleStep(s);
    } else {
      hide SeenOk, RunsOk, AttemptsOk, ActionsOk, InOrder, Numbered, NextInLine, Clear;
      assert TaskOk(s.db, lease, Idle);
      if lease.resource.ConversationResource? {
        ClearWhenNextInLine(s.db, lease.resource.conversation, r);
        NextInLineRuns(s.db, lease.resource.conversation, r);
      }
      assert TaskOk(s.db, lease, Selected(r));
      TaskMoveKeeps(s, s'.tasks);
    }
  }

  lemma NextInLineRuns(db: Db, c: ConversationId, r: RunId)
    requires NextInLine(db, c, r)
    ensures r in db.runs && InConversation(db.runs[r], c)
  {
  }
}
