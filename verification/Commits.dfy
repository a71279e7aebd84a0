/** Exactly when the transactions of reachable states commit: a fence, a compare-and-swap and the
    fresh keys are all that can stop them, never a constraint of the tables. */
module Commits {
  import opened Records
  import opened Transactions
  import opened Protocol
  import opened Invariants
  import opened Edges
  import opened WorkerSteps
  import opened BeginSteps
  import opened SubmitSteps
  import opened Changes
  import opened Histories

  /** The snapshot is still the row. */
  predicate CurrentRun(db: Db, run: Run) {
    run.id in db.runs && db.runs[run.id] == run
  }

  predicate CurrentAttempt(db: Db, attempt: Attempt) {
    attempt.id in db.attempts && db.attempts[attempt.id] == attempt
  }

  predicate CurrentAction(db: Db, action: Action) {
    action.id in db.actions && db.actions[action.id] == action
  }

  lemma NextNumberIsFree(db: Db, run: Run)
    requires Numbered(db) && CurrentRun(db, run)
    ensures forall a :: a in db.attempts && db.attempts[a].run == run.id ==> db.attempts[a].number != run.attemptCount + 1
  {
    forall a | a in db.attempts && db.attempts[a].run == run.id
      ensures db.attempts[a].number != run.attemptCount + 1
    {
      assert db.attempts[a].number in NumbersOf(db.attempts, run.id);
    }
  }

  lemma InsertCommits(db: Db, attempt: Attempt)
    requires attempt.id !in db.attempts && attempt.run in db.runs
    requires forall a :: a in db.attempts && db.attempts[a].run == attempt.run ==> db.attempts[a].number != attempt.number
    ensures InsertAttempt(db, attempt) == Committed(db.(attempts := db.attempts[attempt.id := attempt]))
  {
  }

  lemma BeginCommitsWhen(s: System, lease: Lease, run: Run, attempt: AttemptId, action: Option<Action>, now: Instant)
    requires Inv(s) && lease in s.tasks && s.tasks[lease] == Selected(run.id) && CanBegin(s, run, action)
    requires LeaseValid(s.db, lease, now) && CurrentRun(s.db, run) && attempt !in s.db.attempts
    requires action.Some? ==> CurrentAction(s.db, action.value)
    ensures BeginOutcome(s, lease, run, attempt, action, now).Committed?
  {
    NextNumberIsFree(s.db, run);
    NobodyOccupiesWhenClear(s, lease, run);
    hide Inv;
    var started := StartedAttempt(run, attempt, lease);
    InsertCommits(s.db, started);
    var db2 := s.db.(attempts := s.db.attempts[attempt := started]);
    assert UpdateRun(db2, StartedRun(run, attempt), run.revision)
           == Committed(db2.(runs := db2.runs[run.id := StartedRun(run, attempt)]));
    hide InsertAttempt, UpdateRun;
  }

  /** A Worker's `begin_attempt` commits exactly when its lease is valid, the Attempt is new and
      neither the Run nor the answered Action has changed since it read them. */
  lemma {:induction false} BeginCommitsIff(steps: seq<Step>, lease: Lease, run: Run, attempt: AttemptId,
                                           action: Option<Action>, now: Instant)
    requires var s := After(steps);
             lease in s.tasks && s.tasks[lease] == Selected(run.id) && CanBegin(s, run, action)
    ensures var s := After(steps);
            BeginOutcome(s, lease, run, attempt, action, now).Committed? <==>
              && LeaseValid(s.db, lease, now) && CurrentRun(s.db, run) && attempt !in s.db.attempts
              && (action.Some? ==> CurrentAction(s.db, action.value))
  {
    hide After, Inv, SeenOk, RowsOk, BeginOutcome, LeaseValid;
    var s := After(steps);
    Reachable(steps);
    InvIsSeen(s);
    if BeginOutcome(s, lease, run, attempt, action, now).Committed? {
      BeginOutcomeIs(s, lease, run, attempt, action, now);
      SwappedRun(s, run);
      if action.Some? {
        SwappedAction(s, action.value);
      }
    } else if LeaseValid(s.db, lease, now) && CurrentRun(s.db, run) && attempt !in s.db.attempts
              && (action.Some? ==> CurrentAction(s.db, action.value)) {
      BeginCommitsWhen(s, lease, run, attempt, action, now);
    }
  }

  lemma SettleCommitsWhen(s: System, lease: Lease, run: Run, attempt: Attempt, success: bool, now: Instant)
    requires RowsOk(s.db) && LeaseValid(s.db, lease, now)
    requires CurrentRun(s.db, run) && CurrentAttempt(s.db, attempt)
    ensures SettleOutcome(s, lease, run, attempt, success, now).Committed?
  {
    RunRow(s.db, run.id);
    hide RowsOk;
    var settled := SettledAttempt(attempt, if success then AttemptSucceeded else AttemptFailed);
    assert UpdateAttempt(s.db, settled, attempt.revision)
           == Committed(s.db.(attempts := s.db.attempts[attempt.id := settled]));
    hide UpdateAttempt;
  }

  /** A Worker settles exactly when its lease is valid and neither the Run nor the Attempt has
      changed since it read them: of all who race for an Attempt, the first wins. */
  lemma {:induction false} SettleCommitsIff(steps: seq<Step>, lease: Lease, run: Run, attempt: Attempt, success: bool,
                                            now: Instant)
    requires CanSettle(After(steps), lease, run, attempt)
    ensures var s := After(steps);
            SettleOutcome(s, lease, run, attempt, success, now).Committed? <==>
              LeaseValid(s.db, lease, now) && CurrentRun(s.db, run) && CurrentAttempt(s.db, attempt)
  {
    hide After, Inv, SeenOk, RowsOk, SettleOutcome, LeaseValid;
    var s := After(steps);
    Reachable(steps);
    InvIsSeen(s);
    if SettleOutcome(s, lease, run, attempt, success, now).Committed? {
      SettleOutcomeIs(s, lease, run, attempt, success, now);
      SwappedRun(s, run);
      SwappedAttempt(s, attempt);
    } else if LeaseValid(s.db, lease, now) && CurrentRun(s.db, run) && CurrentAttempt(s.db, attempt) {
      SettleCommitsWhen(s, lease, run, attempt, success, now);
    }
  }

  /** Neither of the two answers to a question, nor its expiry or cancellation, can follow the
      other: an answer commits exactly while Run and Action are as they were read. */
  lemma {:induction false} AnswerCommitsIff(steps: seq<Step>, principal: Principal, run: Run, action: Action,
                                            answers: string)
    requires CanResume(After(steps), principal, run, action)
    ensures var s := After(steps);
            DoResume(s, principal, run, action, answers).db != s.db <==>
              CurrentRun(s.db, run) && CurrentAction(s.db, action)
  {
    hide After, Inv, SeenOk, RowsOk;
    var s := After(steps);
    Reachable(steps);
    InvIsSeen(s);
    if run.id in s.db.runs && s.db.runs[run.id].revision == run.revision {
      SwappedRun(s, run);
    }
    if action.id in s.db.actions && s.db.actions[action.id].revision == action.revision {
      SwappedAction(s, action);
    }
  }

  predicate SomebodyWaits(db: Db, c: ConversationId) {
    exists r :: r in db.runs && InConversation(db.runs[r], c) && db.runs[r].status.WAITING?
  }

  lemma NextSequenceIsFree(db: Db, c: ConversationId)
    requires Numbered(db) && c in db.conversations
    ensures forall r :: r in db.runs ==> db.runs[r].place != Some(Place(c, db.conversations[c].nextSequence))
  {
    forall r | r in db.runs ensures db.runs[r].place != Some(Place(c, db.conversations[c].nextSequence)) {
      if db.runs[r].place.Some? && db.runs[r].place.value.conversation == c {
        SequenceInUse(db, r);
      }
    }
  }

  /** A Conversation accepts a new Run exactly when it is ACTIVE and the caller's, no Run of it
      waits for an answer, and neither the key nor the Run id is taken; the Run gets the next
      sequence, which is never taken. */
  lemma SubmissionCreatesIff(steps: seq<Step>, c: ConversationId, id: RunId, request: Request, key: Option<string>)
    ensures var db := After(steps).db;
            var submission := CreateConversationRun(db, c, NewRun(id, request, DIRECT), key, DigestOf(request, Some(c)));
            && (submission.Created? <==>
                  && c in db.conversations && db.conversations[c].status.ACTIVE?
                  && db.conversations[c].tenant == request.tenant && db.conversations[c].principal == request.principal
                  && db.conversations[c].agent == request.agent
                  && db.conversations[c].fingerprint == request.fingerprint
                  && (key.Some? ==> Key(request.tenant, key.value) !in db.idempotency)
                  && !SomebodyWaits(db, c) && id !in db.runs)
            && (submission.Created? ==>
                  submission.run == Run(id, Some(Place(c, db.conversations[c].nextSequence)), request, DIRECT, QUEUED, 1,
                                        0, None, None, None, false))
  {
    var db := After(steps).db;
    Reachable(steps);
    hide After;
    if c in db.conversations {
      NextSequenceIsFree(db, c);
    }
    hide Inv;
  }

  /** A released lease is over, and its resource can be claimed again at once. */
  lemma ReleasedCanBeClaimed(db: Db, lease: Lease, now: Instant)
    requires LeaseCurrent(db, lease)
    ensures Claimable(ReleaseLease(db, lease, now), lease.resource, now)
    ensures forall later :: later >= now ==> !LeaseValid(ReleaseLease(db, lease, now), lease, later)
    ensures Token(ReleaseLease(db, lease, now), lease.resource) == Token(db, lease.resource)
  {
  }
}
