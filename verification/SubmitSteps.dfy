/** Opening and blocking Conversations and submitting Runs keep the invariant. */
module SubmitSteps {
  import opened Records
  import opened Transactions
  import opened Protocol
  import opened Invariants
  import opened Edges

  // ----- Conversations -----

  lemma ConversationWriteKeepsRows(db: Db, conversation: Conversation)
    requires RowsOk(db)
    ensures RowsOk(db.(conversations := db.conversations[conversation.id := conversation]))
  {
    hide Numbered, InOrder;
    var db' := db.(conversations := db.conversations[conversation.id := conversation]);
    forall r | r in db.runs ensures StatusOk(db', r) && RequiredActionOk(db', r) && PhaseOk(db', r) {
      assert StatusOk(db, r) && RequiredActionOk(db, r) && PhaseOk(db, r);
    }
    forall a | a in db.attempts ensures AttemptOk(db', a) {
      assert AttemptOk(db, a);
    }
    forall x | x in db.actions ensures ActionOk(db', x) {
      assert ActionOk(db, x);
    }
  }

  lemma ConversationWriteKeepsTasks(db: Db, conversation: Conversation, tasks: map<Lease, Task>)
    requires TasksOk(db, tasks)
    ensures TasksOk(db.(conversations := db.conversations[conversation.id := conversation]), tasks)
  {
    var db' := db.(conversations := db.conversations[conversation.id := conversation]);
    forall lease | lease in tasks ensures TaskOk(db', lease, tasks[lease]) {
      assert TaskOk(db, lease, tasks[lease]);
      assert LeaseCurrent(db', lease) <==> LeaseCurrent(db, lease);
      if tasks[lease].Selected? && lease.resource.ConversationResource? && LeaseCurrent(db, lease) {
        assert Clear(db', lease.resource.conversation, tasks[lease].run);
      }
    }
  }

  lemma ConversationWriteKeepsOrder(db: Db, conversation: Conversation)
    requires InOrder(db) && Numbered(db) && LeasesOk(db)
    requires if conversation.id in db.conversations
             then conversation.nextSequence == db.conversations[conversation.id].nextSequence
             else conversation.nextSequence == 1
    ensures var db' := db.(conversations := db.conversations[conversation.id := conversation]);
            InOrder(db') && Numbered(db') && LeasesOk(db')
  {
    if conversation.id !in db.conversations {
      assert SequencesOf(db.runs, conversation.id) == {};
    }
  }

  lemma ConversationWriteKeepsLedger(s: System, conversation: Conversation)
    requires LedgerOk(s)
    requires conversation.id in s.db.conversations ==>
               conversation.revision == s.db.conversations[conversation.id].revision + 1
    ensures var s' := s.(db := s.db.(conversations := s.db.conversations[conversation.id := conversation]));
            LedgerOk(s') && Bumps(s.db, s'.db)
  {
  }

  lemma {:induction false} ConversationWriteKeeps(s: System, conversation: Conversation)
    requires Inv(s)
    requires if conversation.id in s.db.conversations
             then conversation.nextSequence == s.db.conversations[conversation.id].nextSequence
                  && conversation.revision == s.db.conversations[conversation.id].revision + 1
             else conversation.nextSequence == 1
    ensures Inv(Observe(s.(db := s.db.(conversations := s.db.conversations[conversation.id := conversation]))))
  {
    hide RowsOk, InOrder, Numbered, LeasesOk, TasksOk, SeenOk, Bumps, CreditsOk, ApprovalsOk, SubmissionsOk;
    var s' := s.(db := s.db.(conversations := s.db.conversations[conversation.id := conversation]));
    ConversationWriteKeepsRows(s.db, conversation);
    ConversationWriteKeepsTasks(s.db, conversation, s.tasks);
    ConversationWriteKeepsOrder(s.db, conversation);
    ConversationWriteKeepsLedger(s, conversation);
    SeenStays(s, s');
  }

  lemma {:induction false} OpenKeeps(s: System, created: Conversation)
    requires Inv(s)
    ensures Inv(Do(s, OpenConversation(created)))
  {
    hide Inv;
    var conversation := created.(status := ACTIVE, nextSequence := 1, revision := 1);
    if conversation.id in s.db.conversations {
      IdleStep(s);
    } else {
      ConversationWriteKeeps(s, conversation);
    }
  }

  lemma {:induction false} BlockKeeps(s: System, conversation: Conversation)
    requires Inv(s)
    ensures Inv(Observe(DoBlock(s, conversation)))
  {
    hide RowsOk, InOrder, Numbered, LeasesOk, TasksOk, SeenOk, LedgerOk, Observe;
    if DoBlock(s, conversation) == s {
      IdleStep(s);
    } else {
      SwappedConversation(s, conversation);
      ConversationWriteKeeps(s, BlockedConversation(conversation));
    }
  }

  // ----- Submissions -----

  /** The rows that an accepted submission leaves behind. */
  function Added(db: Db, run: Run, key: Option<string>, digest: Digest): Db {
    RecordKey(
      db.(runs := db.runs[run.id := run],
          conversations :=
            if run.place.None? || run.place.value.conversation !in db.conversations then db.conversations
            else var c := run.place.value.conversation;
                 db.conversations[c := db.conversations[c].(nextSequence := db.conversations[c].nextSequence + 1,
                                                            revision := db.conversations[c].revision + 1)]),
      run, key, digest)
  }

  /** What both create transactions demand of a new Run. */
  predicate Fits(db: Db, run: Run, key: Option<string>) {
    && run.id !in db.runs
    && run.status.QUEUED? && run.attemptCount == 0 && run.activeAttempt.None? && run.requiredAction.None?
    && (run.phase.DIRECT? || (run.phase.PLANNING? && run.place.None?))
    && (run.place.Some? ==>
          && run.place.value.conversation in db.conversations
          && run.place.value.sequence == db.conversations[run.place.value.conversation].nextSequence)
    && (key.Some? ==> Key(run.request.tenant, key.value) !in db.idempotency)
  }

  lemma AddedKeepsOthers(db: Db, run: Run, key: Option<string>, digest: Digest, r: RunId)
    requires RowsOk(db) && Fits(db, run, key) && r in db.runs
    ensures RunRowsOk(Added(db, run, key, digest), r)
  {
    var db' := Added(db, run, key, digest);
    assert StatusOk(db, r) && RequiredActionOk(db, r) && PhaseOk(db, r);
    forall a | a in db'.attempts && db'.attempts[a].run == r ensures AttemptOk(db', a) {
      assert AttemptOk(db, a);
    }
    forall x | x in db'.actions && db'.actions[x].run == r ensures ActionOk(db', x) {
      assert ActionOk(db, x);
    }
  }

  lemma FitsIsNew(db: Db, run: Run, key: Option<string>)
    requires Fits(db, run, key)
    ensures run.id !in db.runs
  {
  }

  /** A new Run has no rows of other tables yet. */
  lemma NewRunHasNoRows(db: Db, r: RunId)
    requires RowsOk(db) && r !in db.runs
    ensures r !in db.plans
    ensures forall a :: a in db.attempts ==> db.attempts[a].run != r
    ensures forall x :: x in db.actions ==> db.actions[x].run != r
  {
    forall a | a in db.attempts ensures db.attempts[a].run != r {
      assert AttemptOk(db, a);
    }
    forall x | x in db.actions ensures db.actions[x].run != r {
      assert ActionOk(db, x);
    }
  }

  lemma AddedIsKeyed(db: Db, run: Run, key: Option<string>, digest: Digest)
    requires Keyed(db) && Fits(db, run, key)
    ensures Keyed(Added(db, run, key, digest))
  {
  }

  lemma {:induction false} AddedKeepsRows(db: Db, run: Run, key: Option<string>, digest: Digest)
    requires RowsOk(db) && Fits(db, run, key)
    ensures RowsOk(Added(db, run, key, digest))
  {
    var db' := Added(db, run, key, digest);
    NewRunHasNoRows(db, run.id);
    AddedIsKeyed(db, run, key, digest);
    assert RunRowsOk(db', run.id) by { hide RunsOk, AttemptOk, ActionOk, Keyed; }
    hide StatusOk, RequiredActionOk, PhaseOk, RunsOk, Keyed, RunRowsOk;
    forall r | r in db'.runs ensures RunRowsOk(db', r) {
      if r != run.id {
        AddedKeepsOthers(db, run, key, digest, r);
      }
    }
    RunRowsMakeRows(db');
  }

  lemma SequencesGrow(runs: map<RunId, Run>, run: Run, c: ConversationId)
    requires run.id !in runs
    ensures SequencesOf(runs[run.id := run], c)
         == SequencesOf(runs, c) + (if InConversation(run, c) then {run.place.value.sequence} else {})
  {
    var runs' := runs[run.id := run];
    forall k | k in SequencesOf(runs, c) ensures k in SequencesOf(runs', c) {
      var r :| r in runs && InConversation(runs[r], c) && runs[r].place.value.sequence == k;
      assert r in runs' && InConversation(runs'[r], c);
    }
    if InConversation(run, c) {
      assert run.id in runs' && InConversation(runs'[run.id], c);
    }
    forall k | k in SequencesOf(runs', c)
      ensures k in SequencesOf(runs, c) + (if InConversation(run, c) then {run.place.value.sequence} else {})
    {
      var r :| r in runs' && InConversation(runs'[r], c) && runs'[r].place.value.sequence == k;
      if r != run.id {
        assert r in runs && InConversation(runs[r], c);
      }
    }
  }

  /** The new Run comes after every other one of its Conversation. */
  lemma SequenceInUse(db: Db, r: RunId)
    requires Numbered(db) && r in db.runs && db.runs[r].place.Some?
    ensures db.runs[r].place.value.conversation in db.conversations
    ensures 1 <= db.runs[r].place.value.sequence < db.conversations[db.runs[r].place.value.conversation].nextSequence
  {
    var c := db.runs[r].place.value.conversation;
    assert InConversation(db.runs[r], c);
    assert db.runs[r].place.value.sequence in SequencesOf(db.runs, c);
  }

  lemma {:induction false} AddedSequences(db: Db, run: Run, key: Option<string>, digest: Digest, c: ConversationId)
    requires Numbered(db) && Fits(db, run, key) && c in db.conversations
    ensures var db' := Added(db, run, key, digest);
            && c in db'.conversations
            && db'.conversations[c].nextSequence >= 1
            && SequencesOf(db'.runs, c) == Upto(db'.conversations[c].nextSequence - 1)
  {
    hide SequencesOf, NumbersOf;
    SequencesGrow(db.runs, run, c);
  }

  lemma NoAttemptsNoNumbers(attempts: map<AttemptId, Attempt>, r: RunId)
    requires forall a :: a in attempts ==> attempts[a].run != r
    ensures NumbersOf(attempts, r) == {}
  {
  }

  lemma {:induction false} AddedIsNumbered(db: Db, run: Run, key: Option<string>, digest: Digest)
    requires Numbered(db) && Fits(db, run, key)
    requires forall a :: a in db.attempts ==> db.attempts[a].run != run.id
    ensures Numbered(Added(db, run, key, digest))
  {
    hide SequencesOf, NumbersOf;
    var db' := Added(db, run, key, digest);
    forall c | c in db'.conversations
      ensures db'.conversations[c].nextSequence >= 1
      ensures SequencesOf(db'.runs, c) == Upto(db'.conversations[c].nextSequence - 1)
    {
      AddedSequences(db, run, key, digest, c);
    }
    NoAttemptsNoNumbers(db.attempts, run.id);
  }

  lemma AddedIsInOrder(db: Db, run: Run, key: Option<string>, digest: Digest)
    requires Numbered(db) && InOrder(db) && Fits(db, run, key)
    ensures InOrder(Added(db, run, key, digest))
  {
    if run.place.Some? {
      var c := run.place.value.conversation;
      forall r | r in db.runs && InConversation(db.runs[r], c)
        ensures db.runs[r].place.value.sequence < run.place.value.sequence
      {
        SequenceInUse(db, r);
      }
    }
    hide Numbered;
  }

  lemma AddedKeepsLeases(db: Db, run: Run, key: Option<string>, digest: Digest)
    requires LeasesOk(db) && Fits(db, run, key)
    ensures LeasesOk(Added(db, run, key, digest))
  {
  }

  lemma AddedKeepsTask(db: Db, run: Run, key: Option<string>, digest: Digest, lease: Lease, task: Task)
    requires Numbered(db) && Fits(db, run, key) && TaskOk(db, lease, task)
    ensures TaskOk(Added(db, run, key, digest), lease, task)
  {
    var db' := Added(db, run, key, digest);
    assert LeaseCurrent(db', lease) <==> LeaseCurrent(db, lease);
    if task.Selected? && lease.resource.ConversationResource? && LeaseCurrent(db, lease) {
      SequenceInUse(db, task.run);
      assert Clear(db', lease.resource.conversation, task.run);
    }
  }

  lemma AddedKeepsSubmissions(db: Db, submissions: seq<Submitted>, run: Run, key: Option<string>, digest: Digest)
    requires SubmissionsOk(db, submissions) && Fits(db, run, key)
    requires digest == DigestOf(run.request, ConversationOf(run))
    ensures SubmissionsOk(Added(db, run, key, digest),
                          submissions + (if key.None? then []
                                         else [Submitted(Key(run.request.tenant, key.value), digest, run.id, true)]))
  {
    var db' := Added(db, run, key, digest);
    forall k | k in db'.idempotency ensures PriorOk(db', k, db'.idempotency[k]) {
      assert k in db.idempotency ==> PriorOk(db, k, db.idempotency[k]);
    }
  }

  lemma AddedKeepsLedger(s: System, s': System, run: Run, key: Option<string>, digest: Digest)
    requires LedgerOk(s) && Fits(s.db, run, key)
    requires s'.db == Added(s.db, run, key, digest) && s'.credits == s.credits[run.id := 1]
    requires s'.approvals == s.approvals
    requires digest == DigestOf(run.request, ConversationOf(run))
    requires s'.submissions == s.submissions
             + (if key.None? then [] else [Submitted(Key(run.request.tenant, key.value), digest, run.id, true)])
    ensures LedgerOk(s')
  {
    hide SubmissionsOk;
    AddedKeepsSubmissions(s.db, s.submissions, run, key, digest);
  }

  lemma AddedBumps(db: Db, run: Run, key: Option<string>, digest: Digest)
    requires Fits(db, run, key)
    ensures Bumps(db, Added(db, run, key, digest))
  {
  }

  lemma {:induction false} AddedKeeps(s: System, s': System, run: Run, key: Option<string>, digest: Digest)
    requires Inv(s) && Fits(s.db, run, key) && digest == DigestOf(run.request, ConversationOf(run))
    requires s' == s.(db := Added(s.db, run, key, digest), credits := s.credits[run.id := 1],
                      submissions := s.submissions
                        + (if key.None? then []
                           else [Submitted(Key(run.request.tenant, key.value), digest, run.id, true)]))
    ensures Inv(Observe(s'))
  {
    hide RowsOk, InOrder, Numbered, LeasesOk, TaskOk, SeenOk, CreditsOk, ApprovalsOk, SubmissionsOk, Bumps, Fits;
    AddedKeepsRows(s.db, run, key, digest);
    NewRunHasNoRows(s.db, run.id) by { assert run.id !in s.db.runs by { FitsIsNew(s.db, run, key); } }
    AddedIsNumbered(s.db, run, key, digest);
    AddedIsInOrder(s.db, run, key, digest);
    AddedKeepsLeases(s.db, run, key, digest);
    forall lease | lease in s.tasks ensures TaskOk(s'.db, lease, s'.tasks[lease]) {
      AddedKeepsTask(s.db, run, key, digest, lease, s.tasks[lease]);
    }
    AddedKeepsLedger(s, s', run, key, digest);
    AddedBumps(s.db, run, key, digest);
    SeenStays(s, s');
  }

  lemma {:induction false} ReplayKeeps(s: System, key: Key, digest: Digest, run: RunId)
    requires Inv(s)
    requires key in s.db.idempotency && s.db.idempotency[key] == Prior(digest, run)
    ensures Inv(Observe(s.(submissions := s.submissions + [Submitted(key, digest, run, false)])))
  {
    hide RowsOk, InOrder, Numbered, LeasesOk, TasksOk;
    SeenStays(s, s.(submissions := s.submissions + [Submitted(key, digest, run, false)]));
  }

  lemma {:induction false} NoteKeeps(s: System, submission: Submission, run: Run, key: Option<string>, digest: Digest)
    requires Inv(s)
    requires digest == DigestOf(run.request, ConversationOf(run))
    requires submission.Created? ==>
               submission == Created(Added(s.db, run, key, digest), run) && Fits(s.db, run, key)
    requires submission.Replayed? && key.Some? ==>
               var k := Key(run.request.tenant, key.value);
               k in s.db.idempotency && s.db.idempotency[k] == Prior(digest, submission.run.id)
    ensures Inv(Observe(Note(s, submission, run.request, key, digest)))
  {
    hide Inv, Fits, Added;
    match submission
    case Refused(_) => IdleStep(s);
    case Replayed(found) =>
      if key.None? {
        IdleStep(s);
      } else {
        ReplayKeeps(s, Key(run.request.tenant, key.value), digest, found.id);
      }
    case Created(_, _) =>
      assert s.submissions + [] == s.submissions;
      AddedKeeps(s, Note(s, submission, run.request, key, digest), run, key, digest);
  }

  /** Both create transactions insert the Run or find the one that was. */
  lemma ConversationRunOutcome(db: Db, c: ConversationId, run: Run, key: Option<string>, digest: Digest)
    requires Keyed(db) && run == NewRun(run.id, run.request, DIRECT)
    ensures match CreateConversationRun(db, c, run, key, digest)
            case Refused(_) => true
            case Replayed(found) =>
              key.Some? && Key(run.request.tenant, key.value) in db.idempotency
              && db.idempotency[Key(run.request.tenant, key.value)] == Prior(digest, found.id)
            case Created(db', persisted) =>
              c in db.conversations
              && persisted == run.(place := Some(Place(c, db.conversations[c].nextSequence)))
              && Fits(db, persisted, key) && db' == Added(db, persisted, key, digest)
  {
  }

  lemma {:induction false} SubmitToConversationKeeps(s: System, c: ConversationId, id: RunId, request: Request,
                                                     key: Option<string>)
    requires Inv(s)
    ensures Inv(Observe(DoSubmitToConversation(s, c, id, request, key)))
  {
    hide RunsOk, AttemptsOk, ActionsOk, InOrder, Numbered, LeasesOk, TasksOk, SeenOk, LedgerOk;
    hide CreateConversationRun, Note, Added, Fits;
    var run, digest := NewRun(id, request, DIRECT), DigestOf(request, Some(c));
    ConversationRunOutcome(s.db, c, run, key, digest);
    var submission := CreateConversationRun(s.db, c, run, key, digest);
    var persisted := if submission.Created? then submission.run else run.(place := Some(Place(c, 0)));
    NoteKeeps(s, submission, persisted, key, digest);
  }

  lemma RunOutcome(db: Db, run: Run, key: Option<string>, digest: Digest)
    requires Keyed(db) && run.phase in {DIRECT, PLANNING} && run == NewRun(run.id, run.request, run.phase)
    ensures match CreateRun(db, run, key, digest)
            case Refused(_) => true
            case Replayed(found) =>
              key.Some? && Key(run.request.tenant, key.value) in db.idempotency
              && db.idempotency[Key(run.request.tenant, key.value)] == Prior(digest, found.id)
            case Created(db', persisted) =>
              persisted == run && Fits(db, run, key) && db' == Added(db, run, key, digest)
  {
  }

  lemma {:induction false} SubmitKeeps(s: System, id: RunId, request: Request, planReact: bool, key: Option<string>)
    requires Inv(s)
    ensures Inv(Observe(DoSubmit(s, id, request, planReact, key)))
  {
    hide RunsOk, AttemptsOk, ActionsOk, InOrder, Numbered, LeasesOk, TasksOk, SeenOk, LedgerOk;
    hide CreateRun, Note, Added, Fits;
    var run, digest := NewRun(id, request, if planReact then PLANNING else DIRECT), DigestOf(request, None);
    RunOutcome(s.db, run, key, digest);
    NoteKeeps(s, CreateRun(s.db, run, key, digest), run, key, digest);
  }
}
