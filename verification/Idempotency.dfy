/** What an idempotency key promises over whole histories, across both ways to submit. */
module Idempotency {
  import opened Records
  import opened Transactions
  import opened Protocol
  import opened Invariants
  import opened SubmitSteps
  import opened Changes
  import opened Histories

  /** The submission carries the key and is accepted as a new one. */
  predicate Creates(s: System, step: Step, key: Key) {
    && (step.Submit? || step.SubmitToConversation?)
    && step.key == Some(key.idempotencyKey) && step.request.tenant == key.tenant
    && Do(s, step).db != s.db
  }

  function CreatedRuns(steps: seq<Step>, key: Key): nat {
    if steps == [] then 0
    else
      var before := steps[..|steps| - 1];
      CreatedRuns(before, key) + (if Creates(After(before), steps[|steps| - 1], key) then 1 else 0)
  }

  /** An accepted submission takes its key, which nobody had; any other leaves all keys alone. */
  predicate KeysFollow(db: Db, db': Db, key: Key, uses: bool) {
    && (key in db.idempotency ==>
          key in db'.idempotency && db'.idempotency[key] == db.idempotency[key] && (uses ==> db' == db))
    && (key !in db.idempotency ==> (key in db'.idempotency <==> (uses && db' != db)))
  }

  lemma NoteKeys(s: System, submission: Submission, run: Run, key: Option<string>, digest: Digest, k: Key)
    requires submission.Created? ==> submission == Created(Added(s.db, run, key, digest), run) && Fits(s.db, run, key)
    ensures KeysFollow(s.db, Note(s, submission, run.request, key, digest).db, k,
                       key == Some(k.idempotencyKey) && run.request.tenant == k.tenant)
  {
  }

  lemma SubmissionKeys(s: System, step: Step, k: Key)
    requires step.Submit? || step.SubmitToConversation?
    requires Keyed(s.db)
    ensures KeysFollow(s.db, Perform(s, step).db, k,
                       step.key == Some(k.idempotencyKey) && step.request.tenant == k.tenant)
  {
    hide Keyed, CreateRun, CreateConversationRun, Note, Added, Fits, KeysFollow;
    match step
    case Submit(id, request, planReact, key) =>
      var run, digest := NewRun(id, request, if planReact then PLANNING else DIRECT), DigestOf(request, None);
      RunOutcome(s.db, run, key, digest);
      NoteKeys(s, CreateRun(s.db, run, key, digest), run, key, digest, k);
    case SubmitToConversation(c, id, request, key) =>
      var run, digest := NewRun(id, request, DIRECT), DigestOf(request, Some(c));
      ConversationRunOutcome(s.db, c, run, key, digest);
      var submission := CreateConversationRun(s.db, c, run, key, digest);
      NoteKeys(s, submission, if submission.Created? then submission.run else run, key, digest, k);
  }

  lemma {:induction false} OtherStepsKeepKeys(s: System, step: Step)
    requires Inv(s) && !step.Submit? && !step.SubmitToConversation?
    ensures Do(s, step).db.idempotency == s.db.idempotency
  {
    StepMoves(s, step);
    hide Inv, Do, RunsMove, AttemptsMove, ActionsMove, PlansMove, ConversationsMove;
  }

  lemma {:induction false} StepKeys(s: System, step: Step, key: Key)
    requires Inv(s)
    ensures var s' := Do(s, step);
            && (key in s.db.idempotency ==>
                  key in s'.db.idempotency && s'.db.idempotency[key] == s.db.idempotency[key] && !Creates(s, step, key))
            && (key !in s.db.idempotency ==> (key in s'.db.idempotency <==> Creates(s, step, key)))
  {
    if step.Submit? || step.SubmitToConversation? {
      assert Keyed(s.db) by { InvIsSeen(s); }
      SubmissionKeys(s, step, key);
      assert Do(s, step).db == Perform(s, step).db;
      hide Inv, Do, Perform;
    } else {
      OtherStepsKeepKeys(s, step);
      hide Inv, Do;
    }
  }

  /** Over any history at most one Run is created under a key, and exactly one once it is known. */
  lemma {:induction false} OneRunPerKey(steps: seq<Step>, key: Key)
    ensures CreatedRuns(steps, key) == if key in After(steps).db.idempotency then 1 else 0
  {
    if steps != [] {
      var before := steps[..|steps| - 1];
      OneRunPerKey(before, key);
      Reachable(before);
      StepKeys(After(before), steps[|steps| - 1], key);
    }
  }

  lemma {:induction false} KeysLast(steps: seq<Step>, more: seq<Step>, key: Key)
    requires key in After(steps).db.idempotency
    ensures key in After(steps + more).db.idempotency
    ensures After(steps + more).db.idempotency[key] == After(steps).db.idempotency[key]
    decreases |more|
  {
    if more == [] {
      assert steps + more == steps;
    } else {
      KeysLast(steps, more[..|more| - 1], key);
      Reachable(steps + more[..|more| - 1]);
      OneMore(steps, more);
      StepKeys(After(steps + more[..|more| - 1]), more[|more| - 1], key);
    }
  }

  /** The Run asks for what the caller asks for. */
  predicate Answers(run: Run, request: Request, conversation: Option<ConversationId>) {
    && run.request.tenant == request.tenant
    && run.request.principal == request.principal
    && run.request.fingerprint == request.fingerprint
    && run.request.input == request.input
    && run.request.metadata == request.metadata
    && ConversationOf(run) == conversation
  }

  lemma PriorAnswers(db: Db, key: Key, request: Request, conversation: Option<ConversationId>)
    requires key in db.idempotency && PriorOk(db, key, db.idempotency[key])
    requires key.tenant == request.tenant && db.idempotency[key].digest == DigestOf(request, conversation)
    ensures Answers(db.runs[db.idempotency[key].run], request, conversation)
  {
  }

  lemma {:induction false} PriorsAreOk(steps: seq<Step>, key: Key)
    requires key in After(steps).db.idempotency
    ensures PriorOk(After(steps).db, key, After(steps).db.idempotency[key])
  {
    Reachable(steps);
    hide After, SeenOk, RowsOk, InOrder, Numbered, LeasesOk, TasksOk, CreditsOk, ApprovalsOk, PriorOk;
  }

  /** A replay of a submission outside Conversations: it happens exactly when the digest is that
      of the first submission, it returns the caller's own Run and it changes nothing. */
  lemma {:induction false} ReplayReturnsTheRun(steps: seq<Step>, id: RunId, request: Request, planReact: bool,
                                               key: string)
    requires Key(request.tenant, key) in After(steps).db.idempotency
    ensures var s := After(steps);
            var prior := s.db.idempotency[Key(request.tenant, key)];
            var submission := CreateRun(s.db, NewRun(id, request, if planReact then PLANNING else DIRECT), Some(key),
                                        DigestOf(request, None));
            && DoSubmit(s, id, request, planReact, Some(key)).db == s.db
            && prior.run in s.db.runs
            && (submission.Replayed? <==> prior.digest == DigestOf(request, None))
            && (submission.Replayed? ==> submission.run == s.db.runs[prior.run]
                                         && Answers(submission.run, request, None))
            && (!submission.Replayed? ==> submission == Refused(IdempotencyConflict))
  {
    var k := Key(request.tenant, key);
    PriorsAreOk(steps, k);
    if After(steps).db.idempotency[k].digest == DigestOf(request, None) {
      PriorAnswers(After(steps).db, k, request, None);
    }
    hide After;
  }

  /** A replay inside a Conversation also needs the Conversation to be ACTIVE and the caller's:
      one that has been blocked since refuses even the submission it accepted before. */
  lemma {:induction false} ReplayInConversation(steps: seq<Step>, c: ConversationId, id: RunId, request: Request,
                                                key: string)
    requires Key(request.tenant, key) in After(steps).db.idempotency
    ensures var s := After(steps);
            var prior := s.db.idempotency[Key(request.tenant, key)];
            var submission := CreateConversationRun(s.db, c, NewRun(id, request, DIRECT), Some(key),
                                                    DigestOf(request, Some(c)));
            && DoSubmitToConversation(s, c, id, request, Some(key)).db == s.db
            && prior.run in s.db.runs
            && (submission.Replayed? <==>
                  && c in s.db.conversations && s.db.conversations[c].status.ACTIVE?
                  && s.db.conversations[c].tenant == request.tenant
                  && s.db.conversations[c].principal == request.principal
                  && s.db.conversations[c].agent == request.agent
                  && s.db.conversations[c].fingerprint == request.fingerprint
                  && prior.digest == DigestOf(request, Some(c)))
            && (submission.Replayed? ==> submission.run == s.db.runs[prior.run]
                                         && Answers(submission.run, request, Some(c)))
  {
    var k := Key(request.tenant, key);
    PriorsAreOk(steps, k);
    if After(steps).db.idempotency[k].digest == DigestOf(request, Some(c)) {
      PriorAnswers(After(steps).db, k, request, Some(c));
    }
    hide After;
  }
}
