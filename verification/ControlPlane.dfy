/** `ControlPlane`: the calls of users and workers, each of which has read its snapshots before it
    makes its one transaction.  Every method does to the store what its step of the protocol does
    to the database. */
module ControlPlane {
  import PlanCompiler
  import ConversationDrain
  import opened Records
  import opened Text
  import opened Transactions
  import opened Invariants
  import opened Protocol
  import opened PostgresStore

  datatype Answer =
    | Done(run: Run)
    | Unchanged(run: Run)
    | Forbidden
    | NotPossible
    | Failed(error: StoreError)

  /** The Run that `execute_leased_work` picks from a listing: none while one is RUNNING or
      WAITING, else the QUEUED one with the smallest sequence. */
  method NextQueued(runs: seq<Run>) returns (next: Option<Run>)
    requires forall i :: 0 <= i < |runs| ==> runs[i].place.Some?
    ensures next.None? <==> (exists i :: 0 <= i < |runs| && Occupying(runs[i].status))
                            || (forall i :: 0 <= i < |runs| ==> !runs[i].status.QUEUED?)
    ensures next.Some? ==>
              && next.value in runs && next.value.status.QUEUED?
              && forall i :: 0 <= i < |runs| && runs[i].status.QUEUED? ==>
                   next.value.place.value.sequence <= runs[i].place.value.sequence
  {
    next := None;
    for k := 0 to |runs|
      invariant forall i :: 0 <= i < k ==> !Occupying(runs[i].status)
      invariant next.None? ==> forall i :: 0 <= i < k ==> !runs[i].status.QUEUED?
      invariant next.Some? ==>
                  && next.value in runs[..k] && next.value.status.QUEUED?
                  && forall i :: 0 <= i < k && runs[i].status.QUEUED? ==>
                       next.value.place.value.sequence <= runs[i].place.value.sequence
    {
      if runs[k].status.RUNNING? || runs[k].status.WAITING? {
        return None;
      }
      if runs[k].status.QUEUED?
         && (next.None? || runs[k].place.value.sequence < next.value.place.value.sequence) {
        next := Some(runs[k]);
      }
    }
  }

  /** A complete listing of the Conversation makes the choice that the protocol asks for. */
  lemma ListedIsNextInLine(db: Db, c: ConversationId, runs: seq<Run>, next: Run)
    requires forall r :: r in db.runs ==> db.runs[r].id == r
    requires forall run :: run in runs <==> run.id in db.runs && db.runs[run.id] == run && InConversation(run, c)
    requires forall i :: 0 <= i < |runs| ==> !Occupying(runs[i].status)
    requires next in runs && next.status.QUEUED?
    requires forall i :: 0 <= i < |runs| && runs[i].status.QUEUED? ==>
               next.place.Some? && runs[i].place.Some? && next.place.value.sequence <= runs[i].place.value.sequence
    ensures NextInLine(db, c, next.id)
  {
    forall r | r in db.runs && InConversation(db.runs[r], c)
      ensures !Occupying(db.runs[r].status)
      ensures db.runs[r].status.QUEUED? ==> next.place.value.sequence <= db.runs[r].place.value.sequence
    {
      assert db.runs[r] in runs;
    }
  }

  lemma CancelReads(s: System, principal: Principal, run: Run, active: Option<Attempt>, action: Option<Action>,
                    plan: Option<Plan>)
    requires CanCancel(s, principal, run, active, action, plan)
    ensures if run.phase.WAITING_APPROVAL? then action.Some? && plan.Some? else run.activeAttempt.Some? ==> active.Some?
  {
  }

  /** From a complete listing without a choice, nobody is next. */
  lemma NobodyIsNext(db: Db, c: ConversationId, runs: seq<Run>)
    requires forall r :: r in db.runs ==> db.runs[r].id == r
    requires forall run :: run in runs <==> run.id in db.runs && db.runs[run.id] == run && InConversation(run, c)
    requires (exists i :: 0 <= i < |runs| && Occupying(runs[i].status))
             || (forall i :: 0 <= i < |runs| ==> !runs[i].status.QUEUED?)
    ensures forall r :: !NextInLine(db, c, r)
  {
    forall r ensures !NextInLine(db, c, r) {
      if i :| 0 <= i < |runs| && Occupying(runs[i].status) {
        assert runs[i] in runs;
        assert Busy(db, c);
      } else if r in db.runs && InConversation(db.runs[r], c) {
        assert db.runs[r] in runs;
      }
    }
  }

  lemma RefusedResume(s: System, principal: Principal, run: Run, action: Action, attempt: Attempt, answers: string)
    requires !CanResume(s, principal, run, action)
    ensures DoResume(s, principal, run, action, answers) == s
    ensures DoExpireAction(s, principal, run, action, attempt) == s
  {
  }

  // ----- The rows that transactions leave behind -----

  lemma ReplacedRow(db: Db, run: Run, expected: nat)
    requires ReplaceRun(db, run, expected).Committed?
    ensures run.id in ReplaceRun(db, run, expected).db.runs && ReplaceRun(db, run, expected).db.runs[run.id] == run
  {
  }

  lemma SettledRows(db: Db, run: Run, attempt: Attempt, expectedRun: nat, expectedAttempt: nat, lease: Option<Lease>,
                    action: Option<(Action, nat)>, now: Instant)
    requires SettleAttempt(db, run, attempt, expectedRun, expectedAttempt, lease, action, now).Committed?
    ensures var db' := SettleAttempt(db, run, attempt, expectedRun, expectedAttempt, lease, action, now).db;
            && run.id in db'.runs && db'.runs[run.id] == run
            && attempt.id in db'.attempts && db'.attempts[attempt.id] == attempt
            && (action.Some? ==> action.value.0.id in db'.actions && db'.actions[action.value.0.id] == action.value.0)
  {
  }

  lemma AnsweredRows(db: Db, run: Run, action: Action, expectedRun: nat, expectedAction: nat)
    requires AnswerRequiredAction(db, run, action, expectedRun, expectedAction).Committed?
    ensures var db' := AnswerRequiredAction(db, run, action, expectedRun, expectedAction).db;
            && run.id in db'.runs && db'.runs[run.id] == run
            && action.id in db'.actions && db'.actions[action.id] == action
  {
  }

  lemma DecidedRows(db: Db, run: Run, plan: Plan, action: Action, expectedRun: nat, expectedPlan: nat,
                    expectedAction: nat)
    requires DecidePlan(db, run, plan, action, expectedRun, expectedPlan, expectedAction).Committed?
    ensures var db' := DecidePlan(db, run, plan, action, expectedRun, expectedPlan, expectedAction).db;
            && run.id in db'.runs && db'.runs[run.id] == run
            && plan.run == run.id && run.id in db'.plans && db'.plans[run.id] == plan
            && action.id in db'.actions && db'.actions[action.id] == action
  {
  }

  lemma PlannedRows(db: Db, run: Run, attempt: Attempt, plan: Plan, action: Action, expectedRun: nat,
                    expectedAttempt: nat, lease: Lease, now: Instant)
    requires CompletePlanning(db, run, attempt, plan, action, expectedRun, expectedAttempt, Some(lease), now).Committed?
    ensures var db' := CompletePlanning(db, run, attempt, plan, action, expectedRun, expectedAttempt, Some(lease), now)
                       .db;
            && run.id in db'.runs && db'.runs[run.id] == run
            && attempt.id in db'.attempts && db'.attempts[attempt.id] == attempt
            && plan.run == run.id && run.id in db'.plans && db'.plans[run.id] == plan
            && action.id in db'.actions && db'.actions[action.id] == action
  {
  }

  lemma AskedRows(db: Db, action: Action, lease: Lease, now: Instant)
    requires Keyed(db) && EnterRequiredAction(db, action, Some(lease), now).Committed?
    ensures var db' := EnterRequiredAction(db, action, Some(lease), now).db;
            && action.run in db'.runs && db'.runs[action.run].status.WAITING?
            && db'.runs[action.run].requiredAction == Some(action.id)
            && action.attempt in db'.attempts && db'.attempts[action.attempt].status.AttemptWaiting?
            && action.id in db'.actions && db'.actions[action.id] == action
  {
  }

  /** What the registry knows of an agent. */
  datatype RegisteredAgent = RegisteredAgent(name: string, fingerprint: string, planReact: bool, allowsUserInput: bool)

  class ControlPlane {
    const store: PostgresControlStore

    constructor (store: PostgresControlStore)
      ensures this.store == store
    {
      this.store := store;
    }

    // ----- Submissions -----

    /** `create_conversation`: a new one is ACTIVE, without Runs, and belongs to its caller. */
    method CreateConversation(principal: Principal, agent: RegisteredAgent, id: ConversationId, ghost s: System)
      returns (error: Option<StoreError>)
      requires s.db == store.State()
      modifies store
      ensures forall status, sequence, revision ::
                var created := Conversation(id, principal.tenant, principal.id, agent.name, agent.fingerprint, status,
                                            sequence, revision);
                store.State() == Perform(s, OpenConversation(created)).db
      ensures error.Some? <==> id in old(store.conversations)
      ensures error.None? ==>
                store.conversations == old(store.conversations)[
                  id := Conversation(id, principal.tenant, principal.id, agent.name, agent.fingerprint, ACTIVE, 1, 1)]
    {
      var conversation := Conversation(id, principal.tenant, principal.id, agent.name, agent.fingerprint, ACTIVE, 1, 1);
      error := store.CreateConversation(conversation);
    }

    /** `submit`.  A Run for an agent with Plan-ReAct starts in PLANNING, any other in DIRECT. */
    method Submit(principal: Principal, agent: RegisteredAgent, input: string, metadata: string, key: Option<string>,
                  id: RunId, ghost s: System) returns (result: Option<Submission>)
      requires s.db == store.State()
      modifies store
      ensures result.None? <==> agent.allowsUserInput || Blank(input)
      ensures result.None? ==> store.State() == old(store.State())
      ensures result.Some? ==>
                var request := Request(principal.tenant, principal.id, agent.name, agent.fingerprint, input, metadata);
                store.State() == DoSubmit(s, id, request, agent.planReact, key).db
      ensures result.Some? && result.value.Created? ==>
                && id in store.runs && store.runs[id] == result.value.run
                && store.runs[id].status.QUEUED? && store.runs[id].place.None? && store.runs[id].attemptCount == 0
                && store.runs[id].request.input == input && store.runs[id].request.principal == principal.id
                && (if agent.planReact then store.runs[id].phase.PLANNING? else store.runs[id].phase.DIRECT?)
    {
      if agent.allowsUserInput {
        return None;
      }
      if Strip(input) == "" {
        return None;
      }
      var request := Request(principal.tenant, principal.id, agent.name, agent.fingerprint, input, metadata);
      var run := Run(id, None, request, if agent.planReact then PLANNING else DIRECT, QUEUED, 1, 0, None, None, None,
                     false);
      var digest := Digest(agent.fingerprint, None, input, metadata, principal.id);
      var submission := store.CreateRun(run, key, digest);
      return Some(submission);
    }

    /** `submit_to_conversation`, for the Conversation as it was read and its registered agent. */
    method SubmitToConversation(principal: Principal, conversation: Conversation, agent: RegisteredAgent, input: string,
                                metadata: string, key: Option<string>, id: RunId, ghost s: System)
      returns (result: Option<Submission>)
      requires s.db == store.State() && agent.name == conversation.agent
      modifies store
      ensures result.Some? <==>
                && principal == Principal(conversation.tenant, conversation.principal)
                && conversation.status.ACTIVE? && !Blank(input)
                && !agent.planReact && agent.fingerprint == conversation.fingerprint
      ensures result.None? ==> store.State() == old(store.State())
      ensures result.Some? ==>
                var request := Request(principal.tenant, principal.id, agent.name, agent.fingerprint, input, metadata);
                store.State() == DoSubmitToConversation(s, conversation.id, id, request, key).db
      ensures result.Some? && result.value.Created? ==>
                && conversation.id in old(store.conversations) && conversation.id in store.conversations
                && id in store.runs && store.runs[id] == result.value.run
                && store.runs[id].status.QUEUED? && store.runs[id].phase.DIRECT? && store.runs[id].attemptCount == 0
                && store.runs[id].place
                   == Some(Place(conversation.id, old(store.conversations)[conversation.id].nextSequence))
                && store.conversations[conversation.id].nextSequence
                   == old(store.conversations)[conversation.id].nextSequence + 1
    {
      if principal.tenant != conversation.tenant || principal.id != conversation.principal {
        return None;
      }
      if !conversation.status.ACTIVE? {
        return None;
      }
      if Strip(input) == "" {
        return None;
      }
      if agent.planReact || agent.fingerprint != conversation.fingerprint {
        return None;
      }
      var request := Request(principal.tenant, principal.id, agent.name, agent.fingerprint, input, metadata);
      var run := Run(id, None, request, DIRECT, QUEUED, 1, 0, None, None, None, false);
      var digest := Digest(agent.fingerprint, Some(conversation.id), input, metadata, principal.id);
      var submission := store.CreateConversationRun(conversation.id, run, key, digest);
      return Some(submission);
    }

    // ----- The owner's calls -----

    /** `cancel`.  `action` and `plan` are what the reads after the Run's found, if anything. */
    method Cancel(principal: Principal, run: Run, active: Option<Attempt>, action: Option<Action>, plan: Option<Plan>,
                  ghost s: System) returns (answer: Answer)
      requires s.db == store.State() && run in s.seen.runs
      requires if run.requiredAction.Some?
               then action.Some? && action.value in s.seen.actions && action.value.id == run.requiredAction.value
                    && (run, action.value) in s.seen.later
               else action.None?
      requires plan.Some? ==> plan.value in s.seen.plans && plan.value.run == run.id
      requires !run.phase.WAITING_APPROVAL? && run.activeAttempt.Some? ==>
                 active.Some? && active.value in s.seen.attempts && active.value.id == run.activeAttempt.value
      modifies store
      ensures store.State() == DoCancel(s, principal, run, active, action, plan).db
      ensures answer.Forbidden? <==> principal != Principal(run.request.tenant, run.request.principal)
      ensures answer.Unchanged? ==> answer.run == run && Terminal(run.status)
      ensures !answer.Done? ==> store.State() == old(store.State())
      ensures answer.Done? ==>
                && CanCancel(s, principal, run, active, action, plan)
                && run.id in store.runs && store.runs[run.id] == answer.run
                && answer.run.status.CANCELLED? && answer.run.cancelRequested && answer.run.requiredAction.None?
    {
      if run.request.tenant != principal.tenant || run.request.principal != principal.id {
        return Forbidden;
      }
      if run.status.SUCCEEDED? || run.status.FAILED? || run.status.CANCELLED? {
        return Unchanged(run);
      }
      if action.Some? && !action.value.status.Pending? {
        return NotPossible;
      }
      if run.phase.WAITING_APPROVAL? && (action.None? || plan.None?) {
        return NotPossible;
      }
      var active' := if run.phase.WAITING_APPROVAL? || action.Some? then None else run.activeAttempt;
      var cancelled := run.(status := CANCELLED, activeAttempt := active', requiredAction := None,
                            cancelRequested := true, revision := run.revision + 1);
      var error := CommitCancel(principal, run, cancelled, active, action, plan, s);
      return if error.Some? then Failed(error.value) else Done(cancelled);
    }

    /** The transaction of `cancel`: the Plan's decision, the Attempt's settlement, or the Run alone. */
    method CommitCancel(principal: Principal, run: Run, cancelled: Run, active: Option<Attempt>, action: Option<Action>,
                        plan: Option<Plan>, ghost s: System) returns (error: Option<StoreError>)
      requires s.db == store.State() && CanCancel(s, principal, run, active, action, plan)
      requires cancelled == CancelledRun(run)
      modifies store
      ensures var outcome := CancelOutcome(s, principal, run, active, action, plan);
              store.State() == outcome.Final(s.db) && (error.None? <==> outcome.Committed?)
      ensures error.None? ==> run.id in store.runs && store.runs[run.id] == cancelled
    {
      hide CanCancel, Transactions.DecidePlan, Transactions.SettleAttempt, Transactions.ReplaceRun;
      CancelReads(s, principal, run, active, action, plan);
      var settled: Option<(Action, nat)> := None;
      if action.Some? {
        var revision := action.value.revision;
        settled := Some((action.value.(status := ActionCancelled, revision := revision + 1), revision));
      }
      if run.phase.WAITING_APPROVAL? {
        var rejected := plan.value.(status := Rejected, decidedBy := Some(principal.id),
                                    revision := plan.value.revision + 1);
        assert rejected == DecidedPlan(plan.value, Rejected, principal);
        assert settled.value.0 == CancelledAction(action.value);
        error := store.DecidePlan(cancelled, rejected, settled.value.0, run.revision, plan.value.revision,
                                  settled.value.1);
        if error.None? {
          DecidedRows(s.db, cancelled, rejected, settled.value.0, run.revision, plan.value.revision, settled.value.1);
        }
      } else if run.activeAttempt.Some?
                && (active.value.status.AttemptRunning? || active.value.status.AttemptWaiting?) {
        var stopped := active.value.(status := AttemptCancelled, dispatch := SETTLED,
                                     revision := active.value.revision + 1);
        assert stopped == SettledAttempt(active.value, AttemptCancelled);
        error := store.SettleAttempt(cancelled, stopped, run.revision, active.value.revision, None, settled, 0);
        if error.None? {
          SettledRows(s.db, cancelled, stopped, run.revision, active.value.revision, None, settled, 0);
        }
      } else {
        error := store.ReplaceRun(cancelled, run.revision);
        if error.None? {
          ReplacedRow(s.db, cancelled, run.revision);
        }
      }
    }

    method Retry(principal: Principal, run: Run, ghost s: System) returns (answer: Answer)
      requires s.db == store.State() && run in s.seen.runs
      modifies store
      ensures store.State() == DoRetry(s, principal, run).db
      ensures answer.Forbidden? <==> principal != Principal(run.request.tenant, run.request.principal)
      ensures !answer.Done? ==> store.State() == old(store.State())
      ensures answer.Done? ==>
                && run.place.None? && (run.status.FAILED? || run.status.CANCELLED?) && !run.phase.WAITING_APPROVAL?
                && run.id in store.runs
                && store.runs[run.id] == run.(status := QUEUED, activeAttempt := None, cancelRequested := false,
                                              revision := run.revision + 1)
    {
      hide Transactions.ReplaceRun;
      if run.request.tenant != principal.tenant || run.request.principal != principal.id {
        return Forbidden;
      }
      if run.place.Some? || (!run.status.FAILED? && !run.status.CANCELLED?) || run.phase.WAITING_APPROVAL? {
        return NotPossible;
      }
      var queued := run.(status := QUEUED, revision := run.revision + 1, activeAttempt := None,
                         cancelRequested := false);
      assert queued == RetriedRun(run);
      var error := store.ReplaceRun(queued, run.revision);
      if error.Some? {
        return Failed(error.value);
      }
      ReplacedRow(s.db, queued, run.revision);
      return Done(queued);
    }

    /** The checks of `resume`, in its order. */
    method MayResume(principal: Principal, run: Run, action: Action) returns (refusal: Option<Answer>)
      requires action.kind.UserInput?
      ensures refusal.None? <==>
                && principal == Principal(run.request.tenant, run.request.principal)
                && principal == Principal(action.tenant, action.principal)
                && run.status.WAITING? && run.requiredAction == Some(action.id) && run.place.Some?
                && action.run == run.id && action.conversation == Some(run.place.value.conversation)
                && action.status.Pending?
      ensures refusal.Some? ==> refusal.value.Forbidden? || refusal.value.NotPossible?
    {
      if run.request.tenant != principal.tenant || run.request.principal != principal.id {
        return Some(Forbidden);
      }
      if !run.status.WAITING? || run.requiredAction != Some(action.id) || run.place.None? {
        return Some(NotPossible);
      }
      if action.run != run.id || action.conversation != Some(run.place.value.conversation) {
        return Some(NotPossible);
      }
      if action.tenant != principal.tenant || action.principal != principal.id {
        return Some(Forbidden);
      }
      if !action.status.Pending? {
        return Some(NotPossible);
      }
      return None;
    }

    /** `resume` with answers to a question; an expired question cancels the Run instead. */
    method Resume(principal: Principal, run: Run, action: Action, attempt: Attempt, answers: string, now: Instant,
                  ghost s: System) returns (answer: Answer)
      requires s.db == store.State()
      requires run in s.seen.runs && action in s.seen.actions && attempt in s.seen.attempts
      requires attempt.id == action.attempt && action.kind.UserInput?
      modifies store
      ensures store.State() == if action.expiresAt.Some? && action.expiresAt.value <= now
                               then DoExpireAction(s, principal, run, action, attempt).db
                               else DoResume(s, principal, run, action, answers).db
      ensures !answer.Done? ==> store.State() == old(store.State())
      ensures answer.Done? ==> CanResume(s, principal, run, action)
      ensures answer.Done? && !(action.expiresAt.Some? && action.expiresAt.value <= now) ==>
                && run.id in store.runs && action.id in store.actions
                && store.runs[run.id] == run.(status := QUEUED, revision := run.revision + 1, activeAttempt := None)
                && store.actions[action.id] == action.(status := Answered, response := Some(Answers(answers)),
                                                       revision := action.revision + 1)
      ensures answer.Done? && action.expiresAt.Some? && action.expiresAt.value <= now ==>
                && run.id in store.runs && action.id in store.actions && attempt.id in store.attempts
                && store.runs[run.id].status.CANCELLED? && store.actions[action.id].status.Expired?
                && store.attempts[attempt.id].status.AttemptCancelled?
    {
      var refusal := MayResume(principal, run, action);
      assert refusal.None? <==> CanResume(s, principal, run, action);
      hide CanResume, DoResume, DoExpireAction;
      if refusal.Some? {
        RefusedResume(s, principal, run, action, attempt, answers);
        answer := refusal.value;
      } else if action.expiresAt.Some? && action.expiresAt.value <= now {
        answer := ExpireQuestion(principal, run, action, attempt, s);
      } else {
        answer := AnswerQuestion(principal, run, action, answers, s);
      }
    }

    method ExpireQuestion(principal: Principal, run: Run, action: Action, attempt: Attempt, ghost s: System)
      returns (answer: Answer)
      requires s.db == store.State() && CanResume(s, principal, run, action)
      requires attempt in s.seen.attempts && attempt.id == action.attempt && action.expiresAt.Some?
      modifies store
      ensures store.State() == DoExpireAction(s, principal, run, action, attempt).db
      ensures !answer.Done? ==> store.State() == old(store.State())
      ensures answer.Done? ==>
                && run.id in store.runs && action.id in store.actions && attempt.id in store.attempts
                && store.runs[run.id].status.CANCELLED? && store.actions[action.id].status.Expired?
                && store.attempts[attempt.id].status.AttemptCancelled?
    {
      hide Transactions.SettleAttempt, CanResume, ExpiredRun, SettledAttempt, ExpiredAction;
      if run.activeAttempt != Some(action.attempt) {
        return NotPossible;
      }
      var error := CommitExpiry(run, action, attempt);
      return if error.Some? then Failed(error.value) else Done(store.runs[run.id]);
    }

    method AnswerQuestion(principal: Principal, run: Run, action: Action, answers: string, ghost s: System)
      returns (answer: Answer)
      requires s.db == store.State() && CanResume(s, principal, run, action)
      modifies store
      ensures store.State() == DoResume(s, principal, run, action, answers).db
      ensures !answer.Done? ==> store.State() == old(store.State())
      ensures answer.Done? ==>
                && run.id in store.runs && action.id in store.actions
                && store.runs[run.id] == run.(status := QUEUED, revision := run.revision + 1, activeAttempt := None)
                && store.actions[action.id] == action.(status := Answered, response := Some(Answers(answers)),
                                                       revision := action.revision + 1)
    {
      hide Transactions.AnswerRequiredAction, CanResume, ResumedRun, AnsweredAction;
      var error := CommitAnswer(run, action, answers);
      return if error.Some? then Failed(error.value) else Done(store.runs[run.id]);
    }

    method CommitAnswer(run: Run, action: Action, answers: string) returns (error: Option<StoreError>)
      modifies store
      ensures var outcome := Transactions.AnswerRequiredAction(old(store.State()), ResumedRun(run),
                                                               AnsweredAction(action, answers), run.revision,
                                                               action.revision);
              store.State() == outcome.Final(old(store.State())) && (error.None? <==> outcome.Committed?)
      ensures error.None? ==>
                && run.id in store.runs && action.id in store.actions
                && store.runs[run.id] == run.(status := QUEUED, revision := run.revision + 1, activeAttempt := None)
                && store.actions[action.id] == action.(status := Answered, response := Some(Answers(answers)),
                                                       revision := action.revision + 1)
    {
      hide Transactions.AnswerRequiredAction;
      var answered := action.(status := Answered, response := Some(Answers(answers)), revision := action.revision + 1);
      var queued := run.(status := QUEUED, revision := run.revision + 1, activeAttempt := None);
      ghost var before := store.State();
      error := store.AnswerRequiredAction(queued, answered, run.revision, action.revision);
      if error.None? {
        AnsweredRows(before, queued, answered, run.revision, action.revision);
      }
    }

    method CommitExpiry(run: Run, action: Action, attempt: Attempt) returns (error: Option<StoreError>)
      modifies store
      ensures var outcome := Transactions.SettleAttempt(old(store.State()), ExpiredRun(run),
                                                        SettledAttempt(attempt, AttemptCancelled), run.revision,
                                                        attempt.revision, None,
                                                        Some((ExpiredAction(action), action.revision)), 0);
              store.State() == outcome.Final(old(store.State())) && (error.None? <==> outcome.Committed?)
      ensures error.None? ==>
                && run.id in store.runs && action.id in store.actions && attempt.id in store.attempts
                && store.runs[run.id] == run.(status := CANCELLED, revision := run.revision + 1, activeAttempt := None,
                                              requiredAction := None)
                && store.actions[action.id] == action.(status := Expired, revision := action.revision + 1)
                && store.attempts[attempt.id] == attempt.(status := AttemptCancelled, dispatch := SETTLED,
                                                          revision := attempt.revision + 1)
    {
      hide Transactions.SettleAttempt;
      var cancelled := run.(status := CANCELLED, revision := run.revision + 1, activeAttempt := None,
                            requiredAction := None);
      var stopped := attempt.(status := AttemptCancelled, dispatch := SETTLED, revision := attempt.revision + 1);
      var expired := action.(status := Expired, revision := action.revision + 1);
      ghost var before := store.State();
      error := store.SettleAttempt(cancelled, stopped, run.revision, attempt.revision, None,
                                   Some((expired, action.revision)), 0);
      if error.None? {
        SettledRows(before, cancelled, stopped, run.revision, attempt.revision, None, Some((expired, action.revision)),
                    0);
      }
    }

    /** The checks of `_resolve_plan_action`, in its order. */
    method MayDecide(principal: Principal, run: Run, action: Action, plan: Plan, decision: Response, script: string,
                     digests: PlanCompiler.Digests) returns (refusal: Option<Answer>)
      requires decision.Decision?
      ensures refusal.None? <==>
                && principal == Principal(run.request.tenant, run.request.principal)
                && principal == Principal(action.tenant, action.principal)
                && run.status.WAITING? && run.phase.WAITING_APPROVAL? && run.requiredAction == Some(action.id)
                && action.run == run.id && run.activeAttempt == Some(action.attempt)
                && action.conversation == (if run.place.Some? then Some(run.place.value.conversation) else None)
                && action.kind.PlanApproval? && action.status.Pending? && plan.status.Proposed?
                && decision.ref == PlanRef(plan.id, plan.revision, plan.sha256)
                && action.payload == Proposal(decision.ref)
                && (decision.approve ==> PlanCompiler.Verify(plan, script, digests).Ok?)
      ensures refusal.Some? ==> refusal.value.Forbidden? || refusal.value.NotPossible?
    {
      hide PlanCompiler.Verify;
      if run.request.tenant != principal.tenant || run.request.principal != principal.id {
        return Some(Forbidden);
      }
      if !run.status.WAITING? || !run.phase.WAITING_APPROVAL? || run.requiredAction != Some(action.id) {
        return Some(NotPossible);
      }
      if action.run != run.id || run.activeAttempt != Some(action.attempt) {
        return Some(NotPossible);
      }
      if action.conversation != (if run.place.Some? then Some(run.place.value.conversation) else None) {
        return Some(NotPossible);
      }
      if action.tenant != principal.tenant || action.principal != principal.id {
        return Some(Forbidden);
      }
      if !action.kind.PlanApproval? || !action.status.Pending? || !plan.status.Proposed? {
        return Some(NotPossible);
      }
      if plan.id != decision.ref.plan || plan.revision != decision.ref.revision || plan.sha256 != decision.ref.sha256 {
        return Some(NotPossible);
      }
      if action.payload != Proposal(PlanRef(plan.id, plan.revision, plan.sha256)) {
        return Some(NotPossible);
      }
      if decision.approve && PlanCompiler.Verify(plan, script, digests).Err? {
        return Some(NotPossible);
      }
      return None;
    }

    /** `_resolve_plan_action`, in a program whose script is `script`.  An approval queues the Run to
        execute the Plan, a rejection ends it. */
    method ResolvePlanAction(principal: Principal, run: Run, action: Action, plan: Plan, decision: Response,
                             script: string, digests: PlanCompiler.Digests, ghost s: System) returns (answer: Answer)
      requires s.db == store.State() && decision.Decision?
      requires run in s.seen.runs && action in s.seen.actions && plan in s.seen.plans && plan.run == run.id
      modifies store
      ensures store.State() == DoDecide(s, principal, run, action, plan, decision, script, digests).db
      ensures !answer.Done? ==> store.State() == old(store.State())
      ensures answer.Done? ==> CanDecide(s, principal, run, action, plan, decision, script, digests)
      ensures answer.Done? ==>
                && run.id in store.runs && run.id in store.plans && action.id in store.actions
                && store.runs[run.id] == (if decision.approve
                                          then run.(status := QUEUED, phase := EXECUTING, cancelRequested := false,
                                                    activeAttempt := None, requiredAction := None,
                                                    revision := run.revision + 1)
                                          else run.(status := CANCELLED, cancelRequested := true, activeAttempt := None,
                                                    requiredAction := None, revision := run.revision + 1))
                && store.plans[run.id] == plan.(status := if decision.approve then Approved else Rejected,
                                                decidedBy := Some(principal.id), revision := plan.revision + 1)
                && store.actions[action.id] == action.(status := Consumed, response := Some(decision),
                                                       revision := action.revision + 1)
    {
      hide Transactions.DecidePlan, PlanCompiler.Verify, DecidedRun, DecidedPlan, ResolvedAction;
      var refusal := MayDecide(principal, run, action, plan, decision, script, digests);
      assert refusal.None? <==> CanDecide(s, principal, run, action, plan, decision, script, digests);
      hide CanDecide;
      if refusal.Some? {
        return refusal.value;
      }
      var error := CommitDecision(principal, run, action, plan, decision);
      return if error.Some? then Failed(error.value) else Done(store.runs[run.id]);
    }

    method CommitDecision(principal: Principal, run: Run, action: Action, plan: Plan, decision: Response)
      returns (error: Option<StoreError>)
      requires decision.Decision? && plan.run == run.id
      modifies store
      ensures var outcome := Transactions.DecidePlan(old(store.State()), DecidedRun(run, decision.approve),
                                                     DecidedPlan(plan, if decision.approve then Approved else Rejected,
                                                                 principal),
                                                     ResolvedAction(action, decision), run.revision, plan.revision,
                                                     action.revision);
              store.State() == outcome.Final(old(store.State())) && (error.None? <==> outcome.Committed?)
      ensures error.None? ==>
                && run.id in store.runs && run.id in store.plans && action.id in store.actions
                && store.runs[run.id] == (if decision.approve
                                          then run.(status := QUEUED, phase := EXECUTING, cancelRequested := false,
                                                    activeAttempt := None, requiredAction := None,
                                                    revision := run.revision + 1)
                                          else run.(status := CANCELLED, cancelRequested := true, activeAttempt := None,
                                                    requiredAction := None, revision := run.revision + 1))
                && store.plans[run.id] == plan.(status := if decision.approve then Approved else Rejected,
                                                decidedBy := Some(principal.id), revision := plan.revision + 1)
                && store.actions[action.id] == action.(status := Consumed, response := Some(decision),
                                                       revision := action.revision + 1)
    {
      hide Transactions.DecidePlan;
      var decided := plan.(status := if decision.approve then Approved else Rejected, revision := plan.revision + 1,
                           decidedBy := Some(principal.id));
      var resolved := action.(status := Consumed, response := Some(decision), revision := action.revision + 1);
      var decidedRun := run.(status := if decision.approve then QUEUED else CANCELLED,
                             phase := if decision.approve then EXECUTING else run.phase,
                             revision := run.revision + 1, activeAttempt := None, requiredAction := None,
                             cancelRequested := !decision.approve);
      ghost var before := store.State();
      error := store.DecidePlan(decidedRun, decided, resolved, run.revision, plan.revision, action.revision);
      if error.None? {
        DecidedRows(before, decidedRun, decided, resolved, run.revision, plan.revision, action.revision);
      }
    }

    /** `_block_conversation`: afterwards the Conversation that was read is BLOCKED, if it was ACTIVE. */
    method BlockConversation(conversation: Conversation, ghost s: System) returns (error: Option<StoreError>)
      requires s.db == store.State() && conversation in s.seen.conversations
      modifies store
      ensures store.State() == DoBlock(s, conversation).db
      ensures error.Some? || !conversation.status.ACTIVE? ==> store.State() == old(store.State())
      ensures error.None? && conversation.status.ACTIVE? ==>
                && conversation.id in store.conversations && store.conversations[conversation.id].status.BLOCKED?
                && store.conversations[conversation.id].nextSequence == conversation.nextSequence
    {
      if !conversation.status.ACTIVE? {
        return None;
      }
      var blocked := conversation.(status := BLOCKED, revision := conversation.revision + 1);
      error := store.ReplaceConversation(blocked, conversation.revision);
    }

    // ----- Workers -----

    /** The Run branch of `execute_leased_work`, from the Run as it is. */
    method PickRun(lease: Lease, run: Run, ghost s: System) returns (next: Option<RunId>)
      requires s.db == store.State() && run.id in s.db.runs && s.db.runs[run.id] == run
      requires lease in s.tasks && s.tasks[lease].Idle? && lease.resource == RunResource(run.id)
      ensures next.Some? ==>
                && next.value == run.id && run.status.QUEUED?
                && DoSelect(s, lease, None, run.id) == s.(tasks := s.tasks[lease := Selected(run.id)])
      ensures next.None? ==> forall r :: DoSelect(s, lease, None, r) == s
    {
      if !run.status.QUEUED? {
        return None;
      }
      return Some(run.id);
    }

    /** The Conversation branch of `execute_leased_work`, from the Conversation as it was read and a
        complete listing of its Runs. */
    method PickNext(lease: Lease, conversation: Conversation, runs: seq<Run>, ghost s: System)
      returns (next: Option<RunId>)
      requires s.db == store.State() && conversation in s.seen.conversations
      requires lease in s.tasks && s.tasks[lease].Idle? && lease.resource == ConversationResource(conversation.id)
      requires forall r :: r in s.db.runs ==> s.db.runs[r].id == r
      requires forall run :: run in runs <==>
                 && run.id in s.db.runs && s.db.runs[run.id] == run
                 && run.place.Some? && run.place.value.conversation == conversation.id
      ensures next.Some? ==>
                && conversation.status.ACTIVE?
                && DoSelect(s, lease, Some(conversation), next.value)
                   == s.(tasks := s.tasks[lease := Selected(next.value)])
      ensures next.None? ==> forall r :: DoSelect(s, lease, Some(conversation), r) == s
    {
      if !conversation.status.ACTIVE? {
        return None;
      }
      var run := NextQueued(runs);
      if run.None? {
        NobodyIsNext(s.db, conversation.id, runs);
        return None;
      }
      ListedIsNextInLine(s.db, conversation.id, runs, run.value);
      return Some(run.value.id);
    }

    /** The start of `_execute` and `_execute_conversation_run`.  `action` is what the read of the
        Run's RequiredAction found, for a Conversation Run that has one. */
    method BeginRun(lease: Lease, run: Run, attempt: AttemptId, action: Option<Action>, now: Instant, ghost s: System)
      returns (begun: Option<TurnInput>)
      requires s.db == store.State() && run in s.seen.runs
      requires lease in s.tasks && s.tasks[lease] == Selected(run.id)
      requires if run.place.Some? && run.requiredAction.Some?
               then action.Some? && action.value in s.seen.actions && action.value.id == run.requiredAction.value
               else action.None?
      modifies store
      ensures store.State() == DoBegin(s, lease, run, attempt, action, now).db
      ensures begun.Some? ==>
                DoBegin(s, lease, run, attempt, action, now).tasks
                == s.tasks[lease := Executing(run.id, attempt, run.phase, begun.value, false)]
      ensures begun.None? ==> DoBegin(s, lease, run, attempt, action, now) == s
    {
      hide Transactions.BeginAttempt;
      if !run.status.QUEUED? {
        return None;
      }
      var input := OriginalInput(run.request.input);
      var consumed: Option<(Action, nat)> := None;
      if action.Some? {
        if !action.value.status.Answered? || action.value.response.None? {
          return None;
        }
        input := ActionResponse(action.value.id, action.value.response.value);
        consumed := Some((action.value.(status := Consumed, revision := action.value.revision + 1,
                                        consumedBy := Some(attempt)), action.value.revision));
      }
      var started := Attempt(attempt, run.id, run.attemptCount + 1, run.phase, AttemptRunning, NOT_SENT,
                             Some(Fence(lease.worker, lease.token)), 1);
      var running := run.(status := RUNNING, revision := run.revision + 1, attemptCount := run.attemptCount + 1,
                          activeAttempt := Some(attempt),
                          requiredAction := if run.place.Some? then None else run.requiredAction);
      assert running == StartedRun(run, attempt) && started == StartedAttempt(run, attempt, lease);
      assert action.Some? ==> consumed == Some((ConsumedAction(action.value, attempt), action.value.revision));
      var error := store.BeginAttempt(running, started, run.revision, Some(lease), consumed, now);
      return if error.Some? then None else Some(input);
    }

    /** `request_user_input`: the Attempt and its Run wait for the answer. */
    method RequestUserInput(lease: Lease, run: Run, id: ActionId, questions: string, expiresAt: Instant, now: Instant,
                            ghost s: System) returns (error: Option<StoreError>)
      requires s.db == store.State() && Keyed(s.db)
      requires lease in s.tasks && s.tasks[lease].Executing? && !s.tasks[lease].asked
      requires lease.resource.ConversationResource? && s.tasks[lease].run in s.db.runs
      requires run.id == s.tasks[lease].run && run.place == s.db.runs[run.id].place
               && run.request == s.db.runs[run.id].request
      requires run.activeAttempt == Some(s.tasks[lease].attempt)
      modifies store
      ensures store.State() == DoAsk(s, lease, id, questions, expiresAt, now).db
      ensures error.Some? ==> store.State() == old(store.State())
      ensures error.None? ==>
                && run.id in store.runs && store.runs[run.id].status.WAITING?
                && store.runs[run.id].requiredAction == Some(id)
                && run.activeAttempt.value in store.attempts
                && store.attempts[run.activeAttempt.value].status.AttemptWaiting?
                && id in store.actions && store.actions[id].status.Pending? && store.actions[id].kind.UserInput?
                && store.actions[id].payload == Questions(questions) && store.actions[id].expiresAt == Some(expiresAt)
                && store.actions[id].tenant == run.request.tenant
                && store.actions[id].principal == run.request.principal
    {
      hide Transactions.EnterRequiredAction;
      var conversation := if run.place.Some? then Some(run.place.value.conversation) else None;
      var action := Action(id, run.id, run.activeAttempt.value, conversation, run.request.tenant, run.request.principal,
                           UserInput, Pending, Questions(questions), None, Some(expiresAt), None, 1);
      error := store.EnterRequiredAction(action, Some(lease), now);
      if error.None? {
        AskedRows(s.db, action, lease, now);
      }
    }

    /** `_settle_success` and `_settle_failure`. */
    method SettleRun(lease: Lease, run: Run, attempt: Attempt, success: bool, now: Instant, ghost s: System)
      returns (error: Option<StoreError>)
      requires s.db == store.State() && run in s.seen.runs && attempt in s.seen.attempts
      requires Reporting(s, lease, attempt.id) && !s.tasks[lease].asked && run.id == s.tasks[lease].run
      requires success ==> !s.tasks[lease].phase.PLANNING?
      modifies store
      ensures store.State() == DoSettle(s, lease, run, attempt, success, now).db
      ensures error.None? && !run.status.CANCELLED? ==>
                DoSettle(s, lease, run, attempt, success, now).tasks
                == (if lease.resource.ConversationResource? then s.tasks[lease := Idle] else s.tasks - {lease})
      ensures run.status.CANCELLED? || error.Some? ==> store.State() == old(store.State())
      ensures error.None? && !run.status.CANCELLED? ==>
                && run.id in store.runs && attempt.id in store.attempts && store.attempts[attempt.id].dispatch.SETTLED?
                && if success
                   then store.runs[run.id].status.SUCCEEDED? && store.runs[run.id].phase.COMPLETED?
                        && store.attempts[attempt.id].status.AttemptSucceeded?
                   else store.runs[run.id].status.FAILED? && store.runs[run.id].phase == run.phase
                        && store.attempts[attempt.id].status.AttemptFailed?
    {
      hide Transactions.SettleAttempt;
      if run.status.CANCELLED? {
        return None;
      }
      var settled := attempt.(status := if success then AttemptSucceeded else AttemptFailed, dispatch := SETTLED,
                              revision := attempt.revision + 1);
      var over := if success then run.(status := SUCCEEDED, phase := COMPLETED, revision := run.revision + 1)
                  else run.(status := FAILED, revision := run.revision + 1);
      assert over == if success then SucceededRun(run) else FailedRun(run);
      assert settled == SettledAttempt(attempt, if success then AttemptSucceeded else AttemptFailed);
      error := store.SettleAttempt(over, settled, run.revision, attempt.revision, Some(lease), None, now);
      if error.None? {
        SettledRows(s.db, over, settled, run.revision, attempt.revision, Some(lease), None, now);
      }
    }

    method SettlePlanning(lease: Lease, run: Run, attempt: Attempt, planId: PlanId, sha256: string,
                          content: PlanContent, actionId: ActionId, now: Instant, ghost s: System)
      returns (error: Option<StoreError>)
      requires s.db == store.State() && run in s.seen.runs && attempt in s.seen.attempts
      requires Reporting(s, lease, attempt.id) && !s.tasks[lease].asked && run.id == s.tasks[lease].run
      requires s.tasks[lease].phase.PLANNING?
      modifies store
      ensures store.State() == DoSettlePlanning(s, lease, run, attempt, planId, sha256, content, actionId, now).db
      ensures run.status.CANCELLED? || error.Some? ==> store.State() == old(store.State())
      ensures error.None? && !run.status.CANCELLED? ==>
                && run.id in store.runs
                && store.runs[run.id] == run.(status := WAITING, phase := WAITING_APPROVAL, plan := Some(planId),
                                              requiredAction := Some(actionId), revision := run.revision + 1)
                && run.id in store.plans
                && store.plans[run.id] == Plan(planId, run.id, Proposed, 1, sha256, None, content)
                && actionId in store.actions && store.actions[actionId].status.Pending?
                && store.actions[actionId].payload == Proposal(PlanRef(planId, 1, sha256))
                && attempt.id in store.attempts && store.attempts[attempt.id].status.AttemptSucceeded?
    {
      hide Transactions.CompletePlanning, ProposedRun, SettledAttempt, Approval;
      if run.status.CANCELLED? {
        return None;
      }
      error := CommitPlanning(lease, run, attempt, planId, sha256, content, actionId, now);
    }

    method CommitPlanning(lease: Lease, run: Run, attempt: Attempt, planId: PlanId, sha256: string,
                          content: PlanContent, actionId: ActionId, now: Instant) returns (error: Option<StoreError>)
      modifies store
      ensures var outcome := Transactions.CompletePlanning(old(store.State()), ProposedRun(run, planId, actionId),
                                                           SettledAttempt(attempt, AttemptSucceeded),
                                                           Plan(planId, run.id, Proposed, 1, sha256, None, content),
                                                           Approval(run, attempt.id, actionId, PlanRef(planId, 1, sha256)),
                                                           run.revision, attempt.revision, Some(lease), now);
              store.State() == outcome.Final(old(store.State())) && (error.None? <==> outcome.Committed?)
      ensures error.None? ==>
                && run.id in store.runs
                && store.runs[run.id] == run.(status := WAITING, phase := WAITING_APPROVAL, plan := Some(planId),
                                              requiredAction := Some(actionId), revision := run.revision + 1)
                && run.id in store.plans
                && store.plans[run.id] == Plan(planId, run.id, Proposed, 1, sha256, None, content)
                && actionId in store.actions && store.actions[actionId].status.Pending?
                && store.actions[actionId].payload == Proposal(PlanRef(planId, 1, sha256))
                && attempt.id in store.attempts && store.attempts[attempt.id].status.AttemptSucceeded?
    {
      hide Transactions.CompletePlanning;
      var conversation := if run.place.Some? then Some(run.place.value.conversation) else None;
      var settled := attempt.(status := AttemptSucceeded, dispatch := SETTLED, revision := attempt.revision + 1);
      var plan := Plan(planId, run.id, Proposed, 1, sha256, None, content);
      var action := Action(actionId, run.id, attempt.id, conversation, run.request.tenant, run.request.principal,
                           PlanApproval, Pending, Proposal(PlanRef(planId, 1, sha256)), None, None, None, 1);
      var waiting := run.(status := WAITING, phase := WAITING_APPROVAL, plan := Some(planId),
                          requiredAction := Some(actionId), revision := run.revision + 1);
      ghost var before := store.State();
      error := store.CompletePlanning(waiting, settled, plan, action, run.revision, attempt.revision, Some(lease), now);
      if error.None? {
        PlannedRows(before, waiting, settled, plan, action, run.revision, attempt.revision, lease, now);
      }
    }

    method SetDispatchState(lease: Lease, attempt: Attempt, state: DispatchState, now: Instant, ghost s: System)
      returns (error: Option<StoreError>)
      requires s.db == store.State() && attempt in s.seen.attempts && Reporting(s, lease, attempt.id)
      requires state == DISPATCHING || state == ACCEPTED
      modifies store
      ensures store.State() == DoSetDispatch(s, lease, attempt, state, now).db
      ensures error.Some? ==> store.State() == old(store.State())
      ensures error.None? && attempt.status.AttemptRunning? && attempt.dispatch != state ==>
                attempt.id in store.attempts && store.attempts[attempt.id].dispatch == state
    {
      if !attempt.status.AttemptRunning? || attempt.dispatch == state {
        return None;
      }
      error := store.ReplaceAttempt(attempt.(dispatch := state, revision := attempt.revision + 1), attempt.revision,
                                    Some(lease), now);
    }

    // ----- Restart of a single process -----

    /** `_recover_startup`: no Run that was RUNNING is dispatched again; every one of them fails
        and its Attempt is interrupted.  Every standalone QUEUED Run is scheduled, and every ACTIVE
        Conversation with a QUEUED Run once; a Conversation that is blocked is left alone. */
    method RecoverStartup(unsettled: seq<Run>, active: seq<Conversation>)
      returns (error: Option<StoreError>, scheduled: set<RunId>, drained: set<ConversationId>)
      requires LinkedRows(store.State())
      requires forall i :: 0 <= i < |unsettled| ==>
                 unsettled[i].id in store.runs && store.runs[unsettled[i].id] == unsettled[i]
      requires forall i, j :: 0 <= i < j < |unsettled| ==> unsettled[i].id != unsettled[j].id
      requires forall r :: r in store.runs ==>
                 (store.runs[r] in unsettled <==> store.runs[r].status.QUEUED? || store.runs[r].status.RUNNING?)
      requires forall c :: (exists i :: 0 <= i < |active| && active[i].id == c) <==>
                           c in store.conversations && store.conversations[c].status.ACTIVE?
      modifies store
      ensures error.None?
      ensures store.runs.Keys == old(store.runs).Keys
      ensures forall r :: r in old(store.runs) ==>
                store.runs[r] == if old(store.runs)[r].status.RUNNING? then FailedRun(old(store.runs)[r])
                                 else old(store.runs)[r]
      ensures store.attempts.Keys == old(store.attempts).Keys
      ensures forall a :: a in old(store.attempts) ==>
                var r := old(store.attempts)[a].run;
                store.attempts[a] ==
                  if r in old(store.runs) && old(store.runs)[r].status.RUNNING?
                     && old(store.runs)[r].activeAttempt == Some(a)
                  then InterruptedAttempt(old(store.attempts)[a]) else old(store.attempts)[a]
      ensures store.conversations == old(store.conversations)
      ensures forall r :: r in scheduled <==>
                            r in store.runs && store.runs[r].status.QUEUED? && store.runs[r].place.None?
      ensures forall c :: c in drained <==>
                            && c in store.conversations && store.conversations[c].status.ACTIVE?
                            && HasQueued(store.State(), c)
    {
      hide Restarted;
      ghost var before := store.State();
      NothingRestarted(before);
      error, scheduled := None, {};
      for k := 0 to |unsettled|
        invariant error.None?
        invariant Restarted(before, store.State(), unsettled[..k])
        invariant forall r :: r in scheduled <==>
                                exists i :: 0 <= i < k && unsettled[i].id == r && Schedulable(unsettled[i])
      {
        var run := unsettled[k];
        assert unsettled[..k + 1] == unsettled[..k] + [run];
        if run.status.QUEUED? && run.place.None? {
          scheduled := scheduled + {run.id};
        }
        error := RestartOne(run, before, unsettled[..k]);
      }
      assert unsettled[..|unsettled|] == unsettled;
      AllRestarted(before, store.State(), unsettled);
      QueuedAreListed(before, unsettled);
      drained := Drained(active);
    }

    /** The second loop: one call for each listed Conversation that has a QUEUED Run. */
    method Drained(active: seq<Conversation>) returns (drained: set<ConversationId>)
      ensures forall c :: c in drained <==>
                (exists i :: 0 <= i < |active| && active[i].id == c) && HasQueued(store.State(), c)
    {
      drained := {};
      for k := 0 to |active|
        invariant forall c :: c in drained <==>
                    (exists i :: 0 <= i < k && active[i].id == c) && HasQueued(store.State(), c)
      {
        if HasQueued(store.State(), active[k].id) {
          drained := drained + {active[k].id};
        }
      }
    }

    method RestartOne(run: Run, ghost before: Db, ghost done: seq<Run>) returns (error: Option<StoreError>)
      requires LinkedRows(before) && Restarted(before, store.State(), done)
      requires run.id in before.runs && before.runs[run.id] == run && run !in done
      requires run.status.QUEUED? || run.status.RUNNING?
      modifies store
      ensures error.None? && Restarted(before, store.State(), done + [run])
    {
      StillThere(before, store.State(), done, run);
      OneMoreRunRestarted(before, done, run);
      OneMoreAttemptRestarted(before, done, run);
      hide RestartedRuns, RestartedAttempts, LinkedRows;
      if run.status.QUEUED? {
        return None;
      }
      if run.activeAttempt.None? {
        error := store.ReplaceRun(run.(status := FAILED, revision := run.revision + 1), run.revision);
      } else {
        var attempt := store.attempts[run.activeAttempt.value];
        var interrupted := attempt.(status := AttemptInterrupted, dispatch := UNKNOWN,
                                    revision := attempt.revision + 1);
        error := store.SettleAttempt(run.(status := FAILED, revision := run.revision + 1), interrupted, run.revision,
                                     attempt.revision, None, None, 0);
      }
    }
  }

  predicate Schedulable(run: Run) {
    run.status.QUEUED? && run.place.None?
  }

  predicate HasQueued(db: Db, c: ConversationId) {
    exists r :: r in db.runs && InConversation(db.runs[r], c) && db.runs[r].status.QUEUED?
  }

  lemma QueuedAreListed(before: Db, unsettled: seq<Run>)
    requires forall i :: 0 <= i < |unsettled| ==>
               unsettled[i].id in before.runs && before.runs[unsettled[i].id] == unsettled[i]
    requires forall r :: r in before.runs ==>
               before.runs[r].id == r
               && (before.runs[r] in unsettled <==> before.runs[r].status.QUEUED? || before.runs[r].status.RUNNING?)
    ensures forall r :: (exists i :: 0 <= i < |unsettled| && unsettled[i].id == r && Schedulable(unsettled[i]))
                        <==> r in before.runs && Schedulable(before.runs[r])
  {
    forall r | r in before.runs && Schedulable(before.runs[r])
      ensures exists i :: 0 <= i < |unsettled| && unsettled[i].id == r && Schedulable(unsettled[i])
    {
      assert before.runs[r] in unsettled;
    }
  }

  /** The drain of a Conversation as a restarted process finds it. */
  ghost function DrainAt(db: Db, c: ConversationId, drained: set<ConversationId>): ConversationDrain.Drain {
    var queued := set r | r in db.runs && InConversation(db.runs[r], c) && db.runs[r].status.QUEUED?;
    var occupying := set r | r in db.runs && InConversation(db.runs[r], c) && Occupying(db.runs[r].status);
    ConversationDrain.Drain(
      c in db.conversations && db.conversations[c].status.ACTIVE?, queued, occupying, None, map[],
      if c in drained then map[0 := queued] else map[])
  }

  /** The calls of the startup are what the drains need to start with. */
  lemma StartupStartsDrains(db: Db, c: ConversationId, drained: set<ConversationId>)
    requires c in db.conversations && db.conversations[c].status.ACTIVE? && HasQueued(db, c) ==> c in drained
    requires |DrainAt(db, c, drained).occupying| <= 1
    ensures ConversationDrain.Start(DrainAt(db, c, drained))
  {
    var d := DrainAt(db, c, drained);
    forall run | d.active && run in d.queued ensures ConversationDrain.BeingScheduled(d, run) {
      assert HasQueued(db, c);
      assert run in d.calls[0];
    }
  }

  /** The RUNNING Runs among `done` have failed and their active Attempts are interrupted. */
  ghost predicate Restarted(before: Db, after: Db, done: seq<Run>) {
    && after == before.(runs := after.runs, attempts := after.attempts)
    && after.runs == RestartedRuns(before.runs, done)
    && after.attempts == RestartedAttempts(before, done)
  }

  ghost function RestartedRuns(runs: map<RunId, Run>, done: seq<Run>): map<RunId, Run> {
    map r | r in runs :: if runs[r] in done && runs[r].status.RUNNING? then FailedRun(runs[r]) else runs[r]
  }

  ghost predicate Lost(db: Db, a: AttemptId, done: seq<Run>)
    requires a in db.attempts
  {
    var r := db.attempts[a].run;
    r in db.runs && db.runs[r] in done && db.runs[r].status.RUNNING? && db.runs[r].activeAttempt == Some(a)
  }

  ghost function RestartedAttempts(db: Db, done: seq<Run>): map<AttemptId, Attempt> {
    map a | a in db.attempts :: if Lost(db, a, done) then InterruptedAttempt(db.attempts[a]) else db.attempts[a]
  }

  ghost predicate LinkedRows(db: Db) {
    && (forall r :: r in db.runs ==> db.runs[r].id == r)
    && (forall a :: a in db.attempts ==> db.attempts[a].id == a)
    && (forall r :: r in db.runs && db.runs[r].activeAttempt.Some? ==>
          db.runs[r].activeAttempt.value in db.attempts && db.attempts[db.runs[r].activeAttempt.value].run == r)
  }

  /** A Run that has not had its turn, and its active Attempt, are as they were. */
  lemma StillThere(before: Db, after: Db, done: seq<Run>, run: Run)
    requires LinkedRows(before) && Restarted(before, after, done)
    requires run.id in before.runs && before.runs[run.id] == run && run !in done
    ensures run.id in after.runs && after.runs[run.id] == run
    ensures run.activeAttempt.Some? ==>
              var a := run.activeAttempt.value;
              a in after.attempts && a in before.attempts && after.attempts[a] == before.attempts[a]
              && after.attempts[a].id == a && after.attempts[a].run == run.id
  {
  }

  lemma NothingRestarted(before: Db)
    ensures Restarted(before, before, [])
  {
  }

  lemma OneMoreRunRestarted(before: Db, done: seq<Run>, run: Run)
    requires LinkedRows(before) && run.id in before.runs && before.runs[run.id] == run
    ensures RestartedRuns(before.runs, done + [run])
         == if run.status.RUNNING? then RestartedRuns(before.runs, done)[run.id := FailedRun(run)]
            else RestartedRuns(before.runs, done)
  {
    forall r | r in before.runs ensures before.runs[r] in done + [run] <==> before.runs[r] in done || r == run.id {
    }
  }

  lemma OneMoreLost(before: Db, done: seq<Run>, run: Run, a: AttemptId)
    requires LinkedRows(before) && run.id in before.runs && before.runs[run.id] == run && a in before.attempts
    ensures Lost(before, a, done + [run])
            <==> Lost(before, a, done) || (run.status.RUNNING? && run.activeAttempt == Some(a))
  {
    var r := before.attempts[a].run;
    if r in before.runs {
      assert before.runs[r] in done + [run] <==> before.runs[r] in done || r == run.id;
    }
  }

  lemma OneMoreAttemptRestarted(before: Db, done: seq<Run>, run: Run)
    requires LinkedRows(before) && run.id in before.runs && before.runs[run.id] == run
    ensures RestartedAttempts(before, done + [run])
         == if run.status.RUNNING? && run.activeAttempt.Some?
            then RestartedAttempts(before, done)[run.activeAttempt.value :=
                                                 InterruptedAttempt(before.attempts[run.activeAttempt.value])]
            else RestartedAttempts(before, done)
  {
    hide Lost;
    assert run.activeAttempt.Some? ==> run.activeAttempt.value in before.attempts;
    forall a | a in before.attempts
      ensures Lost(before, a, done + [run])
              <==> Lost(before, a, done) || (run.status.RUNNING? && run.activeAttempt == Some(a))
    {
      OneMoreLost(before, done, run, a);
    }
  }

  lemma AllRestarted(before: Db, after: Db, unsettled: seq<Run>)
    requires LinkedRows(before) && Restarted(before, after, unsettled)
    requires forall r :: r in before.runs ==>
               (before.runs[r] in unsettled <==> before.runs[r].status.QUEUED? || before.runs[r].status.RUNNING?)
    ensures after.runs.Keys == before.runs.Keys && after.attempts.Keys == before.attempts.Keys
    ensures after.conversations == before.conversations
    ensures forall r :: r in before.runs ==>
              after.runs[r] == if before.runs[r].status.RUNNING? then FailedRun(before.runs[r]) else before.runs[r]
    ensures forall a :: a in before.attempts ==>
              var r := before.attempts[a].run;
              after.attempts[a] ==
                if r in before.runs && before.runs[r].status.RUNNING? && before.runs[r].activeAttempt == Some(a)
                then InterruptedAttempt(before.attempts[a]) else before.attempts[a]
  {
  }
}
