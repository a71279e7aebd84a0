/** `PostgresControlStore`: its transactions statement by statement, with their rollback, their
    candidate and recovery loops, against the functions of module Transactions. */
module PostgresStore {
  import opened Records
  import opened Text
  import opened Transactions
  import opened Protocol
  import opened Invariants
  import opened Changes

  type EventId = int

  datatype Event = Event(run: RunId, sequence: nat)

  /** The sequences the events of a Run have used. */
  function EventNumbers(events: map<EventId, Event>, r: RunId): set<nat> {
    set e | e in events && events[e].run == r :: events[e].sequence
  }

  ghost predicate EventsNumbered(events: map<EventId, Event>, r: RunId, n: nat) {
    && EventNumbers(events, r) == Upto(n)
    && forall d, e :: d in events && e in events && d != e && events[d].run == r && events[e].run == r ==>
         events[d].sequence != events[e].sequence
  }

  /** The number `_append_event` takes. */
  ghost predicate NextNumber(events: map<EventId, Event>, r: RunId, n: nat) {
    && n >= 1 && (n == 1 || n - 1 in EventNumbers(events, r))
    && forall k :: k in EventNumbers(events, r) ==> k < n
  }

  /** What any call of the store does to the events: nothing, or it appends one. */
  ghost predicate Appends(events: map<EventId, Event>, events': map<EventId, Event>) {
    || events' == events
    || exists id, r, n: nat :: id !in events && NextNumber(events, r, n) && events' == events[id := Event(r, n)]
  }

  /** Over any sequence of calls, the events of each Run are numbered 1 to n, each once. */
  lemma {:induction false} EventsStayNumbered(log: seq<map<EventId, Event>>, r: RunId) returns (n: nat)
    requires log != [] && log[0] == map[]
    requires forall i :: 0 <= i < |log| - 1 ==> Appends(log[i], log[i + 1])
    ensures EventsNumbered(log[|log| - 1], r, n)
    decreases |log|
  {
    if |log| == 1 {
      n := 0;
    } else {
      var before, after := log[|log| - 2], log[|log| - 1];
      n := EventsStayNumbered(log[..|log| - 1], r);
      var last := |log| - 2;
      assert Appends(log[last], log[last + 1]);
      if after != before {
        var id, q, m: nat :| id !in before && NextNumber(before, q, m) && after == before[id := Event(q, m)];
        if q == r {
          LastNumber(before, r, n, m - 1);
          NumbersExtend(before, id, r, n);
          n := n + 1;
        } else {
          OtherNumbersStay(before, id, q, m, r);
        }
      }
    }
  }

  lemma OtherNumbersStay(events: map<EventId, Event>, id: EventId, q: RunId, m: nat, r: RunId)
    requires id !in events && q != r
    ensures EventNumbers(events[id := Event(q, m)], r) == EventNumbers(events, r)
  {
    var events' := events[id := Event(q, m)];
    forall k | k in EventNumbers(events, r) ensures k in EventNumbers(events', r) {
      var e :| e in events && events[e].run == r && events[e].sequence == k;
      assert e in events' && events'[e] == events[e];
    }
  }

  function AbandonedRuns(db: Db, now: Instant): set<RunId> {
    set r | r in db.runs && Abandoned(db, r, now)
  }

  function RunnableRuns(db: Db): set<RunId> {
    set r | r in db.runs && Runnable(db, r)
  }

  /** A SELECT ... FOR UPDATE SKIP LOCKED LIMIT: distinct rows, as many as there are or fit. */
  ghost predicate Selects(rows: seq<RunId>, eligible: set<RunId>, limit: nat) {
    && (forall i :: 0 <= i < |rows| ==> rows[i] in eligible)
    && (forall i, j :: 0 <= i < j < |rows| ==> rows[i] != rows[j])
    && |rows| == Min(limit, |eligible|)
  }

  function Settled(picks: seq<(Run, Attempt)>): (settled: seq<(Run, Attempt)>)
    ensures |settled| == |picks|
    ensures forall i :: 0 <= i < |picks| ==> settled[i] == (FailedRun(picks[i].0), InterruptedAttempt(picks[i].1))
  {
    if picks == [] then []
    else [(FailedRun(picks[0].0), InterruptedAttempt(picks[0].1))] + Settled(picks[1..])
  }

  /** Selecting as many distinct rows as there are selects them all. */
  lemma SelectedAll(rows: seq<RunId>, eligible: set<RunId>, limit: nat)
    requires Selects(rows, eligible, limit) && |eligible| <= limit
    ensures forall r :: r in eligible ==> r in rows
  {
    var chosen := set r | r in rows;
    DistinctRows(rows);
    assert chosen <= eligible;
    SubsetOfSameSize(chosen, eligible);
  }

  lemma {:induction false} DistinctRows(rows: seq<RunId>)
    requires forall i, j :: 0 <= i < j < |rows| ==> rows[i] != rows[j]
    ensures |set r | r in rows| == |rows|
  {
    if rows != [] {
      DistinctRows(rows[1..]);
      assert (set r | r in rows) == (set r | r in rows[1..]) + {rows[0]};
    }
  }

  lemma {:induction false} SubsetOfSameSize(small: set<RunId>, large: set<RunId>)
    requires small <= large && |small| >= |large|
    ensures small == large
  {
    if small == {} {
      assert |large| == 0;
    } else {
      NotEmpty(small);
      var r :| r in small;
      SubsetOfSameSize(small - {r}, large - {r});
    }
  }

  class PostgresControlStore {
    var conversations: map<ConversationId, Conversation>
    var runs: map<RunId, Run>
    var idempotency: map<Key, Prior>
    var attempts: map<AttemptId, Attempt>
    var actions: map<ActionId, Action>
    var plans: map<RunId, Plan>
    var leases: map<Resource, LeaseRow>
    var events: map<EventId, Event>

    function State(): Db
      reads this
    {
      Db(conversations, runs, idempotency, attempts, actions, plans, leases)
    }

    constructor ()
      ensures State() == EMPTY && events == map[]
    {
      conversations, runs, idempotency, attempts := map[], map[], map[], map[];
      actions, plans, leases, events := map[], map[], map[], map[];
    }

    /** The end of a transaction that raised an exception. */
    method Rollback(saved: Db)
      modifies this
      ensures State() == saved && events == old(events)
    {
      conversations, runs, idempotency, attempts := saved.conversations, saved.runs, saved.idempotency, saved.attempts;
      actions, plans, leases := saved.actions, saved.plans, saved.leases;
    }

    /** `outcome` is what the statement or transaction has done. */
    twostate predicate Done(outcome: Outcome, new error: Option<StoreError>)
      reads this
    {
      && State() == outcome.Final(old(State()))
      && events == old(events)
      && error == if outcome.Aborted? then Some(outcome.error) else None
    }

    // ----- Statements -----

    method AssertLease(lease: Option<Lease>, now: Instant) returns (error: Option<StoreError>)
      ensures error == match Transactions.AssertLease(State(), lease, now)
                       case Committed(_) => None
                       case Aborted(e) => Some(e)
    {
      if lease.None? {
        return None;
      }
      var resource := lease.value.resource;
      if resource in leases && leases[resource].worker == lease.value.worker
         && leases[resource].token == lease.value.token && leases[resource].expiresAt > now {
        return None;
      }
      return Some(LeaseLost);
    }

    method UpdateRun(run: Run, expected: nat) returns (error: Option<StoreError>)
      modifies this
      ensures Done(Transactions.UpdateRun(old(State()), run, expected), error)
    {
      if run.id !in runs || runs[run.id].revision != expected {
        return Some(RevisionConflict);
      }
      if run.place.Some? && (run.status.RUNNING? || run.status.WAITING?)
         && exists r :: r in runs && r != run.id && runs[r].place.Some?
                        && runs[r].place.value.conversation == run.place.value.conversation
                        && (runs[r].status.RUNNING? || runs[r].status.WAITING?) {
        return Some(UniqueViolation(RunsConversationActive));
      }
      if run.activeAttempt.Some? && run.activeAttempt.value !in attempts {
        return Some(ForeignKeyViolation);
      }
      runs := runs[run.id := run];
      return None;
    }

    method UpdateAttempt(attempt: Attempt, expected: nat) returns (error: Option<StoreError>)
      modifies this
      ensures Done(Transactions.UpdateAttempt(old(State()), attempt, expected), error)
    {
      if attempt.id !in attempts || attempts[attempt.id].revision != expected {
        return Some(RevisionConflict);
      }
      attempts := attempts[attempt.id := attempt];
      return None;
    }

    method UpdateRequiredAction(action: Action, expected: nat, status: ActionStatus) returns (error: Option<StoreError>)
      modifies this
      ensures Done(UpdateAction(old(State()), action, expected, status), error)
    {
      if action.id !in actions || actions[action.id].revision != expected || actions[action.id].status != status {
        return Some(RevisionConflict);
      }
      actions := actions[action.id := action];
      return None;
    }

    method UpdatePlan(plan: Plan, expected: nat) returns (error: Option<StoreError>)
      modifies this
      ensures Done(Transactions.UpdatePlan(old(State()), plan, expected), error)
    {
      if plan.run !in plans || plans[plan.run].id != plan.id || plans[plan.run].revision != expected {
        return Some(RevisionConflict);
      }
      plans := plans[plan.run := plan];
      return None;
    }

    method InsertRun(run: Run) returns (error: Option<StoreError>)
      modifies this
      ensures Done(Transactions.InsertRun(old(State()), run), error)
    {
      if run.id in runs {
        return Some(UniqueViolation(PrimaryKey));
      }
      if run.place.Some? && exists r :: r in runs && runs[r].place == run.place {
        return Some(UniqueViolation(RunsConversationSequence));
      }
      runs := runs[run.id := run];
      return None;
    }

    method InsertAttempt(attempt: Attempt) returns (error: Option<StoreError>)
      modifies this
      ensures Done(Transactions.InsertAttempt(old(State()), attempt), error)
    {
      if attempt.id in attempts {
        return Some(UniqueViolation(PrimaryKey));
      }
      if attempt.run !in runs {
        return Some(ForeignKeyViolation);
      }
      if exists a :: a in attempts && attempts[a].run == attempt.run && attempts[a].number == attempt.number {
        return Some(UniqueViolation(AttemptsRunNumber));
      }
      attempts := attempts[attempt.id := attempt];
      return None;
    }

    method InsertRequiredAction(action: Action) returns (error: Option<StoreError>)
      modifies this
      ensures Done(InsertAction(old(State()), action), error)
    {
      if action.id in actions {
        return Some(UniqueViolation(PrimaryKey));
      }
      if action.run !in runs || action.attempt !in attempts {
        return Some(ForeignKeyViolation);
      }
      if action.status.Pending?
         && exists x :: x in actions && actions[x].run == action.run && actions[x].status.Pending? {
        return Some(UniqueViolation(ActionsPendingRun));
      }
      actions := actions[action.id := action];
      return None;
    }

    method InsertPlan(plan: Plan) returns (error: Option<StoreError>)
      modifies this
      ensures Done(Transactions.InsertPlan(old(State()), plan), error)
    {
      if exists r :: r in plans && plans[r].id == plan.id {
        return Some(UniqueViolation(PrimaryKey));
      }
      if plan.run in plans {
        return Some(UniqueViolation(PlansRun));
      }
      plans := plans[plan.run := plan];
      return None;
    }

    // ----- Conversations and submissions -----

    method CreateConversation(conversation: Conversation) returns (error: Option<StoreError>)
      modifies this
      ensures Done(Transactions.CreateConversation(old(State()), conversation), error)
    {
      if conversation.id in conversations {
        return Some(UniqueViolation(PrimaryKey));
      }
      conversations := conversations[conversation.id := conversation];
      return None;
    }

    method ReplaceConversation(conversation: Conversation, expected: nat) returns (error: Option<StoreError>)
      modifies this
      ensures Done(Transactions.ReplaceConversation(old(State()), conversation, expected), error)
    {
      if conversation.revision != expected + 1 {
        return Some(InvalidArgument);
      }
      if conversation.id !in conversations || conversations[conversation.id].revision != expected {
        return Some(RevisionConflict);
      }
      conversations := conversations[conversation.id := conversation];
      return None;
    }

    method InsertIdempotency(run: Run, key: string, digest: Digest)
      modifies this
      ensures State() == RecordKey(old(State()), run, Some(key), digest) && events == old(events)
    {
      idempotency := idempotency[Key(run.request.tenant, key) := Prior(digest, run.id)];
    }

    /** The outcome of a submission as the caller sees it, and as the tables show it. */
    twostate predicate Submitted(submission: Submission, new result: Submission)
      reads this
    {
      && result == submission
      && State() == submission.Final(old(State()))
      && events == old(events)
    }

    method FindPrior(key: Key, digest: Digest) returns (found: Submission)
      requires key in idempotency
      ensures found == Transactions.FindPrior(State(), idempotency[key], digest)
    {
      var prior := idempotency[key];
      if prior.digest != digest {
        return Refused(IdempotencyConflict);
      }
      if prior.run !in runs {
        return Refused(NotFound);
      }
      return Replayed(runs[prior.run]);
    }

    method CreateConversationRun(c: ConversationId, run: Run, key: Option<string>, digest: Digest)
      returns (result: Submission)
      modifies this
      ensures Submitted(Transactions.CreateConversationRun(old(State()), c, run, key, digest), result)
    {
      if c !in conversations {
        return Refused(NotFound);
      }
      var conversation := conversations[c];
      if !conversation.status.ACTIVE? {
        return Refused(ConversationNotActive);
      }
      if run.request.tenant != conversation.tenant || run.request.principal != conversation.principal
         || run.request.agent != conversation.agent || run.request.fingerprint != conversation.fingerprint {
        return Refused(IdentityMismatch);
      }
      if key.Some? && Key(run.request.tenant, key.value) in idempotency {
        result := FindPrior(Key(run.request.tenant, key.value), digest);
        return;
      }
      if exists r :: r in runs && InConversation(runs[r], c) && runs[r].status.WAITING? {
        return Refused(PendingRequiredAction);
      }
      var saved := State();
      var persisted := run.(place := Some(Place(c, conversation.nextSequence)));
      conversations := conversations[c := conversation.(nextSequence := conversation.nextSequence + 1,
                                                        revision := conversation.revision + 1)];
      var error := InsertRun(persisted);
      if error.Some? {
        Rollback(saved);
        return Refused(error.value);
      }
      if key.Some? {
        InsertIdempotency(persisted, key.value, digest);
      }
      return Created(State(), persisted);
    }

    method CreateRun(run: Run, key: Option<string>, digest: Digest) returns (result: Submission)
      modifies this
      ensures Submitted(Transactions.CreateRun(old(State()), run, key, digest), result)
    {
      if key.Some? && Key(run.request.tenant, key.value) in idempotency {
        result := FindPrior(Key(run.request.tenant, key.value), digest);
        return;
      }
      var error := InsertRun(run);
      if error.Some? {
        return Refused(error.value);
      }
      if key.Some? {
        InsertIdempotency(run, key.value, digest);
      }
      return Created(State(), run);
    }

    // ----- Runs, Attempts and Actions -----

    method ReplaceRun(run: Run, expected: nat) returns (error: Option<StoreError>)
      modifies this
      ensures Done(Transactions.ReplaceRun(old(State()), run, expected), error)
    {
      if run.revision != expected + 1 {
        return Some(InvalidArgument);
      }
      error := UpdateRun(run, expected);
    }

    method BeginAttempt(run: Run, attempt: Attempt, expectedRun: nat, lease: Option<Lease>,
                        action: Option<(Action, nat)>, now: Instant) returns (error: Option<StoreError>)
      modifies this
      ensures Done(Transactions.BeginAttempt(old(State()), run, attempt, expectedRun, lease, action, now), error)
    {
      if run.revision != expectedRun + 1 || (action.Some? && action.value.0.revision != action.value.1 + 1) {
        return Some(InvalidArgument);
      }
      var saved := State();
      error := AssertLease(lease, now);
      if error.None? {
        error := InsertAttempt(attempt);
      }
      if error.None? {
        error := UpdateRun(run, expectedRun);
      }
      if error.None? && action.Some? {
        error := UpdateRequiredAction(action.value.0, action.value.1, Answered);
      }
      if error.Some? {
        Rollback(saved);
      }
    }

    method ReplaceAttempt(attempt: Attempt, expected: nat, lease: Option<Lease>, now: Instant)
      returns (error: Option<StoreError>)
      modifies this
      ensures Done(Transactions.ReplaceAttempt(old(State()), attempt, expected, lease, now), error)
    {
      if attempt.revision != expected + 1 {
        return Some(InvalidArgument);
      }
      error := AssertLease(lease, now);
      if error.None? {
        error := UpdateAttempt(attempt, expected);
      }
    }

    method SettleAttempt(run: Run, attempt: Attempt, expectedRun: nat, expectedAttempt: nat, lease: Option<Lease>,
                         action: Option<(Action, nat)>, now: Instant) returns (error: Option<StoreError>)
      modifies this
      ensures Done(Transactions.SettleAttempt(old(State()), run, attempt, expectedRun, expectedAttempt, lease, action,
                                              now), error)
    {
      if run.revision != expectedRun + 1 || attempt.revision != expectedAttempt + 1
         || (action.Some? && action.value.0.revision != action.value.1 + 1) {
        return Some(InvalidArgument);
      }
      var saved := State();
      error := AssertLease(lease, now);
      if error.None? {
        error := UpdateAttempt(attempt, expectedAttempt);
      }
      if error.None? {
        error := UpdateRun(run, expectedRun);
      }
      if error.None? && action.Some? {
        error := UpdateRequiredAction(action.value.0, action.value.1, Pending);
      }
      if error.Some? {
        Rollback(saved);
      }
    }

    method EnterRequiredAction(action: Action, lease: Option<Lease>, now: Instant) returns (error: Option<StoreError>)
      requires Keyed(State())
      modifies this
      ensures Done(Transactions.EnterRequiredAction(old(State()), action, lease, now), error)
    {
      if !action.status.Pending? {
        return Some(InvalidArgument);
      }
      error := AssertLease(lease, now);
      if error.Some? {
        return;
      }
      if action.run !in runs || action.attempt !in attempts {
        return Some(NotFound);
      }
      var run, attempt := runs[action.run], attempts[action.attempt];
      if !run.status.RUNNING? || run.activeAttempt != Some(attempt.id) || !attempt.status.AttemptRunning? {
        return Some(RevisionConflict);
      }
      if ConversationOf(run) != action.conversation {
        return Some(InvalidArgument);
      }
      var saved := State();
      var waitingRun := run.(status := WAITING, requiredAction := Some(action.id), revision := run.revision + 1);
      var waitingAttempt := attempt.(status := AttemptWaiting, dispatch := SETTLED, revision := attempt.revision + 1);
      assert waitingRun == WaitingRun(run, action.id) && waitingAttempt == WaitingAttempt(attempt);
      error := InsertRequiredAction(action);
      if error.None? {
        error := UpdateAttempt(waitingAttempt, attempt.revision);
      }
      if error.None? {
        error := UpdateRun(waitingRun, run.revision);
      }
      if error.Some? {
        Rollback(saved);
      }
    }

    method AnswerRequiredAction(run: Run, action: Action, expectedRun: nat, expectedAction: nat)
      returns (error: Option<StoreError>)
      modifies this
      ensures Done(Transactions.AnswerRequiredAction(old(State()), run, action, expectedRun, expectedAction), error)
    {
      if run.revision != expectedRun + 1 || action.revision != expectedAction + 1 {
        return Some(InvalidArgument);
      }
      var saved := State();
      error := UpdateRequiredAction(action, expectedAction, Pending);
      if error.None? {
        error := UpdateRun(run, expectedRun);
      }
      if error.Some? {
        Rollback(saved);
      }
    }

    method CompletePlanning(run: Run, attempt: Attempt, plan: Plan, action: Action, expectedRun: nat,
                            expectedAttempt: nat, lease: Option<Lease>, now: Instant)
      returns (error: Option<StoreError>)
      modifies this
      ensures Done(Transactions.CompletePlanning(old(State()), run, attempt, plan, action, expectedRun, expectedAttempt,
                                                 lease, now), error)
    {
      if run.revision != expectedRun + 1 || attempt.revision != expectedAttempt + 1
         || plan.run != run.id || attempt.run != run.id || action.run != run.id || action.attempt != attempt.id
         || !action.kind.PlanApproval? || !action.status.Pending? || run.requiredAction != Some(action.id) {
        return Some(InvalidArgument);
      }
      var saved := State();
      error := AssertLease(lease, now);
      if error.None? {
        error := UpdateAttempt(attempt, expectedAttempt);
      }
      if error.None? {
        error := UpdateRun(run, expectedRun);
      }
      if error.None? {
        error := InsertPlan(plan);
      }
      if error.None? {
        error := InsertRequiredAction(action);
      }
      if error.Some? {
        Rollback(saved);
      }
    }

    method DecidePlan(run: Run, plan: Plan, action: Action, expectedRun: nat, expectedPlan: nat, expectedAction: nat)
      returns (error: Option<StoreError>)
      modifies this
      ensures Done(Transactions.DecidePlan(old(State()), run, plan, action, expectedRun, expectedPlan, expectedAction),
                   error)
    {
      if run.revision != expectedRun + 1 || plan.revision != expectedPlan + 1 || action.revision != expectedAction + 1
         || plan.run != run.id || action.run != run.id || !action.kind.PlanApproval? {
        return Some(InvalidArgument);
      }
      var saved := State();
      error := UpdatePlan(plan, expectedPlan);
      if error.None? {
        error := UpdateRun(run, expectedRun);
      }
      if error.None? {
        error := UpdateRequiredAction(action, expectedAction, Pending);
      }
      if error.Some? {
        Rollback(saved);
      }
    }

    // ----- Leases -----

    /** The rows of the candidate SELECT that nobody else holds locked, at most `limit`. */
    method SelectRows(eligible: set<RunId>, limit: nat) returns (rows: seq<RunId>)
      ensures Selects(rows, eligible, limit)
    {
      rows := [];
      var rest := eligible;
      while rest != {} && |rows| < limit
        invariant rest <= eligible && |rows| <= limit && |rows| + |rest| == |eligible|
        invariant forall i :: 0 <= i < |rows| ==> rows[i] in eligible && rows[i] !in rest
        invariant forall i, j :: 0 <= i < j < |rows| ==> rows[i] != rows[j]
        decreases rest
      {
        assert exists r :: r in rest by { NotEmpty(rest); }
        var r :| r in rest;
        rows := rows + [r];
        rest := rest - {r};
      }
    }

    /** `INSERT ... ON CONFLICT DO UPDATE ... WHERE expires_at <= now RETURNING`. */
    method Upsert(resource: Resource, worker: string, seconds: int, now: Instant) returns (lease: Option<Lease>)
      modifies this
      ensures events == old(events)
      ensures if Claimable(old(State()), resource, now)
              then lease == Some(Grant(old(State()), resource, worker, now + seconds).1)
                   && State() == Grant(old(State()), resource, worker, now + seconds).0
              else lease.None? && State() == old(State())
    {
      if resource !in leases {
        leases := leases[resource := LeaseRow(worker, 1, now + seconds)];
        return Some(Lease(resource, worker, 1));
      }
      var row := leases[resource];
      if row.expiresAt > now {
        return None;
      }
      leases := leases[resource := LeaseRow(worker, row.token + 1, now + seconds)];
      return Some(Lease(resource, worker, row.token + 1));
    }

    /** The candidates of `claim_work`: QUEUED Runs that stand alone, or of an ACTIVE Conversation
        with no Run that is RUNNING or WAITING. */
    method Candidates() returns (candidates: set<RunId>)
      ensures candidates == RunnableRuns(State())
    {
      candidates := {};
      var rest := runs.Keys;
      while rest != {}
        invariant rest <= runs.Keys
        invariant candidates == set r | r in RunnableRuns(State()) && r !in rest
        decreases rest
      {
        assert exists r :: r in rest by { NotEmpty(rest); }
        var r :| r in rest;
        rest := rest - {r};
        var run := runs[r];
        if run.status.QUEUED? {
          if run.place.None? {
            candidates := candidates + {r};
          } else {
            var c := run.place.value.conversation;
            if c in conversations && conversations[c].status.ACTIVE?
               && !exists q :: q in runs && runs[q].place.Some? && runs[q].place.value.conversation == c
                               && (runs[q].status.RUNNING? || runs[q].status.WAITING?) {
              candidates := candidates + {r};
            }
          }
        }
      }
    }

    /** `claim_work`.  A worker goes away empty-handed only if the resource of every candidate is
        held, and of every runnable Run that is not locked unless there are more than 32. */
    method ClaimWork(locked: set<RunId>, worker: string, seconds: int, now: Instant)
      returns (result: Claim, candidates: seq<RunId>)
      modifies this
      ensures Selects(candidates, RunnableRuns(old(State())) - locked, 32)
      ensures result == Transactions.ClaimWork(old(State()), candidates, worker, seconds, now)
      ensures State() == if result.Granted? then result.db else old(State())
      ensures events == old(events)
      ensures result.NoWork? && |RunnableRuns(old(State())) - locked| <= 32 ==>
                forall r :: Runnable(old(State()), r) && r !in locked ==>
                  !Claimable(old(State()), ResourceOf(old(State()).runs[r]), now)
    {
      var db := State();
      var runnable := Candidates();
      candidates := SelectRows(runnable - locked, 32);
      if Blank(worker) || seconds <= 0 {
        return BadClaim, candidates;
      }
      var i := 0;
      while i < |candidates|
        invariant 0 <= i <= |candidates| && State() == db && events == old(events)
        invariant forall j :: 0 <= j < i ==> !Claimable(db, ResourceOf(db.runs[candidates[j]]), now)
        invariant FirstClaimable(db, candidates, now) >= i
      {
        FirstAfter(db, candidates, now, i);
        var lease := Upsert(ResourceOf(runs[candidates[i]]), worker, seconds, now);
        if lease.Some? {
          return Granted(State(), lease.value), candidates;
        }
        i := i + 1;
      }
      if |RunnableRuns(db) - locked| <= 32 {
        SelectedAll(candidates, RunnableRuns(db) - locked, 32);
        forall r | Runnable(db, r) && r !in locked ensures !Claimable(db, ResourceOf(db.runs[r]), now) {
          assert r in RunnableRuns(db) - locked;
          assert r in candidates;
        }
      }
      return NoWork, candidates;
    }

    method RenewWorkLease(lease: Lease, seconds: int, now: Instant) returns (renewed: bool)
      modifies this
      ensures State() == RenewLease(old(State()), lease, seconds, now) && events == old(events)
      ensures renewed <==> seconds > 0 && LeaseValid(old(State()), lease, now)
      ensures renewed ==> forall later :: later < now + seconds ==> LeaseValid(State(), lease, later)
    {
      if seconds <= 0 || lease.resource !in leases {
        return false;
      }
      var row := leases[lease.resource];
      if row.worker != lease.worker || row.token != lease.token || row.expiresAt <= now {
        return false;
      }
      leases := leases[lease.resource := row.(expiresAt := now + seconds)];
      return true;
    }

    method ReleaseWorkLease(lease: Lease, now: Instant) returns (released: bool)
      modifies this
      ensures State() == ReleaseLease(old(State()), lease, now) && events == old(events)
      ensures released <==> LeaseCurrent(old(State()), lease)
    {
      if lease.resource !in leases {
        return false;
      }
      var row := leases[lease.resource];
      if row.worker != lease.worker || row.token != lease.token {
        return false;
      }
      leases := leases[lease.resource := row.(expiresAt := now)];
      return true;
    }

    // ----- Recovery -----

    method InterruptOne(run: Run, attempt: Attempt, now: Instant) returns (error: Option<StoreError>)
      requires attempt.fence.Some?
      modifies this
      ensures events == old(events)
      ensures match Interrupt(old(State()), run, attempt, now)
              case Committed(db) => error.None? && State() == db
              case Aborted(e) => error == Some(e)
    {
      var interrupted := attempt.(status := AttemptInterrupted, dispatch := UNKNOWN, revision := attempt.revision + 1);
      error := UpdateAttempt(interrupted, attempt.revision);
      if error.Some? {
        return;
      }
      error := UpdateRun(run.(status := FAILED, revision := run.revision + 1), run.revision);
      if error.Some? {
        return;
      }
      var lease := Lease(ResourceOf(run), attempt.fence.value.worker, attempt.fence.value.token);
      if lease.resource in leases {
        var row := leases[lease.resource];
        if row.worker == lease.worker && row.token == lease.token {
          leases := leases[lease.resource := row.(expiresAt := Min(row.expiresAt, now))];
        }
      }
    }

    /** The join of the recovery SELECT: a RUNNING Run with a running Attempt under a lease of which
        there is no row, another worker's, one with another token, or one that has expired. */
    method AbandonedRows(now: Instant) returns (abandoned: set<RunId>)
      ensures abandoned == AbandonedRuns(State(), now)
    {
      abandoned := {};
      var rest := runs.Keys;
      while rest != {}
        invariant rest <= runs.Keys
        invariant abandoned == set r | r in AbandonedRuns(State(), now) && r !in rest
        decreases rest
      {
        assert exists r :: r in rest by { NotEmpty(rest); }
        var r :| r in rest;
        rest := rest - {r};
        var run := runs[r];
        if run.status.RUNNING? && run.activeAttempt.Some? && run.activeAttempt.value in attempts {
          var attempt := attempts[run.activeAttempt.value];
          var resource := if run.place.None? then RunResource(run.id)
                          else ConversationResource(run.place.value.conversation);
          if attempt.status.AttemptRunning? && attempt.fence.Some?
             && (resource !in leases
                 || leases[resource].worker != attempt.fence.value.worker
                 || leases[resource].token != attempt.fence.value.token
                 || leases[resource].expiresAt <= now) {
            abandoned := abandoned + {r};
          }
        }
      }
    }

    /** `interrupt_expired_attempts`: one pass takes as many unlocked abandoned Runs as there are
        or the limit allows, and it always commits. */
    method InterruptExpiredAttempts(limit: int, locked: set<RunId>, now: Instant)
      returns (error: Option<StoreError>, recovered: seq<(Run, Attempt)>, rows: seq<RunId>)
      requires RowsOk(State())
      modifies this
      ensures events == old(events) && RowsOk(State())
      ensures limit <= 0 ==> error == Some(InvalidArgument) && State() == old(State())
      ensures limit > 0 ==>
                && error.None?
                && Selects(rows, AbandonedRuns(old(State()), now) - locked, limit)
                && AllAbandoned(old(State()), rows, now)
                && Recovered(old(State()), State(), rows)
                && (forall i :: 0 <= i < |rows| ==>
                      && rows[i] in runs && runs[rows[i]].status.FAILED? && runs[rows[i]].activeAttempt.Some?
                      && runs[rows[i]].activeAttempt.value in attempts
                      && attempts[runs[rows[i]].activeAttempt.value].status.AttemptInterrupted?
                      && attempts[runs[rows[i]].activeAttempt.value].dispatch.UNKNOWN?)
                && |AbandonedRuns(State(), now)|
                   == |AbandonedRuns(old(State()), now)| - Min(limit, |AbandonedRuns(old(State()), now) - locked|)
                && recovered == Settled(Picks(old(State()), rows, now))
    {
      if limit <= 0 {
        return Some(InvalidArgument), [], [];
      }
      var saved := State();
      var abandoned := AbandonedRows(now);
      rows := SelectRows(abandoned - locked, limit);
      PassRecovers(saved, rows, now);
      error, recovered := InterruptRows(Picks(saved, rows, now), now);
      FewerAbandoned(saved, State(), rows, now);
      PassInterrupts(saved, State(), rows, now);
    }

    /** The loop over the selected rows.  An abort of one would roll back the transaction. */
    method InterruptRows(picks: seq<(Run, Attempt)>, now: Instant)
      returns (error: Option<StoreError>, recovered: seq<(Run, Attempt)>)
      requires forall i :: 0 <= i < |picks| ==> picks[i].1.fence.Some?
      requires InterruptAll(State(), picks, now).Committed?
      modifies this
      ensures Done(InterruptAll(old(State()), picks, now), error)
      ensures recovered == Settled(picks)
    {
      recovered, error := [], None;
      var i := 0;
      while i < |picks|
        invariant 0 <= i <= |picks| && error.None? && events == old(events)
        invariant InterruptAll(State(), picks[i..], now) == old(InterruptAll(State(), picks, now))
        invariant recovered == Settled(picks[..i])
      {
        assert picks[i..][0] == picks[i] && picks[i..][1..] == picks[i + 1..];
        error := InterruptOne(picks[i].0, picks[i].1, now);
        SettledMore(picks, i);
        recovered := recovered + [(FailedRun(picks[i].0), InterruptedAttempt(picks[i].1))];
        i := i + 1;
      }
      assert picks[..i] == picks;
    }

    // ----- Events -----

    /** `_append_event`: the next number of the Run, whatever numbers its events have. */
    method AppendEvent(id: EventId, run: RunId) returns (error: Option<StoreError>)
      modifies this`events
      ensures run !in runs ==> error == Some(NotFound) && events == old(events)
      ensures run in runs && id in old(events) ==> error == Some(UniqueViolation(PrimaryKey)) && events == old(events)
      ensures run in runs && id !in old(events) ==>
                && error.None?
                && exists n: nat :: NextNumber(old(events), run, n) && events == old(events)[id := Event(run, n)]
      ensures Appends(old(events), events)
      ensures run in runs && id !in old(events) ==>
                forall n: nat :: EventsNumbered(old(events), run, n) ==>
                  events == old(events)[id := Event(run, n + 1)] && EventsNumbered(events, run, n + 1)
    {
      if run !in runs {
        return Some(NotFound);
      }
      var last := 0;
      var rest := events.Keys;
      while rest != {}
        invariant rest <= events.Keys
        invariant forall e :: e in events && e !in rest && events[e].run == run ==> events[e].sequence <= last
        invariant last == 0 || last in EventNumbers(events, run)
        decreases rest
      {
        assert exists e :: e in rest by { NotEmpty(rest); }
        var e :| e in rest;
        if events[e].run == run && events[e].sequence > last {
          last := events[e].sequence;
        }
        rest := rest - {e};
      }
      if id in events {
        return Some(UniqueViolation(PrimaryKey));
      }
      forall n: nat | EventsNumbered(events, run, n)
        ensures n == last && EventsNumbered(events[id := Event(run, n + 1)], run, n + 1)
      {
        NumbersBelow(events, run, last);
        LastNumber(events, run, n, last);
        NumbersExtend(events, id, run, n);
      }
      NumbersBelow(events, run, last);
      events := events[id := Event(run, last + 1)];
      return None;
    }
  }

  lemma PassInterrupts(db: Db, db': Db, rows: seq<RunId>, now: Instant)
    requires RowsOk(db) && AllAbandoned(db, rows, now) && Recovered(db, db', rows)
    ensures forall i :: 0 <= i < |rows| ==>
              && rows[i] in db'.runs && db'.runs[rows[i]].status.FAILED? && db'.runs[rows[i]].activeAttempt.Some?
              && db'.runs[rows[i]].activeAttempt.value in db'.attempts
              && db'.attempts[db'.runs[rows[i]].activeAttempt.value].status.AttemptInterrupted?
              && db'.attempts[db'.runs[rows[i]].activeAttempt.value].dispatch.UNKNOWN?
  {
    forall i | 0 <= i < |rows|
      ensures rows[i] in db.runs && db.runs[rows[i]].activeAttempt.Some?
      ensures var a := db.runs[rows[i]].activeAttempt.value;
              a in db.attempts && db.attempts[a].run == rows[i]
    {
      assert Abandoned(db, rows[i], now);
      assert StatusOk(db, rows[i]);
    }
    hide RowsOk, AllAbandoned;
  }

  /** Each row of the pass is one abandoned Run fewer. */
  lemma FewerAbandoned(db: Db, db': Db, rows: seq<RunId>, now: Instant)
    requires RowsOk(db) && AllAbandoned(db, rows, now) && Recovered(db, db', rows)
    ensures |AbandonedRuns(db', now)| == |AbandonedRuns(db, now)| - |rows|
  {
    RecoveredLeavesTheRest(db, db', rows, now);
    hide RowsOk, Recovered;
    var chosen := set r | r in rows;
    DistinctRows(rows);
    forall i | 0 <= i < |rows| ensures rows[i] in AbandonedRuns(db, now) {
      assert Abandoned(db, rows[i], now);
    }
    hide Abandoned;
    assert chosen <= AbandonedRuns(db, now);
    assert AbandonedRuns(db', now) == AbandonedRuns(db, now) - chosen;
  }

  lemma FirstAfter(db: Db, candidates: seq<RunId>, now: Instant, i: nat)
    requires forall j :: 0 <= j < |candidates| ==> candidates[j] in db.runs
    requires i < |candidates| && FirstClaimable(db, candidates, now) >= i
    ensures if Claimable(db, ResourceOf(db.runs[candidates[i]]), now)
            then FirstClaimable(db, candidates, now) == i
            else FirstClaimable(db, candidates, now) >= i + 1
  {
  }

  lemma {:induction false} SettledMore(picks: seq<(Run, Attempt)>, i: nat)
    requires i < |picks|
    ensures Settled(picks[..i + 1]) == Settled(picks[..i]) + [(FailedRun(picks[i].0), InterruptedAttempt(picks[i].1))]
  {
  }

  lemma NumbersBelow(events: map<EventId, Event>, run: RunId, last: nat)
    requires forall e :: e in events && events[e].run == run ==> events[e].sequence <= last
    requires last == 0 || last in EventNumbers(events, run)
    ensures NextNumber(events, run, last + 1)
  {
  }

  lemma LastNumber(events: map<EventId, Event>, run: RunId, n: nat, last: nat)
    requires EventsNumbered(events, run, n) && NextNumber(events, run, last + 1)
    ensures n == last
  {
    if n > 0 {
      assert n in EventNumbers(events, run);
    }
  }

  lemma NumbersExtend(events: map<EventId, Event>, id: EventId, run: RunId, n: nat)
    requires EventsNumbered(events, run, n) && id !in events
    ensures EventsNumbered(events[id := Event(run, n + 1)], run, n + 1)
  {
    var events' := events[id := Event(run, n + 1)];
    forall k | k in Upto(n + 1) ensures k in EventNumbers(events', run) {
      if k == n + 1 {
        assert events'[id].run == run;
      } else {
        assert k in EventNumbers(events, run);
        var e :| e in events && events[e].run == run && events[e].sequence == k;
        assert e in events' && events'[e] == events[e];
      }
    }
    forall k | k in EventNumbers(events', run) ensures k in Upto(n + 1) {
      var e :| e in events' && events'[e].run == run && events'[e].sequence == k;
      if e != id {
        assert events[e].sequence in EventNumbers(events, run);
      }
    }
    forall d, e | d in events' && e in events' && d != e && events'[d].run == run && events'[e].run == run
      ensures events'[d].sequence != events'[e].sequence
    {
      assert d != id ==> events[d].sequence in EventNumbers(events, run);
      assert e != id ==> events[e].sequence in EventNumbers(events, run);
    }
  }
}
