/** What the steps have in common: which parts of the invariant survive a write because of
    what the write leaves alone. */
module Edges {
  import opened Records
  import opened Transactions
  import opened Protocol
  import opened Invariants

  ghost predicate RunsBump(runs: map<RunId, Run>, runs': map<RunId, Run>) {
    forall r :: r in runs ==> r in runs' && (runs'[r] == runs[r] || runs'[r].revision > runs[r].revision)
  }

  ghost predicate AttemptsBump(attempts: map<AttemptId, Attempt>, attempts': map<AttemptId, Attempt>) {
    forall a :: a in attempts ==>
      && a in attempts'
      && (attempts'[a] == attempts[a] || attempts'[a].revision > attempts[a].revision)
      && (AttemptTerminal(attempts[a].status) ==> AttemptTerminal(attempts'[a].status))
  }

  ghost predicate ActionsBump(actions: map<ActionId, Action>, actions': map<ActionId, Action>) {
    forall x :: x in actions ==>
      && x in actions'
      && (actions'[x] == actions[x] || actions'[x].revision > actions[x].revision)
      && (!actions[x].status.Pending? ==> !actions'[x].status.Pending?)
  }

  ghost predicate PlansBump(plans: map<RunId, Plan>, plans': map<RunId, Plan>) {
    forall r :: r in plans ==>
      && r in plans'
      && plans'[r].id == plans[r].id
      && (plans'[r] == plans[r] || plans'[r].revision > plans[r].revision)
  }

  ghost predicate ConversationsBump(conversations: map<ConversationId, Conversation>,
                                    conversations': map<ConversationId, Conversation>)
  {
    forall c :: c in conversations ==>
      && c in conversations'
      && (conversations'[c] == conversations[c] || conversations'[c].revision > conversations[c].revision)
  }

  /** Rows are never deleted, and the revision of a row that changes grows. */
  ghost predicate Bumps(db: Db, db': Db) {
    && RunsBump(db.runs, db'.runs)
    && AttemptsBump(db.attempts, db'.attempts)
    && ActionsBump(db.actions, db'.actions)
    && PlansBump(db.plans, db'.plans)
    && ConversationsBump(db.conversations, db'.conversations)
  }

  lemma SeenRunStays(db: Db, db': Db, x: Run)
    requires RunFresh(db, x) && QuestionOver(db, x) && Bumps(db, db')
    ensures RunFresh(db', x) && QuestionOver(db', x)
  {
    if x.status.QUEUED? && x.requiredAction.Some? {
      var action := x.requiredAction.value;
      assert action in db.actions && action in db'.actions;
    }
  }

  lemma RunRowIsFresh(db: Db, r: RunId)
    requires RowsOk(db) && r in db.runs
    ensures RunFresh(db, db.runs[r]) && QuestionOver(db, db.runs[r])
  {
    assert RequiredActionOk(db, r);
  }

  lemma SeenRowsStay(s: System, s': System)
    requires SeenOk(s.db, s.seen) && Bumps(s.db, s'.db) && Keyed(s'.db) && s'.seen == s.seen
    ensures var seen := Observe(s').seen;
            && (forall x :: x in seen.attempts ==> AttemptFresh(s'.db, x))
            && (forall x :: x in seen.actions ==> ActionFresh(s'.db, x))
            && (forall x :: x in seen.plans ==> PlanFresh(s'.db, x))
            && (forall x :: x in seen.conversations ==> ConversationFresh(s'.db, x))
  {
    var seen := Observe(s').seen;
    forall x | x in seen.attempts ensures AttemptFresh(s'.db, x) {
      if x in s.seen.attempts {
        assert AttemptFresh(s.db, x);
      } else {
        var key :| key in s'.db.attempts && s'.db.attempts[key] == x;
      }
    }
    forall x | x in seen.actions ensures ActionFresh(s'.db, x) {
      if x in s.seen.actions {
        assert ActionFresh(s.db, x);
      } else {
        var key :| key in s'.db.actions && s'.db.actions[key] == x;
      }
    }
    forall x | x in seen.plans ensures PlanFresh(s'.db, x) {
      if x in s.seen.plans {
        assert PlanFresh(s.db, x);
      } else {
        var key :| key in s'.db.plans && s'.db.plans[key] == x;
      }
    }
    forall x | x in seen.conversations ensures ConversationFresh(s'.db, x) {
      if x in s.seen.conversations {
        assert ConversationFresh(s.db, x);
      } else {
        var key :| key in s'.db.conversations && s'.db.conversations[key] == x;
      }
    }
  }

  lemma {:induction false} SeenStays(s: System, s': System)
    requires SeenOk(s.db, s.seen) && Bumps(s.db, s'.db) && RowsOk(s'.db) && s'.seen == s.seen
    ensures SeenOk(s'.db, Observe(s').seen)
  {
    hide RunsOk, AttemptsOk, ActionsOk, Bumps, RunFresh;
    var seen := Observe(s').seen;
    SeenRowsStay(s, s');
    forall x | x in seen.runs ensures RunFresh(s'.db, x) && QuestionOver(s'.db, x) {
      if x in s.seen.runs {
        SeenRunStays(s.db, s'.db, x);
      } else {
        var key :| key in s'.db.runs && s'.db.runs[key] == x;
        RunRowIsFresh(s'.db, key);
      }
    }
    forall x, action | (x, action) in seen.later ensures ReadInOrder(x, action) {
      if (x, action) !in s.seen.later {
        assert x in seen.runs && action.id in s'.db.actions;
        assert QuestionOver(s'.db, x);
      }
    }
  }

  /** A snapshot whose revision a transaction found unchanged is the row. */
  lemma SwappedRun(s: System, run: Run)
    requires SeenOk(s.db, s.seen) && run in s.seen.runs
    requires run.id in s.db.runs && s.db.runs[run.id].revision == run.revision
    ensures s.db.runs[run.id] == run
  {
    assert RunFresh(s.db, run);
  }

  lemma SwappedAttempt(s: System, attempt: Attempt)
    requires SeenOk(s.db, s.seen) && attempt in s.seen.attempts
    requires attempt.id in s.db.attempts && s.db.attempts[attempt.id].revision == attempt.revision
    ensures s.db.attempts[attempt.id] == attempt
  {
    assert AttemptFresh(s.db, attempt);
  }

  lemma SwappedAction(s: System, action: Action)
    requires SeenOk(s.db, s.seen) && action in s.seen.actions
    requires action.id in s.db.actions && s.db.actions[action.id].revision == action.revision
    ensures s.db.actions[action.id] == action
  {
    assert ActionFresh(s.db, action);
  }

  lemma SwappedPlan(s: System, plan: Plan)
    requires SeenOk(s.db, s.seen) && plan in s.seen.plans
    requires plan.run in s.db.plans && s.db.plans[plan.run].revision == plan.revision
    ensures s.db.plans[plan.run] == plan
  {
    assert PlanFresh(s.db, plan);
  }

  lemma SwappedConversation(s: System, conversation: Conversation)
    requires SeenOk(s.db, s.seen) && conversation in s.seen.conversations
    requires conversation.id in s.db.conversations
    requires s.db.conversations[conversation.id].revision == conversation.revision
    ensures s.db.conversations[conversation.id] == conversation
  {
    assert ConversationFresh(s.db, conversation);
  }

  lemma IdleStep(s: System)
    requires Inv(s)
    ensures Inv(Observe(s))
  {
    hide RowsOk, InOrder, Numbered, LeasesOk, TaskOk;
    hide CreditsOk, ApprovalsOk, SubmissionsOk;
    SeenStays(s, s);
  }

  /** `UPDATE worker_leases SET expires_at`: owners and tokens stay. */
  ghost predicate SameOwners(leases: map<Resource, LeaseRow>, leases': map<Resource, LeaseRow>) {
    && leases'.Keys == leases.Keys
    && forall resource :: resource in leases ==>
         leases'[resource].worker == leases[resource].worker && leases'[resource].token == leases[resource].token
  }

  predicate SameAttempt(before: Attempt, after: Attempt) {
    before.id == after.id && before.run == after.run && before.number == after.number && before.phase == after.phase
    && before.fence == after.fence
  }

  /** A write to the rows of Run r that begins no Attempt. */
  ghost predicate Quiet(db: Db, db': Db, r: RunId) {
    && r in db.runs && r in db'.runs
    && db'.runs == db.runs[r := db'.runs[r]]
    && db'.runs[r].id == db.runs[r].id
    && db'.runs[r].place == db.runs[r].place
    && db'.runs[r].request == db.runs[r].request
    && db'.runs[r].attemptCount == db.runs[r].attemptCount
    && (db.runs[r].place.Some? ==>
          && (Occupying(db'.runs[r].status) ==> Occupying(db.runs[r].status))
          && (Terminal(db.runs[r].status) ==> Terminal(db'.runs[r].status)))
    && db'.attempts.Keys == db.attempts.Keys
    && (forall a :: a in db.attempts ==> SameAttempt(db.attempts[a], db'.attempts[a]))
    && db'.conversations == db.conversations
    && db'.idempotency == db.idempotency
    && SameOwners(db.leases, db'.leases)
  }

  lemma SequencesStay(runs: map<RunId, Run>, runs': map<RunId, Run>, c: ConversationId)
    requires runs'.Keys == runs.Keys
    requires forall r :: r in runs ==> runs'[r].place == runs[r].place
    ensures SequencesOf(runs', c) == SequencesOf(runs, c)
  {
    forall k | k in SequencesOf(runs, c) ensures k in SequencesOf(runs', c) {
      var r :| r in runs && InConversation(runs[r], c) && runs[r].place.value.sequence == k;
      assert r in runs' && InConversation(runs'[r], c);
    }
    forall k | k in SequencesOf(runs', c) ensures k in SequencesOf(runs, c) {
      var r :| r in runs' && InConversation(runs'[r], c) && runs'[r].place.value.sequence == k;
      assert r in runs && InConversation(runs[r], c);
    }
  }

  lemma NumbersStay(attempts: map<AttemptId, Attempt>, attempts': map<AttemptId, Attempt>, r: RunId)
    requires attempts'.Keys == attempts.Keys
    requires forall a :: a in attempts ==>
               attempts'[a].run == attempts[a].run && attempts'[a].number == attempts[a].number
    ensures NumbersOf(attempts', r) == NumbersOf(attempts, r)
  {
    forall k | k in NumbersOf(attempts, r) ensures k in NumbersOf(attempts', r) {
      var a :| a in attempts && attempts[a].run == r && attempts[a].number == k;
      assert a in attempts' && attempts'[a].run == r;
    }
    forall k | k in NumbersOf(attempts', r) ensures k in NumbersOf(attempts, r) {
      var a :| a in attempts' && attempts'[a].run == r && attempts'[a].number == k;
      assert a in attempts && attempts[a].run == r;
    }
  }

  lemma NumberingStays(db: Db, db': Db)
    requires Numbered(db)
    requires db'.conversations == db.conversations && db'.runs.Keys == db.runs.Keys
    requires db'.attempts.Keys == db.attempts.Keys
    requires forall r :: r in db.runs ==>
               db'.runs[r].place == db.runs[r].place && db'.runs[r].attemptCount == db.runs[r].attemptCount
    requires forall a :: a in db.attempts ==>
               db'.attempts[a].run == db.attempts[a].run && db'.attempts[a].number == db.attempts[a].number
    ensures Numbered(db')
  {
    forall c | c in db.conversations
      ensures SequencesOf(db'.runs, c) == SequencesOf(db.runs, c)
    {
      SequencesStay(db.runs, db'.runs, c);
    }
    forall r | r in db.runs
      ensures NumbersOf(db'.attempts, r) == NumbersOf(db.attempts, r)
    {
      NumbersStay(db.attempts, db'.attempts, r);
    }
  }

  lemma {:induction false} QuietKeepsOrder(db: Db, db': Db, r: RunId)
    requires Quiet(db, db', r) && InOrder(db) && Numbered(db) && LeasesOk(db)
    ensures InOrder(db') && Numbered(db') && LeasesOk(db')
  {
    NumberingStays(db, db');
  }

  /** An Action that an Attempt has consumed is not touched again. */
  ghost predicate ConsumedStays(db: Db, db': Db) {
    forall x :: x in db.actions && db.actions[x].kind.UserInput? && db.actions[x].status.Consumed? ==>
      x in db'.actions && db'.actions[x] == db.actions[x]
  }

  /** An API call or the recovery may end a Run or queue a waiting one, nothing else. */
  predicate OutsideEdge(before: Run, after: Run) {
    && (before.status.RUNNING? ==> Terminal(after.status))
    && !after.status.RUNNING?
    && (after.phase == before.phase || before.phase.WAITING_APPROVAL?)
  }

  /** `actor` is the lease under which the write was made, if any. */
  lemma QuietKeepsTask(db: Db, db': Db, r: RunId, actor: Option<Lease>, lease: Lease, task: Task)
    requires Quiet(db, db', r) && ConsumedStays(db, db')
    requires TaskOk(db, lease, task)
    requires if actor.Some? then LeaseCurrent(db, actor.value) && actor.value.resource == ResourceOf(db.runs[r])
             else OutsideEdge(db.runs[r], db'.runs[r])
    requires Some(lease) != actor
    requires db.runs[r].id == r
    ensures TaskOk(db', lease, task)
  {
    assert LeaseCurrent(db', lease) <==> LeaseCurrent(db, lease);
    if task.Selected? && lease.resource.ConversationResource? && LeaseCurrent(db, lease) {
      assert Clear(db', lease.resource.conversation, task.run);
    }
  }

  lemma QuietKeepsTasks(db: Db, db': Db, r: RunId, actor: Option<Lease>, tasks: map<Lease, Task>)
    requires Quiet(db, db', r) && ConsumedStays(db, db')
    requires TasksOk(db, tasks)
    requires if actor.Some? then LeaseCurrent(db, actor.value) && actor.value.resource == ResourceOf(db.runs[r])
             else OutsideEdge(db.runs[r], db'.runs[r])
    requires db.runs[r].id == r
    ensures forall lease :: lease in tasks && Some(lease) != actor ==> TaskOk(db', lease, tasks[lease])
  {
    forall lease | lease in tasks && Some(lease) != actor
      ensures TaskOk(db', lease, tasks[lease])
    {
      QuietKeepsTask(db, db', r, actor, lease, tasks[lease]);
    }
  }

  lemma QuietKeepsSubmissions(db: Db, db': Db, r: RunId, submissions: seq<Submitted>)
    requires SubmissionsOk(db, submissions) && Quiet(db, db', r)
    ensures SubmissionsOk(db', submissions)
  {
  }

  /** The rows that one transaction writes. */
  function Put(db: Db, run: Run, attempt: Option<Attempt>, action: Option<Action>, plan: Option<Plan>): Db {
    db.(runs := db.runs[run.id := run],
        attempts := if attempt.Some? then db.attempts[attempt.value.id := attempt.value] else db.attempts,
        actions := if action.Some? then db.actions[action.value.id := action.value] else db.actions,
        plans := if plan.Some? then db.plans[plan.value.run := plan.value] else db.plans)
  }

  predicate RunPut(db: Db, run: Run) {
    && run.id in db.runs
    && var before := db.runs[run.id];
       && run.revision == before.revision + 1
       && run.place == before.place && run.request == before.request && run.attemptCount == before.attemptCount
       && before.id == run.id
       && (run.place.Some? ==>
             && (Occupying(run.status) ==> Occupying(before.status))
             && (Terminal(before.status) ==> Terminal(run.status)))
  }

  predicate AttemptPut(db: Db, attempt: Attempt) {
    && attempt.id in db.attempts
    && var before := db.attempts[attempt.id];
       && attempt.revision == before.revision + 1
       && SameAttempt(before, attempt)
       && (AttemptTerminal(before.status) ==> AttemptTerminal(attempt.status))
  }

  predicate ActionPut(db: Db, action: Action) {
    action.id in db.actions ==>
      var before := db.actions[action.id];
      && action.revision == before.revision + 1
      && !(before.kind.UserInput? && before.status.Consumed?)
      && (!before.status.Pending? ==> !action.status.Pending?)
  }

  predicate PlanPut(db: Db, plan: Plan) {
    plan.run in db.plans ==> plan.id == db.plans[plan.run].id && plan.revision == db.plans[plan.run].revision + 1
  }

  predicate PutOk(db: Db, run: Run, attempt: Option<Attempt>, action: Option<Action>, plan: Option<Plan>) {
    && RunPut(db, run)
    && (attempt.Some? ==> AttemptPut(db, attempt.value))
    && (action.Some? ==> ActionPut(db, action.value))
    && (plan.Some? ==> PlanPut(db, plan.value))
  }

  lemma PutIsQuiet(db: Db, run: Run, attempt: Option<Attempt>, action: Option<Action>, plan: Option<Plan>)
    requires PutOk(db, run, attempt, action, plan)
    ensures var db' := Put(db, run, attempt, action, plan);
            Quiet(db, db', run.id) && Bumps(db, db') && ConsumedStays(db, db')
  {
  }

  /** The rows of Run r are in order; those of other Runs are not looked at. */
  ghost predicate RunRowsOk(db: Db, r: RunId) {
    && r in db.runs
    && StatusOk(db, r) && RequiredActionOk(db, r) && PhaseOk(db, r)
    && (forall a :: a in db.attempts && db.attempts[a].run == r ==> AttemptOk(db, a))
    && (forall x :: x in db.actions && db.actions[x].run == r ==> ActionOk(db, x))
  }

  /** All the rows written belong to the one Run. */
  predicate OneRun(db: Db, run: Run, attempt: Option<Attempt>, action: Option<Action>, plan: Option<Plan>) {
    && run.id in db.runs
    && (attempt.Some? ==> attempt.value.run == run.id
                          && (attempt.value.id in db.attempts ==> db.attempts[attempt.value.id].run == run.id))
    && (action.Some? ==> action.value.run == run.id
                         && (action.value.id in db.actions ==> db.actions[action.value.id].run == run.id))
    && (plan.Some? ==> plan.value.run == run.id)
  }

  /** Every row of another Run, and every row it refers to, is the same. */
  lemma PutKeepsOthers(db: Db, run: Run, attempt: Option<Attempt>, action: Option<Action>, plan: Option<Plan>, r: RunId)
    requires RowsOk(db) && OneRun(db, run, attempt, action, plan)
    requires r in db.runs && r != run.id
    ensures RunRowsOk(Put(db, run, attempt, action, plan), r)
  {
    var db' := Put(db, run, attempt, action, plan);
    assert StatusOk(db, r) && RequiredActionOk(db, r) && PhaseOk(db, r);
    forall a | a in db'.attempts && db'.attempts[a].run == r
      ensures AttemptOk(db', a)
    {
      assert AttemptOk(db, a);
    }
    forall x | x in db'.actions && db'.actions[x].run == r
      ensures ActionOk(db', x)
    {
      assert ActionOk(db, x);
    }
  }

  lemma RunRowsMakeRows(db: Db)
    requires Keyed(db) && DistinctNumbers(db.attempts)
    requires forall r :: r in db.runs ==> RunRowsOk(db, r)
    requires forall a :: a in db.attempts ==> db.attempts[a].run in db.runs
    requires forall x :: x in db.actions ==> db.actions[x].run in db.runs
    ensures RowsOk(db)
  {
    hide DistinctNumbers;
    forall a | a in db.attempts ensures AttemptOk(db, a) {
      assert RunRowsOk(db, db.attempts[a].run);
    }
    forall x | x in db.actions ensures ActionOk(db, x) {
      assert RunRowsOk(db, db.actions[x].run);
    }
  }

  lemma PutIsKeyed(db: Db, run: Run, attempt: Option<Attempt>, action: Option<Action>, plan: Option<Plan>)
    requires RowsOk(db) && OneRun(db, run, attempt, action, plan)
    ensures var db' := Put(db, run, attempt, action, plan);
            && Keyed(db')
            && (forall a :: a in db'.attempts ==> db'.attempts[a].run in db'.runs)
            && (forall x :: x in db'.actions ==> db'.actions[x].run in db'.runs)
  {
    hide DistinctNumbers;
  }

  lemma {:induction false} PutRowsKeepRows(db: Db, run: Run, attempt: Option<Attempt>, action: Option<Action>,
                                           plan: Option<Plan>)
    requires RowsOk(db) && OneRun(db, run, attempt, action, plan)
    requires RunRowsOk(Put(db, run, attempt, action, plan), run.id)
    requires DistinctNumbers(Put(db, run, attempt, action, plan).attempts)
    ensures RowsOk(Put(db, run, attempt, action, plan))
  {
    hide StatusOk, RequiredActionOk, PhaseOk, RunsOk, AttemptsOk, ActionsOk, Keyed, RunRowsOk, DistinctNumbers;
    var db' := Put(db, run, attempt, action, plan);
    PutIsKeyed(db, run, attempt, action, plan);
    forall r | r in db'.runs ensures RunRowsOk(db', r) {
      if r != run.id {
        PutKeepsOthers(db, run, attempt, action, plan, r);
      }
    }
    RunRowsMakeRows(db');
  }

  lemma SameNumbersStayDistinct(attempts: map<AttemptId, Attempt>, attempt: Attempt)
    requires DistinctNumbers(attempts)
    requires attempt.id in attempts && attempts[attempt.id].run == attempt.run
             && attempts[attempt.id].number == attempt.number
    ensures DistinctNumbers(attempts[attempt.id := attempt])
  {
  }

  lemma {:induction false} PutKeepsRows(db: Db, run: Run, attempt: Option<Attempt>, action: Option<Action>,
                                        plan: Option<Plan>)
    requires RowsOk(db) && PutOk(db, run, attempt, action, plan) && OneRun(db, run, attempt, action, plan)
    requires RunRowsOk(Put(db, run, attempt, action, plan), run.id)
    ensures RowsOk(Put(db, run, attempt, action, plan))
  {
    hide Keyed, RunsOk, AttemptOk, ActionsOk, RunRowsOk, DistinctNumbers;
    if attempt.Some? {
      SameNumbersStayDistinct(db.attempts, attempt.value);
    }
    PutRowsKeepRows(db, run, attempt, action, plan);
  }

  predicate Funded(run: Run, credits: map<RunId, nat>) {
    run.id in credits && run.attemptCount + (if run.status.QUEUED? then 1 else 0) <= credits[run.id]
  }

  lemma PutKeepsCredits(db: Db, db': Db, run: Run, credits: map<RunId, nat>, credits': map<RunId, nat>)
    requires CreditsOk(db, credits) && db'.runs == db.runs[run.id := run]
    requires Funded(run, credits')
    requires forall r :: r in credits && r != run.id ==> r in credits' && credits'[r] == credits[r]
    ensures CreditsOk(db', credits')
  {
  }

  /** What is left to show for a step that begins no Attempt.  `actor` is the lease under
      which it writes, if any. */
  lemma {:induction false} QuietStep(s: System, s': System, r: RunId, actor: Option<Lease>)
    requires Inv(s)
    requires Quiet(s.db, s'.db, r) && Bumps(s.db, s'.db) && ConsumedStays(s.db, s'.db)
    requires r in s.db.runs && r in s'.db.runs && s.db.runs[r].id == r
    requires RowsOk(s'.db) && CreditsOk(s'.db, s'.credits) && ApprovalsOk(s'.db, s'.approvals)
    requires s'.seen == s.seen && s'.submissions == s.submissions
    requires if actor.Some? then LeaseCurrent(s.db, actor.value) && actor.value.resource == ResourceOf(s.db.runs[r])
             else OutsideEdge(s.db.runs[r], s'.db.runs[r])
    requires forall lease :: lease in s'.tasks && Some(lease) != actor ==>
               lease in s.tasks && s'.tasks[lease] == s.tasks[lease]
    requires actor.Some? && actor.value in s'.tasks ==> TaskOk(s'.db, actor.value, s'.tasks[actor.value])
    ensures Inv(Observe(s'))
  {
    hide SeenOk, RowsOk, InOrder, Numbered, LeasesOk, TaskOk;
    hide Quiet, Bumps, ConsumedStays, CreditsOk, ApprovalsOk, SubmissionsOk;
    SeenStays(s, s');
    QuietKeepsOrder(s.db, s'.db, r);
    QuietKeepsTasks(s.db, s'.db, r, actor, s.tasks);
    QuietKeepsSubmissions(s.db, s'.db, r, s.submissions);
  }

  /** What is left to show for a step that writes the rows of one Run and begins no Attempt.
      `actor` is the lease under which it writes, if any. */
  lemma {:induction false} PutStep(s: System, s': System, run: Run, attempt: Option<Attempt>, action: Option<Action>,
                                   plan: Option<Plan>, actor: Option<Lease>)
    requires Inv(s)
    requires s'.db == Put(s.db, run, attempt, action, plan) && PutOk(s.db, run, attempt, action, plan)
    requires RowsOk(s'.db) && Funded(run, s'.credits) && ApprovalsOk(s'.db, s'.approvals)
    requires forall r :: r in s.credits && r != run.id ==> r in s'.credits && s'.credits[r] == s.credits[r]
    requires s'.seen == s.seen && s'.submissions == s.submissions
    requires if actor.Some? then LeaseCurrent(s.db, actor.value) && actor.value.resource == ResourceOf(s.db.runs[run.id])
             else OutsideEdge(s.db.runs[run.id], run)
    requires forall lease :: lease in s'.tasks && Some(lease) != actor ==>
               lease in s.tasks && s'.tasks[lease] == s.tasks[lease]
    requires actor.Some? && actor.value in s'.tasks ==> TaskOk(s'.db, actor.value, s'.tasks[actor.value])
    ensures Inv(Observe(s'))
  {
    hide SeenOk, RowsOk, InOrder, Numbered, LeasesOk, TaskOk;
    hide Quiet, Bumps, ConsumedStays, CreditsOk, ApprovalsOk, SubmissionsOk, Funded, AttemptPut, ActionPut, PlanPut;
    PutIsQuiet(s.db, run, attempt, action, plan);
    PutKeepsCredits(s.db, s'.db, run, s.credits, s'.credits);
    QuietStep(s, s', run.id, actor);
  }
}
