/** What holds in every state the step system can reach, whatever the clocks say. */
module Invariants {
  import opened Records
  import opened Transactions
  import opened Protocol

  // ----- Snapshots -----

  predicate RunFresh(db: Db, x: Run) {
    && x.id in db.runs
    && x.revision <= db.runs[x.id].revision
    && (x.revision == db.runs[x.id].revision ==> x == db.runs[x.id])
  }

  /** The answer to a question cannot be taken back. */
  predicate QuestionOver(db: Db, x: Run) {
    x.status.QUEUED? && x.requiredAction.Some? ==>
      x.requiredAction.value in db.actions && !db.actions[x.requiredAction.value].status.Pending?
  }

  predicate ReadInOrder(x: Run, action: Action) {
    x.status.QUEUED? && x.requiredAction == Some(action.id) ==> !action.status.Pending?
  }

  predicate AttemptFresh(db: Db, x: Attempt) {
    && x.id in db.attempts
    && x.revision <= db.attempts[x.id].revision
    && (x.revision == db.attempts[x.id].revision ==> x == db.attempts[x.id])
    && (AttemptTerminal(x.status) ==> AttemptTerminal(db.attempts[x.id].status))
  }

  predicate ActionFresh(db: Db, x: Action) {
    && x.id in db.actions
    && x.revision <= db.actions[x.id].revision
    && (x.revision == db.actions[x.id].revision ==> x == db.actions[x.id])
  }

  predicate PlanFresh(db: Db, x: Plan) {
    && x.run in db.plans
    && x.id == db.plans[x.run].id
    && x.revision <= db.plans[x.run].revision
    && (x.revision == db.plans[x.run].revision ==> x == db.plans[x.run])
  }

  predicate ConversationFresh(db: Db, x: Conversation) {
    && x.id in db.conversations
    && x.revision <= db.conversations[x.id].revision
    && (x.revision == db.conversations[x.id].revision ==> x == db.conversations[x.id])
  }

  /** A snapshot never runs ahead of its row, and one with the row's revision is the row: a
      compare-and-swap on the revision that succeeds has read the present. */
  ghost predicate SeenOk(db: Db, seen: Seen) {
    && (forall x :: x in seen.runs ==> RunFresh(db, x) && QuestionOver(db, x))
    && (forall x :: x in seen.attempts ==> AttemptFresh(db, x))
    && (forall x :: x in seen.actions ==> ActionFresh(db, x))
    && (forall x :: x in seen.plans ==> PlanFresh(db, x))
    && (forall x :: x in seen.conversations ==> ConversationFresh(db, x))
    && (forall x, action :: (x, action) in seen.later ==> ReadInOrder(x, action))
  }

  // ----- Rows -----

  predicate Keyed(db: Db) {
    && (forall r :: r in db.runs ==> db.runs[r].id == r)
    && (forall a :: a in db.attempts ==> db.attempts[a].id == a)
    && (forall x :: x in db.actions ==> db.actions[x].id == x)
    && (forall r :: r in db.plans ==> db.plans[r].run == r && r in db.runs)
    && (forall c :: c in db.conversations ==> db.conversations[c].id == c)
  }

  /** The Attempt that a RUNNING or WAITING Run points to is its newest one. */
  predicate NewestAttempt(db: Db, r: RunId, a: AttemptId)
    requires r in db.runs
  {
    a in db.attempts && db.attempts[a].run == r && db.attempts[a].number == db.runs[r].attemptCount
  }

  predicate StatusOk(db: Db, r: RunId)
    requires r in db.runs
  {
    var run := db.runs[r];
    && (run.activeAttempt.Some? ==>
          run.activeAttempt.value in db.attempts && db.attempts[run.activeAttempt.value].run == r)
    && (run.status.QUEUED? ==> run.activeAttempt.None?)
    && (run.status.RUNNING? ==>
          && run.activeAttempt.Some?
          && NewestAttempt(db, r, run.activeAttempt.value)
          && db.attempts[run.activeAttempt.value].status.AttemptRunning?
          && db.attempts[run.activeAttempt.value].fence.Some?)
    && (Occupying(run.status) ==> run.attemptCount > 0)
    && (run.status.SUCCEEDED? <==> run.phase.COMPLETED?)
  }

  predicate WaitingFor(db: Db, r: RunId, x: ActionId)
    requires r in db.runs
  {
    var run := db.runs[r];
    && x in db.actions
    && db.actions[x].run == r
    && db.actions[x].status.Pending?
    && (run.place.Some? ==>
          && db.actions[x].kind.UserInput?
          && run.activeAttempt == Some(db.actions[x].attempt)
          && NewestAttempt(db, r, db.actions[x].attempt)
          && db.attempts[db.actions[x].attempt].status.AttemptWaiting?)
    && (run.place.None? ==> db.actions[x].kind.PlanApproval? && run.phase.WAITING_APPROVAL?)
  }

  predicate ContinuesFrom(db: Db, r: RunId, x: ActionId)
    requires r in db.runs
  {
    && x in db.actions
    && db.actions[x].run == r
    && db.runs[r].place.Some?
    && db.actions[x].kind.UserInput?
    && db.actions[x].status.Answered?
    && NewestAttempt(db, r, db.actions[x].attempt)
  }

  /** `required_action_id` is set exactly while a WAITING Run has that Action pending or a
      QUEUED one has it answered. */
  predicate RequiredActionOk(db: Db, r: RunId)
    requires r in db.runs
  {
    var run := db.runs[r];
    && (run.status.WAITING? ==> run.requiredAction.Some? && WaitingFor(db, r, run.requiredAction.value))
    && (run.status.QUEUED? && run.requiredAction.Some? ==> ContinuesFrom(db, r, run.requiredAction.value))
    && (run.requiredAction.Some? ==> run.status.WAITING? || run.status.QUEUED?)
  }

  predicate PhaseOk(db: Db, r: RunId)
    requires r in db.runs
  {
    var run := db.runs[r];
    && (run.place.Some? ==> run.phase.DIRECT? || run.phase.COMPLETED?)
    && (run.place.Some? ==> r !in db.plans)
    && (run.phase.DIRECT? || run.phase.PLANNING? ==> r !in db.plans)
    && (run.phase.WAITING_APPROVAL? ==>
          && r in db.plans
          && (run.status.WAITING? ==> db.plans[r].status.Proposed?)
          && (!run.status.WAITING? ==> run.status.CANCELLED? && db.plans[r].status.Rejected?))
    && (run.phase.EXECUTING? ==> r in db.plans)
    && (run.phase.EXECUTING? || run.phase.COMPLETED? ==> r in db.plans ==> db.plans[r].status.Approved?)
  }

  ghost predicate RunsOk(db: Db) {
    forall r :: r in db.runs ==>
      StatusOk(db, r) && RequiredActionOk(db, r) && PhaseOk(db, r)
  }

  predicate AttemptOk(db: Db, a: AttemptId)
    requires a in db.attempts
  {
    var attempt := db.attempts[a];
    && attempt.run in db.runs
    && 1 <= attempt.number <= db.runs[attempt.run].attemptCount
    && (attempt.status.AttemptRunning? ==>
          db.runs[attempt.run].status.RUNNING? && db.runs[attempt.run].activeAttempt == Some(a))
    && (attempt.phase.EXECUTING? ==> attempt.run in db.plans && db.plans[attempt.run].status.Approved?)
  }

  ghost predicate DistinctNumbers(attempts: map<AttemptId, Attempt>) {
    forall a, b :: a in attempts && b in attempts && a != b && attempts[a].run == attempts[b].run ==>
      attempts[a].number != attempts[b].number
  }

  ghost predicate AttemptsOk(db: Db) {
    && (forall a :: a in db.attempts ==> AttemptOk(db, a))
    && DistinctNumbers(db.attempts)
  }

  /** The Attempt after the one that asked has consumed the Action. */
  predicate ConsumedInOrder(db: Db, x: ActionId)
    requires x in db.actions
  {
    var action := db.actions[x];
    && action.consumedBy.Some?
    && action.consumedBy.value in db.attempts
    && action.attempt in db.attempts
    && db.attempts[action.consumedBy.value].run == action.run
    && db.attempts[action.consumedBy.value].number == db.attempts[action.attempt].number + 1
  }

  predicate ActionOk(db: Db, x: ActionId)
    requires x in db.actions
  {
    var action := db.actions[x];
    && action.run in db.runs
    && action.attempt in db.attempts
    && db.attempts[action.attempt].run == action.run
    && (action.status.Pending? || action.status.Answered? ==>
          db.runs[action.run].requiredAction == Some(x) && action.consumedBy.None?)
    && (action.status.Answered? || (action.kind.UserInput? && action.status.Consumed?) ==> action.response.Some?)
    && (action.kind.UserInput? <==> db.runs[action.run].place.Some?)
    && (action.kind.UserInput? && action.status.Consumed? ==> ConsumedInOrder(db, x))
  }

  ghost predicate ActionsOk(db: Db) {
    forall x :: x in db.actions ==> ActionOk(db, x)
  }

  ghost predicate RowsOk(db: Db) {
    Keyed(db) && RunsOk(db) && AttemptsOk(db) && ActionsOk(db)
  }

  // ----- Numbering and order -----

  /** The numbers 1, 2, ..., n. */
  function Upto(n: nat): (numbers: set<nat>)
    ensures forall k :: k in numbers <==> 1 <= k <= n
  {
    if n == 0 then {} else Upto(n - 1) + {n}
  }

  function SequencesOf(runs: map<RunId, Run>, c: ConversationId): set<nat> {
    set r | r in runs && InConversation(runs[r], c) :: runs[r].place.value.sequence
  }

  function NumbersOf(attempts: map<AttemptId, Attempt>, r: RunId): set<nat> {
    set a | a in attempts && attempts[a].run == r :: attempts[a].number
  }

  /** A Run that has ever had an Attempt has only terminal Runs in front of it. */
  ghost predicate InOrder(db: Db) {
    forall p, q ::
      (p in db.runs && q in db.runs && p != q && db.runs[p].place.Some? && db.runs[q].place.Some?
       && db.runs[p].place.value.conversation == db.runs[q].place.value.conversation) ==>
        && db.runs[p].place.value.sequence != db.runs[q].place.value.sequence
        && (db.runs[p].place.value.sequence < db.runs[q].place.value.sequence && db.runs[q].attemptCount > 0 ==>
              Terminal(db.runs[p].status))
  }

  ghost predicate Numbered(db: Db) {
    && (forall r :: r in db.runs && db.runs[r].place.Some? ==> db.runs[r].place.value.conversation in db.conversations)
    && (forall c :: c in db.conversations ==>
          db.conversations[c].nextSequence >= 1
          && SequencesOf(db.runs, c) == Upto(db.conversations[c].nextSequence - 1))
    && (forall r :: r in db.runs ==> NumbersOf(db.attempts, r) == Upto(db.runs[r].attemptCount))
  }

  // ----- Leases and tasks -----

  ghost predicate LeasesOk(db: Db) {
    && (forall r :: RunResource(r) in db.leases ==> r in db.runs && db.runs[r].place.None?)
    && (forall c :: ConversationResource(c) in db.leases ==> c in db.conversations)
    && (forall resource :: resource in db.leases ==> db.leases[resource].token >= 1)
  }

  /** Nothing stands in the way of the Run that the task of a Conversation has picked. */
  ghost predicate Clear(db: Db, c: ConversationId, r: RunId)
    requires r in db.runs && InConversation(db.runs[r], c)
  {
    forall q :: q in db.runs && q != r && InConversation(db.runs[q], c) ==>
      && !Occupying(db.runs[q].status)
      && (db.runs[q].place.value.sequence < db.runs[r].place.value.sequence ==> Terminal(db.runs[q].status))
  }

  ghost predicate SelectedOk(db: Db, lease: Lease, r: RunId) {
    && r in db.runs
    && ResourceOf(db.runs[r]) == lease.resource
    && (lease.resource.ConversationResource? && LeaseCurrent(db, lease) ==>
          !Occupying(db.runs[r].status) && Clear(db, lease.resource.conversation, r))
  }

  predicate InputOk(db: Db, task: Task)
    requires task.Executing? && task.run in db.runs
  {
    match task.input
    case OriginalInput(text) => text == db.runs[task.run].request.input
    case ActionResponse(x, response) =>
      && x in db.actions
      && db.actions[x].run == task.run
      && db.actions[x].kind.UserInput?
      && db.actions[x].status.Consumed?
      && db.actions[x].consumedBy == Some(task.attempt)
      && db.actions[x].response == Some(response)
  }

  predicate ExecutingOk(db: Db, lease: Lease, task: Task)
    requires task.Executing?
  {
    && task.run in db.runs
    && ResourceOf(db.runs[task.run]) == lease.resource
    && task.attempt in db.attempts
    && db.attempts[task.attempt].run == task.run
    && db.attempts[task.attempt].fence == Some(Fence(lease.worker, lease.token))
    && db.attempts[task.attempt].phase == task.phase
    && !task.phase.WAITING_APPROVAL? && !task.phase.COMPLETED?
    && InputOk(db, task)
    && (LeaseCurrent(db, lease) && !task.asked ==>
          var run := db.runs[task.run];
          && run.phase == task.phase
          && (run.place.Some? ==> run.status.RUNNING? || Terminal(run.status))
          && (run.status.RUNNING? ==> run.activeAttempt == Some(task.attempt)))
  }

  ghost predicate TaskOk(db: Db, lease: Lease, task: Task) {
    && lease.resource in db.leases
    && lease.token <= db.leases[lease.resource].token
    && (task.Selected? ==> SelectedOk(db, lease, task.run))
    && (task.Executing? ==> ExecutingOk(db, lease, task))
  }

  ghost predicate TasksOk(db: Db, tasks: map<Lease, Task>) {
    forall lease :: lease in tasks ==> TaskOk(db, lease, tasks[lease])
  }

  // ----- Records of the past -----

  ghost predicate CreditsOk(db: Db, credits: map<RunId, nat>) {
    forall r :: r in db.runs ==>
      && r in credits
      && db.runs[r].attemptCount + (if db.runs[r].status.QUEUED? then 1 else 0) <= credits[r]
  }

  /** A Plan is decided at most once, and an approval named it exactly. */
  ghost predicate ApprovalsOk(db: Db, approvals: map<RunId, PlanRef>) {
    forall r :: r in db.plans ==>
      && db.plans[r].revision == (if db.plans[r].status.Proposed? then 1 else 2)
      && (db.plans[r].status.Approved? ==>
            r in approvals && approvals[r] == PlanRef(db.plans[r].id, 1, db.plans[r].sha256))
  }

  predicate PriorOk(db: Db, key: Key, prior: Prior) {
    && prior.run in db.runs
    && db.runs[prior.run].request.tenant == key.tenant
    && prior.digest == DigestOf(db.runs[prior.run].request, ConversationOf(db.runs[prior.run]))
  }

  ghost predicate SubmissionsOk(db: Db, submissions: seq<Submitted>) {
    && (forall key :: key in db.idempotency ==> PriorOk(db, key, db.idempotency[key]))
    && (forall i :: 0 <= i < |submissions| ==>
          && submissions[i].key in db.idempotency
          && db.idempotency[submissions[i].key] == Prior(submissions[i].digest, submissions[i].run))
    && (forall i, j :: 0 <= i < j < |submissions| && submissions[i].key == submissions[j].key ==>
          !submissions[j].created)
  }

  ghost predicate LedgerOk(s: System) {
    CreditsOk(s.db, s.credits) && ApprovalsOk(s.db, s.approvals) && SubmissionsOk(s.db, s.submissions)
  }

  ghost predicate Inv(s: System) {
    && SeenOk(s.db, s.seen)
    && RowsOk(s.db)
    && InOrder(s.db)
    && Numbered(s.db)
    && LeasesOk(s.db)
    && TasksOk(s.db, s.tasks)
    && LedgerOk(s)
  }
}
