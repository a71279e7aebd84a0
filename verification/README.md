# Verification of the agent control plane

This project models the control plane of an agent platform in Dafny and proves what it promises.
It has three parts, and a fourth for the single-process mode.

**Runs, leases and fencing.** `Records`, `Transactions` and `Protocol` describe one database and the
22 kinds of steps that workers, API calls, blocking and recovery make on it. Each database
transaction is one atomic step, which commits or aborts. Whatever a caller read before its transaction
may be out of date: a step takes its snapshots as arguments, and they may be any values the rows have
ever had, of any mixture of ages. The only read order that is kept is the one `cancel` relies on, a Run
read before its Action. A history is any sequence of steps. `Invariants` says what
holds in every reachable state, `Edges` and the `*Steps` modules prove that each step keeps it, `Changes`
gives the transition relation, and `Histories`, `Commits`, `Idempotency` and `Settlement` state the
theorems, with `Answers` for questions and their answers, `Phases` for what a submission decides about its
Run, `Blocking` for blocked Conversations and `Execution` for what snapshots are and what an executing
Attempt runs. Most of them hold with arbitrary timestamps. Those of `Settlement`, except for its lemmas about
a single recovery pass, need timestamps that do not go back in commit order. `PostgresStore`,
`ControlPlane` and `WorkerService` are the same
transactions, calls and claim loop as classes that update their fields statement by statement, with
rollback; their contracts tie them to the functions of the protocol.

**Plans.** `PlanGraph` is the validator's layered cycle check, `WorkflowExecutor` the fixed Workflow
script with its parallel batches, `PlanCompiler` validation, compilation and the digests that tie an
approved plan to what is run.

**Retrieved context.** `ContextRenderer` packs memories into a text bounded in UTF-8 bytes (`Utf8`) and
reads them back.

**One process.** `ConversationDrain` models the in-process drain tasks between their suspension points.

Some design decisions the reader should know:

- A duplicate submission to a Conversation that has been blocked since is refused, although the first
  one was accepted: the status is checked before the key. `Idempotency.ReplayInConversation` gives the
  exact condition.
- Settling checks that the Run it read was not CANCELLED, not that it was RUNNING. For Conversation Runs
  this is enough. For standalone Runs, which can be retried in place, it is not:
  `StandaloneRuns.CancelledAttemptSucceeds` is the history, `StandaloneRuns.SettlesARunningAttemptIff`
  the exact condition, and `StandaloneRuns.CheckedSettlementsAreFinal` what the stronger check would give.
- The recovery pass lowers the lease of each Attempt it interrupts. This never changes a row, because the
  leases of abandoned Attempts have expired already (`Changes.PassRecovers`).
- A digest of a submission is taken to be collision-free, and so is the digest of a plan where a lemma
  says so. Plans are kept by Run, which `UNIQUE(run_id)` allows.

## Model

| member | source | states |
|---|---|---|
| Histories.Reachable | src/dsh_base_agent/control/plane.py:1181-1220 | Every state that any interleaving of workers, API calls, blocking and recovery can reach satisfies the invariant of module Invariants, whatever the timestamps are. |
| Histories.StepKeeps | src/dsh_base_agent/store/postgres.py:826-1095 | Each of the 22 steps keeps the invariant, with snapshots of any age in the caller's hands. |
| Changes.StepMoves | src/dsh_base_agent/control/plane.py:647-1179 | The transition relation: which step may create or change which Run, Attempt, Action, Plan or Conversation, from what into what, and under which valid lease or as whose call; no row disappears and none changes otherwise. |
| Histories.MutualExclusion | src/dsh_base_agent/store/postgres_migrations.py:66-68 | Two different Runs of a Conversation are never RUNNING or WAITING together. |
| Histories.IndexNeverRejectsBegin | src/dsh_base_agent/store/postgres.py:434-452 | The unique index on active Runs never rejects the begin_attempt of a worker, however stale the listing from which it picked the Run. |
| Histories.IndexesNeverRejectAsk | src/dsh_base_agent/store/postgres.py:555-619 | A question is never rejected by the index on active Runs, nor by the one on pending Actions. |
| Histories.SequenceOrder | src/dsh_base_agent/control/plane.py:1201-1219 | Once a Run has had an Attempt, every Run of the Conversation with a smaller sequence is terminal, then and at any later time. |
| Histories.RunsLast | src/dsh_base_agent/control/plane.py:799-809 | Over any history a Run keeps its id, place and request, its revision and attempt count never fall, an equal revision means an equal row, and a terminal Conversation Run stays terminal. |
| Histories.TokensCountGrants | src/dsh_base_agent/store/postgres.py:872-898 | The token of a resource is the number of times it was ever granted: one more per grant, unchanged by renewal, release, expiry and recovery. |
| Histories.FencedWrite | src/dsh_base_agent/store/postgres.py:1073-1095 | A lease-guarded write changes the database only if its token is that of the newest grant and its lease is valid at that moment. |
| Histories.StaleTokensNeverWrite | src/dsh_base_agent/store/postgres.py:1073-1095 | After a newer grant, no write with an older token ever commits, whatever the clocks do. |
| Histories.RequiredActionCoherence | src/dsh_base_agent/store/postgres.py:555-645 | A Conversation Run refers to an Action exactly while it is WAITING with that Action pending or QUEUED with it answered. |
| Histories.OneOpenAction | src/dsh_base_agent/store/postgres_migrations.py:236-238 | At most one Action of a Run is pending or answered. |
| Histories.ConsumedByTheNextAttempt | src/dsh_base_agent/control/plane.py:1768-1823 | A consumed answer was consumed by an Attempt of the same Run, numbered one above the Attempt that asked. |
| Histories.ActionsLast | src/dsh_base_agent/store/postgres.py:1468-1496 | An answer is never replaced, and a consumed, expired or cancelled Action never changes again: it is consumed at most once. |
| Answers.TurnWorksOnTheAnswer | src/dsh_base_agent/control/plane.py:1766-1791 | In a Conversation an Attempt works on the original input if and only if it is the first of its Run; an Attempt that has consumed an answer works on exactly that answer, and one that works on an answer works on the recorded one to the question of the Attempt before it, which it consumed. |
| Answers.AnswersReachable | src/dsh_base_agent/control/plane.py:1768-1823 | In every reachable state a QUEUED Conversation Run without an answered Action has had no Attempt, only answered questions are consumed, and no Attempt after the first is sent the original prompt. |
| Answers.AnswersWereDelivered | src/dsh_base_agent/control/plane.py:1770-1823 | For every consumed answer there is the step of the history that began the consuming Attempt, and the turn of that Attempt was given that answer. |
| Answers.AnswersWereGiven | src/dsh_base_agent/control/plane.py:893-1000 | For every answer on record there is the resume call of the Run's owner that gave it, while the question was pending and the Run waited for it. |
| Histories.DecisionsLast | src/dsh_base_agent/store/postgres.py:703-737 | A decided Plan never changes again: each Plan is decided at most once. |
| Histories.ApprovalsWereGiven | src/dsh_base_agent/control/plane.py:1080-1138 | For every recorded approval there is the step of the history in which the Run's owner approved that Plan, present and still proposed, by id, revision and digest, and in which the Plan passed the check of script, arguments and Plan digests. |
| Histories.OnlyApprovedPlansExecute | src/dsh_base_agent/control/plane.py:1080-1138 | A Run in phase EXECUTING, or with an Attempt that was, has an APPROVED Plan, and an earlier step approved exactly its id, proposed revision and digest. |
| Histories.RejectedPlansNeverExecute | src/dsh_base_agent/control/plane.py:811-814 | After a Plan is rejected, its Run is never EXECUTING and never gets an executing Attempt, under any later cancel, retry or resume. |
| Histories.CancelledProposalsNeverExecute | src/dsh_base_agent/control/plane.py:688-711 | The same holds after a Run is cancelled while it waits for the decision about its Plan. |
| Histories.PlanContentLasts | src/dsh_base_agent/store/postgres.py:1371-1394 | What a Plan says and the digest it says it under never change; only its decision is added. |
| Execution.ApprovedPlanWasApproved | src/dsh_base_agent/control/plane.py:1506-1509 | An approved Plan that an executing task has read, at whatever moment, is still the stored one, and the owner approved it. |
| Execution.ExecutedIsApproved | src/dsh_base_agent/control/plane.py:1506-1511 | What a task runs when the approved Plan it has read verifies has the steps, tools and arguments of the very Plan that the owner's decision named and found to verify, and gives the agent the same tools; with a collision-free digest the compiled Workflow, its script included, is the same too. |
| Histories.NoSilentReplay | src/dsh_base_agent/control/plane.py:815-826 | attempt_count, plus one while QUEUED, is at most one more than the committed retries, answers and approvals of the Run: nothing else dispatches it again. |
| Histories.NumbersHaveNoGaps | src/dsh_base_agent/store/postgres.py:226-326 | The sequences of a Conversation are exactly 1 to next_sequence - 1 and the Attempt numbers of a Run exactly 1 to attempt_count, each used once, although blocking reads without a lock. |
| Histories.RevisionsCountWrites | src/dsh_base_agent/store/postgres.py:1510-1512 | The revision of every row is the number of committed writes to it, its creation included. |
| Phases.SubmissionStarts | src/dsh_base_agent/control/plane.py:341-519 | A new Run is QUEUED, untried, with the request of its submission; in PLANNING if it was submitted for an agent with Plan-ReAct and in DIRECT otherwise, and with the next sequence in a Conversation. Only the two ways to submit create one. |
| Phases.SubmittedPhase | src/dsh_base_agent/control/plane.py:483 | Over any continuation, a Run submitted with Plan-ReAct is never in phase DIRECT and each of its Attempts was made for planning or for executing, the latter only with an approved Plan that an earlier step of the owner approved; a Run submitted without it, or to a Conversation, never has a Plan and all its Attempts are DIRECT. |
| Blocking.BlockBlocks | src/dsh_base_agent/control/plane.py:2120-2148 | A block takes effect if and only if the Conversation is as it was read; then it is BLOCKED, and nothing else has changed. |
| Blocking.BlockedLasts | src/dsh_base_agent/control/plane.py:2120-2148 | A BLOCKED Conversation is BLOCKED after every continuation. |
| Blocking.BlockedAddsNoRun | src/dsh_base_agent/store/postgres.py:226-326 | From then on it has exactly the Runs it had. |
| Blocking.BlockedIsNeverClaimed | src/dsh_base_agent/store/postgres.py:838-898 | None of its Runs is ever a candidate of a claim, and its lease is never granted again. |
| Blocking.ActiveWasReadBefore | src/dsh_base_agent/control/plane.py:1196-1200 | Whoever holds it as ACTIVE has read it before the block. |
| Blocking.BlockedSelectsNone | src/dsh_base_agent/control/plane.py:1196-1219 | A task selects one of its Runs only if it had read the Conversation before the block. |
| Execution.RunWasRead | src/dsh_base_agent/store/postgres.py:381-384 | A Run that a step may hold in its hand is the row of that Run at some earlier moment of the history. |
| Execution.PlanWasRead | src/dsh_base_agent/store/postgres.py:647-656 | The same of a Plan. |
| Execution.ReadsOfAnyAge | src/dsh_base_agent/store/postgres.py:381-384 | Conversely, a step may hold every row as it is or ever was, and every Action together with any Run read before it. |
| Execution.ReadInThatOrder | src/dsh_base_agent/control/plane.py:654-662 | A caller that reads a Run and then an Action holds the Run of a moment no later than that of the Action. |
| Commits.BeginCommitsIff | src/dsh_base_agent/store/postgres.py:413-452 | begin_attempt commits if and only if the lease is valid, the Attempt id is new and Run and answered Action are as they were read; no constraint can stop it. |
| Commits.SettleCommitsIff | src/dsh_base_agent/store/postgres.py:480-527 | A worker's settlement commits if and only if its lease is valid and neither Run nor Attempt has changed since it was read. |
| Commits.AnswerCommitsIff | src/dsh_base_agent/store/postgres.py:621-645 | An answer takes effect if and only if Run and Action are still as they were read. |
| Commits.SubmissionCreatesIff | src/dsh_base_agent/store/postgres.py:226-326 | A Conversation accepts a new Run if and only if it is ACTIVE, of the tenant, principal, agent and fingerprint of the request, no Run waits for an answer and key and id are unused; the Run gets the next sequence, which the unique constraint never rejects. |
| Commits.ReleasedCanBeClaimed | src/dsh_base_agent/store/postgres.py:931-950 | A released lease is never valid again by itself, and its resource can be claimed at once with the next token. |
| Idempotency.OneRunPerKey | src/dsh_base_agent/store/postgres.py:226-379 | Over any history and both ways to submit, at most one Run is created under a tenant's key, and exactly one once the key is known. |
| Idempotency.KeysLast | src/dsh_base_agent/store/postgres.py:1224-1241 | What a key stands for never changes. |
| Idempotency.ReplayReturnsTheRun | src/dsh_base_agent/control/plane.py:485-497 | Resubmitting changes nothing; it returns the first Run if and only if the digest is the same, and that Run has the caller's tenant, principal, fingerprint, input and metadata and no Conversation. |
| Idempotency.ReplayInConversation | src/dsh_base_agent/control/plane.py:394-415 | The same inside a Conversation, where a replay consumes no sequence; it succeeds if and only if the Conversation is also ACTIVE and of the caller's identity. |
| Settlement.ClockedReachable | src/dsh_base_agent/store/postgres.py:952-1071 | With timestamps that never go back, only a cancellation takes a Conversation Run from a task whose lease may still be valid, and the lease of an interrupted Attempt is over. |
| Settlement.SettledOnce | src/dsh_base_agent/control/plane.py:2257-2356 | Of worker, cancellation and recovery racing on a Conversation Run, what the first commits is final: the terminal row never changes again. |
| Settlement.AttemptSettledOnce | src/dsh_base_agent/store/postgres.py:503-527 | The terminal row of an Attempt of a Conversation Run never changes again. |
| Settlement.ExactlyOneSettlement | src/dsh_base_agent/store/postgres.py:480-527 | In every history with such timestamps exactly one transaction has written a terminal row of a Conversation Run that is over, and none of one that is not. |
| Settlement.InterruptedForGood | src/dsh_base_agent/store/postgres.py:900-929 | The lease of an interrupted Attempt can never pass for valid again. |
| Settlement.RecoveryIsSound | src/dsh_base_agent/store/postgres.py:973-1000 | A recovery pass leaves the rows of a Run alone whose Attempt's lease is valid. |
| Settlement.RecoverySettlesItsRows | src/dsh_base_agent/store/postgres.py:1001-1070 | A pass never aborts, fails the Runs it selected, and leaves exactly the other abandoned Runs abandoned. |
| Settlement.RecoveryIsComplete | src/dsh_base_agent/store/postgres.py:973-1000 | After a pass with room for all abandoned Runs, every RUNNING Run has an Attempt with a valid lease. |
| Changes.PassRecovers | src/dsh_base_agent/store/postgres.py:1001-1070 | The whole pass commits, fails exactly the selected Runs, interrupts exactly their active Attempts, and lowers no lease: those of abandoned Attempts are over already. |
| StandaloneRuns.CancelledAttemptSucceeds | src/dsh_base_agent/control/plane.py:2257-2300 | The single settlement is false of standalone Runs: a history, on time and under a valid lease, in which a cancelled Attempt turns SUCCEEDED together with its Run, which retry had queued again. |
| StandaloneRuns.SettlesARunningAttemptIff | src/dsh_base_agent/control/plane.py:2161-2165 | A settlement of any of the three kinds that commits settles an Attempt that is running if and only if the Run it has read was RUNNING; the program asks only that it was not CANCELLED. |
| StandaloneRuns.TerminalAttemptChanges | src/dsh_base_agent/control/plane.py:2266-2270 | Of all steps, only a settlement whose Run was read in another status than RUNNING can change the row of an Attempt that is over. |
| StandaloneRuns.CheckedSettlementsAreFinal | src/dsh_base_agent/control/plane.py:2325-2329 | If every settlement had read a RUNNING Run, the row of an Attempt that is over would never change again, of standalone Runs too and whatever the clocks do. |
| PostgresStore.PostgresControlStore.ClaimWork | src/dsh_base_agent/store/postgres.py:826-898 | The loop grants the first candidate whose resource is free, with the next token; it returns nothing only if every candidate is held, and every runnable unlocked Run unless there are more than 32. |
| PostgresStore.PostgresControlStore.Candidates | src/dsh_base_agent/store/postgres.py:838-861 | The rows a claim may look at: QUEUED Runs that stand alone or of an ACTIVE Conversation in which none is RUNNING or WAITING. |
| PostgresStore.PostgresControlStore.Upsert | src/dsh_base_agent/store/postgres.py:872-896 | The upsert takes a resource that has no lease row or an expired one, with token 1 or the next, and leaves one that is held alone. |
| PostgresStore.PostgresControlStore.RenewWorkLease | src/dsh_base_agent/store/postgres.py:900-929 | A renewal succeeds exactly for a valid lease, changes its expiry only, and makes it valid for the seconds asked for. |
| PostgresStore.PostgresControlStore.ReleaseWorkLease | src/dsh_base_agent/store/postgres.py:931-950 | A release succeeds exactly for the current lease, expired or not, and ends it. |
| PostgresStore.PostgresControlStore.AssertLease | src/dsh_base_agent/store/postgres.py:1073-1095 | The lease check passes exactly without a lease or with a valid one. |
| PostgresStore.PostgresControlStore.BeginAttempt | src/dsh_base_agent/store/postgres.py:413-452 | Lease, Attempt, Run and consumed Action in one transaction: all are written or none, as the specification says. |
| PostgresStore.PostgresControlStore.ReplaceAttempt | src/dsh_base_agent/store/postgres.py:464-478 | A fenced compare-and-swap of the Attempt. |
| PostgresStore.PostgresControlStore.SettleAttempt | src/dsh_base_agent/store/postgres.py:480-527 | Attempt, Run and settled Action together or not at all, each by compare-and-swap. |
| PostgresStore.PostgresControlStore.EnterRequiredAction | src/dsh_base_agent/store/postgres.py:555-619 | The question, the waiting Attempt and the waiting Run together, from the present rows, only while the Run executes that Attempt. |
| PostgresStore.PostgresControlStore.AnswerRequiredAction | src/dsh_base_agent/store/postgres.py:621-645 | The answered Action and the queued Run together or not at all. |
| PostgresStore.PostgresControlStore.CompletePlanning | src/dsh_base_agent/store/postgres.py:658-701 | Attempt, Run, Plan and approval request together or not at all. |
| PostgresStore.PostgresControlStore.DecidePlan | src/dsh_base_agent/store/postgres.py:703-737 | Plan, Run and Action of a decision together or not at all. |
| PostgresStore.PostgresControlStore.CreateConversationRun | src/dsh_base_agent/store/postgres.py:226-326 | Key, Conversation counter and Run together or not at all, with the checks in the order of the code. |
| PostgresStore.PostgresControlStore.CreateRun | src/dsh_base_agent/store/postgres.py:346-379 | A standalone Run and its key together, or the Run of an earlier submission. |
| PostgresStore.PostgresControlStore.ReplaceConversation | src/dsh_base_agent/store/postgres.py:183-224 | A compare-and-swap of the Conversation. |
| PostgresStore.PostgresControlStore.AbandonedRows | src/dsh_base_agent/store/postgres.py:973-1000 | The rows a recovery pass may look at: RUNNING Runs whose running Attempt carries a lease that is not valid any more. |
| PostgresStore.PostgresControlStore.InterruptExpiredAttempts | src/dsh_base_agent/store/postgres.py:952-1071 | One pass takes min(limit, abandoned and unlocked) Runs, always commits, has exactly the effect of Changes.Recovered, and leaves that many abandoned Runs fewer; a limit of zero or less is refused. |
| PostgresStore.PostgresControlStore.AppendEvent | src/dsh_base_agent/store/postgres.py:1151-1198 | If the events of a Run are numbered 1 to n, each once, the new one gets n + 1 and they are numbered 1 to n + 1; other Runs' events are untouched. |
| PostgresStore.EventsStayNumbered | src/dsh_base_agent/store/postgres.py:1161-1169 | Over any sequence of calls that each leave the events alone or append one, the events of every Run are numbered 1 to n, each once. |
| ControlPlane.NextQueued | src/dsh_base_agent/control/plane.py:1206-1215 | From a listing: nothing while a Run is RUNNING or WAITING or none is QUEUED, else the QUEUED Run with the smallest sequence. |
| ControlPlane.ListedIsNextInLine | src/dsh_base_agent/control/plane.py:1205-1219 | What that loop picks from a complete listing is what the Select step of the protocol picks. |
| ControlPlane.ControlPlane.CreateConversation | src/dsh_base_agent/control/plane.py:270-322 | A new Conversation is ACTIVE, starts at sequence 1 and belongs to its caller, as the OpenConversation step has it; a taken id is refused. |
| ControlPlane.ControlPlane.PickRun | src/dsh_base_agent/control/plane.py:1189-1196 | The Run branch of execute_leased_work picks the Run of the lease exactly if it is QUEUED, as the Select step does. |
| ControlPlane.ControlPlane.PickNext | src/dsh_base_agent/control/plane.py:1196-1219 | The Conversation branch of execute_leased_work picks the Run that the Select step picks, and none exactly when no Select step picks one. |
| ControlPlane.ControlPlane.Submit | src/dsh_base_agent/control/plane.py:444-519 | submit does what the Submit step does, for an agent with Plan-ReAct in PLANNING and for any other in DIRECT; it refuses blank input and agents that may ask the user. |
| ControlPlane.ControlPlane.SubmitToConversation | src/dsh_base_agent/control/plane.py:341-442 | A submission by the owner to an ACTIVE Conversation does what the SubmitToConversation step does, and a new Run takes the next sequence; any other is refused. |
| ControlPlane.ControlPlane.Cancel | src/dsh_base_agent/control/plane.py:647-742 | From snapshots of any age, cancel does to the store what the Cancel step does, reports what it did, and does nothing when it refuses. |
| ControlPlane.ControlPlane.CommitCancel | src/dsh_base_agent/control/plane.py:688-742 | The transaction cancel makes: the decision of a Plan, the settlement of a live Attempt, or the Run alone. |
| ControlPlane.ControlPlane.Retry | src/dsh_base_agent/control/plane.py:799-827 | retry queues a failed or cancelled standalone Run again, unless its Plan was rejected, and nothing else. |
| ControlPlane.ControlPlane.MayResume | src/dsh_base_agent/control/plane.py:876-897 | The checks of resume let exactly the owner through, of a Run that waits for this pending question. |
| ControlPlane.ControlPlane.Resume | src/dsh_base_agent/control/plane.py:871-1000 | An answer in time queues the Run; one that comes too late cancels Run, Attempt and Action instead. |
| ControlPlane.ControlPlane.MayDecide | src/dsh_base_agent/control/plane.py:1040-1092 | The checks of a decision let exactly the owner through, of a Run that waits for it, with a decision and an Action that both name the proposed Plan by id, revision and digest, and an approval only if the Plan verifies. |
| ControlPlane.ControlPlane.ResolvePlanAction | src/dsh_base_agent/control/plane.py:1028-1138 | A decision that passes the checks and commits queues the Run to execute, or cancels it; the Plan is approved or rejected by that principal and the Action consumed with the decision. |
| ControlPlane.ControlPlane.BlockConversation | src/dsh_base_agent/control/plane.py:2120-2135 | Afterwards the Conversation that was read is BLOCKED, if it was ACTIVE and has not changed; otherwise nothing is written. |
| ControlPlane.ControlPlane.BeginRun | src/dsh_base_agent/control/plane.py:1753-1823 | The start of an Attempt does what the Begin step does, and hands the turn the input of that step. |
| ControlPlane.ControlPlane.RequestUserInput | src/dsh_base_agent/control/plane.py:1899-1919 | A question does what the Ask step does: the Run and its Attempt wait for the pending Action, which asks the owner exactly this until it expires. |
| ControlPlane.ControlPlane.SettleRun | src/dsh_base_agent/control/plane.py:2257-2342 | Settling does what the settle steps do, and nothing to a Run that was read CANCELLED. |
| ControlPlane.ControlPlane.SettlePlanning | src/dsh_base_agent/control/plane.py:2150-2217 | A finished planning Attempt becomes a proposed Plan and a request for its approval, or nothing. |
| ControlPlane.ControlPlane.SetDispatchState | src/dsh_base_agent/control/plane.py:2373-2405 | The dispatch state of a running Attempt moves under the lease. |
| ControlPlane.ControlPlane.RecoverStartup | src/dsh_base_agent/control/plane.py:1316-1387 | After a restart of a single process every Run that was RUNNING has failed with its Attempt interrupted, every other row is unchanged, and what is scheduled is exactly every standalone QUEUED Run and, once, every ACTIVE Conversation with a QUEUED Run. |
| ControlPlane.StartupStartsDrains | src/dsh_base_agent/control/plane.py:1376-1387 | Those calls are what the drain of each Conversation needs to start with, so that no QUEUED Run is forgotten. |
| WorkerService.WorkerService.ClaimAvailableWork | src/dsh_base_agent/worker/service.py:157-192 | The loop ends only when the worker is stopped, has as many tasks as it may have, finds nothing that is free, or is given a resource that has no room: with room for what is free and nobody locking rows it claims something. Each new task has a runnable Run and a lease of the full length, every lease row written has its own task here or is over, no task is lost, and neither capacity is exceeded by a new one. |
| WorkerService.ClaimIsAStep | src/dsh_base_agent/worker/service.py:161-190 | Whatever a claim of the store does is a Claim step of the protocol, and the lease it grants has an idle task. |
| WorkerService.WorkerService.Take | src/dsh_base_agent/store/postgres.py:826-898 | A claim writes the lease row of a runnable, unlocked Run whose resource nobody holds, and only then; it finds none only if all it looks at are held. |
| ConversationDrain.Reachable | src/dsh_base_agent/control/plane.py:1254-1314 | The invariant of the in-process drain, from any start of a process, over every interleaving of API calls, store changes and drain tasks. |
| ConversationDrain.OneTaskInLoop | src/dsh_base_agent/control/plane.py:1254-1300 | At most one drain task of a Conversation is inside its loop. |
| ConversationDrain.OneRunOccupies | src/dsh_base_agent/control/plane.py:1273-1294 | Without any index in the store, at most one Run of the Conversation is RUNNING or WAITING. |
| ConversationDrain.NoWakeUpIsLost | src/dsh_base_agent/control/plane.py:1254-1314 | A QUEUED Run of an ACTIVE Conversation for which no scheduling call is still to come has a registered task that has not deregistered, or a task whose look at the queue is still ahead, after a restart too. |
| ConversationDrain.QueuedRunsBegin | src/dsh_base_agent/control/plane.py:1254-1314 | From wherever the tasks and scheduling calls of an idle ACTIVE Conversation with a QUEUED Run stand, some Run begins by their own steps alone. |
| ConversationDrain.ConversationTasks.ScheduleConversation | src/dsh_base_agent/control/plane.py:1254-1264 | The dictionary keeps showing the state of the drain, through its scheduling step; afterwards a task that is not done is registered, and other Conversations are untouched. |
| ConversationDrain.ConversationTasks.Deregister | src/dsh_base_agent/control/plane.py:1295-1299 | The dictionary keeps showing the state of the drain, through its deregistering step: the task finds its own registration, nobody is registered afterwards, the drain is still guarded by the look that task has ahead, and other Conversations are untouched. |
| PlanGraph.AssertAcyclic | src/dsh_base_agent/control/plan_react.py:350-361 | The check ends, and accepts if and only if the dependency relation has no cycle. |
| PlanGraph.ResolvedIffAcyclic | src/dsh_base_agent/control/plan_react.py:350-361 | The layers reach all steps if and only if there is no cycle, and then within as many rounds as there are steps. |
| PlanGraph.ResolvedByDepth | src/dsh_base_agent/control/plan_react.py:353-361 | After k rounds exactly those steps are resolved from which no dependency chain is longer than k. |
| PlanGraph.RoundsAreDepth | src/dsh_base_agent/control/plan_react.py:26-57 | The number of rounds is the length of the longest dependency chain. |
| PlanGraph.RoundsAreFewest | src/dsh_base_agent/control/plan_react.py:26-57 | No assignment of steps to rounds that respects the dependencies has fewer. |
| WorkflowExecutor.RunWorkflow | src/dsh_base_agent/control/plan_react.py:22-67 | The script throws if and only if there is a cycle; otherwise it calls agent once per step, after its dependencies, in as many rounds as the plan is deep; each call is handed the outputs of exactly the steps it depends on, and what is returned for each step, in order, is what its call gave. |
| WorkflowExecutor.SolutionHands | src/dsh_base_agent/control/plan_react.py:38-47 | In a solution of out[s] = agent(s, out of s.dependsOn) the second argument of each call has exactly the dependencies as keys, with their outputs. |
| WorkflowExecutor.CallAgents | src/dsh_base_agent/control/plan_react.py:36-50 | A batch calls agent once per ready step, with the outputs so far of its dependencies. |
| WorkflowExecutor.RoundAdvances | src/dsh_base_agent/control/plan_react.py:26-57 | After k rounds the keys of outputs are what the validator has resolved after k rounds, and each round makes progress. |
| WorkflowExecutor.CalledAll | src/dsh_base_agent/adapters/dsh/direct_workflow_rpc_plugin.mjs:88 | The calls are the steps in a topological order, exactly as many as maxTotalAgents allows. |
| WorkflowExecutor.SolutionIsUnique | src/dsh_base_agent/control/plan_react.py:36-57 | The equations of an accepted plan have at most one solution. |
| WorkflowExecutor.BatchesAreSequential | src/dsh_base_agent/control/plan_react.py:36-57 | Running the steps one at a time, in any topological order, gives the same outputs as the parallel batches, and hands each step the outputs of exactly its dependencies. |
| PlanCompiler.ValidateProposal | src/dsh_base_agent/control/plan_react.py:305-347 | The proposal is accepted in its normal form, or refused with the first rule it breaks, in the order of the code. |
| PlanCompiler.CheckSteps | src/dsh_base_agent/control/plan_react.py:320-333 | The loop over the steps reports the first broken rule of the first step that breaks one. |
| PlanCompiler.DedupeKeepsOrder | src/dsh_base_agent/control/plan_react.py:335 | Of duplicate tools the first stays, so the tools keep the order in which they were first named. |
| Text.StripCuts | src/dsh_base_agent/control/plan_react.py:305 | Stripping cuts off white space at both ends, all of it and nothing else. |
| Text.BlankIsAllSpace | src/dsh_base_agent/store/postgres.py:834 | A text is blank if and only if it has nothing but white space. |
| PlanCompiler.ValidatedIsAccepted | src/dsh_base_agent/control/plan_react.py:316-347 | An accepted proposal is bounded, stripped, without duplicates, closed under dependencies and acyclic, and asks only for tools the agent has. |
| PlanCompiler.RevalidationIsIdentity | src/dsh_base_agent/control/plan_react.py:218-226 | Validating a captured proposal again accepts it and returns it unchanged. |
| PlanCompiler.PlanSubmissionCollector.SubmitPlan | src/dsh_base_agent/control/plan_react.py:91-135 | The first valid plan is captured; nothing submitted later replaces it. |
| PlanCompiler.CompilePlan | src/dsh_base_agent/control/plan_react.py:212-265 | A captured proposal compiles to a proposed plan whose shown summary, steps and tools are the proposal's, whose arguments hold the same steps and tools, the input and the configured workflow, and which verifies to the pinned script with exactly those arguments. |
| PlanCompiler.CompiledPlanVerifies | src/dsh_base_agent/control/plan_react.py:268-302 | A compiled plan verifies, also after its decision is recorded, and yields the script with the plan's own arguments. |
| PlanCompiler.VerifiedPlanIsTheApprovedOne | src/dsh_base_agent/control/plan_react.py:268-302 | With a collision-free digest, a stored plan that verifies and carries the approved digest has the approved run, summary, steps, tools, workflow, script and arguments. |
| PlanCompiler.CompiledStepsAreAcyclic | src/dsh_base_agent/control/plan_react.py:227-241 | The arguments that run contain the validated steps: a well-formed graph without cycles, within the step limit. |
| PlanCompiler.ExecutionHasTheApprovedTools | src/dsh_base_agent/control/plan_react.py:194-209 | The executing agent exists exactly if the agent has every approved tool, and then has those and no others. |
| ContextRenderer.RenderContext | src/dsh_base_agent/adapters/dsh/context_gateway.py:348-382 | The UTF-8 encoding of the text is no longer than max_bytes, included and omitted add up, and reading it back gives exactly the kept memories. |
| ContextRenderer.ByteLengthIsEncoded | src/dsh_base_agent/adapters/dsh/context_gateway.py:375-377 | The length that is compared with the budget is that of the UTF-8 encoding. |
| Utf8.DecodeEncoded | src/dsh_base_agent/adapters/dsh/context_gateway.py:376 | The encoding decodes to the text it is of. |
| ContextRenderer.KeptIsMaximal | src/dsh_base_agent/adapters/dsh/context_gateway.py:363-379 | The text never outgrows the budget, and no memory that was left out would still fit into the final text. |
| ContextRenderer.KeptInOrder | src/dsh_base_agent/adapters/dsh/context_gateway.py:363-379 | The kept memories stay in order. |
| ContextRenderer.TextReadsBack | src/dsh_base_agent/adapters/dsh/context_gateway.py:353-388 | The rendered text determines its memories, with all their fields, uniquely. |
| ContextRenderer.ReadLineBack | src/dsh_base_agent/adapters/dsh/context_gateway.py:364-372 | Each line reads back to its memory, whatever follows it. |
| ContextRenderer.LineIsContained | src/dsh_base_agent/adapters/dsh/context_gateway.py:386-388 | No line contains < or a newline, so no memory can close the wrapper or its own line. |

## Left out

- Event and audit appends inside and after the transactions of the protocol: they are assumed to succeed (a failing append after a committed settlement would be routed into the failure path); only the numbering of events is modelled, in `PostgresControlStore.AppendEvent` and `PostgresStore.EventsStayNumbered`.
- Isolation below the level of a transaction, deadlocks and connection failures: transactions are atomic, and `SKIP LOCKED` and the ORDER BY of the claim and recovery queries become an arbitrary choice among the unlocked rows.
- Changes.Recovered: the updated_at ordering of the recovery query and the error texts it writes are not kept.
- The second statement of a question, `pending_action = action`, is one step with `enter_required_action`.
- The revisions that callers of `resume` and of a plan decision may expect of the Run: they only refuse more.
- The clock of `resume`: the protocol lets an answer or an expiry happen at any time; `ControlPlane.Resume` decides by the time it is given.
- Histories.SequenceOrder: ordering is stated for Conversations; standalone Runs have no order.
- The content of a proposed Plan is arbitrary in the histories; that a planning Attempt proposes what `compile_plan` returns is `PlanCompiler.CompilePlan`, and what is approved and run has to verify in any case.
- Execution.ExecutedIsApproved: that approving and executing process use the same digest function is a hypothesis.
- Settlement.SettledOnce: stated for Conversation Runs only, because it is false of standalone Runs.
- The recovery of Attempts without a lease happens only at the restart of a single process (`ControlPlane.RecoverStartup`), not in the histories, which are those of Worker mode.
- Output, error texts, names, creation times and other columns that no rule reads back.
- `SqliteControlStore` as such: its transactions are the same functions without leases; what its mode adds, exclusion without an index, is `ConversationDrain`.
- ConversationDrain.NoWakeUpIsLost: assumes that store reads succeed and the plane is not closed; it does not claim that the drain goes quiet, since one WAITING and one QUEUED Run make it start again and again.
- The schedule of standalone Runs in one process (`_schedule`, `_deferred_schedules`), its task cancellation and `wait`.
- Heartbeat timing, idle timeouts, fairness and liveness; safety does not rest on them.
- The DSH turn is an arbitrary result, an `agent` call of a Workflow an uninterpreted function of its step and dependency results; prompts are not modelled.
- WorkflowExecutor.RunWorkflow: `outputs` is an ideal map; a JavaScript object differs from it for the id `__proto__` only.
- PlanCompiler.VerifiedPlanIsTheApprovedOne: canonical JSON and SHA-256 are an injective function by assumption.
- ContextRenderer.RenderContext: strings are Unicode scalar values, so lone surrogates, which the encoder refuses, do not occur; the text of a score is any sequence of the characters a float can print as.
- The planning agent's prompt and read-only tools, the authorizer, Tool and Memory gateways, artifacts, the Kafka publisher, HTTP, configuration and migrations.
