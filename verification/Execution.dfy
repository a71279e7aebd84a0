/** What a step may hold in its hand is what the rows have held; and what an executing Attempt
    runs is what the owner of the Run approved. */
module Execution {
  import PlanCompiler
  import opened Records
  import opened Transactions
  import opened Protocol
  import opened Invariants
  import opened Changes
  import opened Histories

  // ----- Snapshots -----

  lemma PerformKeepsSeen(s: System, step: Step)
    ensures Perform(s, step).seen == s.seen
  {
    if Leased(step) || step.Claim? || step.Renew? || step.Release? || step.Select? || step.Leave? || step.End? {
      hide BeginOutcome, SettleOutcome, PlanningOutcome, EnterRequiredAction, ReplaceAttempt, ClaimWork, CanBegin, CanSettle;
      hide NextInLine, RenewLease, ReleaseLease, Runnable;
    } else {
      hide CanCancel, CancelOutcome, CreateRun, CreateConversationRun, InterruptAll, AllAbandoned, AnswerRequiredAction;
      hide ReplaceRun, SettleAttempt, CanResume, CanDecide, DecideOutcome, ReplaceConversation, CreateConversation;
    }
  }

  lemma SeenAfter(s: System, step: Step)
    ensures Do(s, step).seen == Observe(s.(db := Do(s, step).db)).seen
  {
    PerformKeepsSeen(s, step);
    hide Perform;
  }

  lemma NewRunSeen(s: System, step: Step, run: Run)
    requires run in Do(s, step).seen.runs && run !in s.seen.runs
    ensures exists r :: r in Do(s, step).db.runs && Do(s, step).db.runs[r] == run
  {
    SeenAfter(s, step);
    hide Do;
  }

  lemma NewPlanSeen(s: System, step: Step, plan: Plan)
    requires plan in Do(s, step).seen.plans && plan !in s.seen.plans
    ensures exists r :: r in Do(s, step).db.plans && Do(s, step).db.plans[r] == plan
  {
    SeenAfter(s, step);
    hide Do;
  }

  lemma NewPairSeen(s: System, step: Step, run: Run, action: Action)
    requires (run, action) in Do(s, step).seen.later && (run, action) !in s.seen.later
    ensures run in Do(s, step).seen.runs
    ensures exists x :: x in Do(s, step).db.actions && Do(s, step).db.actions[x] == action
  {
    SeenAfter(s, step);
    hide Do;
  }

  /** A Run that a step may hold is the row at some moment of the history. */
  lemma {:induction false} RunWasRead(steps: seq<Step>, run: Run) returns (k: nat)
    requires run in After(steps).seen.runs
    ensures k <= |steps| && run.id in After(steps[..k]).db.runs && After(steps[..k]).db.runs[run.id] == run
  {
    hide Do;
    var before := steps[..|steps| - 1];
    assert After(steps) == Do(After(before), steps[|steps| - 1]);
    assert steps[..|steps|] == steps;
    hide After;
    if run in After(before).seen.runs {
      k := RunWasRead(before, run);
      assert before[..k] == steps[..k];
    } else {
      k := |steps|;
      NewRunSeen(After(before), steps[|steps| - 1], run);
      KeysAreIds(steps);
    }
  }

  lemma {:induction false} PlanWasRead(steps: seq<Step>, plan: Plan) returns (k: nat)
    requires plan in After(steps).seen.plans
    ensures k <= |steps| && plan.run in After(steps[..k]).db.plans && After(steps[..k]).db.plans[plan.run] == plan
  {
    hide Do;
    var before := steps[..|steps| - 1];
    assert After(steps) == Do(After(before), steps[|steps| - 1]);
    assert steps[..|steps|] == steps;
    hide After;
    if plan in After(before).seen.plans {
      k := PlanWasRead(before, plan);
      assert before[..k] == steps[..k];
    } else {
      k := |steps|;
      NewPlanSeen(After(before), steps[|steps| - 1], plan);
      KeysAreIds(steps);
    }
  }

  lemma {:induction false} KeysAreIds(steps: seq<Step>)
    ensures Keyed(After(steps).db)
  {
    Reachable(steps);
    InvIsSeen(After(steps));
    hide After, Inv;
  }

  /** A caller that reads a Run and then an Action holds the Run of a moment no later than that
      of the Action. */
  lemma {:induction false} ReadInThatOrder(steps: seq<Step>, run: Run, action: Action) returns (j: nat, k: nat)
    requires (run, action) in After(steps).seen.later
    ensures j <= k <= |steps|
    ensures run.id in After(steps[..j]).db.runs && After(steps[..j]).db.runs[run.id] == run
    ensures action.id in After(steps[..k]).db.actions && After(steps[..k]).db.actions[action.id] == action
  {
    hide Do;
    var before := steps[..|steps| - 1];
    assert After(steps) == Do(After(before), steps[|steps| - 1]);
    assert steps[..|steps|] == steps;
    hide After;
    if (run, action) in After(before).seen.later {
      j, k := ReadInThatOrder(before, run, action);
      assert before[..j] == steps[..j] && before[..k] == steps[..k];
    } else {
      NewPairSeen(After(before), steps[|steps| - 1], run, action);
      j := RunWasRead(steps, run);
      k := |steps|;
      KeysAreIds(steps);
    }
  }

  /** Whoever reads now may hold any row there is, and the Actions after any Run read before. */
  ghost predicate Readable(db: Db, seen: Seen) {
    && (forall r :: r in db.runs ==> db.runs[r] in seen.runs)
    && (forall a :: a in db.attempts ==> db.attempts[a] in seen.attempts)
    && (forall x :: x in db.actions ==> db.actions[x] in seen.actions)
    && (forall r :: r in db.plans ==> db.plans[r] in seen.plans)
    && (forall c :: c in db.conversations ==> db.conversations[c] in seen.conversations)
    && (forall run, x :: run in seen.runs && x in db.actions ==> (run, db.actions[x]) in seen.later)
  }

  predicate SeenMore(seen: Seen, later: Seen) {
    && seen.runs <= later.runs && seen.attempts <= later.attempts && seen.actions <= later.actions
    && seen.plans <= later.plans && seen.conversations <= later.conversations && seen.later <= later.later
  }

  lemma InitiallyReadable()
    ensures Readable(INITIAL.db, INITIAL.seen)
  {
  }

  lemma StepSees(s: System, step: Step)
    ensures Readable(Do(s, step).db, Do(s, step).seen) && SeenMore(s.seen, Do(s, step).seen)
  {
    SeenAfter(s, step);
    hide Do;
  }

  /** Nothing that a row has held since is ever out of reach: a step may work on a read of any
      age, and on an Action read after any Run. */
  lemma {:induction false} ReadsOfAnyAge(steps: seq<Step>, more: seq<Step>)
    ensures Readable(After(steps).db, After(steps).seen)
    ensures SeenMore(After(steps).seen, After(steps + more).seen)
    decreases |more|
  {
    hide Readable, Do;
    if more != [] {
      OneMore(steps, more);
      ReadsOfAnyAge(steps, more[..|more| - 1]);
      StepSees(After(steps + more[..|more| - 1]), more[|more| - 1]);
    } else {
      assert steps + more == steps;
      if steps == [] {
        InitiallyReadable();
      } else {
        StepSees(After(steps[..|steps| - 1]), steps[|steps| - 1]);
      }
    }
  }

  // ----- What is executed -----

  /** An approved Plan that a step may hold is the Plan as it is, and was approved. */
  lemma {:induction false} ApprovedPlanWasApproved(steps: seq<Step>, plan: Plan) returns (k: nat)
    requires plan in After(steps).seen.plans && plan.status.Approved?
    ensures plan.run in After(steps).db.plans && After(steps).db.plans[plan.run] == plan
    ensures k < |steps| && Approves(After(steps[..k]), steps[k], plan.run, PlanRef(plan.id, 1, plan.sha256))
  {
    hide After, Do, Approves;
    var j := PlanWasRead(steps, plan);
    assert steps[..j] + steps[j..] == steps;
    DecisionsLast(steps[..j], steps[j..], plan.run);
    ApprovalIsOnRecord(steps, plan.run);
    k := ApprovalsWereGiven(steps, plan.run);
  }

  lemma {:induction false} ApprovalIsOnRecord(steps: seq<Step>, r: RunId)
    requires r in After(steps).db.plans && After(steps).db.plans[r].status.Approved?
    ensures r in After(steps).approvals
    ensures var plan := After(steps).db.plans[r]; After(steps).approvals[r] == PlanRef(plan.id, 1, plan.sha256)
  {
    hide After;
    Reachable(steps);
  }

  /** What the executing agent and the Workflow of a task are made of. */
  predicate SameWork(plan: Plan, approved: Plan) {
    plan.id == approved.id && plan.run == approved.run && plan.sha256 == approved.sha256
    && plan.content == approved.content
  }

  /** The executing task of a Run that has read its approved Plan, and found that it verifies
      against its own script, runs what the owner has approved: the steps, tools and arguments of
      the very Plan that a call of the owner named and found to verify, and, as far as digests do
      not collide, the same script. */
  lemma {:induction false} ExecutedIsApproved(steps: seq<Step>, lease: Lease, plan: Plan, script: string,
                                              digests: PlanCompiler.Digests) returns (k: nat)
    requires lease in After(steps).tasks && After(steps).tasks[lease].Executing?
    requires plan in After(steps).seen.plans && plan.run == After(steps).tasks[lease].run && plan.status.Approved?
    requires PlanCompiler.Verify(plan, script, digests).Ok?
    ensures k < |steps| && Approves(After(steps[..k]), steps[k], plan.run, PlanRef(plan.id, 1, plan.sha256))
    ensures SameWork(plan, steps[k].proposal)
    ensures forall agent :: PlanCompiler.ExecutionAgent(agent, plan)
                            == PlanCompiler.ExecutionAgent(agent, steps[k].proposal)
    ensures steps[k].digests == digests && PlanCompiler.CollisionFree(digests) ==>
              PlanCompiler.Verify(plan, script, digests)
              == PlanCompiler.Verify(steps[k].proposal, steps[k].script, digests)
  {
    hide After, Do, Approves, PlanCompiler.Verify, PlanCompiler.CollisionFree;
    k := ApprovedPlanWasApproved(steps, plan);
    ApprovesItsProposal(After(steps[..k]), steps[k], plan.run, PlanRef(plan.id, 1, plan.sha256));
    assert steps[..k] + steps[k..] == steps;
    PlanContentLasts(steps[..k], steps[k..], plan.run);
    if steps[k].digests == digests && PlanCompiler.CollisionFree(digests) {
      PlanCompiler.VerifiedPlanIsTheApprovedOne(steps[k].proposal, plan, steps[k].script, script, digests);
    }
  }

  lemma ApprovesItsProposal(s: System, step: Step, r: RunId, ref: PlanRef)
    requires Approves(s, step, r, ref)
    ensures step.Decide? && r in s.db.plans && s.db.plans[r] == step.proposal
    ensures PlanCompiler.Verify(step.proposal, step.script, step.digests).Ok?
  {
    hide Do, PlanCompiler.Verify;
  }
}
