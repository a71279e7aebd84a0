/** How a submission decides what its Run may ever do: one for an agent with Plan-ReAct starts in
    planning and does no work beyond it without an approval; any other needs no Plan and gets none. */
module Phases {
  import opened Records
  import opened Transactions
  import opened Protocol
  import opened Invariants
  import opened Edges
  import opened WorkerSteps
  import opened Changes
  import opened Histories

  /** A new Run is the row its submission asked for: in the queue, untried, in the phase that the
      way to submit prescribes, and in a Conversation with the next sequence. */
  lemma {:induction false} SubmissionStarts(steps: seq<Step>, step: Step, r: RunId)
    requires r !in After(steps).db.runs && r in Do(After(steps), step).db.runs
    ensures var run := Do(After(steps), step).db.runs[r];
            match step
            case Submit(id, request, planReact, _) =>
              run == Run(id, None, request, if planReact then PLANNING else DIRECT, QUEUED, 1, 0, None, None, None,
                         false)
            case SubmitToConversation(c, id, request, _) =>
              && c in After(steps).db.conversations
              && run == Run(id, Some(Place(c, After(steps).db.conversations[c].nextSequence)), request, DIRECT, QUEUED,
                            1, 0, None, None, None, false)
            case _ => false
  {
    hide Do, Inv, After, RunMoves;
    Reachable(steps);
    RowOrMove(After(steps), step, r);
  }

  /** A Run that was created to plan is never in phase DIRECT, and any other never out of it. */
  predicate RunOnCourse(phase: RunPhase, planned: bool) {
    if planned then !phase.DIRECT? else phase.DIRECT? || phase.COMPLETED?
  }

  predicate AttemptOnCourse(attempt: Attempt, r: RunId, planned: bool) {
    attempt.run == r ==> if planned then attempt.phase.PLANNING? || attempt.phase.EXECUTING? else attempt.phase.DIRECT?
  }

  ghost predicate OnCourse(db: Db, r: RunId, planned: bool) {
    && r in db.runs && RunOnCourse(db.runs[r].phase, planned)
    && (!planned ==> r !in db.plans)
    && forall a :: a in db.attempts ==> AttemptOnCourse(db.attempts[a], r, planned)
  }

  lemma MoveKeepsRun(s: System, step: Step, x: Run, y: Run, planned: bool)
    requires RunMoves(s, step, x, y) && RunOnCourse(x.phase, planned)
    ensures RunOnCourse(y.phase, planned)
  {
    hide CanSettle, LeaseValid, Abandoned, Owns;
  }

  lemma {:induction false} StepKeepsRun(s: System, step: Step, r: RunId, planned: bool)
    requires Inv(s) && r in s.db.runs && RunOnCourse(s.db.runs[r].phase, planned)
    ensures r in Do(s, step).db.runs && RunOnCourse(Do(s, step).db.runs[r].phase, planned)
  {
    hide Inv, Do, RunMoves, Submits, RunOnCourse;
    RowOrMove(s, step, r);
    if Do(s, step).db.runs[r] != s.db.runs[r] {
      MoveKeepsRun(s, step, s.db.runs[r], Do(s, step).db.runs[r], planned);
    }
  }

  lemma MoveKeepsAttempt(s: System, step: Step, x: Attempt, y: Attempt)
    requires AttemptMoves(s, step, x, y)
    ensures y.run == x.run && y.phase == x.phase
  {
    hide CanSettle, LeaseValid, Abandoned, Owns;
  }

  /** An Attempt is made for the phase its Run is in, which is one a Run can be queued in. */
  lemma StartIsOnCourse(s: System, step: Step, attempt: Attempt, r: RunId, planned: bool)
    requires Starts(s, step, attempt) && RowsOk(s.db) && r in s.db.runs && RunOnCourse(s.db.runs[r].phase, planned)
    requires s.db.runs[step.run.id].status.QUEUED?
    ensures AttemptOnCourse(attempt, r, planned)
  {
    RunRow(s.db, r);
    hide RowsOk;
  }

  lemma {:induction false} StepKeepsAttempt(s: System, step: Step, r: RunId, planned: bool, a: AttemptId)
    requires Inv(s) && OnCourse(s.db, r, planned) && a in Do(s, step).db.attempts
    ensures AttemptOnCourse(Do(s, step).db.attempts[a], r, planned)
  {
    hide Inv, Do, AttemptMoves, Starts;
    AttemptOrMove(s, step, a);
    var attempt := Do(s, step).db.attempts[a];
    if a !in s.db.attempts {
      InvIsSeen(s);
      StartsFromQueue(s, step, attempt);
      StartIsOnCourse(s, step, attempt, r, planned);
    } else {
      assert AttemptOnCourse(s.db.attempts[a], r, planned);
      if attempt != s.db.attempts[a] {
        MoveKeepsAttempt(s, step, s.db.attempts[a], attempt);
      }
    }
  }

  lemma ProposerPlans(s: System, step: Step, plan: Plan)
    requires Inv(s) && Proposes(s, step, plan)
    ensures plan.run in s.db.runs && s.db.runs[plan.run].phase.PLANNING?
  {
    LiveTask(s, step.lease);
    hide Inv;
  }

  lemma {:induction false} StepAddsNoPlan(s: System, step: Step, r: RunId)
    requires Inv(s) && OnCourse(s.db, r, false)
    ensures r !in Do(s, step).db.plans
  {
    hide Inv, Do, PlanMoves, Proposes;
    PlanOrMove(s, step, r);
    if r in Do(s, step).db.plans {
      ProposerPlans(s, step, Do(s, step).db.plans[r]);
      PlanKey(s, step, r);
    }
  }

  lemma {:induction false} PlanKey(s: System, step: Step, r: RunId)
    requires Inv(s) && r in Do(s, step).db.plans
    ensures Do(s, step).db.plans[r].run == r
  {
    hide Inv, Do;
    StepKeeps(s, step);
    InvIsSeen(Do(s, step));
  }

  lemma StartsFromQueue(s: System, step: Step, attempt: Attempt)
    requires Starts(s, step, attempt) && Do(s, step).db != s.db
    ensures step.run.id in s.db.runs && s.db.runs[step.run.id].status.QUEUED?
  {
    hide BeginOutcome;
  }

  lemma {:induction false} StepKeepsCourse(s: System, step: Step, r: RunId, planned: bool)
    requires Inv(s) && OnCourse(s.db, r, planned)
    ensures OnCourse(Do(s, step).db, r, planned)
  {
    hide Inv, Do, RunOnCourse, AttemptOnCourse;
    StepKeepsRun(s, step, r, planned);
    if !planned {
      StepAddsNoPlan(s, step, r);
    }
    forall a | a in Do(s, step).db.attempts ensures AttemptOnCourse(Do(s, step).db.attempts[a], r, planned) {
      StepKeepsAttempt(s, step, r, planned, a);
    }
  }

  lemma {:induction false} CourseLasts(steps: seq<Step>, more: seq<Step>, r: RunId, planned: bool)
    requires OnCourse(After(steps).db, r, planned)
    ensures OnCourse(After(steps + more).db, r, planned)
    decreases |more|
  {
    hide OnCourse, Do, Inv;
    if more == [] {
      assert steps + more == steps;
    } else {
      CourseLasts(steps, more[..|more| - 1], r, planned);
      Reachable(steps + more[..|more| - 1]);
      OneMore(steps, more);
      StepKeepsCourse(After(steps + more[..|more| - 1]), more[|more| - 1], r, planned);
    }
  }

  /** The submission is for an agent with Plan-ReAct, outside Conversations. */
  predicate Plans(step: Step) {
    step.Submit? && step.planReact
  }

  lemma {:induction false} NewRunOnCourse(steps: seq<Step>, step: Step)
    requires step.Submit? || step.SubmitToConversation?
    requires step.runId !in After(steps).db.runs && step.runId in Do(After(steps), step).db.runs
    ensures OnCourse(Do(After(steps), step).db, step.runId, Plans(step))
  {
    hide After, Do, Inv, RowsOk;
    SubmissionStarts(steps, step, step.runId);
    var s := After(steps);
    Reachable(steps);
    StepKeeps(s, step);
    InvIsSeen(Do(s, step));
    if !Plans(step) {
      PlanlessWhenDirect(Do(s, step).db, step.runId);
    }
    NoAttemptsYet(Do(s, step).db, step.runId);
  }

  lemma PlanlessWhenDirect(db: Db, r: RunId)
    requires RowsOk(db) && r in db.runs && db.runs[r].phase.DIRECT?
    ensures r !in db.plans
  {
    RunRow(db, r);
  }

  lemma NoAttemptsYet(db: Db, r: RunId)
    requires RowsOk(db) && r in db.runs && db.runs[r].attemptCount == 0
    ensures forall a :: a in db.attempts ==> db.attempts[a].run != r
  {
    forall a | a in db.attempts ensures db.attempts[a].run != r {
      assert AttemptOk(db, a);
    }
  }

  /** What the Attempts of a Run were made for is settled by its submission.  With Plan-ReAct they
      plan or execute, never anything else, and once one executes the owner has approved the Plan;
      without it none of them plans, there is no Plan, and none executes one. */
  lemma {:induction false} SubmittedPhase(steps: seq<Step>, step: Step, more: seq<Step>, r: RunId)
    requires (step.Submit? || step.SubmitToConversation?) && r == step.runId
    requires r !in After(steps).db.runs && r in After(steps + [step]).db.runs
    ensures var db := After(steps + [step] + more).db;
            && r in db.runs
            && (Plans(step) ==>
                  && !db.runs[r].phase.DIRECT?
                  && (forall a :: a in db.attempts && db.attempts[a].run == r ==>
                        || db.attempts[a].phase.PLANNING?
                        || (db.attempts[a].phase.EXECUTING? && r in db.plans && db.plans[r].status.Approved?
                            && exists k :: 0 <= k < |steps + [step] + more|
                                 && Approves(After((steps + [step] + more)[..k]), (steps + [step] + more)[k], r,
                                             PlanRef(db.plans[r].id, 1, db.plans[r].sha256)))))
            && (!Plans(step) ==>
                  && (db.runs[r].phase.DIRECT? || db.runs[r].phase.COMPLETED?) && r !in db.plans
                  && forall a :: a in db.attempts && db.attempts[a].run == r ==> db.attempts[a].phase.DIRECT?)
  {
    hide Do, Approves;
    assert (steps + [step])[..|steps + [step]| - 1] == steps;
    assert After(steps + [step]) == Do(After(steps), step);
    NewRunOnCourse(steps, step);
    CourseLasts(steps + [step], more, r, Plans(step));
    hide After;
    var all := steps + [step] + more;
    var db := After(all).db;
    forall a | a in db.attempts && db.attempts[a].run == r
      ensures AttemptOnCourse(db.attempts[a], r, Plans(step))
      ensures db.attempts[a].phase.EXECUTING? ==>
                && r in db.plans && db.plans[r].status.Approved?
                && exists k :: 0 <= k < |all| && Approves(After(all[..k]), all[k], r,
                                                          PlanRef(db.plans[r].id, 1, db.plans[r].sha256))
    {
      if db.attempts[a].phase.EXECUTING? {
        var k := OnlyApprovedPlansExecute(all, r);
      }
    }
  }
}
