/** Histories whose timestamps never go back in commit order: a Conversation Run is settled
    once, and the recovery takes exactly what no lease covers. */
module Settlement {
  import opened Records
  import opened Transactions
  import opened Protocol
  import opened Invariants
  import opened WorkerSteps
  import opened BeginSteps
  import opened RecoverSteps
  import opened Changes
  import opened Histories

  /** The timestamp of a step is not older than that of the last transaction that had one. */
  predicate OnTime(s: System, step: Step) {
    Timed(step) ==> step.now >= s.clock
  }

  predicate Clocked(steps: seq<Step>) {
    steps == [] || (Clocked(steps[..|steps| - 1]) && OnTime(After(steps[..|steps| - 1]), steps[|steps| - 1]))
  }

  lemma {:induction false} ClockedWhenOnTime(steps: seq<Step>)
    requires forall k :: 0 <= k < |steps| ==> OnTime(After(steps[..k]), steps[k])
    ensures Clocked(steps)
  {
    if steps != [] {
      var before := steps[..|steps| - 1];
      forall k | 0 <= k < |before| ensures OnTime(After(before[..k]), before[k]) {
        assert before[..k] == steps[..k];
      }
      ClockedWhenOnTime(before);
    }
  }

  // ----- The invariant of clocked histories -----

  /** The lease may still be found valid by a transaction to come. */
  predicate Alive(s: System, lease: Lease) {
    LeaseValid(s.db, lease, s.clock)
  }

  /** While the lease of a Conversation task may still be valid, only a cancellation can have
      taken its Run away. */
  predicate Undisturbed(s: System, lease: Lease)
    requires lease in s.tasks
  {
    var task := s.tasks[lease];
    task.Executing? && !task.asked && lease.resource.ConversationResource? && Alive(s, lease) ==>
      task.run in s.db.runs && (s.db.runs[task.run].status.RUNNING? || s.db.runs[task.run].status.CANCELLED?)
  }

  predicate Fenced(db: Db, attempt: Attempt) {
    attempt.fence.Some? && attempt.run in db.runs ==>
      attempt.fence.value.token <= Token(db, ResourceOf(db.runs[attempt.run]))
  }

  predicate Over(s: System, attempt: Attempt) {
    attempt.status.AttemptInterrupted? && attempt.fence.Some? && attempt.run in s.db.runs ==>
      !LeaseHolds(s.db, ResourceOf(s.db.runs[attempt.run]), attempt.fence.value, s.clock)
  }

  ghost predicate ClockInv(s: System) {
    && (forall lease :: lease in s.tasks ==> Undisturbed(s, lease))
    && (forall a :: a in s.db.attempts ==> Fenced(s.db, s.db.attempts[a]) && Over(s, s.db.attempts[a]))
  }

  // ----- Leases -----

  /** A lease that may be valid after a step may have been before, unless the step granted it. */
  lemma {:induction false} LeasesDoNotRevive(s: System, step: Step, lease: Lease)
    requires Inv(s) && OnTime(s, step)
    requires Alive(Do(s, step), lease)
    ensures Alive(s, lease) || Granting(s, step, lease.resource)
    ensures Granting(s, step, lease.resource) ==> lease.token == Token(s.db, lease.resource) + 1
    ensures !Granting(s, step, lease.resource) ==> Token(Do(s, step).db, lease.resource) == Token(s.db, lease.resource)
  {
    StepTokens(s, step, lease.resource);
    StepMoves(s, step);
    hide Inv, RunsMove, AttemptsMove, ActionsMove, PlansMove, ConversationsMove;
    ClockAfter(s, step);
    assert Do(s, step).db == Perform(s, step).db;
    hide Do, Perform;
    if step.Claim? || step.Renew? || step.Release? {
      LeaseStepDoesNotRevive(s, step, lease);
    }
  }

  lemma ClockAfter(s: System, step: Step)
    ensures Do(s, step).clock == if Timed(step) then step.now else s.clock
  {
    if !Timed(step) {
      UntimedKeepsClock(s, step);
    }
    hide Perform;
  }

  lemma UntimedKeepsClock(s: System, step: Step)
    requires !Timed(step)
    ensures Perform(s, step).clock == s.clock
  {
    hide CanCancel, CancelOutcome, CanResume, CanDecide, DecideOutcome, CreateRun, CreateConversationRun, ReplaceRun;
    hide AnswerRequiredAction, SettleAttempt, ReplaceConversation, CreateConversation, NextInLine;
  }

  lemma LeaseStepDoesNotRevive(s: System, step: Step, lease: Lease)
    requires (step.Claim? || step.Renew? || step.Release?) && step.now >= s.clock
    requires LeaseValid(Perform(s, step).db, lease, step.now)
    ensures Alive(s, lease) || Granting(s, step, lease.resource)
  {
    hide FirstClaimable, Runnable;
  }

  // ----- Tasks -----

  /** Which steps leave a task executing. */
  lemma {:induction false} TaskStays(s: System, step: Step, lease: Lease)
    requires var s' := Perform(s, step);
             lease in s'.tasks && s'.tasks[lease].Executing? && !s'.tasks[lease].asked
    ensures var s' := Perform(s, step);
            if step.Begin? && s'.db != s.db && step.lease == lease
            then s'.tasks[lease].run == step.run.id && step.run.id in s'.db.runs && s'.db.runs[step.run.id].status.RUNNING?
            else lease in s.tasks && s'.tasks[lease] == s.tasks[lease]
    ensures var s' := Perform(s, step);
            (step.Ask? || step.SettleSuccess? || step.SettleFailure? || step.SettlePlanning?) && step.lease == lease ==>
              s'.db == s.db
  {
    if step.Begin? {
      BeganTask(s, step, lease);
    } else if Leased(step) {
      SettledTaskIsGone(s, step, lease);
    } else {
      OtherTasksStay(s, step, lease);
    }
  }

  lemma BeganTask(s: System, step: Step, lease: Lease)
    requires step.Begin?
    requires var s' := Perform(s, step);
             lease in s'.tasks && s'.tasks[lease].Executing? && !s'.tasks[lease].asked
    ensures var s' := Perform(s, step);
            if s'.db != s.db && step.lease == lease
            then s'.tasks[lease].run == step.run.id && step.run.id in s'.db.runs && s'.db.runs[step.run.id].status.RUNNING?
            else lease in s.tasks && s'.tasks[lease] == s.tasks[lease]
  {
    match step
    case Begin(l, run, attempt, action, now) =>
      if BeginOutcome(s, l, run, attempt, action, now).Committed? {
        BeginOutcomeIs(s, l, run, attempt, action, now);
        assert attempt in BeginDb(s.db, run, attempt, l, action).attempts;
      }
      hide CanBegin, BeginOutcome;
  }

  lemma SettledTaskIsGone(s: System, step: Step, lease: Lease)
    requires Leased(step) && !step.Begin?
    requires var s' := Perform(s, step);
             lease in s'.tasks && s'.tasks[lease].Executing? && !s'.tasks[lease].asked
    ensures var s' := Perform(s, step);
            && lease in s.tasks && s'.tasks[lease] == s.tasks[lease]
            && (!step.SetDispatch? && step.lease == lease ==> s'.db == s.db)
  {
    hide CanSettle, SettleOutcome, PlanningOutcome, EnterRequiredAction, ReplaceAttempt;
  }

  lemma OtherTasksStay(s: System, step: Step, lease: Lease)
    requires !Leased(step)
    requires var s' := Perform(s, step);
             lease in s'.tasks && s'.tasks[lease].Executing?
    ensures lease in s.tasks && Perform(s, step).tasks[lease] == s.tasks[lease]
  {
    if step.Claim? || step.Renew? || step.Release? || step.Select? || step.Leave? || step.End? {
      hide ClaimWork, Runnable, NextInLine, RenewLease, ReleaseLease;
    } else {
      hide CanCancel, CancelOutcome, InterruptAll, AllAbandoned, SettleAttempt, CanResume, CanDecide, CreateRun;
      hide CreateConversationRun, ReplaceRun, AnswerRequiredAction, DecideOutcome, ReplaceConversation, CreateConversation;
    }
  }

  // ----- One step -----

  lemma SettlerIsTheTask(s: System, lease: Lease, other: Lease, r: RunId)
    requires Inv(s)
    requires lease in s.tasks && s.tasks[lease].Executing? && s.tasks[lease].run == r
    requires other in s.tasks && s.tasks[other].Executing? && s.tasks[other].run == r
    requires LeaseCurrent(s.db, lease) && LeaseCurrent(s.db, other)
    ensures lease == other
  {
    LiveTask(s, lease);
    LiveTask(s, other);
  }

  /** The row of an undisturbed Run after a step that leaves its task as it was. */
  lemma RunStaysUndisturbed(s: System, step: Step, lease: Lease, after: Run)
    requires Inv(s) && lease in s.tasks && Undisturbed(s, lease) && Alive(s, lease)
    requires s.tasks[lease].Executing? && !s.tasks[lease].asked && lease.resource.ConversationResource?
    requires s.tasks[lease].run in s.db.runs && RunMoves(s, step, s.db.runs[s.tasks[lease].run], after)
    requires (step.Ask? || step.SettleSuccess? || step.SettleFailure? || step.SettlePlanning?) ==> step.lease != lease
    requires step.Recover? ==> LeaseValid(s.db, lease, step.now)
    ensures after.status.CANCELLED?
  {
    var r := s.tasks[lease].run;
    LiveTask(s, lease);
    RunRow(s.db, r);
    if (step.Ask? || step.SettleSuccess? || step.SettleFailure? || step.SettlePlanning?) {
      SettlerIsTheTask(s, lease, step.lease, r);
    }
    hide Inv;
  }

  lemma TaskTokens(s: System, lease: Lease)
    requires Inv(s) && lease in s.tasks
    ensures lease.token <= Token(s.db, lease.resource)
  {
    hide SeenOk, RowsOk, InOrder, Numbered, LeasesOk, LedgerOk, SelectedOk, ExecutingOk;
    assert TaskOk(s.db, lease, s.tasks[lease]);
  }

  lemma PerformIsDone(s: System, step: Step)
    ensures Do(s, step).db == Perform(s, step).db && Do(s, step).tasks == Perform(s, step).tasks
  {
    hide Perform;
  }

  lemma RecoverKeepsLeases(s: System, step: Step)
    requires Inv(s) && step.Recover?
    ensures Do(s, step).db.leases == s.db.leases
  {
    hide Inv, Do, RunsMove, AttemptsMove, ActionsMove, PlansMove, ConversationsMove;
    StepMoves(s, step);
  }

  lemma {:induction false} StepKeepsUndisturbed(s: System, step: Step, lease: Lease)
    requires Inv(s) && ClockInv(s) && OnTime(s, step) && lease in Do(s, step).tasks
    ensures Undisturbed(Do(s, step), lease)
  {
    var s' := Do(s, step);
    PerformIsDone(s, step);
    ClockAfter(s, step);
    hide Inv, Do, Perform, RunMoves, Granting, Token;
    var task := s'.tasks[lease];
    if task.Executing? && !task.asked && lease.resource.ConversationResource? && Alive(s', lease) {
      TaskStays(s, step, lease);
      if lease in s.tasks && s.tasks[lease] == task {
        LeasesDoNotRevive(s, step, lease);
        TaskTokens(s, lease);
        assert Undisturbed(s, lease);
        RowOrMove(s, step, task.run);
        if s'.db.runs[task.run] != s.db.runs[task.run] {
          if step.Recover? {
            RecoverKeepsLeases(s, step);
          }
          RunStaysUndisturbed(s, step, lease, s'.db.runs[task.run]);
        }
      }
    }
  }

  lemma {:induction false} TokensNeverFall(s: System, step: Step, resource: Resource)
    requires Inv(s)
    ensures Token(Do(s, step).db, resource) >= Token(s.db, resource)
  {
    hide Inv, Do, Token, Granting;
    StepTokens(s, step, resource);
  }

  lemma {:induction false} StartsUnderItsLease(s: System, step: Step, attempt: Attempt)
    requires Inv(s) && Starts(s, step, attempt) && Do(s, step).db != s.db
    ensures attempt.run in s.db.runs && attempt.status.AttemptRunning?
    ensures attempt.fence == Some(Fence(step.lease.worker, step.lease.token))
    ensures ResourceOf(s.db.runs[attempt.run]) == step.lease.resource
    ensures step.lease.token == Token(s.db, step.lease.resource)
  {
    LeasedStepIsGuarded(s, step);
    PerformIsDone(s, step);
    assert step.lease in s.tasks && s.tasks[step.lease] == Selected(step.run.id);
    PickedRun(s, step.lease);
    hide Inv, Do, Perform;
  }

  lemma PickedRun(s: System, lease: Lease)
    requires Inv(s) && lease in s.tasks && s.tasks[lease].Selected?
    ensures s.tasks[lease].run in s.db.runs && ResourceOf(s.db.runs[s.tasks[lease].run]) == lease.resource
  {
    hide SeenOk, RowsOk, InOrder, Numbered, LeasesOk, LedgerOk;
    assert TaskOk(s.db, lease, s.tasks[lease]);
  }

  lemma {:induction false} PlacesLast(s: System, step: Step, r: RunId)
    requires Inv(s) && r in s.db.runs
    ensures r in Do(s, step).db.runs && ResourceOf(Do(s, step).db.runs[r]) == ResourceOf(s.db.runs[r])
  {
    hide Do;
    RowOrMove(s, step, r);
    RunRow(s.db, r);
    hide Inv;
  }

  lemma MovesKeepFence(s: System, step: Step, x: Attempt, y: Attempt)
    requires AttemptMoves(s, step, x, y)
    ensures y.fence == x.fence && y.run == x.run
    ensures y.status.AttemptInterrupted? ==> step.Recover? && Abandoned(s.db, x.run, step.now)
                                             && s.db.runs[x.run].activeAttempt == Some(x.id)
  {
  }

  lemma AttemptRunExists(s: System, a: AttemptId)
    requires Inv(s) && a in s.db.attempts
    ensures s.db.attempts[a].run in s.db.runs && s.db.attempts[a].id == a
  {
    AttemptRow(s.db, a);
  }

  lemma {:induction false} StepKeepsFences(s: System, step: Step, a: AttemptId)
    requires Inv(s) && ClockInv(s) && a in Do(s, step).db.attempts
    ensures Fenced(Do(s, step).db, Do(s, step).db.attempts[a])
  {
    var s' := Do(s, step);
    hide Inv, Do, AttemptMoves, Starts, Token;
    AttemptOrMove(s, step, a);
    if a in s.db.attempts {
      AttemptRunExists(s, a);
      assert Fenced(s.db, s.db.attempts[a]);
      if s'.db.attempts[a] != s.db.attempts[a] {
        MovesKeepFence(s, step, s.db.attempts[a], s'.db.attempts[a]);
      }
    } else {
      StartsUnderItsLease(s, step, s'.db.attempts[a]);
    }
    PlacesLast(s, step, s'.db.attempts[a].run);
    TokensNeverFall(s, step, ResourceOf(s.db.runs[s'.db.attempts[a].run]));
  }

  lemma {:induction false} StepKeepsOver(s: System, step: Step, a: AttemptId)
    requires Inv(s) && ClockInv(s) && OnTime(s, step) && a in Do(s, step).db.attempts
    ensures Over(Do(s, step), Do(s, step).db.attempts[a])
  {
    var s' := Do(s, step);
    var attempt := s'.db.attempts[a];
    ClockAfter(s, step);
    hide Inv, Do, AttemptMoves, Starts, Token, Granting, Abandoned;
    AttemptOrMove(s, step, a);
    if attempt.status.AttemptInterrupted? && attempt.fence.Some? {
      if a !in s.db.attempts {
        StartsUnderItsLease(s, step, attempt);
      } else {
        AttemptRunExists(s, a);
        var before := s.db.attempts[a];
        assert Fenced(s.db, before) && Over(s, before);
        if attempt != before {
          MovesKeepFence(s, step, before, attempt);
        }
        PlacesLast(s, step, before.run);
        if attempt != before {
          RecoverKeepsLeases(s, step);
          AbandonedLease(s.db, before, step.now);
        }
        var lease := Lease(ResourceOf(s.db.runs[before.run]), before.fence.value.worker, before.fence.value.token);
        if Alive(s', lease) {
          LeasesDoNotRevive(s, step, lease);
        }
      }
    }
  }

  lemma AbandonedLease(db: Db, attempt: Attempt, now: Instant)
    requires Abandoned(db, attempt.run, now) && db.runs[attempt.run].activeAttempt == Some(attempt.id)
    requires attempt.id in db.attempts && db.attempts[attempt.id] == attempt && attempt.fence.Some?
    ensures !LeaseHolds(db, ResourceOf(db.runs[attempt.run]), attempt.fence.value, now)
  {
  }

  lemma {:induction false} ClockedReachable(steps: seq<Step>)
    requires Clocked(steps)
    ensures ClockInv(After(steps))
  {
    if steps != [] {
      var before, step := After(steps[..|steps| - 1]), steps[|steps| - 1];
      ClockedReachable(steps[..|steps| - 1]);
      Reachable(steps[..|steps| - 1]);
      assert After(steps) == Do(before, step);
      hide After, Do, Inv, Undisturbed, Fenced, Over;
      forall lease | lease in Do(before, step).tasks ensures Undisturbed(Do(before, step), lease) {
        StepKeepsUndisturbed(before, step, lease);
      }
      forall a | a in Do(before, step).db.attempts
        ensures Fenced(Do(before, step).db, Do(before, step).db.attempts[a])
                && Over(Do(before, step), Do(before, step).db.attempts[a])
      {
        StepKeepsFences(before, step, a);
        StepKeepsOver(before, step, a);
      }
    }
  }

  // ----- A Conversation Run is settled once -----

  lemma SettlerFindsItRunning(s: System, step: Step)
    requires Inv(s) && ClockInv(s) && OnTime(s, step)
    requires step.SettleSuccess? || step.SettleFailure? || step.SettlePlanning?
    requires CanSettle(s, step.lease, step.run, step.attempt) && LeaseValid(s.db, step.lease, step.now)
    requires step.run.id in s.db.runs && s.db.runs[step.run.id] == step.run && step.run.place.Some?
    ensures step.run.status.RUNNING? && step.run.activeAttempt == Some(step.attempt.id)
    ensures step.attempt.id in s.db.attempts && s.db.attempts[step.attempt.id].status.AttemptRunning?
  {
    LiveTask(s, step.lease);
    RunRow(s.db, step.run.id);
    assert Undisturbed(s, step.lease);
    hide Inv, ClockInv;
  }

  lemma {:induction false} StepKeepsSettledRun(s: System, step: Step, r: RunId)
    requires Inv(s) && ClockInv(s) && OnTime(s, step)
    requires r in s.db.runs && s.db.runs[r].place.Some? && Terminal(s.db.runs[r].status)
    ensures r in Do(s, step).db.runs && Do(s, step).db.runs[r] == s.db.runs[r]
  {
    hide Do;
    RowOrMove(s, step, r);
    RunRow(s.db, r);
    hide Inv, ClockInv, OnTime;
    if Do(s, step).db.runs[r] != s.db.runs[r] {
      if step.SettleSuccess? || step.SettleFailure? || step.SettlePlanning? {
        SettlerFindsItRunning(s, step);
      }
      assert false;
    }
  }

  lemma {:induction false} StepKeepsSettledAttempt(s: System, step: Step, a: AttemptId)
    requires Inv(s) && ClockInv(s) && OnTime(s, step)
    requires a in s.db.attempts && AttemptTerminal(s.db.attempts[a].status)
    requires s.db.attempts[a].run in s.db.runs && s.db.runs[s.db.attempts[a].run].place.Some?
    ensures a in Do(s, step).db.attempts && Do(s, step).db.attempts[a] == s.db.attempts[a]
  {
    assert a in Do(s, step).db.attempts by { AttemptsStay(s, step, a); }
    AttemptOrMove(s, step, a);
    AttemptRunExists(s, a);
    RunRow(s.db, s.db.attempts[a].run);
    var before, after := s.db.attempts[a], Do(s, step).db.attempts[a];
    hide Do, ClockInv, OnTime;
    if after != before {
      if step.SettleSuccess? || step.SettleFailure? || step.SettlePlanning? {
        LiveTask(s, step.lease);
        hide Inv;
        SettlerFindsItRunning(s, step);
      }
      hide Inv;
      assert false;
    }
  }

  lemma {:induction false} AttemptsStay(s: System, step: Step, a: AttemptId)
    requires Inv(s) && a in s.db.attempts
    ensures a in Do(s, step).db.attempts
  {
    hide Inv, Do, SidesMove, RunsMove, ActionsMove, PlansMove, ConversationsMove, AttemptMoves;
    StepMoves(s, step);
  }

  lemma ClockedPrefix(steps: seq<Step>, more: seq<Step>)
    requires more != [] && Clocked(steps + more)
    ensures Clocked(steps + more[..|more| - 1]) && OnTime(After(steps + more[..|more| - 1]), more[|more| - 1])
  {
    assert (steps + more)[..|steps + more| - 1] == steps + more[..|more| - 1];
  }

  /** Worker, cancellation and recovery race for an Attempt of a Conversation Run: what the
      first of them commits is never changed again, neither the Run nor the Attempt. */
  lemma {:induction false} SettledOnce(steps: seq<Step>, more: seq<Step>, r: RunId)
    requires Clocked(steps + more)
    requires r in After(steps).db.runs && After(steps).db.runs[r].place.Some?
    requires Terminal(After(steps).db.runs[r].status)
    ensures r in After(steps + more).db.runs && After(steps + more).db.runs[r] == After(steps).db.runs[r]
    decreases |more|
  {
    if more == [] {
      assert steps + more == steps;
    } else {
      var before := steps + more[..|more| - 1];
      ClockedPrefix(steps, more);
      SettledOnce(steps, more[..|more| - 1], r);
      Reachable(before);
      ClockedReachable(before);
      OneMore(steps, more);
      hide Inv, ClockInv, After, Do, Clocked;
      StepKeepsSettledRun(After(before), more[|more| - 1], r);
    }
  }

  lemma {:induction false} AttemptSettledOnce(steps: seq<Step>, more: seq<Step>, a: AttemptId)
    requires Clocked(steps + more)
    requires a in After(steps).db.attempts && AttemptTerminal(After(steps).db.attempts[a].status)
    requires var db := After(steps).db;
             db.attempts[a].run in db.runs && db.runs[db.attempts[a].run].place.Some?
    ensures a in After(steps + more).db.attempts && After(steps + more).db.attempts[a] == After(steps).db.attempts[a]
    decreases |more|
  {
    if more == [] {
      assert steps + more == steps;
    } else {
      var before := steps + more[..|more| - 1];
      ClockedPrefix(steps, more);
      AttemptSettledOnce(steps, more[..|more| - 1], a);
      RunsLast(steps, more[..|more| - 1], After(steps).db.attempts[a].run);
      Reachable(before);
      ClockedReachable(before);
      OneMore(steps, more);
      hide Inv, ClockInv, After, Do, Clocked;
      StepKeepsSettledAttempt(After(before), more[|more| - 1], a);
    }
  }

  /** How often a Run was written so that it is over. */
  function Settlements(steps: seq<Step>, r: RunId): nat {
    if steps == [] then 0
    else
      var before, after := After(steps[..|steps| - 1]).db, After(steps).db;
      Settlements(steps[..|steps| - 1], r)
      + (if r in after.runs && Terminal(after.runs[r].status) && (r in before.runs ==> before.runs[r] != after.runs[r])
         then 1 else 0)
  }

  /** Exactly one transaction settles a Conversation Run that is over. */
  lemma {:induction false} ExactlyOneSettlement(steps: seq<Step>, r: RunId)
    requires Clocked(steps)
    requires r in After(steps).db.runs && After(steps).db.runs[r].place.Some?
    ensures Settlements(steps, r) == if Terminal(After(steps).db.runs[r].status) then 1 else 0
  {
    var before, step := steps[..|steps| - 1], steps[|steps| - 1];
    Reachable(before);
    ClockedReachable(before);
    assert After(steps) == Do(After(before), step);
    if r in After(before).db.runs {
      PlacesLast(After(before), step, r);
      hide Inv, ClockInv, After, Do;
      ExactlyOneSettlement(before, r);
      if Terminal(After(before).db.runs[r].status) {
        StepKeepsSettledRun(After(before), step, r);
      }
    } else {
      hide Inv, ClockInv, Do;
      NotYetSettled(before, r);
      NewRunsAreQueued(After(before), step, r);
    }
  }

  lemma {:induction false} NewRunsAreQueued(s: System, step: Step, r: RunId)
    requires Inv(s) && r !in s.db.runs && r in Do(s, step).db.runs
    ensures Do(s, step).db.runs[r].status.QUEUED?
  {
    hide Inv, Do;
    RowOrMove(s, step, r);
  }

  lemma {:induction false} NotYetSettled(steps: seq<Step>, r: RunId)
    requires r !in After(steps).db.runs
    ensures Settlements(steps, r) == 0
  {
    if steps != [] {
      var before := steps[..|steps| - 1];
      Reachable(before);
      assert After(steps) == Do(After(before), steps[|steps| - 1]);
      hide Inv, After, Do;
      if r in After(before).db.runs {
        RowOrMove(After(before), steps[|steps| - 1], r);
      } else {
        NotYetSettled(before, r);
      }
    }
  }

  // ----- Recovery -----

  /** An interrupted Attempt's lease can never pass for valid again. */
  lemma {:induction false} InterruptedForGood(steps: seq<Step>, a: AttemptId, now: Instant)
    requires Clocked(steps) && now >= After(steps).clock
    requires var db := After(steps).db;
             a in db.attempts && db.attempts[a].status.AttemptInterrupted? && db.attempts[a].fence.Some?
             && db.attempts[a].run in db.runs
    ensures var db := After(steps).db;
            !LeaseHolds(db, ResourceOf(db.runs[db.attempts[a].run]), db.attempts[a].fence.value, now)
  {
    ClockedReachable(steps);
    assert Over(After(steps), After(steps).db.attempts[a]);
    hide After;
  }

  /** The pass takes abandoned Runs only: a Run whose Attempt's lease is valid keeps its rows. */
  lemma RecoveryIsSound(s: System, rows: seq<RunId>, now: Instant, r: RunId)
    requires Inv(s) && r in s.db.runs && s.db.runs[r].activeAttempt.Some?
    requires s.db.runs[r].activeAttempt.value in s.db.attempts
    requires var attempt := s.db.attempts[s.db.runs[r].activeAttempt.value];
             attempt.fence.Some? && LeaseHolds(s.db, ResourceOf(s.db.runs[r]), attempt.fence.value, now)
    ensures var db' := DoRecover(s, rows, now).db;
            && r in db'.runs && db'.runs[r] == s.db.runs[r]
            && forall a :: a in s.db.attempts && s.db.attempts[a].run == r ==>
                 a in db'.attempts && db'.attempts[a] == s.db.attempts[a]
  {
    if AllAbandoned(s.db, rows, now) {
      assert !Abandoned(s.db, r, now);
      assert r !in rows;
      PassOfInv(s, rows, now);
    }
  }

  lemma PassOfInv(s: System, rows: seq<RunId>, now: Instant)
    requires Inv(s) && AllAbandoned(s.db, rows, now)
    ensures Pass(s.db, rows, now).Committed? && Recovered(s.db, Pass(s.db, rows, now).db, rows)
    ensures DoRecover(s, rows, now).db == Pass(s.db, rows, now).db
  {
    hide RowsOk, InOrder, Numbered, LeasesOk, TasksOk, CreditsOk, ApprovalsOk, SubmissionsOk, AllAbandoned, Recovered;
    PassRecovers(s.db, rows, now);
  }

  /** The pass never aborts; it fails the Runs it selected and leaves exactly the others abandoned. */
  lemma RecoverySettlesItsRows(s: System, rows: seq<RunId>, now: Instant)
    requires Inv(s) && AllAbandoned(s.db, rows, now)
    ensures var db' := DoRecover(s, rows, now).db;
            && (forall i :: 0 <= i < |rows| ==> rows[i] in db'.runs && db'.runs[rows[i]].status.FAILED?)
            && (forall r :: Abandoned(db', r, now) <==> Abandoned(s.db, r, now) && r !in rows)
  {
    PassOfInv(s, rows, now);
    InvIsSeen(s);
    hide Inv, SeenOk, RowsOk, DoRecover, Pass;
    RecoveredLeavesTheRest(s.db, DoRecover(s, rows, now).db, rows, now);
  }

  /** A pass with room for all abandoned Runs leaves every RUNNING Run with a valid lease. */
  lemma RecoveryIsComplete(s: System, rows: seq<RunId>, now: Instant, r: RunId)
    requires Inv(s) && AllAbandoned(s.db, rows, now)
    requires forall q :: Abandoned(s.db, q, now) ==> q in rows
    requires r in DoRecover(s, rows, now).db.runs && DoRecover(s, rows, now).db.runs[r].status.RUNNING?
    ensures var db' := DoRecover(s, rows, now).db;
            var active := db'.runs[r].activeAttempt;
            && active.Some? && active.value in db'.attempts && db'.attempts[active.value].fence.Some?
            && LeaseHolds(db', ResourceOf(db'.runs[r]), db'.attempts[active.value].fence.value, now)
  {
    PassOfInv(s, rows, now);
    var db' := DoRecover(s, rows, now).db;
    RecoverySettlesItsRows(s, rows, now);
    assert RowsOk(db') by { RecoverKeeps(s, rows, now); }
    hide Inv, DoRecover, Pass;
    RunRow(db', r);
    assert !Abandoned(db', r, now);
  }
}
