/** Where an answer comes from and where it goes: the owner gave it, and the turn of the very
    Attempt that consumed it works on it, never on the original input again. */
module Answers {
  import opened Records
  import opened Transactions
  import opened Protocol
  import opened Invariants
  import opened Edges
  import opened WorkerSteps
  import opened BeginSteps
  import opened Changes
  import opened Histories
  import opened Settlement

  /** A Conversation Run that is queued without an answer has not been tried yet. */
  predicate FirstTry(db: Db, r: RunId)
    requires r in db.runs
  {
    db.runs[r].place.Some? && db.runs[r].status.QUEUED? && db.runs[r].requiredAction.None? ==>
      db.runs[r].attemptCount == 0
  }

  predicate ConsumedOk(action: Action) {
    action.consumedBy.Some? ==> action.kind.UserInput? && action.status.Consumed? && action.response.Some?
  }

  /** Only the first Attempt of a Conversation Run works on the original input. */
  predicate TurnOk(db: Db, task: Task)
    requires task.Executing?
  {
    task.run in db.runs && db.runs[task.run].place.Some? && task.attempt in db.attempts ==>
      (task.input.OriginalInput? <==> db.attempts[task.attempt].number == 1)
  }

  /** The Attempt that has consumed an answer works on it. */
  predicate Delivered(task: Task, action: Action)
    requires task.Executing?
  {
    action.consumedBy == Some(task.attempt) ==>
      action.response.Some? && task.input == ActionResponse(action.id, action.response.value)
  }

  ghost predicate AnswerInv(s: System) {
    && (forall r :: r in s.db.runs ==> FirstTry(s.db, r))
    && (forall x :: x in s.db.actions ==> ConsumedOk(s.db.actions[x]))
    && (forall lease :: lease in s.tasks && s.tasks[lease].Executing? ==>
          && TurnOk(s.db, s.tasks[lease])
          && forall x :: x in s.db.actions ==> Delivered(s.tasks[lease], s.db.actions[x]))
  }

  // ----- One step -----

  lemma {:induction false} StepKeepsFirstTry(s: System, step: Step, r: RunId)
    requires Inv(s) && AnswerInv(s) && r in Do(s, step).db.runs
    ensures FirstTry(Do(s, step).db, r)
  {
    hide Do;
    RowOrMove(s, step, r);
    if r in s.db.runs {
      RunRow(s.db, r);
      assert FirstTry(s.db, r);
    }
    hide Inv, AnswerInv;
  }

  /** An answered Action is a question to the Run that waits in the queue with it. */
  lemma AnsweredIsQuestion(db: Db, x: ActionId)
    requires RowsOk(db) && x in db.actions && db.actions[x].status.Answered?
    ensures db.actions[x].kind.UserInput?
  {
    assert ActionOk(db, x);
    RunRow(db, db.actions[x].run);
  }

  lemma {:induction false} StepKeepsConsumed(s: System, step: Step, x: ActionId)
    requires Inv(s) && AnswerInv(s) && x in Do(s, step).db.actions
    ensures ConsumedOk(Do(s, step).db.actions[x])
  {
    hide Do;
    ActionOrMove(s, step, x);
    if x in s.db.actions {
      assert ConsumedOk(s.db.actions[x]);
      if s.db.actions[x].status.Answered? {
        InvIsSeen(s);
        AnsweredIsQuestion(s.db, x);
      }
    }
    hide Inv, AnswerInv;
  }

  predicate SameTurn(before: Task, after: Task) {
    && before.Executing? && after.Executing? && after.run == before.run && after.attempt == before.attempt
    && after.input == before.input
  }

  /** A Begin that has committed. */
  predicate Begins(s: System, step: Step) {
    && step.Begin?
    && step.lease in s.tasks && s.tasks[step.lease] == Selected(step.run.id)
    && CanBegin(s, step.run, step.action)
    && BeginOutcome(s, step.lease, step.run, step.attemptId, step.action, step.now).Committed?
  }

  function BegunTask(step: Step): Task
    requires step.Begin? && (step.action.Some? ==> step.action.value.response.Some?)
  {
    Executing(step.run.id, step.attemptId, step.run.phase, InputOf(step.run, step.action), false)
  }

  lemma BegunOrSame(s: System, step: Step, lease: Lease)
    requires step.Begin?
    requires lease in Perform(s, step).tasks && Perform(s, step).tasks[lease].Executing?
    ensures if Begins(s, step) && step.lease == lease
            then (step.action.Some? ==> step.action.value.response.Some?)
                 && Perform(s, step).tasks[lease] == BegunTask(step)
            else lease in s.tasks && Perform(s, step).tasks[lease] == s.tasks[lease]
  {
    hide BeginOutcome;
  }

  lemma ReportingKeepsTurn(s: System, step: Step, lease: Lease)
    requires Leased(step) && !step.Begin?
    requires lease in Perform(s, step).tasks && Perform(s, step).tasks[lease].Executing?
    ensures lease in s.tasks && SameTurn(s.tasks[lease], Perform(s, step).tasks[lease])
  {
    hide CanSettle, SettleOutcome, PlanningOutcome, EnterRequiredAction, ReplaceAttempt;
  }

  /** Where the turn of a task after a step comes from. */
  lemma TurnFrom(s: System, step: Step, lease: Lease)
    requires lease in Do(s, step).tasks && Do(s, step).tasks[lease].Executing?
    ensures if Begins(s, step) && step.lease == lease
            then (step.action.Some? ==> step.action.value.response.Some?)
                 && Do(s, step).tasks[lease] == BegunTask(step)
            else lease in s.tasks && SameTurn(s.tasks[lease], Do(s, step).tasks[lease])
  {
    PerformIsDone(s, step);
    hide Do, Perform, Begins, InputOf;
    if step.Begin? {
      BegunOrSame(s, step, lease);
    } else {
      assert !Begins(s, step) by { OnlyBeginBegins(s, step); }
      if Leased(step) {
        ReportingKeepsTurn(s, step, lease);
      } else {
        OtherTasksStay(s, step, lease);
      }
    }
  }

  lemma OnlyBeginBegins(s: System, step: Step)
    ensures Begins(s, step) ==> step.Begin?
  {
  }

  /** What a Begin has found when it commits, and done. */
  lemma BeginFacts(s: System, step: Step)
    requires Inv(s) && Begins(s, step)
    ensures Beginning(s.db, step.run, step.attemptId, step.action)
    ensures Do(s, step).db == BeginDb(s.db, step.run, step.attemptId, step.lease, step.action)
    ensures step.run.place.Some? && step.run.requiredAction.Some? ==>
              step.action.Some? && step.action.value.id == step.run.requiredAction.value
  {
    PerformIsDone(s, step);
    hide Inv, Do;
    InvIsSeen(s);
    BeginOutcomeIs(s, step.lease, step.run, step.attemptId, step.action, step.now);
    SwappedRun(s, step.run);
    if step.action.Some? {
      SwappedAction(s, step.action.value);
    }
    hide SeenOk, RowsOk, BeginOutcome;
  }

  /** A Run that continues from an answer has had an Attempt. */
  lemma ContinuationIsNotFirst(db: Db, r: RunId)
    requires RowsOk(db) && r in db.runs && db.runs[r].status.QUEUED? && db.runs[r].requiredAction.Some?
    ensures db.runs[r].attemptCount >= 1
  {
    RunRow(db, r);
    var x := db.runs[r].requiredAction.value;
    assert ContinuesFrom(db, r, x);
    AttemptRow(db, db.actions[x].attempt);
  }

  lemma BegunTurnIsOk(s: System, step: Step)
    requires Inv(s) && AnswerInv(s) && Begins(s, step)
    requires step.action.Some? ==> step.action.value.response.Some?
    ensures TurnOk(Do(s, step).db, BegunTask(step))
    ensures forall x :: x in Do(s, step).db.actions ==> Delivered(BegunTask(step), Do(s, step).db.actions[x])
  {
    hide Do;
    BeginFacts(s, step);
    InvIsSeen(s);
    assert FirstTry(s.db, step.run.id);
    if step.run.requiredAction.Some? {
      ContinuationIsNotFirst(s.db, step.run.id);
    }
    forall x | x in s.db.actions ensures s.db.actions[x].consumedBy != Some(step.attemptId) {
      assert ConsumedOk(s.db.actions[x]) && ActionOk(s.db, x);
    }
    hide Inv, AnswerInv, RowsOk, SeenOk, Begins;
  }

  lemma AttemptMovesKeepNumber(s: System, step: Step, x: Attempt, y: Attempt)
    requires AttemptMoves(s, step, x, y)
    ensures y.number == x.number
  {
  }

  lemma {:induction false} NumberLasts(s: System, step: Step, a: AttemptId)
    requires Inv(s) && a in s.db.attempts
    ensures a in Do(s, step).db.attempts && Do(s, step).db.attempts[a].number == s.db.attempts[a].number
  {
    hide Do, AttemptMoves;
    AttemptsStay(s, step, a);
    AttemptOrMove(s, step, a);
    hide Inv;
    if Do(s, step).db.attempts[a] != s.db.attempts[a] {
      AttemptMovesKeepNumber(s, step, s.db.attempts[a], Do(s, step).db.attempts[a]);
    }
  }

  lemma {:induction false} DeliveredStays(s: System, step: Step, task: Task, x: ActionId)
    requires Inv(s) && task.Executing? && task.attempt in s.db.attempts && x in Do(s, step).db.actions
    requires x in s.db.actions ==> ConsumedOk(s.db.actions[x]) && Delivered(task, s.db.actions[x])
    ensures Delivered(task, Do(s, step).db.actions[x])
  {
    hide Do;
    ActionOrMove(s, step, x);
    hide Inv;
  }

  lemma {:induction false} StepKeepsTurn(s: System, step: Step, lease: Lease)
    requires Inv(s) && AnswerInv(s) && lease in Do(s, step).tasks && Do(s, step).tasks[lease].Executing?
    ensures TurnOk(Do(s, step).db, Do(s, step).tasks[lease])
    ensures forall x :: x in Do(s, step).db.actions ==> Delivered(Do(s, step).tasks[lease], Do(s, step).db.actions[x])
  {
    hide Do, Begins, Delivered, ConsumedOk;
    TurnFrom(s, step, lease);
    OnlyBeginBegins(s, step);
    if step.Begin? && Begins(s, step) && step.lease == lease {
      BegunTurnIsOk(s, step);
    } else {
      var before, after := s.tasks[lease], Do(s, step).tasks[lease];
      LiveTask(s, lease);
      PlacesLast(s, step, before.run);
      NumberLasts(s, step, before.attempt);
      assert TurnOk(s.db, before);
      forall x | x in Do(s, step).db.actions ensures Delivered(after, Do(s, step).db.actions[x]) {
        assert x in s.db.actions ==> Delivered(before, s.db.actions[x]);
        SameDelivery(before, after);
        DeliveredStays(s, step, after, x);
      }
      hide Inv, AnswerInv;
    }
  }

  lemma SameDelivery(before: Task, after: Task)
    requires SameTurn(before, after)
    ensures forall action :: Delivered(after, action) <==> Delivered(before, action)
  {
  }

  lemma {:induction false} AnswersReachable(steps: seq<Step>)
    ensures AnswerInv(After(steps))
  {
    if steps != [] {
      var before, step := After(steps[..|steps| - 1]), steps[|steps| - 1];
      AnswersReachable(steps[..|steps| - 1]);
      Reachable(steps[..|steps| - 1]);
      assert After(steps) == Do(before, step);
      hide After, Do, Inv, FirstTry, ConsumedOk, TurnOk, Delivered;
      forall r | r in Do(before, step).db.runs ensures FirstTry(Do(before, step).db, r) {
        StepKeepsFirstTry(before, step, r);
      }
      forall x | x in Do(before, step).db.actions ensures ConsumedOk(Do(before, step).db.actions[x]) {
        StepKeepsConsumed(before, step, x);
      }
      forall lease | lease in Do(before, step).tasks && Do(before, step).tasks[lease].Executing?
        ensures TurnOk(Do(before, step).db, Do(before, step).tasks[lease])
        ensures forall x :: x in Do(before, step).db.actions ==>
                  Delivered(Do(before, step).tasks[lease], Do(before, step).db.actions[x])
      {
        StepKeepsTurn(before, step, lease);
      }
    }
  }

  // ----- What it comes to -----

  /** In a Conversation the first Attempt, and no other, works on the original input; any other
      works on the recorded answer to the question of the Attempt before it, and an Attempt that
      has consumed an answer works on that answer. */
  lemma {:induction false} TurnWorksOnTheAnswer(steps: seq<Step>, lease: Lease)
    requires lease in After(steps).tasks && After(steps).tasks[lease].Executing?
    ensures var db := After(steps).db;
            var task := After(steps).tasks[lease];
            && task.run in db.runs && task.attempt in db.attempts
            && (db.runs[task.run].place.Some? ==>
                  (task.input.OriginalInput? <==> db.attempts[task.attempt].number == 1))
            && (forall x :: x in db.actions && db.actions[x].consumedBy == Some(task.attempt) ==>
                  db.actions[x].response.Some? && task.input == ActionResponse(x, db.actions[x].response.value))
            && match task.input
               case OriginalInput(text) => text == db.runs[task.run].request.input
               case ActionResponse(x, response) =>
                 && x in db.actions && db.actions[x].run == task.run
                 && db.actions[x].response == Some(response)
                 && db.actions[x].consumedBy == Some(task.attempt)
                 && db.actions[x].attempt in db.attempts
                 && db.attempts[task.attempt].number == db.attempts[db.actions[x].attempt].number + 1
  {
    hide After;
    var s := After(steps);
    Reachable(steps);
    AnswersReachable(steps);
    LiveTask(s, lease);
    assert Keyed(s.db) by { InvIsSeen(s); }
    if s.tasks[lease].input.ActionResponse? {
      assert ActionOk(s.db, s.tasks[lease].input.action);
    }
    forall x | x in s.db.actions && s.db.actions[x].consumedBy == Some(s.tasks[lease].attempt)
      ensures s.db.actions[x].response.Some?
              && s.tasks[lease].input == ActionResponse(x, s.db.actions[x].response.value)
    {
      assert Delivered(s.tasks[lease], s.db.actions[x]);
    }
  }

  /** The step consumes the answer: it begins the Attempt that works on it. */
  predicate Delivers(s: System, step: Step, action: Action) {
    && step.Begin? && action.consumedBy == Some(step.attemptId) && action.response.Some?
    && step.lease in Do(s, step).tasks
    && Do(s, step).tasks[step.lease]
       == Executing(action.run, step.attemptId, step.run.phase, ActionResponse(action.id, action.response.value), false)
  }

  lemma {:induction false} ConsumedByBegin(s: System, step: Step, x: ActionId)
    requires Inv(s) && x in Do(s, step).db.actions && Do(s, step).db.actions[x].consumedBy.Some?
    requires x !in s.db.actions || s.db.actions[x] != Do(s, step).db.actions[x]
    requires x in s.db.actions ==> ConsumedOk(s.db.actions[x])
    ensures step.Begin? && x in s.db.actions && step.action == Some(s.db.actions[x])
    ensures s.db.actions[x].response.Some? && step.run.requiredAction == Some(s.db.actions[x].id)
    ensures Do(s, step).db.actions[x] == ConsumedAction(s.db.actions[x], step.attemptId)
    ensures Do(s, step).db != s.db
  {
    hide Do;
    ActionOrMove(s, step, x);
    hide Inv, CanResume;
  }

  lemma BegunTaskIs(s: System, step: Step)
    requires Begins(s, step)
    ensures step.action.Some? ==> step.action.value.response.Some?
    ensures step.lease in Do(s, step).tasks && Do(s, step).tasks[step.lease] == BegunTask(step)
  {
    PerformIsDone(s, step);
    hide Do, BeginOutcome;
  }

  lemma {:induction false} ConsumptionDelivers(s: System, step: Step, x: ActionId)
    requires Inv(s) && x in Do(s, step).db.actions && Do(s, step).db.actions[x].consumedBy.Some?
    requires x !in s.db.actions || s.db.actions[x] != Do(s, step).db.actions[x]
    requires x in s.db.actions ==> ConsumedOk(s.db.actions[x])
    ensures Delivers(s, step, Do(s, step).db.actions[x])
  {
    hide Do, Inv, Begins, ConsumedOk;
    ConsumedByBegin(s, step, x);
    ChangedByBegin(s, step);
    BeginFacts(s, step);
    BegunTaskIs(s, step);
    QuestionOfTheRun(s, step.run, x);
  }

  lemma ChangedByBegin(s: System, step: Step)
    requires step.Begin? && Do(s, step).db != s.db
    ensures Begins(s, step)
  {
    PerformIsDone(s, step);
    hide Do, BeginOutcome;
  }

  lemma QuestionOfTheRun(s: System, run: Run, x: ActionId)
    requires Inv(s) && run.id in s.db.runs && s.db.runs[run.id] == run && run.status.QUEUED?
    requires x in s.db.actions && run.requiredAction == Some(s.db.actions[x].id)
    ensures s.db.actions[x].id == x && s.db.actions[x].run == run.id
  {
    InvIsSeen(s);
    RunRow(s.db, run.id);
    hide Inv, SeenOk;
  }

  /** Every consumed answer was handed to the turn of the Attempt that consumed it. */
  lemma {:induction false} AnswersWereDelivered(steps: seq<Step>, x: ActionId) returns (k: nat)
    requires x in After(steps).db.actions && After(steps).db.actions[x].consumedBy.Some?
    ensures k < |steps| && Delivers(After(steps[..k]), steps[k], After(steps).db.actions[x])
  {
    hide Do, Delivers;
    var before := steps[..|steps| - 1];
    assert After(steps) == Do(After(before), steps[|steps| - 1]);
    hide After;
    Reachable(before);
    AnswersReachable(before);
    if x in After(before).db.actions && After(before).db.actions[x] == After(steps).db.actions[x] {
      k := AnswersWereDelivered(before, x);
      assert before[..k] == steps[..k];
    } else {
      k := |steps| - 1;
      ConsumptionDelivers(After(before), steps[k], x);
    }
  }

  /** The owner's call that recorded the answer. */
  predicate Gives(s: System, step: Step, action: Action) {
    && step.Resume? && step.pending.id == action.id && action.response == Some(Answers(step.answers))
    && CanResume(s, step.principal, step.run, step.pending)
    && action.id in s.db.actions && s.db.actions[action.id] == step.pending
    && Do(s, step).db != s.db
  }

  lemma {:induction false} ResponseIsGiven(s: System, step: Step, x: ActionId)
    requires Inv(s) && x in Do(s, step).db.actions
    requires Do(s, step).db.actions[x].kind.UserInput? && Do(s, step).db.actions[x].response.Some?
    requires x in s.db.actions ==> s.db.actions[x].response != Do(s, step).db.actions[x].response
    ensures Gives(s, step, Do(s, step).db.actions[x])
  {
    hide Do;
    ActionOrMove(s, step, x);
    assert x in s.db.actions ==> s.db.actions[x].id == x by { InvIsSeen(s); }
    hide Inv, CanResume;
  }

  lemma SameGift(s: System, step: Step, action: Action, later: Action)
    requires Gives(s, step, action) && later.id == action.id && later.response == action.response
    ensures Gives(s, step, later)
  {
    hide Do, CanResume;
  }

  /** Every answer on record was given by the owner of the Run, while the question was pending. */
  lemma {:induction false} AnswersWereGiven(steps: seq<Step>, x: ActionId) returns (k: nat)
    requires x in After(steps).db.actions && After(steps).db.actions[x].kind.UserInput?
    requires After(steps).db.actions[x].response.Some?
    ensures k < |steps| && Gives(After(steps[..k]), steps[k], After(steps).db.actions[x])
  {
    hide Do, Inv, Gives;
    var before := steps[..|steps| - 1];
    assert After(steps) == Do(After(before), steps[|steps| - 1]);
    hide After;
    Reachable(before);
    if x in After(before).db.actions
       && After(before).db.actions[x].response == After(steps).db.actions[x].response {
      SameQuestion(After(before), steps[|steps| - 1], x);
      k := AnswersWereGiven(before, x);
      assert before[..k] == steps[..k];
      SameGift(After(steps[..k]), steps[k], After(before).db.actions[x], After(steps).db.actions[x]);
    } else {
      k := |steps| - 1;
      ResponseIsGiven(After(before), steps[k], x);
    }
  }

  lemma {:induction false} SameQuestion(s: System, step: Step, x: ActionId)
    requires Inv(s) && x in s.db.actions
    ensures x in Do(s, step).db.actions
    ensures Do(s, step).db.actions[x].kind == s.db.actions[x].kind
    ensures Do(s, step).db.actions[x].id == s.db.actions[x].id
  {
    hide Do;
    ActionOrMove(s, step, x);
    hide Inv, CanResume;
  }
}
