/** The in-process drain of one Conversation: what happens between two suspension points of the
    event loop is one step.  Store reads succeed and the plane stays open; a task is cancelled
    only once its Conversation is blocked, and a blocked Conversation stays blocked. */
module ConversationDrain {
  import opened Records

  type TaskId = int
  type CallId = int

  /** Where a drain task stands.  The first four are inside its `while` loop. */
  datatype Stage =
    | ReadingConversation
    | ListingRuns
    | Chosen(run: RunId)
    | Running(run: RunId)
    | Deregistering
    | Rechecking
    | Relisting(wasActive: bool)
    | Rescheduling
    | Done

  predicate InLoop(stage: Stage) {
    stage.ReadingConversation? || stage.ListingRuns? || stage.Chosen? || stage.Running?
  }

  /** `queued` and `occupying` are the QUEUED and the RUNNING or WAITING Runs in the store,
      `calls` the scheduling calls that have not got hold of the task lock yet, each with the Runs
      it is to wake a task up for. */
  datatype Drain = Drain(
    active: bool,
    queued: set<RunId>,
    occupying: set<RunId>,
    registered: Option<TaskId>,
    tasks: map<TaskId, Stage>,
    calls: map<CallId, set<RunId>>)

  datatype Step =
    // the API and the store
    | Submit(call: CallId, run: RunId)
    | Resume(call: CallId, run: RunId)
    | Cancel(run: RunId)
    | Settle(run: RunId)
    | Block
    | CancelTask(task: TaskId)
    | Call(call: CallId, newTask: TaskId)
    // the drain tasks
    | ReadConversation(task: TaskId)
    | ListRuns(task: TaskId, choice: RunId)
    | BeginRun(task: TaskId)
    | FinishRun(task: TaskId, succeeded: bool)
    | Deregister(task: TaskId)
    | RereadConversation(task: TaskId)
    | RelistRuns(task: TaskId)
    | Reschedule(task: TaskId, newTask: TaskId)

  predicate At(d: Drain, task: TaskId, stage: Stage) {
    task in d.tasks && d.tasks[task] == stage
  }

  function Goto(d: Drain, task: TaskId, stage: Stage): Drain {
    d.(tasks := d.tasks[task := stage])
  }

  /** `_schedule_conversation` under the task lock: a task that is not done yet is enough. */
  function Schedule(d: Drain, newTask: TaskId): Drain {
    if d.registered.Some? && d.registered.value in d.tasks && !d.tasks[d.registered.value].Done? then d
    else if newTask in d.tasks then d
    else d.(registered := Some(newTask), tasks := d.tasks[newTask := ReadingConversation])
  }

  /** One step; a step that is not possible changes nothing. */
  function Perform(d: Drain, step: Step): Drain {
    match step
    case Submit(call, run) =>
      if !d.active || run in d.queued || run in d.occupying || call in d.calls then d
      else d.(queued := d.queued + {run}, calls := d.calls[call := {run}])
    case Resume(call, run) =>
      if run !in d.occupying || call in d.calls then d
      else d.(occupying := d.occupying - {run}, queued := d.queued + {run}, calls := d.calls[call := {run}])
    case Cancel(run) => d.(queued := d.queued - {run}, occupying := d.occupying - {run})
    case Settle(run) => d.(occupying := d.occupying - {run})
    case Block => d.(active := false)
    case CancelTask(task) =>
      if d.active || task !in d.tasks || d.tasks[task].Done? then d
      else Goto(d, task, if InLoop(d.tasks[task]) then Deregistering else Done)
    case Call(call, newTask) =>
      if call !in d.calls || newTask in d.tasks then d
      else Schedule(d.(calls := d.calls - {call}), newTask)
    case ReadConversation(task) =>
      if !At(d, task, ReadingConversation) then d
      else Goto(d, task, if d.active then ListingRuns else Deregistering)
    case ListRuns(task, choice) =>
      if !At(d, task, ListingRuns) then d
      else Goto(d, task, if d.occupying == {} && choice in d.queued then Chosen(choice) else Deregistering)
    case BeginRun(task) =>
      if task !in d.tasks || !d.tasks[task].Chosen? then d
      else
        var run := d.tasks[task].run;
        if run in d.queued
        then Goto(d.(queued := d.queued - {run}, occupying := d.occupying + {run}), task, Running(run))
        else Goto(d, task, Running(run))
    case FinishRun(task, succeeded) =>
      if task !in d.tasks || !d.tasks[task].Running? then d
      else Goto(d, task, if succeeded then ReadingConversation else Deregistering)
    case Deregister(task) =>
      if !At(d, task, Deregistering) then d
      else Goto(if d.registered == Some(task) then d.(registered := None) else d, task, Rechecking)
    case RereadConversation(task) =>
      if !At(d, task, Rechecking) then d else Goto(d, task, Relisting(d.active))
    case RelistRuns(task) =>
      if task !in d.tasks || !d.tasks[task].Relisting? then d
      else Goto(d, task, if d.tasks[task].wasActive && d.queued != {} then Rescheduling else Done)
    case Reschedule(task, newTask) =>
      if !At(d, task, Rescheduling) || newTask in d.tasks then d
      else Goto(Schedule(d, newTask), task, Done)
  }

  /** A process starts without tasks.  The Runs it finds QUEUED, if any, are those for which its
      startup is to make a scheduling call. */
  ghost predicate Start(d: Drain) {
    && d.tasks == map[] && d.registered.None? && |d.occupying| <= 1
    && (d.active ==> forall run :: run in d.queued ==> BeingScheduled(d, run))
  }

  function After(start: Drain, steps: seq<Step>): Drain {
    if steps == [] then start else Perform(After(start, steps[..|steps| - 1]), steps[|steps| - 1])
  }

  // ----- The invariant -----

  /** A task that has not deregistered is the registered one. */
  ghost predicate LoopersAreRegistered(d: Drain) {
    forall task :: task in d.tasks && (InLoop(d.tasks[task]) || d.tasks[task].Deregistering?) ==>
      d.registered == Some(task)
  }

  /** The registered task has not deregistered, unless it was cancelled. */
  predicate RegisteredIsLive(d: Drain) {
    d.registered.Some? ==>
      && d.registered.value in d.tasks
      && (d.active ==> InLoop(d.tasks[d.registered.value]) || d.tasks[d.registered.value].Deregistering?)
  }

  /** A task whose look at the Conversation or at its Runs is still ahead, or that has seen a
      QUEUED Run and will schedule. */
  predicate WillLook(stage: Stage) {
    stage.Rechecking? || (stage.Relisting? && stage.wasActive) || stage.Rescheduling?
  }

  ghost predicate Guarded(d: Drain) {
    d.registered.Some? || exists task :: task in d.tasks && WillLook(d.tasks[task])
  }

  /** The scheduling call for the Run has not reached the lock yet. */
  ghost predicate BeingScheduled(d: Drain, run: RunId) {
    exists call :: call in d.calls && run in d.calls[call]
  }

  ghost predicate NoLostWakeUp(d: Drain) {
    d.active ==> forall run :: run in d.queued ==> BeingScheduled(d, run) || Guarded(d)
  }

  /** Only the task in its loop has a Run chosen, and then nobody occupies the Conversation. */
  ghost predicate Exclusive(d: Drain) {
    && |d.occupying| <= 1
    && forall task :: task in d.tasks && d.tasks[task].Chosen? ==> d.occupying == {}
  }

  ghost predicate LooksWereActive(d: Drain) {
    d.active ==> forall task :: task in d.tasks && d.tasks[task].Relisting? ==> d.tasks[task].wasActive
  }

  ghost predicate Inv(d: Drain) {
    && LoopersAreRegistered(d) && RegisteredIsLive(d) && LooksWereActive(d)
    && NoLostWakeUp(d) && Exclusive(d)
  }

  lemma StepKeepsRegistration(d: Drain, step: Step)
    requires Inv(d)
    ensures var d' := Perform(d, step);
            LoopersAreRegistered(d') && RegisteredIsLive(d') && LooksWereActive(d')
  {
  }

  lemma SmallerSet(occupying: set<RunId>, run: RunId)
    requires |occupying| <= 1
    ensures |occupying - {run}| <= 1
    ensures occupying == {} ==> |occupying + {run}| == 1
  {
    if run in occupying {
      assert occupying - {run} + {run} == occupying;
    } else {
      assert occupying - {run} == occupying;
    }
  }

  lemma OccupyingStays(d: Drain, step: Step)
    requires !step.Resume? && !step.Cancel? && !step.Settle? && !step.BeginRun?
    ensures Perform(d, step).occupying == d.occupying
  {
  }

  lemma BeginOccupies(d: Drain, task: TaskId)
    requires Exclusive(d)
    ensures |Perform(d, BeginRun(task)).occupying| <= 1
  {
    if task in d.tasks && d.tasks[task].Chosen? {
      SmallerSet(d.occupying, d.tasks[task].run);
    }
  }

  lemma StepKeepsOneOccupying(d: Drain, step: Step)
    requires Exclusive(d)
    ensures |Perform(d, step).occupying| <= 1
  {
    match step
    case Resume(call, run) => SmallerSet(d.occupying, run);
    case Cancel(run) => SmallerSet(d.occupying, run);
    case Settle(run) => SmallerSet(d.occupying, run);
    case BeginRun(task) => BeginOccupies(d, task);
    case _ =>
      hide Perform;
      OccupyingStays(d, step);
  }

  lemma StepKeepsChoice(d: Drain, step: Step, task: TaskId)
    requires Inv(d)
    requires task in Perform(d, step).tasks && Perform(d, step).tasks[task].Chosen?
    ensures Perform(d, step).occupying == {}
  {
    hide RegisteredIsLive, LooksWereActive, NoLostWakeUp;
    var d' := Perform(d, step);
    if task in d.tasks && d.tasks[task].Chosen? {
      assert d.occupying == {} && d.registered == Some(task);
      if step.BeginRun? && d' != d {
        assert step.task == task;
      }
    }
  }

  lemma StepKeepsExclusive(d: Drain, step: Step)
    requires Inv(d)
    ensures Exclusive(Perform(d, step))
  {
    assert Exclusive(d);
    hide Perform, Inv;
    StepKeepsOneOccupying(d, step);
    forall task | task in Perform(d, step).tasks && Perform(d, step).tasks[task].Chosen?
      ensures Perform(d, step).occupying == {}
    {
      StepKeepsChoice(d, step, task);
    }
  }

  lemma CallStays(d: Drain, d': Drain, run: RunId)
    requires BeingScheduled(d, run)
    requires forall call :: call in d.calls ==> call in d'.calls && d'.calls[call] == d.calls[call]
    ensures BeingScheduled(d', run)
  {
  }

  lemma StepKeepsWakeUps(d: Drain, step: Step)
    requires Inv(d)
    ensures NoLostWakeUp(Perform(d, step))
  {
    var d' := Perform(d, step);
    if d'.active {
      forall run | run in d'.queued ensures BeingScheduled(d', run) || Guarded(d') {
        WakeUpStays(d, step, run);
      }
    }
  }

  lemma WakeUpStays(d: Drain, step: Step, run: RunId)
    requires Inv(d) && Perform(d, step).active && run in Perform(d, step).queued
    ensures BeingScheduled(Perform(d, step), run) || Guarded(Perform(d, step))
  {
    var d' := Perform(d, step);
    match step
    case Submit(call, r) =>
      if d' != d && r == run {
        assert run in d'.calls[call];
      } else if BeingScheduled(d, run) && d' != d {
        CallStays(d, d', run);
      }
    case Resume(call, r) =>
      if d' != d && r == run {
        assert run in d'.calls[call];
      } else if BeingScheduled(d, run) && d' != d {
        CallStays(d, d', run);
      }
    case Call(call, newTask) =>
      if d' != d {
        assert Guarded(d');
      }
    case _ =>
      OtherStepsGuard(d, step);
      assert BeingScheduled(d, run) ==> BeingScheduled(d', run);
  }

  /** Who guarded before the step still does, or has handed over. */
  lemma OtherStepsGuard(d: Drain, step: Step)
    requires Inv(d) && Perform(d, step).active
    requires !step.Submit? && !step.Resume? && !step.Call?
    ensures Perform(d, step).calls == d.calls && Perform(d, step).queued <= d.queued
    ensures Perform(d, step).queued != {} && Guarded(d) ==> Guarded(Perform(d, step))
  {
    var d' := Perform(d, step);
    if Guarded(d) && d' != d && d'.queued != {} && d'.registered.None? {
      if d.registered.Some? {
        assert d.registered.value in d'.tasks;
        assert WillLook(d'.tasks[d.registered.value]);
      } else {
        var task :| task in d.tasks && WillLook(d.tasks[task]);
        assert task in d'.tasks && WillLook(d'.tasks[task]);
      }
    }
  }

  lemma {:induction false} Reachable(start: Drain, steps: seq<Step>)
    requires Start(start)
    ensures Inv(After(start, steps))
  {
    if steps != [] {
      var before := After(start, steps[..|steps| - 1]);
      Reachable(start, steps[..|steps| - 1]);
      StepKeepsRegistration(before, steps[|steps| - 1]);
      StepKeepsExclusive(before, steps[|steps| - 1]);
      StepKeepsWakeUps(before, steps[|steps| - 1]);
    }
  }

  // ----- What it comes to -----

  /** At most one drain task of the Conversation is inside its loop. */
  lemma OneTaskInLoop(start: Drain, steps: seq<Step>, s: TaskId, t: TaskId)
    requires Start(start)
    requires s in After(start, steps).tasks && InLoop(After(start, steps).tasks[s])
    requires t in After(start, steps).tasks && InLoop(After(start, steps).tasks[t])
    ensures s == t
  {
    Reachable(start, steps);
  }

  /** Without an index in the store, a Conversation still never has two RUNNING or WAITING Runs. */
  lemma OneRunOccupies(start: Drain, steps: seq<Step>, p: RunId, q: RunId)
    requires Start(start)
    requires p in After(start, steps).occupying && q in After(start, steps).occupying
    ensures p == q
  {
    Reachable(start, steps);
    var others := After(start, steps).occupying - {p};
    assert |others| == 0;
    assert q !in others;
  }

  /** A QUEUED Run of an ACTIVE Conversation for which no scheduling call is still to come has a registered
      task that is still in its loop or about to deregister and look again, or a task whose look
      is ahead. */
  lemma NoWakeUpIsLost(start: Drain, steps: seq<Step>, run: RunId)
    requires Start(start)
    requires After(start, steps).active && run in After(start, steps).queued
    requires forall call :: call in After(start, steps).calls ==> run !in After(start, steps).calls[call]
    ensures var d := After(start, steps);
            || (d.registered.Some? && d.registered.value in d.tasks
                && (InLoop(d.tasks[d.registered.value]) || d.tasks[d.registered.value].Deregistering?))
            || exists task :: task in d.tasks && WillLook(d.tasks[task])
  {
    Reachable(start, steps);
    assert !BeingScheduled(After(start, steps), run);
  }

  // ----- Progress -----

  /** A step that the process takes by itself: no caller asks for anything and no Run ends. */
  predicate OnItsOwn(step: Step) {
    !step.Submit? && !step.Resume? && !step.Cancel? && !step.Settle? && !step.Block? && !step.CancelTask?
  }

  /** An idle ACTIVE Conversation with a QUEUED Run. */
  predicate CouldBegin(d: Drain) {
    d.active && d.queued != {} && d.occupying == {}
  }

  /** How far the task is from beginning a Run. */
  function Distance(d: Drain, stage: Stage): nat {
    match stage
    case Chosen(run) => if run in d.queued then 1 else 5
    case ListingRuns => 2
    case ReadingConversation => 3
    case Running(_) => 4
    case Rescheduling => 6
    case Relisting(_) => 7
    case Rechecking => 8
    case Deregistering => 9
    case Done => 10
  }

  lemma FreshTask(tasks: map<TaskId, Stage>) returns (other: TaskId)
    ensures other !in tasks
  {
    other := Bound(tasks.Keys);
  }

  lemma {:induction false} Bound(tasks: set<TaskId>) returns (bound: TaskId)
    ensures forall task :: task in tasks ==> task < bound
  {
    if tasks == {} {
      bound := 0;
    } else {
      NotEmpty(tasks);
      var task :| task in tasks;
      bound := Bound(tasks - {task});
      assert forall other :: other in tasks ==> other == task || other in tasks - {task};
      bound := if task < bound then bound else task + 1;
    }
  }

  lemma StepKeeps(d: Drain, step: Step)
    requires Inv(d)
    ensures Inv(Perform(d, step))
  {
    StepKeepsRegistration(d, step);
    StepKeepsExclusive(d, step);
    StepKeepsWakeUps(d, step);
  }

  /** The next step of the task that is responsible brings it nearer to a Run. */
  lemma NextStep(d: Drain, task: TaskId) returns (step: Step, next: TaskId)
    requires Inv(d) && CouldBegin(d) && task in d.tasks
    requires if d.registered.Some? then d.registered == Some(task) else WillLook(d.tasks[task])
    ensures OnItsOwn(step)
    ensures var d' := Perform(d, step);
            d'.occupying != {}
            || (CouldBegin(d') && next in d'.tasks && Distance(d', d'.tasks[next]) < Distance(d, d.tasks[task])
                && if d'.registered.Some? then d'.registered == Some(next) else WillLook(d'.tasks[next]))
  {
    next := task;
    match d.tasks[task]
    case ReadingConversation => step := ReadConversation(task);
    case ListingRuns =>
      NotEmpty(d.queued);
      var choice :| choice in d.queued;
      step := ListRuns(task, choice);
    case Chosen(run) => step := BeginRun(task);
    case Running(_) => step := FinishRun(task, true);
    case Deregistering => step := Step.Deregister(task);
    case Rechecking => step := RereadConversation(task);
    case Relisting(_) => step := RelistRuns(task);
    case Rescheduling => next := FreshTask(d.tasks); step := Reschedule(task, next);
    case Done => assert false;
  }

  lemma {:induction false} TaskBegins(d: Drain, task: TaskId) returns (more: seq<Step>)
    requires Inv(d) && CouldBegin(d) && task in d.tasks
    requires if d.registered.Some? then d.registered == Some(task) else WillLook(d.tasks[task])
    ensures (forall i :: 0 <= i < |more| ==> OnItsOwn(more[i])) && After(d, more).occupying != {}
    decreases Distance(d, d.tasks[task])
  {
    hide Inv, Perform, WillLook, OnItsOwn, CouldBegin, Distance;
    var step, next := NextStep(d, task);
    StepKeeps(d, step);
    if Perform(d, step).occupying != {} {
      more := [step];
      assert After(d, more[..0]) == d;
    } else {
      var rest := TaskBegins(Perform(d, step), next);
      more := [step] + rest;
      AfterOne(d, step, rest);
    }
  }

  lemma {:induction false} AfterOne(d: Drain, step: Step, rest: seq<Step>)
    ensures After(d, [step] + rest) == After(Perform(d, step), rest)
  {
    hide Perform;
    if rest == [] {
      assert [step] + rest == [step] && After(d, []) == d;
    } else {
      assert ([step] + rest)[..|rest|] == [step] + rest[..|rest| - 1];
      AfterOne(d, step, rest[..|rest| - 1]);
    }
  }

  /** Wherever the tasks and the scheduling calls of an idle ACTIVE Conversation stand, a QUEUED
      Run of it gets to begin by their own steps alone. */
  lemma {:induction false} QueuedRunsBegin(start: Drain, steps: seq<Step>) returns (more: seq<Step>)
    requires Start(start) && CouldBegin(After(start, steps))
    ensures forall i :: 0 <= i < |more| ==> OnItsOwn(more[i])
    ensures After(After(start, steps), more).occupying != {}
  {
    hide After;
    var d := After(start, steps);
    Reachable(start, steps);
    if d.registered.Some? {
      more := TaskBegins(d, d.registered.value);
    } else if Guarded(d) {
      var task :| task in d.tasks && WillLook(d.tasks[task]);
      more := TaskBegins(d, task);
    } else {
      NotEmpty(d.queued);
      var run :| run in d.queued;
      assert BeingScheduled(d, run);
      var call :| call in d.calls && run in d.calls[call];
      var next := FreshTask(d.tasks);
      var step := Step.Call(call, next);
      StepKeeps(d, step);
      assert CouldBegin(Perform(d, step)) && Perform(d, step).registered == Some(next);
      var rest := TaskBegins(Perform(d, step), next);
      more := [step] + rest;
      AfterOne(d, step, rest);
    }
  }

  // ----- The dictionary of tasks -----

  /** The registrations of all Conversations, as `ControlPlane` keeps them, and the tasks of which
      `done()` holds. */
  class ConversationTasks {
    var tasks: map<ConversationId, TaskId>
    var done: set<TaskId>

    function Registered(c: ConversationId): Option<TaskId>
      reads this
    {
      if c in tasks then Some(tasks[c]) else None
    }

    /** The dictionary is that of a drain in state d. */
    ghost predicate Shows(c: ConversationId, d: Drain)
      reads this
    {
      Registered(c) == d.registered && forall task :: task in d.tasks ==> (task in done <==> d.tasks[task].Done?)
    }

    constructor ()
      ensures forall c, d :: Start(d) ==> Shows(c, d)
    {
      tasks, done := map[], {};
    }

    /** The body of `_schedule_conversation` under the task lock; `newTask` would be the task it
        creates.  When it is over, a task is registered that is not done. */
    method ScheduleConversation(c: ConversationId, newTask: TaskId, ghost d: Drain) returns (created: bool)
      requires Inv(d) && Shows(c, d) && newTask !in d.tasks && newTask !in done
      modifies this`tasks
      ensures Shows(c, Schedule(d, newTask))
      ensures created <==> newTask in Schedule(d, newTask).tasks
      ensures Registered(c).Some? && Registered(c).value in Schedule(d, newTask).tasks
      ensures Registered(c).value !in done
      ensures forall other :: other != c ==> Registered(other) == old(Registered(other))
    {
      assert forall task :: task in d.tasks ==> (task in done <==> d.tasks[task].Done?);
      if c in tasks && tasks[c] !in done {
        return false;
      }
      tasks := tasks[c := newTask];
      return true;
    }

    /** The body of the `finally` clause under the task lock.  The task finds its own registration,
        so nobody is registered afterwards, and it will look at the queue again. */
    method Deregister(c: ConversationId, current: TaskId, ghost d: Drain)
      requires Inv(d) && Shows(c, d) && At(d, current, Deregistering)
      modifies this`tasks
      ensures Shows(c, Perform(d, Step.Deregister(current)))
      ensures Registered(c).None? && Guarded(Perform(d, Step.Deregister(current)))
      ensures forall other :: other != c ==> Registered(other) == old(Registered(other))
    {
      assert d.registered == Some(current);
      ghost var d' := Perform(d, Step.Deregister(current));
      assert current in d'.tasks && WillLook(d'.tasks[current]);
      if c in tasks && tasks[c] == current {
        tasks := tasks - {c};
      }
    }
  }
}
