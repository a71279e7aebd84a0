/** The fixed Workflow script: it runs an approved plan in parallel batches.  An `agent` call is
    an uninterpreted function of the step and of the results it depends on. */
module WorkflowExecutor {
  import opened PlanGraph

  /** The `dependencyResults` handed to a step. */
  function Restrict<R>(outputs: map<string, R>, dependsOn: seq<string>): map<string, R> {
    map d | d in dependsOn && d in outputs :: outputs[d]
  }

  ghost predicate Computed<R>(steps: seq<PlanStep>, agent: (PlanStep, map<string, R>) -> R, outputs: map<string, R>) {
    forall step :: step in steps && step.id in outputs ==>
      Met(step, outputs.Keys) && outputs[step.id] == agent(step, Restrict(outputs, step.dependsOn))
  }

  /** out[s] = agent(s, out of s.dependsOn), for every step of the plan. */
  ghost predicate Solution<R>(steps: seq<PlanStep>, agent: (PlanStep, map<string, R>) -> R, outputs: map<string, R>) {
    outputs.Keys == Ids(steps) && Computed(steps, agent, outputs)
  }

  /** In a solution every step was handed the outputs of exactly the steps it depends on. */
  lemma SolutionHands<R>(steps: seq<PlanStep>, agent: (PlanStep, map<string, R>) -> R, outputs: map<string, R>)
    requires Solution(steps, agent, outputs)
    ensures forall step, m: map<string, R> ::
              && step in steps
              && m.Keys == (set d | d in step.dependsOn)
              && (forall d :: d in step.dependsOn ==> d in outputs && m[d] == outputs[d])
              ==> step.id in outputs && outputs[step.id] == agent(step, m)
    ensures forall step, d :: step in steps && d in step.dependsOn ==> d in outputs
  {
    forall step, m: map<string, R> |
      && step in steps
      && m.Keys == (set d | d in step.dependsOn)
      && (forall d :: d in step.dependsOn ==> d in outputs && m[d] == outputs[d])
      ensures step.id in outputs && outputs[step.id] == agent(step, m)
    {
      assert step.id in Ids(steps);
      assert m == Restrict(outputs, step.dependsOn);
    }
    forall step, d | step in steps && d in step.dependsOn ensures d in outputs {
      assert step.id in Ids(steps);
      assert Met(step, outputs.Keys);
    }
  }

  lemma RestrictAgrees<R>(out: map<string, R>, out': map<string, R>, dependsOn: seq<string>, keys: set<string>)
    requires forall x :: x in keys ==> x in out && x in out' && out[x] == out'[x]
    requires forall d :: d in dependsOn ==> d in keys
    ensures Restrict(out, dependsOn) == Restrict(out', dependsOn)
  {
  }

  lemma Equation<R>(steps: seq<PlanStep>, agent: (PlanStep, map<string, R>) -> R, out: map<string, R>, step: PlanStep)
    requires Solution(steps, agent, out) && step in steps
    ensures step.id in out && out[step.id] == agent(step, Restrict(out, step.dependsOn))
  {
    hide Restrict, Met;
    assert step.id in Ids(steps);
  }

  lemma {:induction false} SolutionsAgree<R>(steps: seq<PlanStep>, agent: (PlanStep, map<string, R>) -> R,
                                             out: map<string, R>, out': map<string, R>, k: nat)
    requires Solution(steps, agent, out) && Solution(steps, agent, out')
    ensures forall x :: x in Resolved(steps, k) ==> x in out && x in out' && out[x] == out'[x]
  {
    hide Solution, Restrict;
    if k > 0 {
      var before := Resolved(steps, k - 1);
      SolutionsAgree(steps, agent, out, out', k - 1);
      forall x | x in Ready(steps, before) ensures x in out && x in out' && out[x] == out'[x] {
        var step :| step in steps && step.id == x && Met(step, before);
        Equation(steps, agent, out, step);
        Equation(steps, agent, out', step);
        RestrictAgrees(out, out', step.dependsOn, before);
      }
    }
  }

  /** An accepted plan has at most one solution. */
  lemma SolutionIsUnique<R>(steps: seq<PlanStep>, agent: (PlanStep, map<string, R>) -> R, out: map<string, R>,
                            out': map<string, R>)
    requires WellFormed(steps) && Acyclic(steps)
    requires Solution(steps, agent, out) && Solution(steps, agent, out')
    ensures out == out'
  {
    ResolvedIffAcyclic(steps);
    SolutionsAgree(steps, agent, out, out', |steps|);
  }

  // ----- The script -----

  function Waiting(steps: seq<PlanStep>, done: set<string>): seq<PlanStep> {
    if steps == [] then []
    else if steps[0].id in done then Waiting(steps[1..], done)
    else [steps[0]] + Waiting(steps[1..], done)
  }

  /** `pending.filter(step => step.dependsOn.every(...))`. */
  function ReadyOf(pending: seq<PlanStep>, done: set<string>): seq<PlanStep> {
    if pending == [] then []
    else if Met(pending[0], done) then [pending[0]] + ReadyOf(pending[1..], done)
    else ReadyOf(pending[1..], done)
  }

  lemma {:induction false} InWaiting(steps: seq<PlanStep>, done: set<string>)
    ensures forall step :: step in Waiting(steps, done) <==> step in steps && step.id !in done
  {
    if steps != [] {
      InWaiting(steps[1..], done);
    }
  }

  lemma {:induction false} InReady(pending: seq<PlanStep>, done: set<string>)
    ensures forall step :: step in ReadyOf(pending, done) <==> step in pending && Met(step, done)
  {
    if pending != [] {
      InReady(pending[1..], done);
    }
  }

  lemma ConsDistinct(step: PlanStep, rest: seq<PlanStep>)
    requires DistinctIds(rest) && forall other :: other in rest ==> other.id != step.id
    ensures DistinctIds([step] + rest)
  {
    var all := [step] + rest;
    forall i, j | 0 <= i < j < |all| ensures all[i].id != all[j].id {
      assert all[j] in rest;
    }
  }

  lemma {:induction false} WaitingDistinct(steps: seq<PlanStep>, done: set<string>)
    requires DistinctIds(steps)
    ensures DistinctIds(Waiting(steps, done))
  {
    if steps != [] {
      WaitingDistinct(steps[1..], done);
      InWaiting(steps[1..], done);
      if steps[0].id !in done {
        ConsDistinct(steps[0], Waiting(steps[1..], done));
      }
    }
  }

  lemma {:induction false} ReadyDistinct(pending: seq<PlanStep>, done: set<string>)
    requires DistinctIds(pending)
    ensures DistinctIds(ReadyOf(pending, done))
  {
    if pending != [] {
      ReadyDistinct(pending[1..], done);
      InReady(pending[1..], done);
      if Met(pending[0], done) {
        ConsDistinct(pending[0], ReadyOf(pending[1..], done));
      }
    }
  }

  lemma {:induction false} WaitingTwice(steps: seq<PlanStep>, done: set<string>, more: set<string>)
    ensures Waiting(Waiting(steps, done), more) == Waiting(steps, done + more)
  {
    if steps != [] {
      WaitingTwice(steps[1..], done, more);
      if steps[0].id !in done {
        assert Waiting(steps, done)[1..] == Waiting(steps[1..], done);
      }
    }
  }

  lemma {:induction false} NobodyWaits(steps: seq<PlanStep>)
    ensures Waiting(steps, {}) == steps
  {
    if steps != [] {
      NobodyWaits(steps[1..]);
    }
  }

  /** What a round does with the values of its batch: `ready.forEach(...)`. */
  function Assign<R>(outputs: map<string, R>, ready: seq<PlanStep>, values: seq<R>): map<string, R>
    requires |values| == |ready|
  {
    if ready == [] then outputs
    else
      var last := |ready| - 1;
      Assign(outputs, ready[..last], values[..last])[ready[last].id := values[last]]
  }

  lemma LastId(ready: seq<PlanStep>)
    requires ready != [] && DistinctIds(ready)
    ensures var last := |ready| - 1;
            Ids(ready) == Ids(ready[..last]) + {ready[last].id} && ready[last].id !in Ids(ready[..last])
    ensures forall i :: 0 <= i < |ready| - 1 ==> ready[i].id in Ids(ready[..|ready| - 1])
  {
    var last := |ready| - 1;
    assert ready == ready[..last] + [ready[last]];
    forall i | 0 <= i < last ensures ready[i].id in Ids(ready[..last]) {
      assert ready[i] in ready[..last];
    }
  }

  lemma {:induction false} AssignAt<R>(outputs: map<string, R>, ready: seq<PlanStep>, values: seq<R>)
    requires |values| == |ready| && DistinctIds(ready)
    ensures var r := Assign(outputs, ready, values);
            && r.Keys == outputs.Keys + Ids(ready)
            && (forall x :: x in outputs && x !in Ids(ready) ==> r[x] == outputs[x])
            && (forall i :: 0 <= i < |ready| ==> ready[i].id in r && r[ready[i].id] == values[i])
  {
    if ready != [] {
      var last := |ready| - 1;
      AssignAt(outputs, ready[..last], values[..last]);
      LastId(ready);
      hide Ids;
    }
  }

  /** Each step of the sequence comes once, after all its dependencies. */
  ghost predicate Topological(steps: seq<PlanStep>, order: seq<PlanStep>) {
    && DistinctIds(order)
    && (forall step :: step in order <==> step in steps)
    && forall i :: 0 <= i < |order| ==> Met(order[i], Ids(order[..i]))
  }

  lemma IdsOfReady(steps: seq<PlanStep>, done: set<string>)
    ensures Ids(ReadyOf(Waiting(steps, done), done)) == Ready(steps, done)
  {
    InWaiting(steps, done);
    InReady(Waiting(steps, done), done);
  }

  lemma CallsExtend(calls: seq<PlanStep>, ready: seq<PlanStep>)
    requires DistinctIds(calls) && DistinctIds(ready) && Ids(calls) !! Ids(ready)
    requires forall i :: 0 <= i < |calls| ==> Met(calls[i], Ids(calls[..i]))
    requires forall step :: step in ready ==> Met(step, Ids(calls))
    ensures DistinctIds(calls + ready) && Ids(calls + ready) == Ids(calls) + Ids(ready)
    ensures forall i :: 0 <= i < |calls + ready| ==> Met((calls + ready)[i], Ids((calls + ready)[..i]))
  {
    var all := calls + ready;
    forall i, j | 0 <= i < j < |all| ensures all[i].id != all[j].id {
      if i < |calls| <= j {
        assert all[i].id in Ids(calls) && all[j].id in Ids(ready);
      }
    }
    forall i | 0 <= i < |all| ensures Met(all[i], Ids(all[..i])) {
      if i < |calls| {
        assert all[..i] == calls[..i];
      } else {
        assert all[i] in ready;
        assert all[..i] == calls + ready[..i - |calls|];
        assert Ids(calls) <= Ids(all[..i]);
      }
    }
  }

  /** `parallel(ready.map(step => () => agent(...)))`: all calls see the outputs of earlier rounds. */
  function Values<R>(agent: (PlanStep, map<string, R>) -> R, outputs: map<string, R>, ready: seq<PlanStep>): (r: seq<R>)
    ensures |r| == |ready|
    ensures forall i :: 0 <= i < |ready| ==> r[i] == agent(ready[i], Restrict(outputs, ready[i].dependsOn))
  {
    seq(|ready|, i requires 0 <= i < |ready| => agent(ready[i], Restrict(outputs, ready[i].dependsOn)))
  }

  /** The batch of a round: distinct steps that are not done and whose dependencies are. */
  lemma BatchIsReady(steps: seq<PlanStep>, done: set<string>)
    requires DistinctIds(steps)
    ensures var ready := ReadyOf(Waiting(steps, done), done);
            && DistinctIds(ready) && Ids(ready) == Ready(steps, done) && Ids(ready) !! done
            && forall step :: step in ready <==> step in steps && step.id !in done && Met(step, done)
  {
    InWaiting(steps, done);
    WaitingDistinct(steps, done);
    InReady(Waiting(steps, done), done);
    ReadyDistinct(Waiting(steps, done), done);
    IdsOfReady(steps, done);
  }

  lemma RoundComputes<R>(steps: seq<PlanStep>, agent: (PlanStep, map<string, R>) -> R, outputs: map<string, R>)
    requires DistinctIds(steps) && Computed(steps, agent, outputs)
    ensures var ready := ReadyOf(Waiting(steps, outputs.Keys), outputs.Keys);
            Computed(steps, agent, Assign(outputs, ready, Values(agent, outputs, ready)))
  {
    var ready := ReadyOf(Waiting(steps, outputs.Keys), outputs.Keys);
    var values := Values(agent, outputs, ready);
    var outputs' := Assign(outputs, ready, values);
    BatchIsReady(steps, outputs.Keys);
    AssignAt(outputs, ready, values);
    forall x | x in outputs ensures x in outputs' && outputs'[x] == outputs[x] {
      assert x !in Ids(ready);
    }
    forall step | step in steps && step.id in outputs'
      ensures Met(step, outputs'.Keys) && outputs'[step.id] == agent(step, Restrict(outputs', step.dependsOn))
    {
      if step.id !in outputs {
        var other :| other in ready && other.id == step.id;
        UniqueStep(steps, step, other);
        var i :| 0 <= i < |ready| && ready[i] == step;
        assert outputs'[ready[i].id] == values[i];
      }
      RestrictAgrees(outputs, outputs', step.dependsOn, outputs.Keys);
    }
  }

  lemma {:induction false} WaitingFits(pending: seq<PlanStep>, done: set<string>)
    ensures |Waiting(pending, done)| <= |pending|
  {
    if pending != [] {
      WaitingFits(pending[1..], done);
    }
  }

  lemma {:induction false} WaitingShrinks(pending: seq<PlanStep>, done: set<string>)
    requires exists step :: step in pending && step.id in done
    ensures |Waiting(pending, done)| < |pending|
  {
    WaitingFits(pending[1..], done);
    if pending[0].id !in done {
      var step :| step in pending && step.id in done;
      assert step in pending[1..];
      WaitingShrinks(pending[1..], done);
    }
  }

  /** The calls so far: each step at most once, after its dependencies. */
  ghost predicate Called(steps: seq<PlanStep>, calls: seq<PlanStep>) {
    && DistinctIds(calls)
    && (forall step :: step in calls ==> step in steps)
    && (forall i :: 0 <= i < |calls| ==> Met(calls[i], Ids(calls[..i])))
  }

  lemma CallsGrow(steps: seq<PlanStep>, calls: seq<PlanStep>)
    requires DistinctIds(steps) && Called(steps, calls)
    ensures var ready := ReadyOf(Waiting(steps, Ids(calls)), Ids(calls));
            Called(steps, calls + ready) && Ids(calls + ready) == Ids(calls) + Ready(steps, Ids(calls))
  {
    BatchIsReady(steps, Ids(calls));
    CallsExtend(calls, ReadyOf(Waiting(steps, Ids(calls)), Ids(calls)));
  }

  /** Where the script stands between two rounds. */
  ghost predicate BetweenRounds<R>(steps: seq<PlanStep>, agent: (PlanStep, map<string, R>) -> R,
                                   outputs: map<string, R>, calls: seq<PlanStep>, rounds: nat)
  {
    && outputs.Keys == Resolved(steps, rounds) && Computed(steps, agent, outputs)
    && Called(steps, calls) && Ids(calls) == outputs.Keys && rounds <= |calls|
    && (rounds > 0 ==> Resolved(steps, rounds - 1) != Resolved(steps, rounds))
  }

  lemma RoundAdvances<R>(steps: seq<PlanStep>, agent: (PlanStep, map<string, R>) -> R, outputs: map<string, R>,
                         calls: seq<PlanStep>, rounds: nat)
    requires WellFormed(steps) && BetweenRounds(steps, agent, outputs, calls, rounds)
    requires ReadyOf(Waiting(steps, outputs.Keys), outputs.Keys) != []
    ensures var ready := ReadyOf(Waiting(steps, outputs.Keys), outputs.Keys);
            && BetweenRounds(steps, agent, Assign(outputs, ready, Values(agent, outputs, ready)), calls + ready, rounds + 1)
            && Assign(outputs, ready, Values(agent, outputs, ready)).Keys == outputs.Keys + Ids(ready)
            && Waiting(Waiting(steps, outputs.Keys), Ids(ready)) == Waiting(steps, outputs.Keys + Ids(ready))
            && |Waiting(steps, outputs.Keys + Ids(ready))| < |Waiting(steps, outputs.Keys)|
  {
    var ready := ReadyOf(Waiting(steps, outputs.Keys), outputs.Keys);
    RoundComputes(steps, agent, outputs);
    CallsGrow(steps, calls);
    AssignAt(outputs, ready, Values(agent, outputs, ready)) by { BatchIsReady(steps, outputs.Keys); }
    assert Ids(ready) == Ready(steps, outputs.Keys) && Ids(ready) !! outputs.Keys by { BatchIsReady(steps, outputs.Keys); }
    WaitingTwice(steps, outputs.Keys, Ids(ready));
    SomethingIsReady(steps, outputs.Keys);
    hide Computed, Called, ReadyOf, Waiting, KnownDependencies, Ready, Ids;
  }

  lemma SomethingIsReady(steps: seq<PlanStep>, done: set<string>)
    requires DistinctIds(steps) && ReadyOf(Waiting(steps, done), done) != []
    ensures var ready := ReadyOf(Waiting(steps, done), done);
            Ids(ready) != {} && |Waiting(Waiting(steps, done), Ids(ready))| < |Waiting(steps, done)|
  {
    var ready := ReadyOf(Waiting(steps, done), done);
    assert ready[0] in ready && ready[0].id in Ids(ready);
    InReady(Waiting(steps, done), done);
    WaitingShrinks(Waiting(steps, done), Ids(ready));
  }

  /** With steps left and none of them ready, the dependencies go round in a circle. */
  lemma StuckIsCyclic(steps: seq<PlanStep>, rounds: nat)
    requires WellFormed(steps)
    requires Waiting(steps, Resolved(steps, rounds)) != []
    requires ReadyOf(Waiting(steps, Resolved(steps, rounds)), Resolved(steps, rounds)) == []
    ensures !Acyclic(steps)
  {
    var done := Resolved(steps, rounds);
    IdsOfReady(steps, done);
    assert Ready(steps, done) == {};
    var left := Waiting(steps, done)[0];
    InWaiting(steps, done);
    assert left in steps && left.id in Ids(steps) && left.id !in done;
    if rounds <= |steps| {
      StaysStuck(steps, rounds, |steps|);
    } else {
      ResolvedGrows(steps, |steps|, rounds);
    }
    ResolvedIffAcyclic(steps);
  }

  lemma {:induction false} AllDone<R>(steps: seq<PlanStep>, agent: (PlanStep, map<string, R>) -> R,
                                      outputs: map<string, R>, calls: seq<PlanStep>, rounds: nat)
    requires WellFormed(steps) && BetweenRounds(steps, agent, outputs, calls, rounds)
    requires Waiting(steps, outputs.Keys) == []
    ensures Acyclic(steps) && Solution(steps, agent, outputs)
    ensures Topological(steps, calls) && |calls| == |steps|
    ensures Depth(steps, rounds) && rounds <= |steps|
  {
    EverythingDone(steps, outputs.Keys);
    assert outputs.Keys == Ids(steps) by { ResolvedGrows(steps, rounds, rounds); }
    CalledAll(steps, calls);
    AllResolved(steps, rounds) by { FewIds(steps); }
    hide Computed, Called, Waiting, Resolved, Topological, Ids;
    RoundsAreDepth(steps, rounds);
  }

  lemma CalledAll(steps: seq<PlanStep>, calls: seq<PlanStep>)
    requires DistinctIds(steps) && Called(steps, calls) && Ids(calls) == Ids(steps)
    ensures Topological(steps, calls) && |calls| == |steps|
  {
    forall step | step in steps ensures step in calls {
      assert step.id in Ids(calls);
      var other :| other in calls && other.id == step.id;
      UniqueStep(steps, step, other);
    }
    FewIds(steps);
    FewIds(calls);
  }

  lemma EverythingDone(steps: seq<PlanStep>, done: set<string>)
    requires Waiting(steps, done) == []
    ensures Ids(steps) <= done
  {
    InWaiting(steps, done);
    forall step | step in steps ensures step.id in done {
      assert step !in Waiting(steps, done);
    }
  }

  datatype WorkflowResult<R> = Returned(steps: seq<(string, R)>) | Threw

  /** `parallel(ready.map(step => () => { ... return agent(...) }))`. */
  method CallAgents<R>(agent: (PlanStep, map<string, R>) -> R, outputs: map<string, R>, ready: seq<PlanStep>)
    returns (values: seq<R>)
    requires forall step, d :: step in ready && d in step.dependsOn ==> d in outputs
    ensures values == Values(agent, outputs, ready)
  {
    values := [];
    for index := 0 to |ready|
      invariant values == Values(agent, outputs, ready)[..index]
    {
      var step := ready[index];
      assert step in ready;
      var dependencyResults := map d | d in step.dependsOn :: outputs[d];
      assert dependencyResults == Restrict(outputs, step.dependsOn);
      values := values + [agent(step, dependencyResults)];
    }
  }

  lemma DependenciesAreOut(pending: seq<PlanStep>, done: set<string>)
    ensures forall step, d :: step in ReadyOf(pending, done) && d in step.dependsOn ==> d in done
  {
    InReady(pending, done);
  }

  /** `ready.forEach((step, index) => { outputs[step.stepId] = values[index] })`. */
  method RecordResults<R>(outputs: map<string, R>, ready: seq<PlanStep>, values: seq<R>) returns (updated: map<string, R>)
    requires |values| == |ready|
    ensures updated == Assign(outputs, ready, values)
  {
    updated := outputs;
    for index := 0 to |ready|
      invariant updated == Assign(outputs, ready[..index], values[..index])
    {
      assert ready[..index + 1][..index] == ready[..index] && values[..index + 1][..index] == values[..index];
      updated := updated[ready[index].id := values[index]];
    }
    assert ready[..|ready|] == ready && values[..|ready|] == values;
  }

  /** The script.  `calls` lists the `agent` calls, `rounds` counts the batches. */
  method RunWorkflow<R>(steps: seq<PlanStep>, agent: (PlanStep, map<string, R>) -> R)
    returns (result: WorkflowResult<R>, outputs: map<string, R>, calls: seq<PlanStep>, rounds: nat)
    requires WellFormed(steps)
    ensures result.Threw? <==> !Acyclic(steps)
    ensures result.Returned? ==>
              && Solution(steps, agent, outputs)
              && |result.steps| == |steps|
              && (forall i :: 0 <= i < |steps| ==>
                    steps[i].id in outputs && result.steps[i] == (steps[i].id, outputs[steps[i].id]))
              && Topological(steps, calls) && |calls| == |steps|
              && Depth(steps, rounds) && rounds <= |steps|
    ensures result.Returned? ==>
              forall step, m: map<string, R> ::
                && step in steps
                && m.Keys == (set d | d in step.dependsOn)
                && (forall d :: d in step.dependsOn ==> d in outputs && m[d] == outputs[d])
                ==> step.id in outputs && outputs[step.id] == agent(step, m)
  {
    hide Computed, Resolved, Acyclic, Topological, Depth, BetweenRounds, WellFormed, Waiting, ReadyOf, Assign, Values;
    var pending := steps;
    outputs, calls, rounds := map[], [], 0;
    NobodyWaits(steps);
    NothingComputed(steps, agent);
    assert outputs.Keys == {};
    while pending != []
      invariant pending == Waiting(steps, outputs.Keys)
      invariant BetweenRounds(steps, agent, outputs, calls, rounds)
      decreases |pending|
    {
      var ready := ReadyOf(pending, outputs.Keys);
      if ready == [] {
        assert outputs.Keys == Resolved(steps, rounds) by { StandsAt(steps, agent, outputs, calls, rounds); }
        StuckIsCyclic(steps, rounds);
        return Threw, outputs, calls, rounds;
      }
      DependenciesAreOut(pending, outputs.Keys);
      var values := CallAgents(agent, outputs, ready);
      RoundAdvances(steps, agent, outputs, calls, rounds);
      outputs := RecordResults(outputs, ready, values);
      calls := calls + ready;
      pending := Waiting(pending, Ids(ready));
      rounds := rounds + 1;
    }
    AllDone(steps, agent, outputs, calls, rounds);
    SolutionHands(steps, agent, outputs);
    result := Returned(seq(|steps|, i requires 0 <= i < |steps| => (steps[i].id, outputs[steps[i].id])));
  }

  lemma NothingComputed<R>(steps: seq<PlanStep>, agent: (PlanStep, map<string, R>) -> R)
    ensures BetweenRounds(steps, agent, map[], [], 0)
  {
  }

  lemma StandsAt<R>(steps: seq<PlanStep>, agent: (PlanStep, map<string, R>) -> R, outputs: map<string, R>,
                    calls: seq<PlanStep>, rounds: nat)
    requires BetweenRounds(steps, agent, outputs, calls, rounds)
    ensures outputs.Keys == Resolved(steps, rounds)
  {
  }

  // ----- One step at a time -----

  function RunInOrder<R>(order: seq<PlanStep>, agent: (PlanStep, map<string, R>) -> R): map<string, R> {
    if order == [] then map[]
    else
      var last := order[|order| - 1];
      var outputs := RunInOrder(order[..|order| - 1], agent);
      outputs[last.id := agent(last, Restrict(outputs, last.dependsOn))]
  }

  lemma {:induction false} RunInOrderComputes<R>(order: seq<PlanStep>, agent: (PlanStep, map<string, R>) -> R)
    requires DistinctIds(order) && forall i :: 0 <= i < |order| ==> Met(order[i], Ids(order[..i]))
    ensures Solution(order, agent, RunInOrder(order, agent))
  {
    if order != [] {
      var last := |order| - 1;
      var before := order[..last];
      forall i | 0 <= i < last ensures Met(before[i], Ids(before[..i])) {
        assert before[..i] == order[..i] && Met(order[i], Ids(order[..i]));
      }
      RunInOrderComputes(before, agent);
      assert order == before + [order[last]];
      assert order[last].id !in Ids(before);
      var outputs, outputs' := RunInOrder(before, agent), RunInOrder(order, agent);
      forall step | step in order
        ensures step.id in outputs' && Met(step, outputs'.Keys)
                && outputs'[step.id] == agent(step, Restrict(outputs', step.dependsOn))
      {
        assert Met(step, Ids(before));
        RestrictAgrees(outputs, outputs', step.dependsOn, Ids(before));
      }
    }
  }

  /** Running the steps one at a time, in whatever topological order, gives the outputs of the
      parallel batches: whatever solves the plan's equations is what either of them computes. */
  lemma {:induction false} BatchesAreSequential<R>(steps: seq<PlanStep>, agent: (PlanStep, map<string, R>) -> R,
                                                   order: seq<PlanStep>, outputs: map<string, R>)
    requires WellFormed(steps) && Acyclic(steps) && Topological(steps, order)
    requires Solution(steps, agent, outputs)
    ensures outputs == RunInOrder(order, agent)
    ensures forall step, m: map<string, R> ::
              && step in order
              && m.Keys == (set d | d in step.dependsOn)
              && (forall d :: d in step.dependsOn ==> d in outputs && m[d] == outputs[d])
              ==> step.id in RunInOrder(order, agent) && RunInOrder(order, agent)[step.id] == agent(step, m)
  {
    RunInOrderComputes(order, agent);
    SolutionHands(order, agent, RunInOrder(order, agent));
    assert Ids(order) == Ids(steps);
    SolutionIsUnique(steps, agent, outputs, RunInOrder(order, agent));
  }
}
