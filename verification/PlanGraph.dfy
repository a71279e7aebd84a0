/** The dependency graph of a plan: the layers the validator peels off, the chains of
    dependencies, and the cycles. */
module PlanGraph {

  datatype PlanStep = PlanStep(id: string, task: string, dependsOn: seq<string>)

  function Ids(steps: seq<PlanStep>): set<string> {
    set step | step in steps :: step.id
  }

  ghost predicate DistinctIds(steps: seq<PlanStep>) {
    forall i, j :: 0 <= i < j < |steps| ==> steps[i].id != steps[j].id
  }

  ghost predicate KnownDependencies(steps: seq<PlanStep>) {
    forall step, d :: step in steps && d in step.dependsOn ==> d in Ids(steps)
  }

  /** What `validate_proposal` has checked before it looks for cycles. */
  ghost predicate WellFormed(steps: seq<PlanStep>) {
    DistinctIds(steps) && KnownDependencies(steps)
  }

  predicate Met(step: PlanStep, done: set<string>) {
    forall d :: d in step.dependsOn ==> d in done
  }

  function Ready(steps: seq<PlanStep>, done: set<string>): set<string> {
    set step | step in steps && step.id !in done && Met(step, done) :: step.id
  }

  /** What is resolved after k rounds. */
  function Resolved(steps: seq<PlanStep>, k: nat): set<string> {
    if k == 0 then {} else Resolved(steps, k - 1) + Ready(steps, Resolved(steps, k - 1))
  }

  // ----- Chains and cycles -----

  ghost predicate DependsOn(steps: seq<PlanStep>, x: string, y: string) {
    exists step :: step in steps && step.id == x && y in step.dependsOn
  }

  /** Each step of the path depends on the next. */
  ghost predicate Path(steps: seq<PlanStep>, path: seq<string>) {
    forall i :: 0 <= i < |path| - 1 ==> DependsOn(steps, path[i], path[i + 1])
  }

  ghost predicate Chain(steps: seq<PlanStep>, path: seq<string>, x: string) {
    Path(steps, path) && path != [] && path[0] == x && forall i :: 0 <= i < |path| ==> path[i] in Ids(steps)
  }

  ghost predicate Cycle(steps: seq<PlanStep>, path: seq<string>) {
    Path(steps, path) && |path| >= 2 && path[0] == path[|path| - 1]
  }

  ghost predicate Acyclic(steps: seq<PlanStep>) {
    forall path :: !Cycle(steps, path)
  }

  lemma UniqueStep(steps: seq<PlanStep>, a: PlanStep, b: PlanStep)
    requires DistinctIds(steps) && a in steps && b in steps && a.id == b.id
    ensures a == b
  {
    var i :| 0 <= i < |steps| && steps[i] == a;
    var j :| 0 <= j < |steps| && steps[j] == b;
  }

  lemma ReadyIds(steps: seq<PlanStep>, done: set<string>)
    ensures Ready(steps, done) <= Ids(steps)
  {
  }

  lemma {:induction false} ResolvedGrows(steps: seq<PlanStep>, j: nat, k: nat)
    requires j <= k
    ensures Resolved(steps, j) <= Resolved(steps, k) <= Ids(steps)
    decreases k
  {
    if k > 0 {
      ReadyIds(steps, Resolved(steps, k - 1));
      hide Ready, Ids;
      ResolvedGrows(steps, if j < k then j else k - 1, k - 1);
    }
  }

  lemma TailOfChain(steps: seq<PlanStep>, path: seq<string>)
    requires Path(steps, path) && |path| >= 2 && forall i :: 0 <= i < |path| ==> path[i] in Ids(steps)
    ensures Chain(steps, path[1..], path[1])
  {
    var tail := path[1..];
    forall i | 0 <= i < |tail| - 1 ensures DependsOn(steps, tail[i], tail[i + 1]) {
      assert DependsOn(steps, path[i + 1], path[i + 2]);
    }
  }

  lemma ChainFrom(steps: seq<PlanStep>, x: string, path: seq<string>)
    requires x in Ids(steps) && path != [] && Chain(steps, path, path[0]) && DependsOn(steps, x, path[0])
    ensures Chain(steps, [x] + path, x)
  {
    var longer := [x] + path;
    forall i | 0 <= i < |longer| - 1 ensures DependsOn(steps, longer[i], longer[i + 1]) {
      if i > 0 {
        assert DependsOn(steps, path[i - 1], path[i]);
      }
    }
  }

  /** No chain from a step resolved after k rounds is longer than k. */
  lemma {:induction false} ChainsAreShort(steps: seq<PlanStep>, k: nat, path: seq<string>)
    requires DistinctIds(steps)
    requires path != [] && Chain(steps, path, path[0]) && path[0] in Resolved(steps, k)
    ensures |path| <= k
    decreases k
  {
    if path[0] in Resolved(steps, k - 1) {
      ChainsAreShort(steps, k - 1, path);
    } else if |path| >= 2 {
      var before := Resolved(steps, k - 1);
      var step :| step in steps && step.id == path[0] && Met(step, before);
      assert DependsOn(steps, path[0], path[1]);
      var depending :| depending in steps && depending.id == path[0] && path[1] in depending.dependsOn;
      UniqueStep(steps, step, depending);
      TailOfChain(steps, path);
      ChainsAreShort(steps, k - 1, path[1..]);
    }
  }

  /** From a step that k rounds have not resolved there is a chain of k + 1 steps. */
  lemma {:induction false} LongChain(steps: seq<PlanStep>, k: nat, x: string) returns (path: seq<string>)
    requires WellFormed(steps) && x in Ids(steps) && x !in Resolved(steps, k)
    ensures Chain(steps, path, x) && |path| == k + 1
  {
    if k == 0 {
      path := [x];
    } else {
      var before := Resolved(steps, k - 1);
      var step :| step in steps && step.id == x;
      assert x !in Ready(steps, before);
      assert !Met(step, before);
      var d :| d in step.dependsOn && d !in before;
      assert DependsOn(steps, x, d);
      var rest := LongChain(steps, k - 1, d);
      ChainFrom(steps, x, rest);
      path := [x] + rest;
    }
  }

  /** k rounds resolve exactly the steps from which no chain is longer than k. */
  lemma ResolvedByDepth(steps: seq<PlanStep>, k: nat, x: string)
    requires WellFormed(steps) && x in Ids(steps)
    ensures x in Resolved(steps, k) <==> forall path :: Chain(steps, path, x) ==> |path| <= k
  {
    if x in Resolved(steps, k) {
      forall path | Chain(steps, path, x) ensures |path| <= k {
        ChainsAreShort(steps, k, path);
      }
    } else {
      var path := LongChain(steps, k, x);
      assert Chain(steps, path, x) && |path| > k;
    }
  }

  // ----- Cycles -----

  /** Going round a cycle gives chains of any length. */
  lemma {:induction false} ChainAroundCycle(steps: seq<PlanStep>, cycle: seq<string>, i: nat, k: nat)
    returns (path: seq<string>)
    requires KnownDependencies(steps) && Cycle(steps, cycle) && i < |cycle| - 1
    ensures Chain(steps, path, cycle[i]) && |path| == k + 1
    decreases k
  {
    assert DependsOn(steps, cycle[i], cycle[i + 1]);
    var step :| step in steps && step.id == cycle[i] && cycle[i + 1] in step.dependsOn;
    assert cycle[i] in Ids(steps);
    if k == 0 {
      path := [cycle[i]];
    } else {
      var rest := ChainAroundCycle(steps, cycle, if i + 1 < |cycle| - 1 then i + 1 else 0, k - 1);
      ChainFrom(steps, cycle[i], rest);
      path := [cycle[i]] + rest;
    }
  }

  lemma {:induction false} Pigeonhole(path: seq<string>, ids: set<string>) returns (i: nat, j: nat)
    requires |path| > |ids| && forall k :: 0 <= k < |path| ==> path[k] in ids
    ensures i < j < |path| && path[i] == path[j]
  {
    var last := |path| - 1;
    if k :| 0 <= k < last && path[k] == path[last] {
      i, j := k, last;
    } else {
      i, j := Pigeonhole(path[..last], ids - {path[last]});
    }
  }

  /** A chain with more steps than there are goes round in a circle. */
  lemma LongChainIsCyclic(steps: seq<PlanStep>, path: seq<string>) returns (cycle: seq<string>)
    requires path != [] && Chain(steps, path, path[0]) && |path| > |Ids(steps)|
    ensures Cycle(steps, cycle)
  {
    var i, j := Pigeonhole(path, Ids(steps));
    cycle := path[i..j + 1];
    forall k | 0 <= k < |cycle| - 1 ensures DependsOn(steps, cycle[k], cycle[k + 1]) {
      assert DependsOn(steps, path[i + k], path[i + k + 1]);
    }
  }

  lemma {:induction false} FewIds(steps: seq<PlanStep>)
    ensures |Ids(steps)| <= |steps|
    ensures DistinctIds(steps) ==> |Ids(steps)| == |steps|
  {
    if steps != [] {
      var last := |steps| - 1;
      FewIds(steps[..last]);
      assert steps == steps[..last] + [steps[last]];
      assert Ids(steps) == Ids(steps[..last]) + {steps[last].id};
      if DistinctIds(steps) {
        assert steps[last].id !in Ids(steps[..last]);
      }
    }
  }

  /** The rounds resolve everything exactly when no dependency goes round in a circle, and then
      as many rounds as there are steps are enough. */
  lemma ResolvedIffAcyclic(steps: seq<PlanStep>)
    requires WellFormed(steps)
    ensures Acyclic(steps) <==> Resolved(steps, |steps|) == Ids(steps)
    ensures forall k: nat :: Resolved(steps, k) == Ids(steps) ==> Acyclic(steps)
  {
    forall k: nat | Resolved(steps, k) == Ids(steps) ensures Acyclic(steps) {
      forall cycle ensures !Cycle(steps, cycle) {
        if Cycle(steps, cycle) {
          var path := ChainAroundCycle(steps, cycle, 0, k);
          ChainsAreShort(steps, k, path);
        }
      }
    }
    ResolvedGrows(steps, |steps|, |steps|);
    if Resolved(steps, |steps|) != Ids(steps) {
      var x :| x in Ids(steps) && x !in Resolved(steps, |steps|);
      var path := LongChain(steps, |steps|, x);
      FewIds(steps);
      var cycle := LongChainIsCyclic(steps, path);
    }
  }

  // ----- The check -----

  /** `_assert_acyclic`: peels off layers until nothing is left or nothing can be peeled off. */
  method AssertAcyclic(steps: seq<PlanStep>) returns (accepted: bool)
    requires WellFormed(steps)
    ensures accepted <==> Acyclic(steps)
  {
    hide Resolved, Ready, Ids, Acyclic, WellFormed;
    var resolved: set<string> := {};
    ghost var k := 0;
    NothingResolved(steps);
    while |resolved| < |steps|
      invariant resolved == Resolved(steps, k) && resolved <= Ids(steps) && k <= |resolved|
      decreases |steps| - |resolved|
    {
      var ready := Ready(steps, resolved);
      if ready == {} {
        Stuck(steps, k);
        return false;
      }
      OneRound(steps, k);
      resolved := resolved + ready;
      k := k + 1;
    }
    AllResolved(steps, k);
    return true;
  }

  lemma NothingResolved(steps: seq<PlanStep>)
    requires WellFormed(steps)
    ensures Resolved(steps, 0) == {} && DistinctIds(steps)
  {
  }

  lemma {:induction false} OneRound(steps: seq<PlanStep>, k: nat)
    requires DistinctIds(steps)
    requires Resolved(steps, k) <= Ids(steps) && Ready(steps, Resolved(steps, k)) != {}
    ensures |Resolved(steps, k)| < |Resolved(steps, k + 1)| <= |steps|
    ensures Resolved(steps, k + 1) == Resolved(steps, k) + Ready(steps, Resolved(steps, k)) <= Ids(steps)
  {
    Grown(Resolved(steps, k), Ready(steps, Resolved(steps, k)));
    Subset(Resolved(steps, k + 1), Ids(steps));
    FewIds(steps);
  }

  lemma {:induction false} AllResolved(steps: seq<PlanStep>, k: nat)
    requires WellFormed(steps) && Resolved(steps, k) <= Ids(steps) && |Resolved(steps, k)| >= |steps|
    ensures Resolved(steps, k) == Ids(steps) && Acyclic(steps)
  {
    FewIds(steps);
    SameSize(Resolved(steps, k), Ids(steps));
    ResolvedIffAcyclic(steps);
  }

  lemma Grown(resolved: set<string>, ready: set<string>)
    requires ready != {} && resolved !! ready
    ensures |resolved + ready| > |resolved|
  {
    assert |resolved + ready| == |resolved| + |ready|;
  }

  lemma {:induction false} Subset(small: set<string>, large: set<string>)
    requires small <= large
    ensures |small| <= |large|
  {
    if small != {} {
      var x :| x in small;
      Subset(small - {x}, large - {x});
    }
  }

  lemma SameSize(small: set<string>, large: set<string>)
    requires small <= large && |small| >= |large|
    ensures small == large
  {
    Subset(large - small, large);
    assert |large| == |large - small| + |small|;
  }

  lemma {:induction false} StaysStuck(steps: seq<PlanStep>, k: nat, n: nat)
    requires k <= n && Ready(steps, Resolved(steps, k)) == {}
    ensures Resolved(steps, n) == Resolved(steps, k)
    decreases n
  {
    if k < n {
      StaysStuck(steps, k, n - 1);
    }
  }

  lemma Stuck(steps: seq<PlanStep>, k: nat)
    requires WellFormed(steps) && Ready(steps, Resolved(steps, k)) == {}
    requires k <= |Resolved(steps, k)| < |steps|
    ensures !Acyclic(steps)
  {
    FewIds(steps);
    StaysStuck(steps, k, |steps|);
    ResolvedIffAcyclic(steps);
  }

  // ----- Rounds are as few as can be -----

  /** An assignment of rounds 1, 2, ... in which every step comes after its dependencies. */
  ghost predicate Schedule(steps: seq<PlanStep>, round: map<string, nat>) {
    && (forall x :: x in Ids(steps) ==> x in round && round[x] >= 1)
    && (forall x, y :: x in Ids(steps) && y in Ids(steps) && DependsOn(steps, x, y) ==>
          x in round && y in round && round[y] < round[x])
  }

  /** No schedule runs a step earlier than the round that resolves it. */
  lemma {:induction false} EarliestRound(steps: seq<PlanStep>, round: map<string, nat>, k: nat, x: string)
    requires WellFormed(steps) && Schedule(steps, round) && x in Ids(steps)
    requires round[x] <= k
    ensures x in Resolved(steps, k)
    decreases k
  {
    if x !in Resolved(steps, k) {
      var before := Resolved(steps, k - 1);
      ResolvedGrows(steps, k - 1, k);
      var step :| step in steps && step.id == x;
      assert !Met(step, before);
      var d :| d in step.dependsOn && d !in before;
      assert DependsOn(steps, x, d);
      EarliestRound(steps, round, k - 1, d);
    }
  }

  /** The depth of a plan: how long its longest chain of dependencies is. */
  ghost predicate Depth(steps: seq<PlanStep>, depth: nat) {
    && (forall x, path :: Chain(steps, path, x) ==> |path| <= depth)
    && (depth > 0 ==> exists x, path :: Chain(steps, path, x) && |path| == depth)
  }

  lemma Missing(small: set<string>, large: set<string>) returns (x: string)
    requires small <= large && small != large
    ensures x in large && x !in small
  {
    x :| x in large && x !in small;
  }

  /** The number of rounds is the depth of the plan. */
  lemma RoundsAreDepth(steps: seq<PlanStep>, rounds: nat)
    requires WellFormed(steps) && Resolved(steps, rounds) == Ids(steps)
    requires rounds > 0 ==> Resolved(steps, rounds - 1) != Ids(steps)
    ensures Depth(steps, rounds)
  {
    hide Resolved, Ready, Path, WellFormed;
    assert DistinctIds(steps) by { NothingResolved(steps); }
    forall x, path | Chain(steps, path, x) ensures |path| <= rounds {
      ChainsAreShort(steps, rounds, path);
    }
    if rounds > 0 {
      ResolvedGrows(steps, rounds - 1, rounds);
      var x := Missing(Resolved(steps, rounds - 1), Ids(steps));
      var path := LongChain(steps, rounds - 1, x);
      assert Chain(steps, path, x) && |path| == rounds;
    }
  }

  /** No schedule needs fewer rounds. */
  lemma RoundsAreFewest(steps: seq<PlanStep>, rounds: nat, round: map<string, nat>, k: nat)
    requires WellFormed(steps) && Schedule(steps, round)
    requires rounds > 0 ==> Resolved(steps, rounds - 1) != Ids(steps)
    requires forall x :: x in Ids(steps) ==> round[x] <= k
    ensures rounds <= k
  {
    if k < rounds {
      forall x | x in Ids(steps) ensures x in Resolved(steps, rounds - 1) {
        EarliestRound(steps, round, rounds - 1, x);
      }
      ResolvedGrows(steps, rounds - 1, rounds - 1);
    }
  }
}
