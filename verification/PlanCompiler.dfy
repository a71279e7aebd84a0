/** From a model's proposal to the pinned Workflow: validation, compilation, the digests that tie
    what was approved to what is run, and the tools of the executing agent. */
module PlanCompiler {
  import opened Records
  import opened Text
  import opened PlanGraph

  datatype Result<T, E> = Ok(value: T) | Err(error: E)

  datatype Config = Config(workflowId: string, workflowVersion: string, maxSteps: nat, maxTaskChars: nat)

  /** An item of the `steps` argument: one with the fields of a PlanStep and no other, or not. */
  datatype RawStep = RawStep(id: string, task: string, dependsOn: seq<string>) | Malformed

  datatype PlanProposal = PlanProposal(summary: string, steps: seq<PlanStep>, tools: seq<string>)

  datatype ProposalError =
    | BlankSummary
    | LongSummary
    | StepCount
    | InvalidStep
    | DuplicateIds
    | LongTask(id: string)
    | DuplicateDependencies(id: string)
    | SelfDependency(id: string)
    | UnknownDependency(id: string)
    | CyclicDependencies
    | BlankTool
    | UnknownTool

  const SUMMARY_LIMIT := 8000
  const TASK_LIMIT := 4000

  // ----- Normalisation -----

  predicate IdChar(c: char) {
    'a' <= c <= 'z' || 'A' <= c <= 'Z' || '0' <= c <= '9' || c == '_' || c == '.' || c == '-'
  }

  /** `PlanStep.model_validate` succeeds. */
  predicate ValidStep(raw: RawStep) {
    && raw.RawStep?
    && raw.id != "" && (forall i :: 0 <= i < |raw.id| ==> IdChar(raw.id[i]))
    && 1 <= |raw.task| <= TASK_LIMIT
  }

  function Parsed(steps: seq<RawStep>): (parsed: seq<PlanStep>)
    requires forall i :: 0 <= i < |steps| ==> ValidStep(steps[i])
    ensures |parsed| == |steps|
    ensures forall i :: 0 <= i < |steps| ==>
              ValidStep(steps[i]) && parsed[i] == PlanStep(steps[i].id, steps[i].task, steps[i].dependsOn)
  {
    seq(|steps|, i requires 0 <= i < |steps| =>
      assert ValidStep(steps[i]);
      PlanStep(steps[i].id, steps[i].task, steps[i].dependsOn))
  }

  /** `item.model_dump()` of each step. */
  function Dumped(steps: seq<PlanStep>): (dumped: seq<RawStep>)
    ensures |dumped| == |steps|
    ensures forall i :: 0 <= i < |steps| ==> dumped[i] == RawStep(steps[i].id, steps[i].task, steps[i].dependsOn)
  {
    seq(|steps|, i requires 0 <= i < |steps| => RawStep(steps[i].id, steps[i].task, steps[i].dependsOn))
  }

  predicate NoDuplicates(s: seq<string>) {
    forall i, j :: 0 <= i < j < |s| ==> s[i] != s[j]
  }

  /** `dict.fromkeys`: the first occurrence of each, in order. */
  function Dedupe(s: seq<string>): seq<string> {
    if s == [] then []
    else
      var before := Dedupe(s[..|s| - 1]);
      if s[|s| - 1] in before then before else before + [s[|s| - 1]]
  }

  function StripAll(s: seq<string>): (r: seq<string>)
    ensures |r| == |s| && forall i :: 0 <= i < |s| ==> r[i] == Strip(s[i])
  {
    seq(|s|, i requires 0 <= i < |s| => Strip(s[i]))
  }

  function NormalTools(tools: seq<string>): seq<string> {
    Dedupe(StripAll(tools))
  }

  lemma {:induction false} DedupeKeepsElements(s: seq<string>)
    ensures NoDuplicates(Dedupe(s))
    ensures forall x :: x in Dedupe(s) <==> x in s
  {
    if s != [] {
      var last := |s| - 1;
      DedupeKeepsElements(s[..last]);
      assert s == s[..last] + [s[last]];
    }
  }

  lemma {:induction false} DedupeOfDistinct(s: seq<string>)
    requires NoDuplicates(s)
    ensures Dedupe(s) == s
  {
    if s != [] {
      var last := |s| - 1;
      DedupeOfDistinct(s[..last]);
      assert s == s[..last] + [s[last]];
      assert s[last] !in s[..last];
    }
  }

  /** What comes first, comes first: d[i] occurs in s before d[j] does. */
  lemma {:induction false} DedupeKeepsOrder(s: seq<string>, i: nat, j: nat) returns (p: nat)
    requires i < j < |Dedupe(s)|
    ensures p < |s| && s[p] == Dedupe(s)[i] && Dedupe(s)[j] !in s[..p + 1]
  {
    var last := |s| - 1;
    var before := Dedupe(s[..last]);
    DedupeKeepsElements(s[..last]);
    assert s == s[..last] + [s[last]];
    if j < |before| {
      p := DedupeKeepsOrder(s[..last], i, j);
      assert s[..last][..p + 1] == s[..p + 1];
    } else {
      assert before[i] in s[..last];
      p :| 0 <= p < last && s[p] == before[i];
      assert forall x :: x in s[..p + 1] ==> x in s[..last];
    }
  }

  // ----- Stripping -----

  lemma StripIsStable(s: string)
    ensures Strip(Strip(s)) == Strip(s)
  {
    var before, after := StripCuts(s);
  }

  lemma NormalToolsAreStable(tools: seq<string>)
    ensures NormalTools(NormalTools(tools)) == NormalTools(tools)
  {
    var normal := NormalTools(tools);
    DedupeKeepsElements(StripAll(tools));
    forall i | 0 <= i < |normal| ensures StripAll(normal)[i] == normal[i] {
      assert normal[i] in StripAll(tools);
      var k :| 0 <= k < |tools| && StripAll(tools)[k] == normal[i];
      StripIsStable(tools[k]);
    }
    assert StripAll(normal) == normal;
    DedupeOfDistinct(normal);
  }

  // ----- Validation -----

  /** What the checking loop says about one step. */
  function StepError(steps: seq<PlanStep>, step: PlanStep, config: Config): Option<ProposalError> {
    if |step.task| > config.maxTaskChars then Some(LongTask(step.id))
    else if !NoDuplicates(step.dependsOn) then Some(DuplicateDependencies(step.id))
    else if step.id in step.dependsOn then Some(SelfDependency(step.id))
    else if exists d :: d in step.dependsOn && d !in Ids(steps) then Some(UnknownDependency(step.id))
    else None
  }

  /** The first step the loop complains about, from position k on. */
  function FirstStepError(steps: seq<PlanStep>, k: nat, config: Config): Option<ProposalError>
    requires k <= |steps|
    decreases |steps| - k
  {
    if k == |steps| then None
    else
      var error := StepError(steps, steps[k], config);
      if error.Some? then error else FirstStepError(steps, k + 1, config)
  }

  /** The first rule that the arguments break, in the order in which they are checked. */
  ghost function FirstError(summary: string, steps: seq<RawStep>, tools: seq<string>, config: Config,
                            available: set<string>): Option<ProposalError>
  {
    if Strip(summary) == "" then Some(BlankSummary)
    else if |Strip(summary)| > SUMMARY_LIMIT then Some(LongSummary)
    else if !(1 <= |steps| <= config.maxSteps) then Some(StepCount)
    else if exists i :: 0 <= i < |steps| && !ValidStep(steps[i]) then Some(InvalidStep)
    else
      var parsed := Parsed(steps);
      if !DistinctIds(parsed) then Some(DuplicateIds)
      else if FirstStepError(parsed, 0, config).Some? then FirstStepError(parsed, 0, config)
      else if !Acyclic(parsed) then Some(CyclicDependencies)
      else if "" in NormalTools(tools) then Some(BlankTool)
      else if exists tool :: tool in NormalTools(tools) && tool !in available then Some(UnknownTool)
      else None
  }

  lemma {:induction false} NoStepError(steps: seq<PlanStep>, k: nat, config: Config)
    requires k <= |steps| && FirstStepError(steps, k, config).None?
    ensures forall i :: k <= i < |steps| ==> StepError(steps, steps[i], config).None?
    decreases |steps| - k
  {
    if k < |steps| {
      NoStepError(steps, k + 1, config);
    }
  }

  /** Steps without a complaint form a graph that `_assert_acyclic` can look at. */
  lemma CheckedIsWellFormed(steps: seq<PlanStep>, config: Config)
    requires DistinctIds(steps) && FirstStepError(steps, 0, config).None?
    ensures WellFormed(steps)
  {
    NoStepError(steps, 0, config);
    forall step, d | step in steps && d in step.dependsOn ensures d in Ids(steps) {
      var i :| 0 <= i < |steps| && steps[i] == step;
      assert StepError(steps, steps[i], config).None?;
    }
  }

  /** The checking loop of `validate_proposal`. */
  method CheckSteps(parsed: seq<PlanStep>, config: Config) returns (error: Option<ProposalError>)
    ensures error == FirstStepError(parsed, 0, config)
  {
    var k := 0;
    while k < |parsed|
      invariant 0 <= k <= |parsed|
      invariant FirstStepError(parsed, k, config) == FirstStepError(parsed, 0, config)
    {
      var step := parsed[k];
      if |step.task| > config.maxTaskChars {
        return Some(LongTask(step.id));
      }
      if exists i, j :: 0 <= i < j < |step.dependsOn| && step.dependsOn[i] == step.dependsOn[j] {
        return Some(DuplicateDependencies(step.id));
      }
      if step.id in step.dependsOn {
        return Some(SelfDependency(step.id));
      }
      if exists d :: d in step.dependsOn && d !in Ids(parsed) {
        return Some(UnknownDependency(step.id));
      }
      k := k + 1;
    }
    return None;
  }

  /** `validate_proposal`. */
  method ValidateProposal(summary: string, steps: seq<RawStep>, tools: seq<string>, config: Config,
                          available: set<string>)
    returns (result: Result<PlanProposal, ProposalError>)
    ensures var error := FirstError(summary, steps, tools, config, available);
            if error.Some? then result == Err(error.value)
            else (forall i :: 0 <= i < |steps| ==> ValidStep(steps[i]))
                 && result == Ok(PlanProposal(Strip(summary), Parsed(steps), NormalTools(tools)))
    ensures result.Ok? ==>
              && Accepted(result.value, config, available)
              && |result.value.steps| == |steps|
              && (forall i :: 0 <= i < |steps| ==>
                    steps[i] == RawStep(result.value.steps[i].id, result.value.steps[i].task,
                                        result.value.steps[i].dependsOn))
              && (forall tool :: tool in result.value.tools <==> exists i :: 0 <= i < |tools| && Strip(tools[i]) == tool)
  {
    var normalizedSummary := Strip(summary);
    if normalizedSummary == "" {
      return Err(BlankSummary);
    }
    if |normalizedSummary| > SUMMARY_LIMIT {
      return Err(LongSummary);
    }
    if !(1 <= |steps| <= config.maxSteps) {
      return Err(StepCount);
    }
    if exists i :: 0 <= i < |steps| && !ValidStep(steps[i]) {
      return Err(InvalidStep);
    }
    var parsed := Parsed(steps);
    if exists i, j :: 0 <= i < j < |parsed| && parsed[i].id == parsed[j].id {
      return Err(DuplicateIds);
    }
    var stepError := CheckSteps(parsed, config);
    if stepError.Some? {
      return Err(stepError.value);
    }
    CheckedIsWellFormed(parsed, config);
    var acyclic := AssertAcyclic(parsed);
    if !acyclic {
      return Err(CyclicDependencies);
    }
    var normalizedTools := NormalTools(tools);
    if "" in normalizedTools {
      return Err(BlankTool);
    }
    if exists tool :: tool in normalizedTools && tool !in available {
      return Err(UnknownTool);
    }
    ValidatedIsAccepted(summary, steps, tools, config, available);
    DedupeKeepsElements(StripAll(tools));
    return Ok(PlanProposal(normalizedSummary, parsed, normalizedTools));
  }

  /** What a proposal is that has been accepted. */
  ghost predicate Accepted(proposal: PlanProposal, config: Config, available: set<string>) {
    && Strip(proposal.summary) == proposal.summary && 1 <= |proposal.summary| <= 8000
    && 1 <= |proposal.steps| <= config.maxSteps
    && WellFormed(proposal.steps) && Acyclic(proposal.steps)
    && (forall i :: 0 <= i < |proposal.steps| ==>
          && proposal.steps[i].id != ""
          && (forall c :: c in proposal.steps[i].id ==>
                'a' <= c <= 'z' || 'A' <= c <= 'Z' || '0' <= c <= '9' || c in "_.-")
          && 1 <= |proposal.steps[i].task| <= 4000 && |proposal.steps[i].task| <= config.maxTaskChars
          && NoDuplicates(proposal.steps[i].dependsOn)
          && proposal.steps[i].id !in proposal.steps[i].dependsOn)
    && NormalTools(proposal.tools) == proposal.tools
    && "" !in proposal.tools
    && (forall tool :: tool in proposal.tools ==> tool in available)
  }

  ghost predicate Captured(proposal: PlanProposal, config: Config, available: set<string>) {
    exists summary: string, steps: seq<RawStep>, tools: seq<string> ::
      && FirstError(summary, steps, tools, config, available).None?
      && (forall i :: 0 <= i < |steps| ==> ValidStep(steps[i]))
      && proposal == PlanProposal(Strip(summary), Parsed(steps), NormalTools(tools))
  }

  lemma ValidatedIsAccepted(summary: string, steps: seq<RawStep>, tools: seq<string>, config: Config,
                            available: set<string>)
    requires FirstError(summary, steps, tools, config, available).None?
    ensures (forall i :: 0 <= i < |steps| ==> ValidStep(steps[i]))
    ensures Accepted(PlanProposal(Strip(summary), Parsed(steps), NormalTools(tools)), config, available)
  {
    var parsed := Parsed(steps);
    StripIsStable(summary);
    NormalToolsAreStable(tools);
    CheckedIsWellFormed(parsed, config);
    NoStepError(parsed, 0, config);
    assert Dumped(parsed) == steps;
  }

  lemma {:induction false} NoComplaint(steps: seq<PlanStep>, k: nat, config: Config)
    requires k <= |steps| && forall i :: k <= i < |steps| ==> StepError(steps, steps[i], config).None?
    ensures FirstStepError(steps, k, config).None?
    decreases |steps| - k
  {
    if k < |steps| {
      NoComplaint(steps, k + 1, config);
    }
  }

  lemma AcceptedHasNoError(proposal: PlanProposal, config: Config, available: set<string>)
    requires Accepted(proposal, config, available)
    ensures FirstError(proposal.summary, Dumped(proposal.steps), proposal.tools, config, available).None?
    ensures (forall i :: 0 <= i < |proposal.steps| ==> ValidStep(Dumped(proposal.steps)[i]))
    ensures Parsed(Dumped(proposal.steps)) == proposal.steps
  {
    var steps := proposal.steps;
    forall i | 0 <= i < |steps| ensures ValidStep(Dumped(steps)[i]) {
      forall k | 0 <= k < |steps[i].id| ensures IdChar(steps[i].id[k]) {
        assert steps[i].id[k] in steps[i].id;
      }
    }
    assert Parsed(Dumped(steps)) == steps;
    forall i | 0 <= i < |steps| ensures StepError(steps, steps[i], config).None? {
      assert steps[i] in steps;
    }
    NoComplaint(steps, 0, config);
  }

  /** Validating a captured proposal again gives the same proposal. */
  lemma {:induction false} RevalidationIsIdentity(proposal: PlanProposal, config: Config, available: set<string>)
    requires Captured(proposal, config, available)
    ensures FirstError(proposal.summary, Dumped(proposal.steps), proposal.tools, config, available).None?
    ensures forall i :: 0 <= i < |proposal.steps| ==> ValidStep(Dumped(proposal.steps)[i])
    ensures PlanProposal(Strip(proposal.summary), Parsed(Dumped(proposal.steps)), NormalTools(proposal.tools)) == proposal
  {
    var summary: string, steps: seq<RawStep>, tools: seq<string> :|
      && FirstError(summary, steps, tools, config, available).None?
      && (forall i :: 0 <= i < |steps| ==> ValidStep(steps[i]))
      && proposal == PlanProposal(Strip(summary), Parsed(steps), NormalTools(tools));
    ValidatedIsAccepted(summary, steps, tools, config, available);
    AcceptedHasNoError(proposal, config, available);
  }

  /** The temporary Tool that captures one plan. */
  class PlanSubmissionCollector {
    const config: Config
    const available: set<string>
    var proposal: Option<PlanProposal>

    ghost predicate Valid()
      reads this
    {
      proposal.Some? ==> Captured(proposal.value, config, available)
    }

    constructor (config: Config, available: set<string>)
      ensures Valid() && proposal.None? && this.config == config && this.available == available
    {
      this.config, this.available := config, available;
      proposal := None;
    }

    /** `submit_plan`: the first valid plan is kept, whatever is submitted after it. */
    method SubmitPlan(summary: string, steps: seq<RawStep>, tools: seq<string>) returns (accepted: bool)
      requires Valid()
      modifies this
      ensures Valid()
      ensures accepted <==> old(proposal).None? && FirstError(summary, steps, tools, config, available).None?
      ensures !accepted ==> proposal == old(proposal)
      ensures accepted ==>
                (forall i :: 0 <= i < |steps| ==> ValidStep(steps[i]))
                && proposal == Some(PlanProposal(Strip(summary), Parsed(steps), NormalTools(tools)))
    {
      var result := ValidateProposal(summary, steps, tools, config, available);
      if result.Err? || proposal.Some? {
        return false;
      }
      proposal := Some(result.value);
      return true;
    }
  }

  // ----- Compilation -----

  /** What the Plan digest is taken of. */
  datatype Semantic = Semantic(
    run: RunId,
    summary: string,
    steps: seq<PlanStep>,
    tools: seq<string>,
    workflowId: string,
    workflowVersion: string,
    scriptSha256: string,
    argsSha256: string)

  /** SHA-256 over the text of the script and over canonical JSON. */
  datatype Digests = Digests(
    ofScript: string -> string,
    ofArgs: WorkflowArgs -> string,
    ofSemantic: Semantic -> string)

  ghost predicate CollisionFree(digests: Digests) {
    && (forall x, y :: digests.ofScript(x) == digests.ofScript(y) ==> x == y)
    && (forall x, y :: digests.ofArgs(x) == digests.ofArgs(y) ==> x == y)
    && (forall x, y :: digests.ofSemantic(x) == digests.ofSemantic(y) ==> x == y)
  }

  datatype CompiledWorkflow = CompiledWorkflow(
    workflowId: string,
    workflowVersion: string,
    script: string,
    scriptSha256: string,
    args: WorkflowArgs,
    argsSha256: string)

  datatype CompileError = BadProposal(error: ProposalError) | ScriptChanged | ArgsChanged | PlanChanged | NotEnabled

  function SemanticOf(plan: Plan): Semantic {
    var content := plan.content;
    Semantic(plan.run, content.summary, content.steps, content.tools, content.workflowId, content.workflowVersion,
             content.scriptSha256, content.argsSha256)
  }

  /** `compiled_workflow`, for a program whose script is `script`. */
  function Verify(plan: Plan, script: string, digests: Digests): Result<CompiledWorkflow, CompileError> {
    var content := plan.content;
    if digests.ofScript(script) != content.scriptSha256 then Err(ScriptChanged)
    else if digests.ofArgs(content.args) != content.argsSha256 then Err(ArgsChanged)
    else if digests.ofSemantic(SemanticOf(plan)) != plan.sha256 then Err(PlanChanged)
    else Ok(CompiledWorkflow(content.workflowId, content.workflowVersion, script, content.scriptSha256, content.args,
                             content.argsSha256))
  }

  function ArgsOf(input: string, config: Config, proposal: PlanProposal): WorkflowArgs {
    WorkflowArgs(config.workflowId, config.workflowVersion, input, proposal.tools, proposal.steps)
  }

  function PlanOf(id: PlanId, run: RunId, input: string, config: Config, proposal: PlanProposal, script: string,
                  digests: Digests): Plan
  {
    var args := ArgsOf(input, config, proposal);
    var content := PlanContent(proposal.summary, proposal.steps, proposal.tools, config.workflowId,
                               config.workflowVersion, digests.ofScript(script), args, digests.ofArgs(args));
    var plan := Plan(id, run, Proposed, 1, "", None, content);
    plan.(sha256 := digests.ofSemantic(SemanticOf(plan)))
  }

  datatype Tool = Tool(name: string, readOnly: bool)

  datatype Agent = Agent(tools: seq<Tool>, planReact: Option<Config>)

  function ToolNames(tools: seq<Tool>): set<string> {
    set tool | tool in tools :: tool.name
  }

  /** `compile_plan`. */
  method CompilePlan(id: PlanId, run: RunId, input: string, agent: Agent, proposal: PlanProposal, script: string,
                     digests: Digests)
    returns (result: Result<(Plan, CompiledWorkflow), CompileError>)
    ensures agent.planReact.None? ==> result == Err(NotEnabled)
    ensures agent.planReact.Some? ==>
              var config, available := agent.planReact.value, set tool | tool in agent.tools :: tool.name;
              var error := FirstError(proposal.summary, Dumped(proposal.steps), proposal.tools, config, available);
              if error.Some? then result == Err(BadProposal(error.value))
              else
                && result.Ok?
                && (Captured(proposal, config, available) ==>
                      result.value.0 == PlanOf(id, run, input, config, proposal, script, digests))
                && Verify(result.value.0, script, digests) == Ok(result.value.1)
    ensures agent.planReact.Some? && Captured(proposal, agent.planReact.value, set tool | tool in agent.tools :: tool.name) ==>
              && result.Ok?
              && var (plan, compiled) := result.value;
                 var config, content := agent.planReact.value, plan.content;
                 && plan.id == id && plan.run == run && plan.status.Proposed? && plan.revision == 1
                 && plan.decidedBy.None?
                 && content.summary == proposal.summary
                 && content.args.WorkflowArgs?
                 && content.steps == content.args.steps == proposal.steps
                 && content.tools == content.args.approvedTools == proposal.tools
                 && content.args.originalInput == input
                 && content.workflowId == content.args.workflowId == compiled.workflowId == config.workflowId
                 && content.workflowVersion == content.args.workflowVersion == compiled.workflowVersion
                    == config.workflowVersion
                 && compiled.script == script && compiled.args == content.args
  {
    hide FirstError, Captured, Accepted, PlanOf, Verify, ArgsOf;
    if agent.planReact.None? {
      return Err(NotEnabled);
    }
    var config, available := agent.planReact.value, ToolNames(agent.tools);
    if Captured(proposal, config, available) {
      RevalidationIsIdentity(proposal, config, available);
    }
    var checked := ValidateProposal(proposal.summary, Dumped(proposal.steps), proposal.tools, config, available);
    if checked.Err? {
      return Err(BadProposal(checked.error));
    }
    var plan := BuildPlan(id, run, input, config, checked.value, script, digests);
    var compiled := Verify(plan, script, digests);
    return Ok((plan, compiled.value));
  }

  method BuildPlan(id: PlanId, run: RunId, input: string, config: Config, proposal: PlanProposal, script: string,
                   digests: Digests) returns (plan: Plan)
    ensures plan == PlanOf(id, run, input, config, proposal, script, digests)
    ensures plan.id == id && plan.run == run && plan.status.Proposed? && plan.revision == 1 && plan.decidedBy.None?
    ensures plan.content.args
         == WorkflowArgs(config.workflowId, config.workflowVersion, input, proposal.tools, proposal.steps)
    ensures plan.content.summary == proposal.summary && plan.content.steps == proposal.steps
    ensures plan.content.tools == proposal.tools && plan.content.workflowId == config.workflowId
    ensures plan.content.workflowVersion == config.workflowVersion
    ensures Verify(plan, script, digests)
         == Ok(CompiledWorkflow(config.workflowId, config.workflowVersion, script, digests.ofScript(script),
                                plan.content.args, digests.ofArgs(plan.content.args)))
  {
    var summary, steps, tools := proposal.summary, proposal.steps, proposal.tools;
    var args := WorkflowArgs(config.workflowId, config.workflowVersion, input, tools, steps);
    var scriptSha256, argsSha256 := digests.ofScript(script), digests.ofArgs(args);
    var semantic := Semantic(run, summary, steps, tools, config.workflowId, config.workflowVersion, scriptSha256,
                             argsSha256);
    var content := PlanContent(summary, steps, tools, config.workflowId, config.workflowVersion, scriptSha256, args,
                               argsSha256);
    plan := Plan(id, run, Proposed, 1, digests.ofSemantic(semantic), None, content);
  }

  /** A compiled plan verifies, and still does after its decision has been recorded; what runs
      is the script with the arguments of the plan. */
  lemma CompiledPlanVerifies(id: PlanId, run: RunId, input: string, config: Config, proposal: PlanProposal,
                             script: string, digests: Digests, status: PlanStatus, revision: nat,
                             decidedBy: Option<string>)
    ensures var plan := PlanOf(id, run, input, config, proposal, script, digests);
            Verify(plan.(status := status, revision := revision, decidedBy := decidedBy), script, digests)
            == Ok(CompiledWorkflow(config.workflowId, config.workflowVersion, script, digests.ofScript(script),
                                   ArgsOf(input, config, proposal), digests.ofArgs(ArgsOf(input, config, proposal))))
  {
  }

  /** With a collision-free digest, a stored plan that verifies and carries the digest that was
      approved is the plan that was approved, run with the same script and arguments. */
  lemma VerifiedPlanIsTheApprovedOne(approved: Plan, stored: Plan, script: string, script': string, digests: Digests)
    requires CollisionFree(digests)
    requires Verify(approved, script, digests).Ok? && Verify(stored, script', digests).Ok?
    requires stored.sha256 == approved.sha256
    ensures stored.run == approved.run && stored.content == approved.content && script' == script
    ensures Verify(stored, script', digests) == Verify(approved, script, digests)
  {
  }

  /** The arguments that run are a graph without cycles: the script never throws on them. */
  lemma {:induction false} CompiledStepsAreAcyclic(id: PlanId, run: RunId, input: string, config: Config,
                                                   proposal: PlanProposal, available: set<string>, script: string,
                                                   digests: Digests)
    requires Captured(proposal, config, available)
    ensures var args := PlanOf(id, run, input, config, proposal, script, digests).content.args;
            args.WorkflowArgs? && args.steps == proposal.steps && WellFormed(args.steps) && Acyclic(args.steps)
            && 1 <= |args.steps| <= config.maxSteps
  {
    var summary: string, steps: seq<RawStep>, tools: seq<string> :|
      && FirstError(summary, steps, tools, config, available).None?
      && (forall i :: 0 <= i < |steps| ==> ValidStep(steps[i]))
      && proposal == PlanProposal(Strip(summary), Parsed(steps), NormalTools(tools));
    ValidatedIsAccepted(summary, steps, tools, config, available);
  }

  // ----- The executing agent -----

  function Selected(tools: seq<Tool>, names: seq<string>): (selected: seq<Tool>)
    ensures forall tool :: tool in selected <==> tool in tools && tool.name in names
  {
    if tools == [] then []
    else (if tools[0].name in names then [tools[0]] else []) + Selected(tools[1..], names)
  }

  function ExecutionAgent(agent: Agent, plan: Plan): Option<Agent> {
    var tools := Selected(agent.tools, plan.content.tools);
    if ToolNames(tools) != (set name | name in plan.content.tools) then None
    else Some(agent.(tools := tools))
  }

  /** The executing agent has the approved tools, all of them and no other; it exists for every
      plan that was validated against the agent. */
  lemma ExecutionHasTheApprovedTools(agent: Agent, plan: Plan)
    ensures ExecutionAgent(agent, plan).Some? <==>
              forall name :: name in plan.content.tools ==> exists tool :: tool in agent.tools && tool.name == name
    ensures ExecutionAgent(agent, plan).Some? ==>
              forall tool :: tool in ExecutionAgent(agent, plan).value.tools <==>
                               tool in agent.tools && tool.name in plan.content.tools
  {
    var tools := Selected(agent.tools, plan.content.tools);
    if forall name :: name in plan.content.tools ==> name in ToolNames(agent.tools) {
      forall name | name in plan.content.tools ensures name in ToolNames(tools) {
        var tool :| tool in agent.tools && tool.name == name;
        assert tool in tools;
      }
      assert ToolNames(tools) == (set name | name in plan.content.tools);
    } else {
      var name :| name in plan.content.tools && name !in ToolNames(agent.tools);
      assert name !in ToolNames(tools);
    }
  }
}
