/** Plans from the keyword rules, from the language model, and from replanning: all respect the merged policy. */
module Planner {
  import opened Common
  import opened Policy

  const MAX_STEPS: nat := 6

  datatype Intent = KnowledgeQa | IncidentAssist | ReportRequest | OtherIntent(text: string)

  datatype Kind = Retrieve | Tool | Synthesize | Critic | PromoteWorkflow | OtherKind(text: string)

  datatype Source = Keyword | Llm | Replanned

  datatype ToolDescriptor = ToolDescriptor(name: string, readOnly: bool, requiresApproval: bool, asyncOnly: bool)

  /** `message` is the user message in lower case. */
  datatype PlanInput = PlanInput(mode: string, message: string, tools: seq<ToolDescriptor>, policy: TenantPolicy)

  /** `index` is n in the step id "step-n"; a keyword plan's dependencies are such indices, a model plan's are names. */
  datatype Step = Step(index: nat, kind: Kind, name: string, dependsOn: seq<Dependency>, toolName: string,
                       toolArguments: string, readOnly: bool, needsApproval: bool)

  datatype Dependency = OnStep(index: nat) | OnName(name: string)

  datatype Plan = Plan(intent: Intent, requiresRetrieval: bool, requiresTool: bool, requiresWorkflow: bool,
                       requiresApproval: bool, maxSteps: nat, steps: seq<Step>, source: Source)

  // ---------- what every plan must respect ----------

  /** The registry by name (names are unique in it; a later entry would win). */
  function DescriptorsOf(tools: seq<ToolDescriptor>): map<string, ToolDescriptor> {
    if tools == [] then map[]
    else DescriptorsOf(tools[..|tools| - 1])[tools[|tools| - 1].name := tools[|tools| - 1]]
  }

  function Registered(tools: seq<ToolDescriptor>, name: string): Option<ToolDescriptor> {
    var m := DescriptorsOf(tools);
    if name in m then Some(m[name]) else None
  }

  predicate UniqueNames(tools: seq<ToolDescriptor>) {
    forall i, j :: 0 <= i < j < |tools| ==> tools[i].name != tools[j].name
  }

  lemma {:induction false} RegisteredMember(tools: seq<ToolDescriptor>, d: ToolDescriptor)
    requires UniqueNames(tools) && d in tools
    ensures Registered(tools, d.name) == Some(d)
  {
    var last := |tools| - 1;
    if tools[last] != d {
      RegisteredMember(tools[..last], d);
    }
  }

  predicate ToolPermitted(name: string, policy: TenantPolicy) {
    policy.configured ==>
      && policy.allowToolUse && name !in policy.forbiddenTools
      && (policy.allowedTools == [] || name in policy.allowedTools)
  }

  /** The approval and honesty rules for a step that uses the registered tool `d`. */
  predicate StepHonest(s: Step, d: ToolDescriptor, policy: TenantPolicy) {
    !d.readOnly ==>
      && !s.readOnly
      && (d.requiresApproval || (policy.configured && policy.requireApprovalForWrite) ==> s.needsApproval)
  }

  predicate ToolStepOk(s: Step, tools: seq<ToolDescriptor>, policy: TenantPolicy) {
    && s.toolName != "" && ToolPermitted(s.toolName, policy)
    && (tools != [] ==> Registered(tools, s.toolName).Some?)
    && match Registered(tools, s.toolName)
       case None => true
       case Some(d) => StepHonest(s, d, policy) && !d.asyncOnly
  }

  function EffectiveMax(policy: TenantPolicy): nat {
    if policy.configured && 0 < policy.maxSteps < MAX_STEPS then policy.maxSteps else MAX_STEPS
  }

  predicate Respects(plan: Plan, tools: seq<ToolDescriptor>, policy: TenantPolicy) {
    && |plan.steps| == plan.maxSteps <= EffectiveMax(policy)
    && (forall k :: 0 <= k < |plan.steps| && plan.steps[k].kind == Tool ==> ToolStepOk(plan.steps[k], tools, policy))
    && (plan.requiresWorkflow ==> |plan.steps| == 1 && plan.steps[0].kind == PromoteWorkflow)
    && (!plan.requiresWorkflow ==> forall k :: 0 <= k < |plan.steps| ==> plan.steps[k].kind != PromoteWorkflow)
  }

  // ---------- the language model's plan ----------

  datatype LlmStep = LlmStep(kind: Kind, name: string, dependsOn: seq<string>, toolName: string, toolArguments: string,
                             readOnly: bool, needsApproval: bool)

  datatype LlmPlan = LlmPlan(intent: Intent, requiresRetrieval: bool, requiresTool: bool, requiresWorkflow: bool,
                             requiresApproval: bool, steps: seq<LlmStep>)

  predicate StepWellFormed(s: LlmStep, available: set<string>) {
    && !s.kind.OtherKind? && s.name != ""
    && (s.kind == Tool ==> s.toolName != "" && (available != {} ==> s.toolName in available))
  }

  predicate Named(steps: seq<LlmStep>, name: string) {
    exists k :: 0 <= k < |steps| && steps[k].name == name
  }

  predicate WellFormed(resp: LlmPlan, available: set<string>) {
    && !resp.intent.OtherIntent? && |resp.steps| > 0
    && (forall k :: 0 <= k < |resp.steps| ==> StepWellFormed(resp.steps[k], available))
    && (forall i, j :: 0 <= i < j < |resp.steps| ==> resp.steps[i].name != resp.steps[j].name)
    && (forall k :: 0 <= k < |resp.steps| ==> forall d :: d in resp.steps[k].dependsOn ==> Named(resp.steps, d))
    && (resp.requiresWorkflow ==> |resp.steps| == 1 && resp.steps[0].kind == PromoteWorkflow)
    && (!resp.requiresWorkflow ==> forall k :: 0 <= k < |resp.steps| ==> resp.steps[k].kind != PromoteWorkflow)
  }

  /** The step loop: collects the names. */
  method ValidateSteps(steps: seq<LlmStep>, available: set<string>) returns (ok: bool, names: set<string>)
    ensures ok <==> (forall k :: 0 <= k < |steps| ==> StepWellFormed(steps[k], available))
                    && (forall i, j :: 0 <= i < j < |steps| ==> steps[i].name != steps[j].name)
    ensures ok ==> forall name :: name in names <==> Named(steps, name)
  {
    names := {};
    for i := 0 to |steps|
      invariant forall k :: 0 <= k < i ==> StepWellFormed(steps[k], available)
      invariant forall j, k :: 0 <= j < k < i ==> steps[j].name != steps[k].name
      invariant forall name :: name in names <==> exists k :: 0 <= k < i && steps[k].name == name
    {
      var step := steps[i];
      if step.kind.OtherKind? {
        return false, names;
      }
      if step.kind == Tool {
        if step.toolName == "" {
          return false, names;
        }
        if available != {} && step.toolName !in available {
          return false, names;
        }
      }
      if step.name == "" {
        return false, names;
      }
      if step.name in names {
        return false, names;
      }
      names := names + {step.name};
    }
    ok := true;
  }

  method ValidateDependencies(steps: seq<LlmStep>, names: set<string>) returns (ok: bool)
    ensures ok <==> forall k :: 0 <= k < |steps| ==> forall d :: d in steps[k].dependsOn ==> d in names
  {
    for i := 0 to |steps|
      invariant forall k :: 0 <= k < i ==> forall d :: d in steps[k].dependsOn ==> d in names
    {
      for j := 0 to |steps[i].dependsOn|
        invariant forall k :: 0 <= k < j ==> steps[i].dependsOn[k] in names
      {
        if steps[i].dependsOn[j] !in names {
          return false;
        }
      }
    }
    ok := true;
  }

  /** Accepts exactly the well-formed plans. Dependencies must exist, in whatever order. */
  method ValidateLlmPlan(resp: LlmPlan, available: set<string>) returns (ok: bool)
    ensures ok <==> WellFormed(resp, available)
  {
    if resp.intent.OtherIntent? || |resp.steps| == 0 {
      return false;
    }
    var stepsOk, names := ValidateSteps(resp.steps, available);
    if !stepsOk {
      return false;
    }
    var depsOk := ValidateDependencies(resp.steps, names);
    if !depsOk {
      return false;
    }
    if resp.requiresWorkflow {
      if |resp.steps| != 1 || resp.steps[0].kind != PromoteWorkflow {
        return false;
      }
    }
    if !resp.requiresWorkflow {
      for i := 0 to |resp.steps|
        invariant forall k :: 0 <= k < i ==> resp.steps[k].kind != PromoteWorkflow
      {
        if resp.steps[i].kind == PromoteWorkflow {
          return false;
        }
      }
    }
    return true;
  }

  predicate LlmStepHonest(s: LlmStep, d: ToolDescriptor, policy: TenantPolicy) {
    !d.readOnly ==>
      && !s.readOnly
      && (d.requiresApproval || (policy.configured && policy.requireApprovalForWrite) ==> s.needsApproval)
  }

  predicate LlmStepPermitted(s: LlmStep, resp: LlmPlan, tools: map<string, ToolDescriptor>, policy: TenantPolicy) {
    s.kind == Tool ==>
      && ToolPermitted(s.toolName, policy)
      && (s.toolName in tools ==>
            LlmStepHonest(s, tools[s.toolName], policy) && (tools[s.toolName].asyncOnly ==> resp.requiresWorkflow))
  }

  predicate WithinPolicy(resp: LlmPlan, tools: map<string, ToolDescriptor>, policy: TenantPolicy) {
    && (policy.configured ==> |resp.steps| <= EffectiveMax(policy))
    && forall k :: 0 <= k < |resp.steps| ==> LlmStepPermitted(resp.steps[k], resp, tools, policy)
  }

  /** Accepts exactly the plans within the policy and consistent with the registry. */
  method ValidatePlanPolicy(resp: LlmPlan, tools: map<string, ToolDescriptor>, policy: TenantPolicy) returns (ok: bool)
    ensures ok <==> WithinPolicy(resp, tools, policy)
  {
    if policy.configured {
      var within := ValidateTenantPolicy(resp, tools, policy);
      if !within {
        return false;
      }
    }
    for i := 0 to |resp.steps|
      invariant forall k :: 0 <= k < i ==> LlmStepPermitted(resp.steps[k], resp, tools, policy)
    {
      var step := resp.steps[i];
      if step.kind != Tool || step.toolName !in tools {
        continue;
      }
      var desc := tools[step.toolName];
      if desc.asyncOnly && !resp.requiresWorkflow {
        return false;
      }
      if !desc.readOnly && desc.requiresApproval && !step.needsApproval {
        return false;
      }
      if !desc.readOnly && step.readOnly {
        return false;
      }
    }
    return true;
  }

  predicate TenantPermitted(s: LlmStep, tools: map<string, ToolDescriptor>, policy: TenantPolicy) {
    s.kind == Tool ==>
      && ToolPermitted(s.toolName, policy)
      && (policy.requireApprovalForWrite && s.toolName in tools && !tools[s.toolName].readOnly ==> s.needsApproval)
  }

  method ValidateTenantPolicy(resp: LlmPlan, tools: map<string, ToolDescriptor>, policy: TenantPolicy)
    returns (ok: bool)
    requires policy.configured
    ensures ok <==> |resp.steps| <= EffectiveMax(policy)
                    && forall k :: 0 <= k < |resp.steps| ==> TenantPermitted(resp.steps[k], tools, policy)
  {
    if !policy.allowToolUse {
      for i := 0 to |resp.steps|
        invariant forall k :: 0 <= k < i ==> resp.steps[k].kind != Tool
      {
        if resp.steps[i].kind == Tool {
          return false;
        }
      }
    }
    var effectiveMax := MAX_STEPS as int;
    if policy.maxSteps > 0 && policy.maxSteps < effectiveMax {
      effectiveMax := policy.maxSteps;
    }
    if |resp.steps| > effectiveMax {
      return false;
    }
    for i := 0 to |resp.steps|
      invariant forall k :: 0 <= k < i ==> TenantPermitted(resp.steps[k], tools, policy)
    {
      var step := resp.steps[i];
      if step.kind != Tool {
        continue;
      }
      if step.toolName in policy.forbiddenTools {
        return false;
      }
      if |policy.allowedTools| > 0 && step.toolName !in policy.allowedTools {
        return false;
      }
      if policy.requireApprovalForWrite {
        if step.toolName in tools && !tools[step.toolName].readOnly && !step.needsApproval {
          return false;
        }
      }
    }
    return true;
  }

  function Names(deps: seq<string>): (r: seq<Dependency>)
    ensures |r| == |deps|
  {
    seq(|deps|, i requires 0 <= i < |deps| => OnName(deps[i]))
  }

  function ToStep(s: LlmStep, i: nat): Step {
    Step(i + 1, s.kind, s.name, Names(s.dependsOn), s.toolName, s.toolArguments, s.readOnly, s.needsApproval)
  }

  /** At most the first six steps, numbered from one. */
  function PlanOf(resp: LlmPlan, source: Source): Plan {
    var n := if |resp.steps| > MAX_STEPS then MAX_STEPS else |resp.steps|;
    Plan(resp.intent, resp.requiresRetrieval, resp.requiresTool, resp.requiresWorkflow, resp.requiresApproval, n,
         seq(n, k requires 0 <= k < n => ToStep(resp.steps[k], k)), source)
  }

  /** The model's answer as a plan. */
  method ToPlan(resp: LlmPlan, source: Source) returns (plan: Plan)
    ensures plan.intent == resp.intent && plan.requiresRetrieval == resp.requiresRetrieval
    ensures plan.requiresTool == resp.requiresTool && plan.requiresWorkflow == resp.requiresWorkflow
    ensures plan.requiresApproval == resp.requiresApproval && plan.source == source
    ensures |plan.steps| == plan.maxSteps == if |resp.steps| > MAX_STEPS then MAX_STEPS else |resp.steps|
    ensures forall k :: 0 <= k < |plan.steps| ==> plan.steps[k] == ToStep(resp.steps[k], k)
    ensures plan == PlanOf(resp, source)
    ensures |plan.steps| == if |resp.steps| > 6 then 6 else |resp.steps|
    ensures forall k :: 0 <= k < |plan.steps| ==>
              var (s, r) := (plan.steps[k], resp.steps[k]);
              && s.index == k + 1 && s.kind == r.kind && s.name == r.name && s.toolName == r.toolName
              && s.toolArguments == r.toolArguments && s.readOnly == r.readOnly && s.needsApproval == r.needsApproval
              && |s.dependsOn| == |r.dependsOn|
              && forall d :: 0 <= d < |s.dependsOn| ==> s.dependsOn[d] == OnName(r.dependsOn[d])
  {
    var steps: seq<Step> := [];
    for i := 0 to |resp.steps|
      invariant |steps| == i && forall k :: 0 <= k < i ==> steps[k] == ToStep(resp.steps[k], k)
    {
      steps := steps + [ToStep(resp.steps[i], i)];
    }
    var maxStepsCount := |steps|;
    if maxStepsCount > MAX_STEPS {
      maxStepsCount := MAX_STEPS;
      steps := steps[..MAX_STEPS];
    }
    plan := Plan(resp.intent, resp.requiresRetrieval, resp.requiresTool, resp.requiresWorkflow, resp.requiresApproval,
                 maxStepsCount, steps, source);
  }

  method DescriptorMap(tools: seq<ToolDescriptor>) returns (m: map<string, ToolDescriptor>)
    ensures m == DescriptorsOf(tools) && (m.Keys == {} <==> tools == [])
  {
    m := map[];
    for i := 0 to |tools|
      invariant m == DescriptorsOf(tools[..i]) && (i > 0 ==> m.Keys != {})
    {
      assert tools[..i + 1][..i] == tools[..i];
      m := m[tools[i].name := tools[i]];
      assert tools[i].name in m.Keys;
    }
    assert tools[..|tools|] == tools;
  }

  /** Plan with the model, and Replan: `resp` is the parsed answer, None when the call or the parse fails. */
  method PlanWithLlm(resp: Option<LlmPlan>, input: PlanInput, source: Source) returns (plan: Option<Plan>)
    ensures plan.Some? <==> resp.Some? && WellFormed(resp.value, DescriptorsOf(input.tools).Keys)
                            && WithinPolicy(resp.value, DescriptorsOf(input.tools), input.policy)
    ensures plan.Some? ==> Respects(plan.value, input.tools, input.policy) && plan.value == PlanOf(resp.value, source)
    ensures plan.Some? ==> 0 < |plan.value.steps| <= |resp.value.steps|
                           && forall k :: 0 <= k < |plan.value.steps| ==>
                              plan.value.steps[k] == ToStep(resp.value.steps[k], k)
    ensures plan.Some? ==>
              && plan.value.intent in {KnowledgeQa, IncidentAssist, ReportRequest}
              && (forall s :: s in plan.value.steps ==>
                    s.kind in {Retrieve, Tool, Synthesize, Critic, PromoteWorkflow} && s.name != "")
              && forall j, k :: 0 <= j < k < |plan.value.steps| ==> plan.value.steps[j].name != plan.value.steps[k].name
  {
    if resp.None? {
      return None;
    }
    var tools := DescriptorMap(input.tools);
    var wellFormed := ValidateLlmPlan(resp.value, tools.Keys);
    if !wellFormed {
      return None;
    }
    var permitted := ValidatePlanPolicy(resp.value, tools, input.policy);
    if !permitted {
      return None;
    }
    var p := ToPlan(resp.value, source);
    forall k | 0 <= k < |p.steps| && p.steps[k].kind == Tool ensures ToolStepOk(p.steps[k], input.tools, input.policy) {
      assert StepWellFormed(resp.value.steps[k], tools.Keys);
      assert LlmStepPermitted(resp.value.steps[k], resp.value, tools, input.policy);
      assert resp.value.steps[k].kind != PromoteWorkflow;
    }
    plan := Some(p);
  }

  // ---------- the keyword plan ----------

  function ClassifyIntent(input: PlanInput): Intent {
    if input.mode == "task" then ReportRequest
    else if Contains(input.message, "report") || Contains(input.message, "export") then ReportRequest
    else if Contains(input.message, "ticket") then IncidentAssist
    else KnowledgeQa
  }

  predicate AsksSearch(message: string) {
    Contains(message, "search") || Contains(message, "history") || Contains(message, "query")
  }

  /** isTenantToolAllowed: the lists only, not the switch. */
  predicate TenantToolAllowed(name: string, policy: TenantPolicy) {
    policy.configured ==> name !in policy.forbiddenTools && (policy.allowedTools == [] || name in policy.allowedTools)
  }

  function FindTool(tools: seq<ToolDescriptor>, eligible: ToolDescriptor -> bool): (r: Option<ToolDescriptor>)
    ensures r.Some? ==> r.value in tools && eligible(r.value)
    ensures r.None? ==> forall d :: d in tools ==> !eligible(d)
  {
    if tools == [] then None
    else if eligible(tools[0]) then Some(tools[0])
    else FindTool(tools[1..], eligible)
  }

  /** A tool is chosen exactly when tickets are mentioned, tools are not switched off, and some ticket tool is
      permitted. */
  function SelectTool(input: PlanInput): (r: Option<ToolDescriptor>)
    ensures r.Some? <==>
            && ToolsOn(input.policy) && Contains(input.message, "ticket")
            && exists d :: d in input.tools && Contains(d.name, "ticket") && ToolPermitted(d.name, input.policy)
    ensures r.Some? ==> r.value in input.tools && r.value.name != "" && ToolPermitted(r.value.name, input.policy)
  {
    assert Contains("ticket_search", "ticket") && !Contains("", "ticket");
    if !ToolsOn(input.policy) then None
    else
      var preferred :=
        if Contains(input.message, "ticket") && AsksSearch(input.message)
        then FindTool(input.tools,
                      (d: ToolDescriptor) => d.name == "ticket_search" && TenantToolAllowed(d.name, input.policy))
        else None;
      if preferred.Some? then preferred
      else FindTool(input.tools, (d: ToolDescriptor) => Contains(input.message, "ticket") && Contains(d.name, "ticket")
                                                        && TenantToolAllowed(d.name, input.policy))
  }

  /** Number `k` is the first eligible tool. */
  predicate FirstEligible(tools: seq<ToolDescriptor>, eligible: ToolDescriptor -> bool, k: nat) {
    k < |tools| && eligible(tools[k]) && forall j :: 0 <= j < k ==> !eligible(tools[j])
  }

  lemma {:induction false} FindsFirst(tools: seq<ToolDescriptor>, eligible: ToolDescriptor -> bool) returns (k: nat)
    requires FindTool(tools, eligible).Some?
    ensures FirstEligible(tools, eligible, k) && FindTool(tools, eligible) == Some(tools[k])
  {
    if eligible(tools[0]) {
      k := 0;
    } else {
      k := FindsFirst(tools[1..], eligible);
      k := k + 1;
    }
  }

  /** The first ticket tool on the list that the tenant may use. */
  predicate FirstTicketTool(input: PlanInput, k: nat) {
    && k < |input.tools| && Contains(input.tools[k].name, "ticket")
    && ToolPermitted(input.tools[k].name, input.policy)
    && forall j :: 0 <= j < k ==>
         !(Contains(input.tools[j].name, "ticket") && ToolPermitted(input.tools[j].name, input.policy))
  }

  /** A search is asked for and ticket_search is there and allowed. */
  predicate PrefersSearch(input: PlanInput) {
    && (Contains(input.message, "search") || Contains(input.message, "history") || Contains(input.message, "query"))
    && ToolPermitted("ticket_search", input.policy)
    && exists d :: d in input.tools && d.name == "ticket_search"
  }

  /** Which tool is selected: ticket_search for a search if it can be used, else the first ticket tool that can. */
  lemma SelectedTool(input: PlanInput)
    requires SelectTool(input).Some?
    ensures var d := SelectTool(input).value;
            && d in input.tools
            && (PrefersSearch(input) ==> d.name == "ticket_search")
            && (!PrefersSearch(input) ==> exists k: nat :: FirstTicketTool(input, k) && input.tools[k] == d)
  {
    if !PrefersSearch(input) {
      var eligible := (d: ToolDescriptor) => Contains(input.message, "ticket") && Contains(d.name, "ticket")
                                             && TenantToolAllowed(d.name, input.policy);
      hide Contains;
      if FindTool(input.tools, eligible).Some? {
        var k := FindsFirst(input.tools, eligible);
        assert FirstTicketTool(input, k);
      }
    }
  }

  predicate ToolsOn(policy: TenantPolicy) {
    policy.configured ==> policy.allowToolUse
  }

  /** Every dependency names the index of an earlier step that is still in the plan. */
  predicate DependsOnEarlier(steps: seq<Step>) {
    forall k :: 0 <= k < |steps| ==>
      forall d :: d in steps[k].dependsOn ==> d.OnStep? && 0 < d.index <= k && steps[d.index - 1].index == d.index
  }

  /** The tool step: the tool's name and flags, and no arguments. */
  predicate UsesTool(s: Step, d: ToolDescriptor) {
    && s.kind == Tool && s.name == "run " + d.name && s.toolName == d.name && s.toolArguments == ""
    && s.readOnly == d.readOnly && s.needsApproval == d.requiresApproval
  }

  /** A step that runs no tool has no flag set; only a promotion to a workflow names a tool. */
  predicate IsStep(s: Step, kind: Kind, name: string, toolName: string) {
    && s.kind == kind && s.name == name && s.toolName == toolName && s.toolArguments == ""
    && !s.readOnly && !s.needsApproval
  }

  function NameOf(tool: Option<ToolDescriptor>): string {
    if tool.Some? then tool.value.name else ""
  }

  /** Step number `k` of a keyword plan of `all` steps; `tool` carries the approval it needs. */
  predicate KeywordStep(workflow: bool, tool: Option<ToolDescriptor>, all: nat, k: nat, s: Step) {
    && s.index == k + 1 && s.dependsOn == (if k == 0 then [] else [OnStep(k)])
    && if workflow then IsStep(s, PromoteWorkflow, "promote to workflow", NameOf(tool))
       else if k == 0 then IsStep(s, Retrieve, "retrieve supporting evidence", "")
       else if k == all - 2 then IsStep(s, Synthesize, "compose grounded answer", "")
       else if k == all - 1 then IsStep(s, Critic, "validate response", "")
       else tool.Some? && UsesTool(s, tool.value)
  }

  /** The first `n` steps: a promotion alone, or retrieve, the tool if there is one, synthesize and critic. */
  predicate KeywordSteps(workflow: bool, tool: Option<ToolDescriptor>, n: nat, steps: seq<Step>) {
    var all := if workflow then 1 else if tool.Some? then 4 else 3;
    && |steps| == (if all > n then n else all)
    && forall k :: 0 <= k < |steps| ==> KeywordStep(workflow, tool, all, k, steps[k])
  }

  method BuildSteps(requiresWorkflow: bool, tool: Option<ToolDescriptor>) returns (steps: seq<Step>)
    ensures KeywordSteps(requiresWorkflow, tool, 4, steps)
  {
    var name := if tool.Some? then tool.value.name else "";
    if requiresWorkflow {
      return [Step(1, PromoteWorkflow, "promote to workflow", [], name, "", false, false)];
    }
    steps := [Step(1, Retrieve, "retrieve supporting evidence", [], "", "", false, false)];
    if tool.Some? {
      steps := steps + [Step(2, Tool, "run " + name, [OnStep(1)], name, "", tool.value.readOnly,
                             tool.value.requiresApproval)];
    }
    var n := |steps|;
    var dependsOn := [OnStep(steps[n - 1].index)];
    steps := steps + [Step(n + 1, Synthesize, "compose grounded answer", dependsOn, "", "", false, false),
                      Step(n + 2, Critic, "validate response", [OnStep(n + 1)], "", "", false, false)];
  }

  lemma CutSteps(workflow: bool, tool: Option<ToolDescriptor>, steps: seq<Step>, n: nat)
    requires KeywordSteps(workflow, tool, 4, steps)
    ensures KeywordSteps(workflow, tool, n, if |steps| > n then steps[..n] else steps)
  {
    hide KeywordStep;
  }

  /** What the later checks need of the kept steps. */
  lemma KeywordStepsOk(workflow: bool, tool: Option<ToolDescriptor>, n: nat, steps: seq<Step>)
    requires KeywordSteps(workflow, tool, n, steps) && n > 0
    ensures DependsOnEarlier(steps) && 0 < |steps| <= n
    ensures workflow ==> |steps| == 1 && steps[0].kind == PromoteWorkflow
    ensures !workflow ==> forall k :: 0 <= k < |steps| ==>
                            && steps[k].kind != PromoteWorkflow
                            && (steps[k].kind == Tool ==> k == 1 && tool.Some? && UsesTool(steps[k], tool.value))
  {
    forall k | 0 <= k < |steps| && !workflow
      ensures steps[k].kind != PromoteWorkflow
      ensures steps[k].kind == Tool ==> k == 1 && tool.Some? && UsesTool(steps[k], tool.value)
    {
      assert k == 0 || k == 1 || k == 2 || k == 3;
    }
  }

  /** The selected tool with the approval that it or the policy demands. */
  function ApprovedTool(input: PlanInput): Option<ToolDescriptor> {
    match SelectTool(input)
    case None => None
    case Some(d) =>
      Some(d.(requiresApproval := d.requiresApproval || (!d.readOnly && input.policy.requireApprovalForWrite)))
  }

  predicate AsksWorkflow(input: PlanInput) {
    input.mode == "task" || Contains(input.message, "report") || Contains(input.message, "export")
  }

  /** The keyword plan for a request: its flags, and every step that the step limit leaves. */
  ghost predicate IsKeywordPlan(input: PlanInput, plan: Plan) {
    var tool := ApprovedTool(input);
    && plan.source == Keyword
    && plan.intent == (if AsksWorkflow(input) then ReportRequest
                       else if Contains(input.message, "ticket") then IncidentAssist
                       else KnowledgeQa)
    && (plan.requiresTool <==> tool.Some?)
    && (plan.requiresWorkflow <==> AsksWorkflow(input) || (tool.Some? && tool.value.asyncOnly))
    && (plan.requiresRetrieval <==> !AsksWorkflow(input) && !(tool.Some? && tool.value.readOnly))
    && (plan.requiresApproval <==> tool.Some? && tool.value.requiresApproval)
    && plan.maxSteps == |plan.steps|
    && KeywordSteps(plan.requiresWorkflow, tool, EffectiveMax(input.policy), plan.steps)
  }

  lemma ToolStepIsOk(input: PlanInput, s: Step)
    requires UniqueNames(input.tools) && ApprovedTool(input).Some? && UsesTool(s, ApprovedTool(input).value)
    requires !ApprovedTool(input).value.asyncOnly
    ensures ToolStepOk(s, input.tools, input.policy)
  {
    RegisteredMember(input.tools, SelectTool(input).value);
    hide Registered, ToolPermitted, Contains, UniqueNames;
  }

  lemma KeywordPlanRespects(input: PlanInput, plan: Plan)
    requires UniqueNames(input.tools) && IsKeywordPlan(input, plan)
    ensures Respects(plan, input.tools, input.policy) && DependsOnEarlier(plan.steps)
  {
    KeywordStepsOk(plan.requiresWorkflow, ApprovedTool(input), EffectiveMax(input.policy), plan.steps);
    hide KeywordSteps, ToolStepOk, SelectTool, UsesTool, UniqueNames, DependsOnEarlier, Contains, ApprovedTool;
    forall k | 0 <= k < |plan.steps| && plan.steps[k].kind == Tool
      ensures ToolStepOk(plan.steps[k], input.tools, input.policy)
    {
      ToolStepIsOk(input, plan.steps[k]);
    }
  }

  method PlanWithKeywords(input: PlanInput) returns (plan: Plan)
    requires UniqueNames(input.tools)
    ensures IsKeywordPlan(input, plan)
    ensures Respects(plan, input.tools, input.policy) && DependsOnEarlier(plan.steps)
  {
    hide SelectTool, Contains, KeywordSteps, UniqueNames, Respects, DependsOnEarlier;
    var intent := ClassifyIntent(input);
    var requiresWorkflow := input.mode == "task" || intent == ReportRequest;
    var tool := SelectTool(input);
    var requiresTool := tool.Some?;
    var requiresApproval := tool.Some? && tool.value.requiresApproval;
    if tool.Some? && !tool.value.readOnly && input.policy.requireApprovalForWrite {
      requiresApproval := true;
      tool := Some(tool.value.(requiresApproval := true));
    }
    assert tool == ApprovedTool(input);
    var requiresRetrieval := !requiresWorkflow;
    if tool.Some? && tool.value.readOnly {
      requiresRetrieval := false;
    }
    var asyncOnly := tool.Some? && tool.value.asyncOnly;
    var steps := BuildSteps(requiresWorkflow || asyncOnly, tool);
    CutSteps(requiresWorkflow || asyncOnly, tool, steps, EffectiveMax(input.policy));
    var effectiveMax := MAX_STEPS as int;
    if input.policy.configured && input.policy.maxSteps > 0 && input.policy.maxSteps < effectiveMax {
      effectiveMax := input.policy.maxSteps;
    }
    var maxSteps := |steps|;
    if maxSteps > effectiveMax {
      maxSteps := effectiveMax;
      steps := steps[..effectiveMax];
    }
    plan := Plan(intent, requiresRetrieval, requiresTool, requiresWorkflow || asyncOnly, requiresApproval, maxSteps,
                 steps, Keyword);
    KeywordPlanRespects(input, plan);
  }

  // ---------- all paths ----------

  /** Plan: the model's plan when it is usable, else the keyword plan. */
  method MakePlan(llmConfigured: bool, resp: Option<LlmPlan>, input: PlanInput) returns (plan: Plan)
    requires UniqueNames(input.tools)
    ensures Respects(plan, input.tools, input.policy)
    ensures plan.source == Keyword <==>
            !(llmConfigured && resp.Some? && WellFormed(resp.value, DescriptorsOf(input.tools).Keys)
              && WithinPolicy(resp.value, DescriptorsOf(input.tools), input.policy))
    ensures plan.source == Keyword ==> DependsOnEarlier(plan.steps) && IsKeywordPlan(input, plan)
    ensures plan.source != Keyword ==> plan == PlanOf(resp.value, Llm)
  {
    if llmConfigured {
      var p := PlanWithLlm(resp, input, Llm);
      if p.Some? {
        return p.value;
      }
    }
    plan := PlanWithKeywords(input);
  }

  /** Replan needs the model; there is no keyword fallback. */
  method Replan(llmConfigured: bool, resp: Option<LlmPlan>, input: PlanInput) returns (plan: Option<Plan>)
    ensures plan.Some? <==> llmConfigured && resp.Some? && WellFormed(resp.value, DescriptorsOf(input.tools).Keys)
                            && WithinPolicy(resp.value, DescriptorsOf(input.tools), input.policy)
    ensures plan.Some? ==>
              Respects(plan.value, input.tools, input.policy) && plan.value == PlanOf(resp.value, Replanned)
  {
    if !llmConfigured {
      return None;
    }
    plan := PlanWithLlm(resp, input, Replanned);
  }

  /** From the rows of the policy table to the plan: a tool forbidden at any configured level is in no plan, writes
      carry the approval that any level demands, and a policy whose layers never switch tools on has no tool step at
      all. */
  lemma PlansRespectEveryLayer(plan: Plan, tools: seq<ToolDescriptor>, layers: seq<TenantPolicy>, k: nat)
    requires Respects(plan, tools, MergeLayers(layers)) && k < |plan.steps| && plan.steps[k].kind == Tool
    ensures forall l :: l in layers && l.configured ==> plan.steps[k].toolName !in l.forbiddenTools
    ensures forall l :: l in layers && l.configured && l.requireApprovalForWrite ==>
                          match Registered(tools, plan.steps[k].toolName)
                          case None => true
                          case Some(d) => d.readOnly || plan.steps[k].needsApproval
    ensures (exists l :: l in layers && l.configured) ==>
              exists j: nat :: LastWith(layers, SetsToolUse(), j) && layers[j].allowToolUse
    ensures forall j: nat :: LastWith(layers, ListsAllowed(), j) ==> plan.steps[k].toolName in layers[j].allowedTools
    ensures forall j: nat :: LastWith(layers, LimitsSteps(), j) ==> |plan.steps| <= layers[j].maxSteps
  {
    hide MergeLayers;
    var name := plan.steps[k].toolName;
    assert ToolStepOk(plan.steps[k], tools, MergeLayers(layers));
    ForbiddenAddsUp(layers, name);
    ToolsOffIff(layers);
    MergeMeaning(layers, 0);
    forall j: nat | LastWith(layers, ListsAllowed(), j) ensures name in layers[j].allowedTools {
      MergeMeaning(layers, j);
      assert layers[j] in layers;
    }
    forall j: nat | LastWith(layers, LimitsSteps(), j) ensures |plan.steps| <= layers[j].maxSteps {
      MergeMeaning(layers, j);
      assert layers[j] in layers;
    }
  }

  // ---------- dependencies of the model's plan ----------

  /** Every dependency of a step names a step of the plan. */
  ghost predicate Closed(plan: Plan) {
    forall k :: 0 <= k < |plan.steps| ==> forall d :: d in plan.steps[k].dependsOn ==> IsStepOf(plan, d)
  }

  ghost predicate IsStepOf(plan: Plan, d: Dependency) {
    d.OnName? && exists j :: 0 <= j < |plan.steps| && plan.steps[j].name == d.name
  }

  /** A plan of the model that is not cut is closed. */
  lemma ShortPlansAreClosed(resp: LlmPlan, available: set<string>, source: Source)
    requires WellFormed(resp, available) && |resp.steps| <= MAX_STEPS
    ensures Closed(PlanOf(resp, source))
  {
    var plan := PlanOf(resp, source);
    forall k, d | 0 <= k < |plan.steps| && d in plan.steps[k].dependsOn ensures IsStepOf(plan, d) {
      var i :| 0 <= i < |plan.steps[k].dependsOn| && plan.steps[k].dependsOn[i] == d;
      assert d == OnName(resp.steps[k].dependsOn[i]) && resp.steps[k].dependsOn[i] in resp.steps[k].dependsOn;
      var j :| 0 <= j < |resp.steps| && resp.steps[j].name == d.name;
      assert plan.steps[j].name == d.name;
    }
  }

  /** Under a configured policy every accepted plan of the model is closed: none of more than six steps is accepted. */
  lemma ConfiguredPlansAreClosed(resp: LlmPlan, tools: map<string, ToolDescriptor>, policy: TenantPolicy,
                                 source: Source)
    requires WellFormed(resp, tools.Keys) && WithinPolicy(resp, tools, policy) && policy.configured
    ensures Closed(PlanOf(resp, source))
  {
    ShortPlansAreClosed(resp, tools.Keys, source);
  }

  function Tally(n: nat): (s: string)
    ensures |s| == n + 1
  {
    seq(n + 1, _ => 'x')
  }

  /** `m` accepted steps of which the first waits for the last. */
  function FirstWaitsForLast(m: nat): LlmPlan
    requires m > 0
  {
    LlmPlan(KnowledgeQa, false, false, false, false,
            seq(m, k requires 0 <= k < m =>
              LlmStep(Synthesize, Tally(k), if k == 0 then [Tally(m - 1)] else [], "", "", true, false)))
  }

  lemma FirstWaitsIsAccepted(m: nat)
    requires m > 0
    ensures WellFormed(FirstWaitsForLast(m), {}) && WithinPolicy(FirstWaitsForLast(m), map[], NOTHING)
  {
    var resp := FirstWaitsForLast(m);
    assert resp.steps[m - 1].name == Tally(m - 1);
    forall i, j | 0 <= i < j < m ensures resp.steps[i].name != resp.steps[j].name {
      assert |Tally(i)| != |Tally(j)|;
    }
  }

  /** Without a configured policy the first six steps are kept of any number: all accepted plans of `m` steps are closed
      exactly when nothing is cut. */
  lemma PlansAreClosedIff(m: nat, source: Source)
    ensures (forall resp: LlmPlan :: |resp.steps| == m && WellFormed(resp, {}) && WithinPolicy(resp, map[], NOTHING)
                                     ==> Closed(PlanOf(resp, source)))
            <==> m <= 6
  {
    hide WellFormed, WithinPolicy, Closed, PlanOf;
    if m <= MAX_STEPS {
      forall resp: LlmPlan | |resp.steps| == m && WellFormed(resp, {}) && WithinPolicy(resp, map[], NOTHING)
        ensures Closed(PlanOf(resp, source))
      {
        ShortPlansAreClosed(resp, {}, source);
      }
    } else {
      FirstWaitsIsAccepted(m);
      FirstWaitsDangles(m, source);
    }
  }

  lemma FirstWaitsDangles(m: nat, source: Source)
    requires m > MAX_STEPS
    ensures !Closed(PlanOf(FirstWaitsForLast(m), source))
  {
    var resp := FirstWaitsForLast(m);
    var plan := PlanOf(resp, source);
    var d := OnName(Tally(m - 1));
    assert resp.steps[0].dependsOn == [Tally(m - 1)];
    assert plan.steps[0].dependsOn[0] == d;
    assert forall j :: 0 <= j < |plan.steps| ==> plan.steps[j].name == Tally(j) && |plan.steps[j].name| < m;
    assert !IsStepOf(plan, d);
  }

  /** The model's dependencies need only exist: two steps may wait for each other and the plan is accepted. */
  lemma CyclicPlanAccepted(d: ToolDescriptor)
    ensures exists resp: LlmPlan :: WellFormed(resp, {d.name}) && WithinPolicy(resp, map[d.name := d], NOTHING)
              && |resp.steps| == 2 && resp.steps[0].dependsOn == [resp.steps[1].name]
              && resp.steps[1].dependsOn == [resp.steps[0].name]
  {
    var a := LlmStep(Synthesize, "a", ["b"], "", "", true, false);
    var b := LlmStep(Critic, "b", ["a"], "", "", true, false);
    var resp := LlmPlan(KnowledgeQa, false, false, false, false, [a, b]);
    assert resp.steps[0].name == "a" && resp.steps[1].name == "b";
    assert WellFormed(resp, {d.name});
  }
}
