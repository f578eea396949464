/** Executing the tool steps of a plan with one replan, the approval gate, and the promotion that follows. */
module ToolExecution {
  import opened Common
  import opened Policy
  import P = Planner
  import W = WorkflowStore
  import WS = WorkflowService

  datatype ActionClass = Read | Write | Admin | OtherClass(text: string)

  datatype Definition = Definition(actionClass: ActionClass, readOnly: bool, requiresApproval: bool, asyncOnly: bool,
                                   hasExecutor: bool)

  type Registry = map<string, Definition>

  datatype Invocation = Invocation(replanned: bool, stepIndex: nat, toolName: string, actionClass: ActionClass,
                                   requiresApproval: bool, approvalGranted: bool, arguments: string)

  datatype Status = Succeeded | Failed | ApprovalRequired

  datatype ToolResult = ToolResult(replanned: bool, stepIndex: nat, toolName: string, status: Status)

  // ---------- the gate ----------

  predicate Gated(registry: Registry, inv: Invocation) {
    && inv.toolName in registry && !inv.approvalGranted
    && var def := registry[inv.toolName];
       inv.requiresApproval || def.requiresApproval || def.actionClass == Write || def.actionClass == Admin
  }

  /** `answers(n)`: whether the n-th executor run succeeds and its answer can be encoded. */
  predicate Fails(registry: Registry, inv: Invocation, runs: nat, answers: nat -> bool) {
    inv.toolName !in registry || (!Gated(registry, inv) && registry[inv.toolName].hasExecutor && !answers(runs))
  }

  predicate RunsExecutor(registry: Registry, inv: Invocation) {
    inv.toolName in registry && !Gated(registry, inv) && registry[inv.toolName].hasExecutor
  }

  function ResultOf(registry: Registry, inv: Invocation): ToolResult {
    ToolResult(inv.replanned, inv.stepIndex, inv.toolName, if Gated(registry, inv) then ApprovalRequired else Succeeded)
  }

  class Tools {
    const registry: Registry
    /** The executor runs so far: the tools' side effects. */
    var executed: seq<Invocation>

    constructor (registry: Registry)
      ensures this.registry == registry && executed == []
    {
      this.registry := registry;
      executed := [];
    }

    method Execute(inv: Invocation, answers: nat -> bool) returns (r: Option<ToolResult>)
      modifies this`executed
      ensures r == if Fails(registry, inv, |old(executed)|, answers) then None else Some(ResultOf(registry, inv))
      ensures executed == old(executed) + if RunsExecutor(registry, inv) then [inv] else []
      ensures inv.toolName !in registry ==> r == None && executed == old(executed)
      ensures inv.toolName in registry ==>
                var def := registry[inv.toolName];
                if !inv.approvalGranted
                   && (inv.requiresApproval || def.requiresApproval || def.actionClass in {Write, Admin})
                then
                  && executed == old(executed)
                  && r == Some(ToolResult(inv.replanned, inv.stepIndex, inv.toolName, ApprovalRequired))
                else
                  && executed == old(executed) + (if def.hasExecutor then [inv] else [])
                  && r == if def.hasExecutor && !answers(|old(executed)|) then None
                          else Some(ToolResult(inv.replanned, inv.stepIndex, inv.toolName, Succeeded))
    {
      if inv.toolName !in registry {
        return None;
      }
      var def := registry[inv.toolName];
      if !inv.approvalGranted
          && (inv.requiresApproval || def.requiresApproval || def.actionClass == Write || def.actionClass == Admin) {
        return Some(ToolResult(inv.replanned, inv.stepIndex, inv.toolName, ApprovalRequired));
      }
      if def.hasExecutor {
        var ok := answers(|executed|);
        executed := executed + [inv];
        if !ok {
          return None;
        }
      }
      return Some(ToolResult(inv.replanned, inv.stepIndex, inv.toolName, Succeeded));
    }
  }

  // ---------- running the tool steps of a plan ----------

  function IsTool(): P.Step -> bool {
    (s: P.Step) => s.kind == P.Tool
  }

  function ToolSteps(steps: seq<P.Step>): seq<P.Step> {
    Filter(IsTool(), steps)
  }

  /** Structured arguments from the planner, or the heuristic ones of `fallback` for a read-only step. */
  function ArgumentsOf(s: P.Step, fallback: string -> string): Option<string> {
    if |s.toolArguments| > 0 then Some(s.toolArguments)
    else if !s.readOnly then None
    else Some(fallback(s.toolName))
  }

  function InvocationOf(s: P.Step, replanned: bool, fallback: string -> string): Invocation
    requires ArgumentsOf(s, fallback).Some?
  {
    Invocation(replanned, s.index, s.toolName, if s.readOnly then Read else Write, s.needsApproval, false,
               ArgumentsOf(s, fallback).value)
  }

  /** A pass over tool steps ends at a step without arguments, at the step of a failed call, or after the last. */
  datatype Stop = Finished | NoArguments(step: P.Step) | ExecutionFailed(step: P.Step)

  /** The calls a pass made, the results they gave, and how it ended. */
  datatype Trace = Trace(invs: seq<Invocation>, results: seq<ToolResult>, stop: Stop)

  function Joined(invs: seq<Invocation>, results: seq<ToolResult>, t: Trace): Trace {
    Trace(invs + t.invs, results + t.results, t.stop)
  }

  function OwnRun(registry: Registry, inv: Invocation): seq<Invocation> {
    if RunsExecutor(registry, inv) then [inv] else []
  }

  /** The pass over the steps from `i` on, when `runs` executor runs came before it. */
  function Pass(registry: Registry, steps: seq<P.Step>, i: nat, replanned: bool, fallback: string -> string,
                answers: nat -> bool, runs: nat): Trace
    requires i <= |steps|
    decreases |steps| - i
  {
    if i == |steps| then Trace([], [], Finished)
    else if steps[i].kind != P.Tool then Pass(registry, steps, i + 1, replanned, fallback, answers, runs)
    else if ArgumentsOf(steps[i], fallback).None? then Trace([], [], NoArguments(steps[i]))
    else
      var inv := InvocationOf(steps[i], replanned, fallback);
      if Fails(registry, inv, runs, answers) then Trace([inv], [], ExecutionFailed(steps[i]))
      else Joined([inv], [ResultOf(registry, inv)],
                  Pass(registry, steps, i + 1, replanned, fallback, answers, runs + |OwnRun(registry, inv)|))
  }

  /** The executor runs among the first `k` calls. */
  function Executions(registry: Registry, invs: seq<Invocation>, k: nat): (r: seq<Invocation>)
    requires k <= |invs|
    ensures NoGatedRun(registry, r)
  {
    if k == 0 then [] else Executions(registry, invs, k - 1) + OwnRun(registry, invs[k - 1])
  }

  /** No executor ran for a gated call. */
  predicate NoGatedRun(registry: Registry, executed: seq<Invocation>) {
    forall k :: 0 <= k < |executed| ==> RunsExecutor(registry, executed[k])
  }

  // ---------- what a pass is ----------

  /** Call `k` fails, when `runs` executor runs came before the pass. */
  predicate FailsAt(registry: Registry, answers: nat -> bool, runs: nat, invs: seq<Invocation>, k: nat)
    requires k < |invs|
  {
    Fails(registry, invs[k], runs + |Executions(registry, invs, k)|, answers)
  }

  /** The calls are the first of the tool steps `ts`, in order. */
  ghost predicate CallsFollow(ts: seq<P.Step>, replanned: bool, fallback: string -> string, invs: seq<Invocation>) {
    && |invs| <= |ts|
    && forall k :: 0 <= k < |invs| ==>
         ArgumentsOf(ts[k], fallback).Some? && invs[k] == InvocationOf(ts[k], replanned, fallback)
  }

  /** Each result is that of its call, and its call did not fail. */
  ghost predicate ResultsFollow(registry: Registry, answers: nat -> bool, runs: nat, invs: seq<Invocation>,
                                results: seq<ToolResult>) {
    && |results| <= |invs|
    && forall k :: 0 <= k < |results| ==>
         !FailsAt(registry, answers, runs, invs, k) && results[k] == ResultOf(registry, invs[k])
  }

  /** The pass stops at the first step that has no arguments, at the first call that fails, or at the end. */
  ghost predicate EndsThere(registry: Registry, ts: seq<P.Step>, fallback: string -> string, answers: nat -> bool,
                            runs: nat, t: Trace) {
    match t.stop
    case Finished => |t.results| == |t.invs| == |ts|
    case NoArguments(s) => |t.results| == |t.invs| < |ts| && s == ts[|t.invs|] && ArgumentsOf(s, fallback).None?
    case ExecutionFailed(s) =>
      && |t.results| + 1 == |t.invs| <= |ts| && s == ts[|t.results|]
      && FailsAt(registry, answers, runs, t.invs, |t.results|)
  }

  ghost predicate Ran(registry: Registry, ts: seq<P.Step>, replanned: bool, fallback: string -> string,
                      answers: nat -> bool, runs: nat, t: Trace) {
    && CallsFollow(ts, replanned, fallback, t.invs)
    && ResultsFollow(registry, answers, runs, t.invs, t.results)
    && EndsThere(registry, ts, fallback, answers, runs, t)
  }

  lemma {:induction false} ExecutionsCons(registry: Registry, inv: Invocation, invs: seq<Invocation>, k: nat)
    requires k <= |invs|
    ensures Executions(registry, [inv] + invs, k + 1) == OwnRun(registry, inv) + Executions(registry, invs, k)
  {
    hide OwnRun, NoGatedRun;
    var all := [inv] + invs;
    if k == 0 {
      assert Executions(registry, all, 0) == [];
    } else {
      ExecutionsCons(registry, inv, invs, k - 1);
      assert all[k] == invs[k - 1];
      Regroup(OwnRun(registry, inv), Executions(registry, invs, k - 1), OwnRun(registry, invs[k - 1]));
    }
  }

  lemma FailsAfter(registry: Registry, answers: nat -> bool, runs: nat, inv: Invocation, invs: seq<Invocation>)
    ensures var all := [inv] + invs;
            && (FailsAt(registry, answers, runs, all, 0) <==> Fails(registry, inv, runs, answers))
            && (forall k :: 1 <= k <= |invs| ==>
                  (FailsAt(registry, answers, runs, all, k) <==>
                   FailsAt(registry, answers, runs + |OwnRun(registry, inv)|, invs, k - 1)))
  {
    hide Fails, OwnRun;
    var all := [inv] + invs;
    assert Executions(registry, all, 0) == [];
    forall k | 1 <= k <= |invs|
      ensures FailsAt(registry, answers, runs, all, k) <==>
              FailsAt(registry, answers, runs + |OwnRun(registry, inv)|, invs, k - 1)
    {
      ExecutionsCons(registry, inv, invs, k - 1);
    }
  }

  lemma CallsCons(s: P.Step, ts: seq<P.Step>, replanned: bool, fallback: string -> string, invs: seq<Invocation>)
    requires ArgumentsOf(s, fallback).Some? && CallsFollow(ts, replanned, fallback, invs)
    ensures CallsFollow([s] + ts, replanned, fallback, [InvocationOf(s, replanned, fallback)] + invs)
  {
    hide ArgumentsOf, InvocationOf;
  }

  lemma ResultsCons(registry: Registry, answers: nat -> bool, runs: nat, inv: Invocation, invs: seq<Invocation>,
                    results: seq<ToolResult>)
    requires !Fails(registry, inv, runs, answers)
    requires ResultsFollow(registry, answers, runs + |OwnRun(registry, inv)|, invs, results)
    ensures ResultsFollow(registry, answers, runs, [inv] + invs, [ResultOf(registry, inv)] + results)
  {
    var all, rs := [inv] + invs, [ResultOf(registry, inv)] + results;
    FailsAfter(registry, answers, runs, inv, invs);
    hide Fails, FailsAt, ResultOf, OwnRun;
    forall k | 0 <= k < |rs| ensures !FailsAt(registry, answers, runs, all, k) && rs[k] == ResultOf(registry, all[k]) {
      if k > 0 {
        assert !FailsAt(registry, answers, runs + |OwnRun(registry, inv)|, invs, k - 1);
      }
    }
  }

  lemma EndsCons(registry: Registry, s: P.Step, ts: seq<P.Step>, fallback: string -> string, answers: nat -> bool,
                 runs: nat, inv: Invocation, r: ToolResult, t: Trace)
    requires EndsThere(registry, ts, fallback, answers, runs + |OwnRun(registry, inv)|, t)
    ensures EndsThere(registry, [s] + ts, fallback, answers, runs, Joined([inv], [r], t))
  {
    FailsAfter(registry, answers, runs, inv, t.invs);
    hide Fails, FailsAt, OwnRun, ArgumentsOf;
    if t.stop.ExecutionFailed? {
      assert FailsAt(registry, answers, runs, [inv] + t.invs, |t.invs|);
    }
  }

  lemma ToolStepsFrom(steps: seq<P.Step>, i: nat)
    requires i < |steps|
    ensures steps[i].kind != P.Tool ==> ToolSteps(steps[i..]) == ToolSteps(steps[i + 1..])
    ensures steps[i].kind == P.Tool ==> ToolSteps(steps[i..]) == [steps[i]] + ToolSteps(steps[i + 1..])
  {
    assert steps[i..] == [steps[i]] + steps[i + 1..];
    FilterHead(IsTool(), steps[i], steps[i + 1..]);
  }

  lemma RanAtOnce(registry: Registry, s: P.Step, ts: seq<P.Step>, replanned: bool, fallback: string -> string,
                  answers: nat -> bool, runs: nat)
    ensures ArgumentsOf(s, fallback).None? ==>
              Ran(registry, [s] + ts, replanned, fallback, answers, runs, Trace([], [], NoArguments(s)))
    ensures ArgumentsOf(s, fallback).Some? && Fails(registry, InvocationOf(s, replanned, fallback), runs, answers) ==>
              var inv := InvocationOf(s, replanned, fallback);
              Ran(registry, [s] + ts, replanned, fallback, answers, runs, Trace([inv], [], ExecutionFailed(s)))
  {
    if ArgumentsOf(s, fallback).Some? {
      FailsAfter(registry, answers, runs, InvocationOf(s, replanned, fallback), []);
    }
    hide Fails, FailsAt, ArgumentsOf, InvocationOf;
  }

  lemma PassStep(registry: Registry, steps: seq<P.Step>, i: nat, replanned: bool, fallback: string -> string,
                 answers: nat -> bool, runs: nat)
    requires i < |steps|
    ensures var s := steps[i];
            Pass(registry, steps, i, replanned, fallback, answers, runs) ==
              if s.kind != P.Tool then Pass(registry, steps, i + 1, replanned, fallback, answers, runs)
              else if ArgumentsOf(s, fallback).None? then Trace([], [], NoArguments(s))
              else
                var inv := InvocationOf(s, replanned, fallback);
                if Fails(registry, inv, runs, answers) then Trace([inv], [], ExecutionFailed(s))
                else Joined([inv], [ResultOf(registry, inv)],
                            Pass(registry, steps, i + 1, replanned, fallback, answers, runs + |OwnRun(registry, inv)|))
  {
  }

  lemma EmptyPassIsRan(registry: Registry, steps: seq<P.Step>, replanned: bool, fallback: string -> string,
                       answers: nat -> bool, runs: nat)
    ensures Ran(registry, ToolSteps(steps[|steps|..]), replanned, fallback, answers, runs,
                Pass(registry, steps, |steps|, replanned, fallback, answers, runs))
  {
    assert steps[|steps|..] == [];
  }

  lemma {:induction false} PassFromIsRan(registry: Registry, steps: seq<P.Step>, i: nat, replanned: bool,
                                         fallback: string -> string, answers: nat -> bool, runs: nat)
    requires i <= |steps|
    ensures Ran(registry, ToolSteps(steps[i..]), replanned, fallback, answers, runs,
                Pass(registry, steps, i, replanned, fallback, answers, runs))
    decreases |steps| - i
  {
    hide *;
    if i == |steps| {
      EmptyPassIsRan(registry, steps, replanned, fallback, answers, runs);
    } else {
      ToolStepsFrom(steps, i);
      PassStep(registry, steps, i, replanned, fallback, answers, runs);
      var s := steps[i];
      if s.kind != P.Tool {
        PassFromIsRan(registry, steps, i + 1, replanned, fallback, answers, runs);
      } else if ArgumentsOf(s, fallback).None? || Fails(registry, InvocationOf(s, replanned, fallback), runs, answers) {
        RanAtOnce(registry, s, ToolSteps(steps[i + 1..]), replanned, fallback, answers, runs);
      } else {
        var inv := InvocationOf(s, replanned, fallback);
        var t := Pass(registry, steps, i + 1, replanned, fallback, answers, runs + |OwnRun(registry, inv)|);
        PassFromIsRan(registry, steps, i + 1, replanned, fallback, answers, runs + |OwnRun(registry, inv)|);
        RanCons(registry, s, ToolSteps(steps[i + 1..]), replanned, fallback, answers, runs, inv, t);
      }
    }
  }

  lemma RanCons(registry: Registry, s: P.Step, ts: seq<P.Step>, replanned: bool, fallback: string -> string,
                answers: nat -> bool, runs: nat, inv: Invocation, t: Trace)
    requires ArgumentsOf(s, fallback).Some? && inv == InvocationOf(s, replanned, fallback)
    requires !Fails(registry, inv, runs, answers)
    requires Ran(registry, ts, replanned, fallback, answers, runs + |OwnRun(registry, inv)|, t)
    ensures Ran(registry, [s] + ts, replanned, fallback, answers, runs, Joined([inv], [ResultOf(registry, inv)], t))
  {
    CallsCons(s, ts, replanned, fallback, t.invs);
    ResultsCons(registry, answers, runs, inv, t.invs, t.results);
    EndsCons(registry, s, ts, fallback, answers, runs, inv, ResultOf(registry, inv), t);
    hide CallsFollow, ResultsFollow, EndsThere, Fails, ResultOf, OwnRun, ArgumentsOf, InvocationOf;
  }

  lemma {:induction false} SameExecutions(registry: Registry, invs: seq<Invocation>, more: seq<Invocation>, k: nat)
    requires k <= |invs| && k <= |more| && forall i :: 0 <= i < k ==> invs[i] == more[i]
    ensures Executions(registry, invs, k) == Executions(registry, more, k)
  {
    if k > 0 {
      SameExecutions(registry, invs, more, k - 1);
    }
  }

  /** A pass cannot stop before another one over the same steps. */
  lemma EarlierStop(registry: Registry, ts: seq<P.Step>, replanned: bool, fallback: string -> string,
                    answers: nat -> bool, runs: nat, t: Trace, u: Trace)
    requires Ran(registry, ts, replanned, fallback, answers, runs, t)
    requires Ran(registry, ts, replanned, fallback, answers, runs, u)
    ensures |u.results| <= |t.results|
  {
    var k := |t.results|;
    if t.stop.ExecutionFailed? && k < |u.results| {
      SameFailure(registry, answers, runs, ts, replanned, fallback, t.invs, u.invs, k);
    }
    hide Fails, FailsAt, Executions, InvocationOf, ArgumentsOf, ResultOf;
  }

  lemma SameFailure(registry: Registry, answers: nat -> bool, runs: nat, ts: seq<P.Step>, replanned: bool,
                    fallback: string -> string, invs: seq<Invocation>, more: seq<Invocation>, k: nat)
    requires CallsFollow(ts, replanned, fallback, invs) && CallsFollow(ts, replanned, fallback, more)
    requires k < |invs| && k < |more|
    ensures FailsAt(registry, answers, runs, invs, k) <==> FailsAt(registry, answers, runs, more, k)
  {
    hide Fails, InvocationOf, ArgumentsOf;
    SameExecutions(registry, invs, more, k);
  }

  lemma RanOnce(registry: Registry, ts: seq<P.Step>, replanned: bool, fallback: string -> string,
                answers: nat -> bool, runs: nat, t: Trace, u: Trace)
    requires Ran(registry, ts, replanned, fallback, answers, runs, t)
    requires Ran(registry, ts, replanned, fallback, answers, runs, u)
    ensures t == u
  {
    EarlierStop(registry, ts, replanned, fallback, answers, runs, t, u);
    EarlierStop(registry, ts, replanned, fallback, answers, runs, u, t);
    assert |t.results| == |u.results|;
    hide Fails, FailsAt, ResultOf, ArgumentsOf, InvocationOf, Executions;
    assert t.stop == u.stop;
    assert t.invs == u.invs && t.results == u.results;
  }

  /** What a pass is, without saying how it is computed: the calls follow the tool steps in order up to the first step
      without arguments or the first call that fails, and nothing else is a pass over these steps. */
  lemma PassIff(registry: Registry, steps: seq<P.Step>, replanned: bool, fallback: string -> string,
                answers: nat -> bool, runs: nat, t: Trace)
    ensures t == Pass(registry, steps, 0, replanned, fallback, answers, runs) <==>
            Ran(registry, ToolSteps(steps), replanned, fallback, answers, runs, t)
  {
    var p := Pass(registry, steps, 0, replanned, fallback, answers, runs);
    assert steps[0..] == steps;
    PassFromIsRan(registry, steps, 0, replanned, fallback, answers, runs);
    if Ran(registry, ToolSteps(steps), replanned, fallback, answers, runs, t) {
      RanOnce(registry, ToolSteps(steps), replanned, fallback, answers, runs, t, p);
    }
  }

  /** In no pass does an executor run for a call without a grant that its step, its definition or its class of action
      puts under approval. */
  lemma UnapprovedCallsNeverRun(registry: Registry, invs: seq<Invocation>, k: nat, n: nat)
    requires k <= |invs| && n < |Executions(registry, invs, k)|
    ensures var inv := Executions(registry, invs, k)[n];
            && inv.toolName in registry
            && (inv.approvalGranted
                || (!inv.requiresApproval && !registry[inv.toolName].requiresApproval
                    && registry[inv.toolName].actionClass !in {Write, Admin}))
  {
    hide Executions;
    assert NoGatedRun(registry, Executions(registry, invs, k));
  }

  lemma {:induction false} AnsweredRuns(registry: Registry, answers: nat -> bool, runs: nat, invs: seq<Invocation>,
                                        k: nat)
    requires k <= |invs| && forall j :: 0 <= j < k ==> !FailsAt(registry, answers, runs, invs, j)
    ensures forall n :: runs <= n < runs + |Executions(registry, invs, k)| ==> answers(n)
  {
    if k > 0 {
      AnsweredRuns(registry, answers, runs, invs, k - 1);
      assert !FailsAt(registry, answers, runs, invs, k - 1);
    }
  }

  /** In a pass that reaches the end every executor run was answered well. */
  lemma FinishedRunsSucceeded(registry: Registry, steps: seq<P.Step>, replanned: bool, fallback: string -> string,
                              answers: nat -> bool, runs: nat)
    ensures var t := Pass(registry, steps, 0, replanned, fallback, answers, runs);
            t.stop.Finished? ==> forall n :: runs <= n < runs + |Executions(registry, t.invs, |t.invs|)| ==> answers(n)
  {
    var t := Pass(registry, steps, 0, replanned, fallback, answers, runs);
    PassIff(registry, steps, replanned, fallback, answers, runs, t);
    hide Pass, FailsAt, Fails, Executions;
    if t.stop.Finished? {
      AnsweredRuns(registry, answers, runs, t.invs, |t.invs|);
    }
  }

  method ToInvocation(step: P.Step, replanned: bool, fallback: string -> string) returns (inv: Option<Invocation>)
    ensures inv == if ArgumentsOf(step, fallback).Some? then Some(InvocationOf(step, replanned, fallback)) else None
  {
    var args := "";
    if |step.toolArguments| > 0 {
      args := step.toolArguments;
    } else if !step.readOnly {
      return None;
    } else {
      args := fallback(step.toolName);
    }
    inv := Some(Invocation(replanned, step.index, step.toolName, if step.readOnly then Read else Write,
                           step.needsApproval, false, args));
  }

  lemma NextCall(registry: Registry, steps: seq<P.Step>, i: nat, replanned: bool, fallback: string -> string,
                 answers: nat -> bool, was: seq<Invocation>, executed: seq<Invocation>, invs: seq<Invocation>,
                 results: seq<ToolResult>, inv: Invocation)
    requires i < |steps| && steps[i].kind == P.Tool && ArgumentsOf(steps[i], fallback).Some?
    requires inv == InvocationOf(steps[i], replanned, fallback)
    requires executed == was + Executions(registry, invs, |invs|)
    ensures var now, next := executed + OwnRun(registry, inv), invs + [inv];
            && now == was + Executions(registry, next, |next|)
            && Joined(invs, results, Pass(registry, steps, i, replanned, fallback, answers, |executed|)) ==
                 if Fails(registry, inv, |executed|, answers) then Trace(next, results, ExecutionFailed(steps[i]))
                 else Joined(next, results + [ResultOf(registry, inv)],
                             Pass(registry, steps, i + 1, replanned, fallback, answers, |now|))
  {
    hide *;
    PassStep(registry, steps, i, replanned, fallback, answers, |executed|);
    ExecutionsSnoc(registry, was, invs, inv);
    JoinedOnce(invs, results, inv, ExecutionFailed(steps[i]));
    JoinedTwice(invs, results, inv, ResultOf(registry, inv),
                Pass(registry, steps, i + 1, replanned, fallback, answers, |executed| + |OwnRun(registry, inv)|));
  }

  lemma ExecutionsSnoc(registry: Registry, was: seq<Invocation>, invs: seq<Invocation>, inv: Invocation)
    ensures was + Executions(registry, invs + [inv], |invs + [inv]|)
         == was + Executions(registry, invs, |invs|) + OwnRun(registry, inv)
  {
    SameExecutions(registry, invs, invs + [inv], |invs|);
  }

  lemma JoinedOnce(invs: seq<Invocation>, results: seq<ToolResult>, inv: Invocation, stop: Stop)
    ensures Joined(invs, results, Trace([inv], [], stop)) == Trace(invs + [inv], results, stop)
  {
  }

  lemma JoinedTwice(invs: seq<Invocation>, results: seq<ToolResult>, inv: Invocation, r: ToolResult, t: Trace)
    ensures Joined(invs, results, Joined([inv], [r], t)) == Joined(invs + [inv], results + [r], t)
  {
    assert invs + ([inv] + t.invs) == invs + [inv] + t.invs && results + ([r] + t.results) == results + [r] + t.results;
  }

  lemma NoCall(registry: Registry, steps: seq<P.Step>, i: nat, replanned: bool, fallback: string -> string,
               answers: nat -> bool, runs: nat, invs: seq<Invocation>, results: seq<ToolResult>)
    requires i <= |steps| && (i < |steps| ==> steps[i].kind != P.Tool || ArgumentsOf(steps[i], fallback).None?)
    ensures Joined(invs, results, Pass(registry, steps, i, replanned, fallback, answers, runs)) ==
              if i == |steps| then Trace(invs, results, Finished)
              else if steps[i].kind != P.Tool
              then Joined(invs, results, Pass(registry, steps, i + 1, replanned, fallback, answers, runs))
              else Trace(invs, results, NoArguments(steps[i]))
  {
    hide ArgumentsOf, Fails;
  }

  /** One of the two step loops. */
  method RunSteps(tools: Tools, steps: seq<P.Step>, replanned: bool, fallback: string -> string, answers: nat -> bool)
    returns (t: Trace)
    modifies tools`executed
    ensures t == Pass(tools.registry, steps, 0, replanned, fallback, answers, |old(tools.executed)|)
    ensures tools.executed == old(tools.executed) + Executions(tools.registry, t.invs, |t.invs|)
  {
    var invs: seq<Invocation>, results: seq<ToolResult> := [], [];
    ghost var was := tools.executed;
    ghost var whole := Pass(tools.registry, steps, 0, replanned, fallback, answers, |was|);
    assert Executions(tools.registry, invs, 0) == [] && whole == Joined(invs, results, whole);
    hide Pass, Joined, ArgumentsOf, Fails, ResultOf, Executions, InvocationOf;
    for i := 0 to |steps|
      invariant whole == Joined(invs, results,
                                Pass(tools.registry, steps, i, replanned, fallback, answers, |tools.executed|))
      invariant tools.executed == was + Executions(tools.registry, invs, |invs|)
    {
      var step := steps[i];
      if step.kind != P.Tool {
        NoCall(tools.registry, steps, i, replanned, fallback, answers, |tools.executed|, invs, results);
        continue;
      }
      var inv := ToInvocation(step, replanned, fallback);
      if inv.None? {
        NoCall(tools.registry, steps, i, replanned, fallback, answers, |tools.executed|, invs, results);
        return Trace(invs, results, NoArguments(step));
      }
      NextCall(tools.registry, steps, i, replanned, fallback, answers, was, tools.executed, invs, results, inv.value);
      invs := invs + [inv.value];
      var result := tools.Execute(inv.value, answers);
      if result.None? {
        return Trace(invs, results, ExecutionFailed(step));
      }
      results := results + [result.value];
    }
    NoCall(tools.registry, steps, |steps|, replanned, fallback, answers, |tools.executed|, invs, results);
    t := Trace(invs, results, Finished);
  }

  // ---------- execution with one replan ----------

  datatype Outcome = Outcome(results: seq<ToolResult>, invocations: seq<Invocation>, replanCount: nat,
                             activePlan: P.Plan)

  datatype Error = WriteWithoutArguments(toolName: string) | CallFailed(toolName: string)

  function ErrorOf(stop: Stop): (e: Error)
    requires !stop.Finished?
    ensures e.toolName == stop.step.toolName && (e.WriteWithoutArguments? <==> stop.NoArguments?)
  {
    if stop.NoArguments? then WriteWithoutArguments(stop.step.toolName) else CallFailed(stop.step.toolName)
  }

  predicate CanReplan(llmConfigured: bool, resp: Option<P.LlmPlan>, input: P.PlanInput) {
    && llmConfigured && resp.Some? && P.WellFormed(resp.value, P.DescriptorsOf(input.tools).Keys)
    && P.WithinPolicy(resp.value, P.DescriptorsOf(input.tools), input.policy)
  }

  /** A second pass is made: the first one stopped at a failed call, and the model gives a usable revised plan. */
  predicate Replans(stop: Stop, plan: P.Plan, llmConfigured: bool, resp: Option<P.LlmPlan>, input: P.PlanInput) {
    stop.ExecutionFailed? && plan.source != P.Keyword && CanReplan(llmConfigured, resp, input)
  }

  function RevisedPlan(resp: Option<P.LlmPlan>): (p: P.Plan)
    requires resp.Some?
    ensures p.source == P.Replanned
  {
    P.PlanOf(resp.value, P.Replanned)
  }

  function FirstPass(registry: Registry, plan: P.Plan, fallback: string -> string, answers: nat -> bool,
                     runs: nat): Trace {
    Pass(registry, plan.steps, 0, false, fallback, answers, runs)
  }

  /** The second pass asks for the answers after those that the first one used. */
  function SecondPass(registry: Registry, plan: P.Plan, resp: Option<P.LlmPlan>, fallback: string -> string,
                      answers: nat -> bool, runs: nat): Trace
    requires resp.Some?
  {
    var t := FirstPass(registry, plan, fallback, answers, runs);
    Pass(registry, RevisedPlan(resp).steps, 0, true, fallback, answers, runs + |Executions(registry, t.invs, |t.invs|)|)
  }

  /** Finished in one go: the invocations are the tool steps of the plan. */
  predicate DirectOk(registry: Registry, plan: P.Plan, fallback: string -> string, answers: nat -> bool, runs: nat,
                     o: Outcome) {
    && o.replanCount == 0 && o.activePlan == plan
    && FirstPass(registry, plan, fallback, answers, runs) == Trace(o.invocations, o.results, Finished)
  }

  /** Replanned after the last call of the first pass: the failed call keeps its place, the rest is the second pass. */
  predicate ReplannedOk(registry: Registry, plan: P.Plan, resp: Option<P.LlmPlan>, fallback: string -> string,
                        answers: nat -> bool, runs: nat, o: Outcome) {
    && resp.Some?
    && var t, u := FirstPass(registry, plan, fallback, answers, runs),
                   SecondPass(registry, plan, resp, fallback, answers, runs);
       && t.stop.ExecutionFailed? && u.stop.Finished? && plan.source != P.Keyword
       && o.replanCount == 1 && o.activePlan == RevisedPlan(resp)
       && o.invocations == t.invs + u.invs
       && o.results == t.results + [ToolResult(false, t.stop.step.index, t.stop.step.toolName, Failed)] + u.results
  }

  /** What is answered and what is executed, for every plan, registry, revised plan and sequence of executor answers. */
  method ExecuteToolSteps(tools: Tools, plan: P.Plan, input: P.PlanInput, llmConfigured: bool, resp: Option<P.LlmPlan>,
                          fallback: string -> string, answers: nat -> bool)
    returns (r: Result<Outcome, Error>)
    modifies tools`executed
    ensures var runs := |old(tools.executed)|;
            var t := FirstPass(tools.registry, plan, fallback, answers, runs);
            if !Replans(t.stop, plan, llmConfigured, resp, input)
            then
              && tools.executed == old(tools.executed) + Executions(tools.registry, t.invs, |t.invs|)
              && (t.stop.Finished? ==> r.Success? && DirectOk(tools.registry, plan, fallback, answers, runs, r.value))
              && (!t.stop.Finished? ==> r == Failure(ErrorOf(t.stop)))
            else
              var u := SecondPass(tools.registry, plan, resp, fallback, answers, runs);
              && tools.executed == old(tools.executed) + Executions(tools.registry, t.invs, |t.invs|)
                                 + Executions(tools.registry, u.invs, |u.invs|)
              && P.Respects(RevisedPlan(resp), input.tools, input.policy)
              && (u.stop.Finished? ==>
                  r.Success? && ReplannedOk(tools.registry, plan, resp, fallback, answers, runs, r.value))
              && (!u.stop.Finished? ==> r == Failure(ErrorOf(u.stop)))
  {
    hide P.WellFormed, P.WithinPolicy, P.Respects, P.PlanOf, Pass, Executions;
    var first := RunSteps(tools, plan.steps, false, fallback, answers);
    if first.stop.NoArguments? {
      return Failure(WriteWithoutArguments(first.stop.step.toolName));
    }
    if first.stop.Finished? {
      return Success(Outcome(first.results, first.invs, 0, plan));
    }
    var failed := first.stop.step;
    if plan.source == P.Keyword {
      return Failure(CallFailed(failed.toolName));
    }
    var revised := P.Replan(llmConfigured, resp, input);
    if revised.None? {
      return Failure(CallFailed(failed.toolName));
    }
    var second := RunSteps(tools, revised.value.steps, true, fallback, answers);
    if second.stop.NoArguments? {
      return Failure(WriteWithoutArguments(second.stop.step.toolName));
    }
    if second.stop.ExecutionFailed? {
      return Failure(CallFailed(second.stop.step.toolName));
    }
    var failure := ToolResult(false, failed.index, failed.toolName, Failed);
    r := Success(Outcome(first.results + [failure] + second.results, first.invs + second.invs, 1, revised.value));
  }

  // ---------- what every successful execution has ----------

  /** Call k and result k belong together; a result asks for approval exactly when its call is gated; no call claims
      an approval. */
  ghost predicate Lockstep(registry: Registry, o: Outcome) {
    && |o.invocations| == |o.results|
    && forall k :: 0 <= k < |o.results| ==> Matches(registry, o.invocations[k], o.results[k])
  }

  predicate Matches(registry: Registry, inv: Invocation, r: ToolResult) {
    && r.toolName == inv.toolName && !inv.approvalGranted
    && (r.status == ApprovalRequired <==> Gated(registry, inv))
    && (inv.actionClass == Write ==> inv.arguments != "")
  }

  lemma TraceLockstep(registry: Registry, steps: seq<P.Step>, replanned: bool, fallback: string -> string,
                      answers: nat -> bool, runs: nat, k: nat)
    requires k < |Pass(registry, steps, 0, replanned, fallback, answers, runs).invs|
    ensures var t := Pass(registry, steps, 0, replanned, fallback, answers, runs);
            && |t.invs| == |t.results| + (if t.stop.ExecutionFailed? then 1 else 0)
            && (k < |t.results| ==> Matches(registry, t.invs[k], t.results[k]) && t.results[k].status != Failed)
            && (k == |t.results| ==>
                  && t.stop.ExecutionFailed?
                  && Matches(registry, t.invs[k], ToolResult(false, t.stop.step.index, t.stop.step.toolName, Failed)))
  {
    var t := Pass(registry, steps, 0, replanned, fallback, answers, runs);
    PassIff(registry, steps, replanned, fallback, answers, runs, t);
    hide Pass, Executions;
  }

  lemma DirectLockstep(registry: Registry, plan: P.Plan, fallback: string -> string, answers: nat -> bool, runs: nat,
                       o: Outcome)
    requires DirectOk(registry, plan, fallback, answers, runs, o)
    ensures Lockstep(registry, o) && forall k :: 0 <= k < |o.results| ==> o.results[k].status != Failed
  {
    PassLengths(registry, plan.steps, false, fallback, answers, runs);
    forall k | 0 <= k < |o.invocations|
      ensures Matches(registry, o.invocations[k], o.results[k]) && o.results[k].status != Failed
    {
      TraceLockstep(registry, plan.steps, false, fallback, answers, runs, k);
    }
    hide Matches, Pass;
  }

  lemma PassLengths(registry: Registry, steps: seq<P.Step>, replanned: bool, fallback: string -> string,
                    answers: nat -> bool, runs: nat)
    ensures var t := Pass(registry, steps, 0, replanned, fallback, answers, runs);
            |t.invs| == |t.results| + (if t.stop.ExecutionFailed? then 1 else 0)
  {
    PassIff(registry, steps, replanned, fallback, answers, runs,
            Pass(registry, steps, 0, replanned, fallback, answers, runs));
    hide Pass, Executions;
  }

  /** Exactly one result is a failure, and it is the call that caused the replan. */
  lemma ReplannedLockstep(registry: Registry, plan: P.Plan, resp: Option<P.LlmPlan>, fallback: string -> string,
                          answers: nat -> bool, runs: nat, o: Outcome)
    requires ReplannedOk(registry, plan, resp, fallback, answers, runs, o)
    ensures Lockstep(registry, o)
    ensures var t := FirstPass(registry, plan, fallback, answers, runs);
            forall k :: 0 <= k < |o.results| ==> (o.results[k].status == Failed <==> k == |t.results|)
  {
    var t := FirstPass(registry, plan, fallback, answers, runs);
    var steps, runs2 := RevisedPlan(resp).steps, runs + |Executions(registry, t.invs, |t.invs|)|;
    hide Matches, Pass, Executions;
    PassLengths(registry, plan.steps, false, fallback, answers, runs);
    PassLengths(registry, steps, true, fallback, answers, runs2);
    forall k | 0 <= k < |o.results|
      ensures Matches(registry, o.invocations[k], o.results[k]) && (o.results[k].status == Failed <==> k == |t.results|)
    {
      if k <= |t.results| {
        TraceLockstep(registry, plan.steps, false, fallback, answers, runs, k);
      } else {
        TraceLockstep(registry, steps, true, fallback, answers, runs2, k - |t.invs|);
      }
    }
  }

  /** A keyword plan never runs a write tool: its steps carry no arguments, so the whole execution is refused. */
  lemma KeywordWriteIsRefused(registry: Registry, steps: seq<P.Step>, s: P.Step, fallback: string -> string,
                              answers: nat -> bool, runs: nat)
    requires s in steps && s.kind == P.Tool && s.toolArguments == "" && !s.readOnly
    ensures !Pass(registry, steps, 0, false, fallback, answers, runs).stop.Finished?
  {
    FilterMembers(IsTool(), steps);
    var ts := ToolSteps(steps);
    assert s in ts;
    var k :| 0 <= k < |ts| && ts[k] == s;
    PassIff(registry, steps, false, fallback, answers, runs, Pass(registry, steps, 0, false, fallback, answers, runs));
    hide Executions, Pass;
  }

  /** The planner sees the registry's entries. */
  predicate Mirrors(tools: seq<P.ToolDescriptor>, registry: Registry) {
    forall name :: name in registry ==>
      P.Registered(tools, name) ==
          Some(P.ToolDescriptor(name, registry[name].readOnly, registry[name].requiresApproval,
                                registry[name].asyncOnly))
  }

  /** From the policy to the executor: when any configured layer demands approval for writes, a tool step of a plan that
      names a registered tool that is not read-only is stopped at the gate. */
  lemma PolicyGatesWrites(plan: P.Plan, tools: seq<P.ToolDescriptor>, registry: Registry, layers: seq<TenantPolicy>,
                          l: TenantPolicy,
                          s: P.Step, replanned: bool, fallback: string -> string)
    requires P.Respects(plan, tools, MergeLayers(layers)) && Mirrors(tools, registry)
    requires l in layers && l.configured && l.requireApprovalForWrite
    requires s in plan.steps && s.kind == P.Tool && s.toolName in registry && !registry[s.toolName].readOnly
    requires ArgumentsOf(s, fallback).Some?
    ensures Gated(registry, InvocationOf(s, replanned, fallback))
            && !RunsExecutor(registry, InvocationOf(s, replanned, fallback))
  {
    var k :| 0 <= k < |plan.steps| && plan.steps[k] == s;
    P.PlansRespectEveryLayer(plan, tools, layers, k);
  }

  // ---------- promotion ----------

  predicate NeedsApproval(results: seq<ToolResult>) {
    exists k :: 0 <= k < |results| && results[k].status == ApprovalRequired
  }

  predicate SameNameGated(results: seq<ToolResult>, name: string) {
    exists j :: 0 <= j < |results| && results[j].toolName == name && results[j].status == ApprovalRequired
  }

  /** The first call that shares its tool name with a result asking for approval. */
  method FirstApprovalInvocation(invs: seq<Invocation>, results: seq<ToolResult>)
    returns (found: Option<Invocation>, i: nat)
    ensures found.Some? ==>
              && i < |invs| && found.value == invs[i]
              && (exists j :: 0 <= j < |results| && results[j].toolName == invs[i].toolName
                              && results[j].status == ApprovalRequired)
              && forall k, j :: 0 <= k < i && 0 <= j < |results| && results[j].toolName == invs[k].toolName ==>
                   results[j].status != ApprovalRequired
    ensures found.Some? ==> SameNameGated(results, invs[i].toolName)
                            && forall k :: 0 <= k < i ==> !SameNameGated(results, invs[k].toolName)
    ensures found.None? ==> forall k :: 0 <= k < |invs| ==> !SameNameGated(results, invs[k].toolName)
    ensures found.None? ==>
              forall k, j :: 0 <= k < |invs| && 0 <= j < |results| && results[j].toolName == invs[k].toolName ==>
                results[j].status != ApprovalRequired
  {
    i := 0;
    while i < |invs|
      invariant i <= |invs| && forall k :: 0 <= k < i ==> !SameNameGated(results, invs[k].toolName)
    {
      for j := 0 to |results|
        invariant forall k :: 0 <= k < j ==>
                  !(results[k].toolName == invs[i].toolName && results[k].status == ApprovalRequired)
      {
        if results[j].toolName == invs[i].toolName && results[j].status == ApprovalRequired {
          return Some(invs[i]), i;
        }
      }
      i := i + 1;
    }
    return None, i;
  }

  /** In lockstep the search succeeds exactly when some result asks for approval. */
  lemma FoundIffApprovalNeeded(registry: Registry, o: Outcome)
    requires Lockstep(registry, o)
    ensures NeedsApproval(o.results) <==>
              exists k :: 0 <= k < |o.invocations| && SameNameGated(o.results, o.invocations[k].toolName)
  {
    if NeedsApproval(o.results) {
      var k :| 0 <= k < |o.results| && o.results[k].status == ApprovalRequired;
      assert SameNameGated(o.results, o.invocations[k].toolName);
    }
  }

  /** What the search finds, call `i`, is a gated call exactly when it is the first gated call `g`, that is, when no
      call before `g` used a tool that is gated somewhere in the run. */
  lemma FoundIsGatedIff(registry: Registry, o: Outcome, i: nat, g: nat)
    requires Lockstep(registry, o) && i < |o.invocations| && g < |o.invocations|
    requires SameNameGated(o.results, o.invocations[i].toolName)
    requires forall k :: 0 <= k < i ==> !SameNameGated(o.results, o.invocations[k].toolName)
    requires Gated(registry, o.invocations[g]) && forall k :: 0 <= k < g ==> !Gated(registry, o.invocations[k])
    ensures Gated(registry, o.invocations[i]) <==> i == g
    ensures i == g <==> forall k :: 0 <= k < g ==> !SameNameGated(o.results, o.invocations[k].toolName)
  {
    assert o.results[g].status == ApprovalRequired;
    assert SameNameGated(o.results, o.invocations[g].toolName);
  }

  /** A read-only tool used twice, the second time marked for approval: the promoted call is the first one, which has
      already run, with its arguments. */
  lemma PromotesTheWrongCall(name: string, a: string, b: string, fallback: string -> string, answers: nat -> bool)
    returns (registry: Registry, plan: P.Plan, o: Outcome)
    requires name != "" && a != "" && b != "" && a != b && answers(0)
    ensures P.Respects(plan, [P.ToolDescriptor(name, true, false, false)], NOTHING)
            && Mirrors([P.ToolDescriptor(name, true, false, false)], registry)
    ensures DirectOk(registry, plan, fallback, answers, 0, o) && |o.invocations| == 2
    ensures SameNameGated(o.results, o.invocations[0].toolName) && RunsExecutor(registry, o.invocations[0])
    ensures Gated(registry, o.invocations[1]) && o.invocations[0].arguments == a && o.invocations[1].arguments == b
  {
    registry := map[name := Definition(Read, true, false, false, true)];
    var s1 := P.Step(1, P.Tool, "first", [], name, a, true, false);
    var s2 := P.Step(2, P.Tool, "second", [], name, b, true, true);
    plan := P.Plan(P.KnowledgeQa, false, true, false, false, 2, [s1, s2], P.Llm);
    assert [s1, s2][1..] == [s2] && [s2][1..] == [];
    assert ToolSteps([s2]) == [s2] && ToolSteps(plan.steps) == [s1, s2];
    var tools := [P.ToolDescriptor(name, true, false, false)];
    assert P.DescriptorsOf(tools) == map[name := tools[0]] by {
      assert tools[..0] == [];
    }
    var i1, i2 := InvocationOf(s1, false, fallback), InvocationOf(s2, false, fallback);
    o := Outcome([ResultOf(registry, i1), ResultOf(registry, i2)], [i1, i2], 0, plan);
    assert Pass(registry, plan.steps, 2, false, fallback, answers, 1) == Trace([], [], Finished);
    assert Pass(registry, plan.steps, 1, false, fallback, answers, 1) ==
        Trace([i2], [ResultOf(registry, i2)], Finished);
    assert o.results[1].toolName == name && o.results[1].status == ApprovalRequired;
  }

  datatype Verdict = Approve | Revise | PromoteWorkflow | Reject

  /** The critic's first rule; `other` is what the model or the remaining rules say. */
  method Review(results: seq<ToolResult>, other: Verdict) returns (v: Verdict)
    ensures v == if NeedsApproval(results) then PromoteWorkflow else other
    ensures (exists k :: 0 <= k < |results| && results[k].status == ApprovalRequired) ==> v == PromoteWorkflow
    ensures (forall k :: 0 <= k < |results| ==> results[k].status != ApprovalRequired) ==> v == other
  {
    for k := 0 to |results|
      invariant forall j :: 0 <= j < k ==> results[j].status != ApprovalRequired
    {
      if results[k].status == ApprovalRequired {
        return PromoteWorkflow;
      }
    }
    v := other;
  }

  /** The envelope fields of the chat request. */
  datatype Envelope = Envelope(requestId: string, tenantId: string, sessionId: string, evalMode: bool)

  function ApprovalRequest(req: Envelope, found: Option<Invocation>): W.PromoteRequest {
    W.PromoteRequest(req.requestId, req.tenantId, req.sessionId, W.ApprovedToolExecution, "approval_required", true,
                     if found.Some? then found.value.toolName else "", if found.Some? then found.value.arguments
                         else "")
  }

  function WorkflowRequest(req: Envelope): W.PromoteRequest {
    W.PromoteRequest(req.requestId, req.tenantId, req.sessionId, W.ReportGeneration, "workflow_required", false, "", "")
  }

  /** Call number `i` is the first one that shares its tool name with a gated result. */
  predicate FirstSameName(o: Outcome, i: nat) {
    && i < |o.invocations| && SameNameGated(o.results, o.invocations[i].toolName)
    && forall k :: 0 <= k < i ==> !SameNameGated(o.results, o.invocations[k].toolName)
  }

  /** The request carries the tool and the arguments of that call, or nothing if there is none. */
  ghost predicate CarriesCall(o: Outcome, p: W.PromoteRequest) {
    || (exists i: nat :: FirstSameName(o, i)
                         && p.toolName == o.invocations[i].toolName && p.toolArguments == o.invocations[i].arguments)
    || (p.toolName == "" && p.toolArguments == ""
        && forall k :: 0 <= k < |o.invocations| ==> !SameNameGated(o.results, o.invocations[k].toolName))
  }

  /** The last part of Handle: what is promoted to the workflow engine. */
  method DecidePromotion(req: Envelope, o: Outcome, verdict: Verdict) returns (promote: Option<W.PromoteRequest>)
    ensures promote.Some? <==> !req.evalMode && (o.activePlan.requiresWorkflow || verdict == PromoteWorkflow)
    ensures promote.Some? ==>
              var p := promote.value;
              && p.requestId == req.requestId && p.tenantId == req.tenantId && p.sessionId == req.sessionId
              && (verdict == PromoteWorkflow ==>
                    && p.taskType == W.ApprovedToolExecution && p.reason == "approval_required" && p.requiresApproval
                    && CarriesCall(o, p))
              && (verdict != PromoteWorkflow ==>
                    && p.taskType == W.ReportGeneration && p.reason == "workflow_required" && !p.requiresApproval
                    && p.toolName == "" && p.toolArguments == "")
  {
    if req.evalMode || !(o.activePlan.requiresWorkflow || verdict == PromoteWorkflow) {
      return None;
    }
    if verdict == PromoteWorkflow {
      var found, i := FirstApprovalInvocation(o.invocations, o.results);
      assert found.Some? ==> FirstSameName(o, i);
      return Some(ApprovalRequest(req, found));
    }
    promote := Some(WorkflowRequest(req));
  }

  /** A chat run whose tools ask for approval: one gated task, waiting, that names a tool gated in this run. */
  method ReviewAndPromote(service: WS.Service, req: Envelope, o: Outcome, other: Verdict, taskId: string, now: int,
                          version: Option<Result<string, string>>, startError: Option<string>, failedAt: int,
                              ghost registry: Registry)
    returns (task: Option<Result<W.Task, W.Error>>)
    requires Lockstep(registry, o)
    modifies service.store
    ensures !req.evalMode && NeedsApproval(o.results) && !(version.Some? && version.value.Failure?) ==>
              && task.Some? && task.value.Success?
              && var t := task.value.value;
                 && t.id == taskId && t.request.taskType == W.ApprovedToolExecution && t.request.requiresApproval
                 && t.request.toolName in registry && SameNameGated(o.results, t.request.toolName)
                 && (exists i: nat :: FirstSameName(o, i) && t.request.toolName == o.invocations[i].toolName
                                      && t.request.toolArguments == o.invocations[i].arguments)
                 && (startError.None? ==> t.status == W.WaitingApproval)
                 && taskId in service.store.State().tasks && service.store.State().tasks[taskId] == t
    ensures task.None? <==>
              req.evalMode
              || !(o.activePlan.requiresWorkflow || other == PromoteWorkflow || NeedsApproval(o.results))
    ensures task.None? ==> service.store.State() == old(service.store.State())
  {
    var verdict := Review(o.results, other);
    var promote := DecidePromotion(req, o, verdict);
    FoundIffApprovalNeeded(registry, o);
    if promote.None? {
      return None;
    }
    var r := service.Promote(taskId, promote.value, now, version, startError, failedAt);
    return Some(r);
  }
}
