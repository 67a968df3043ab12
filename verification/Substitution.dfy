/**
 Inlining a call is substitution: the caller's enlarged graph does what a single step calling the flow
 would do. The names it adds are fresh, and finding them always ends.
 */
module Substitution {
  import opened Values
  import opened Ir
  import opened Graph
  import opened Layering
  import opened Reference
  import opened Inlining
  import opened Builder

  // ----- the call's own steps -----

  /** A step of the call reads and does what the copied step would, under its new name. */
  lemma InlinedStepRuns(
    h: Host, s: Step, m: Renaming, source: string, target: string, scope: set<string>, r: Env, log: Log)
    requires StepScoped(s, source, scope)
    ensures RunStep(h, InlinedStep(s, m, source, target), target, r, log)
         == RunStep(h, CopyStep(s, m), To(m, source), r, log)
  {
    var step, copy := InlinedStep(s, m, source, target), CopyStep(s, m);
    assert step.kind == CopyKind(s, m) && copy.kind == step.kind;
    if IsLeaf(s) {
      LeafKind(s, m);
      assert LeafArgument(h, step, target, r) == LeafArgument(h, copy, To(m, source), r);
    } else if IsBranch(s) {
      SubjectKind(s, m);
      assert Decision(h, step, r) == Decision(h, copy, r);
    } else {
      assert step.inputs == copy.inputs;
    }
  }

  lemma SubjectKind(s: Step, m: Renaming)
    requires IsBranch(s)
    ensures IsBranch(CopyStep(s, m)) && Subject(CopyStep(s, m)) == ToSubject(m, Subject(s))
  {
    assert CopyStep(s, m).kind == CopyKind(s, m);
  }

  lemma {:induction false} InlinedStepsRun(
    h: Host, steps: seq<Step>, m: Renaming, source: string, target: string, scope: set<string>, held: set<string>,
    e: Env, r: Env, log: Log)
    requires StepsScoped(steps, source, scope) && StepsSpared(steps, m)
    requires DistinctOutputs(steps) && Outputs(steps) !! scope
    requires Injective(m, scope + Outputs(steps)) && Matched(m, scope, e, r)
    requires held <= r.Keys && Image(m, Outputs(steps)) !! held
    ensures var ran := RunSteps(h, InlinedSteps(steps, m, source, target), target, r, log);
            var was := RunSteps(h, steps, source, e, log);
            && ran.log == was.log && ran.EnvDone? == was.EnvDone?
            && (was.EnvDone? ==>
                  && Matched(m, scope + Outputs(steps), was.env, ran.env)
                  && held <= ran.env.Keys && forall x :: x in held ==> ran.env[x] == r[x])
    decreases |steps|
  {
    if steps == [] {
      assert scope + Outputs(steps) == scope;
    } else {
      var s, rest := steps[0], steps[1..];
      assert InlinedSteps(steps, m, source, target)[1..] == InlinedSteps(rest, m, source, target);
      assert InlinedSteps(steps, m, source, target)[0] == InlinedStep(s, m, source, target);
      HeadOutput(steps);
      assert Injective(m, scope);
      InlinedStepRuns(h, s, m, source, target, scope, r, log);
      CopiedStepRuns(h, s, m, source, scope, e, r, log);
      var first := RunStep(h, s, source, e, log);
      if first.Done? {
        var y := To(m, s.output);
        assert y in Image(m, Outputs(steps));
        assert Image(m, Outputs(rest)) <= Image(m, Outputs(steps));
        BindRenamed(m, scope, s.output, first.value, e, r);
        InlinedStepsRun(h, rest, m, source, target, scope + {s.output}, held,
                        e[s.output := first.value], r[y := first.value], first.log);
      }
    }
  }

  lemma HeadOutput(steps: seq<Step>)
    requires steps != [] && DistinctOutputs(steps)
    ensures DistinctOutputs(steps[1..])
    ensures Outputs(steps) == {steps[0].output} + Outputs(steps[1..]) && steps[0].output !in Outputs(steps[1..])
  {
    assert [steps[0]] + steps[1..] == steps;
    OutputsConcat([steps[0]], steps[1..]);
    assert Outputs([steps[0]]) == {steps[0].output};
  }

  // ----- what comes after the call -----

  lemma {:induction false} CopyNothing(steps: seq<Step>)
    ensures CopySteps(steps, map[]) == steps
    decreases steps, 0, 0
  {
    if steps != [] {
      CopyNothingInStep(steps[0]);
      CopyNothing(steps[1..]);
      assert [steps[0]] + steps[1..] == steps;
    }
  }

  lemma {:induction false} CopyNothingInStep(s: Step)
    ensures CopyStep(s, map[]) == s
    decreases s, 0, 0
  {
    assert ToAll(map[], s.inputs) == s.inputs;
    assert CopyStep(s, map[]).kind == CopyKind(s, map[]);
    match s.kind {
      case Cond(_, _, ifTrue, ifFalse) =>
        CopyNothingInGraph(ifTrue, true, {});
        CopyNothingInGraph(ifFalse, true, {});
      case Switching(_, _, cases, default) =>
        CopyNothingInCases(cases);
        if default.Some? {
          CopyNothingInGraph(default.value, true, {});
        }
      case Mapping(body, _, _, consts) => CopyNothingInGraph(body, false, consts.Keys);
      case _ => LeafKind(s, map[]);
    }
  }

  lemma {:induction false} CopyNothingInCases(cases: seq<GraphCase>)
    ensures CopyCases(cases, map[]) == cases
    decreases cases, 0, 0
  {
    if cases != [] {
      CopyNothingInGraph(cases[0].arm, true, {});
      CopyNothingInCases(cases[1..]);
      assert [cases[0]] + cases[1..] == cases;
    }
  }

  lemma {:induction false} CopyNothingInGraph(g: Graph, renameInput: bool, excluded: set<string>)
    ensures CopyGraph(g, map[], renameInput, excluded) == g
    decreases g, 0, 0
  {
    assert Effective(g, map[], renameInput, excluded) == map[];
    CopyNothing(g.steps);
  }

  lemma {:induction false} NothingIsCaptured(steps: seq<Step>)
    ensures StepsSpared(steps, map[])
    decreases steps, 0, 0
  {
    if steps != [] {
      NothingIsCapturedInStep(steps[0]);
      NothingIsCaptured(steps[1..]);
    }
  }

  lemma {:induction false} NothingIsCapturedInStep(s: Step)
    ensures StepSpared(s, map[])
    decreases s, 0, 0
  {
    match s.kind {
      case Cond(_, _, ifTrue, ifFalse) =>
        NothingIsCapturedInGraph(ifTrue, true, {});
        NothingIsCapturedInGraph(ifFalse, true, {});
      case Switching(_, _, cases, default) =>
        NothingIsCapturedInCases(cases);
        if default.Some? {
          NothingIsCapturedInGraph(default.value, true, {});
        }
      case Mapping(body, _, _, consts) => NothingIsCapturedInGraph(body, false, consts.Keys);
      case _ =>
    }
  }

  lemma {:induction false} NothingIsCapturedInGraph(g: Graph, renameInput: bool, excluded: set<string>)
    ensures GraphSpared(g, map[], renameInput, excluded)
    decreases g, 0, 0
  {
    assert Effective(g, map[], renameInput, excluded) == map[];
    NothingIsCaptured(g.steps);
  }

  lemma {:induction false} NothingIsCapturedInCases(cases: seq<GraphCase>)
    ensures CasesSpared(cases, map[])
    decreases cases, 0, 0
  {
    if cases != [] {
      NothingIsCapturedInGraph(cases[0].arm, true, {});
      NothingIsCapturedInCases(cases[1..]);
    }
  }

  /** Steps that read only names of `scope` cannot tell two environments that agree on it apart. */
  lemma OnlyScopeMatters(h: Host, steps: seq<Step>, inputName: string, scope: set<string>, e: Env, r: Env, log: Log)
    requires StepsScoped(steps, inputName, scope)
    requires forall x :: x in scope ==> x in e && x in r && e[x] == r[x]
    ensures var ran, was := RunSteps(h, steps, inputName, r, log), RunSteps(h, steps, inputName, e, log);
            && ran.log == was.log && ran.EnvDone? == was.EnvDone?
            && (was.EnvDone? ==> forall x :: x in scope + Outputs(steps) ==>
                  x in was.env && x in ran.env && was.env[x] == ran.env[x])
  {
    var m: Renaming := map[];
    CopyNothing(steps);
    NothingIsCaptured(steps);
    assert forall x :: To(m, x) == x;
    CopiedStepsRun(h, steps, m, inputName, scope, e, r, log);
  }

  // ----- inlining is substitution -----

  /** The flow can be called: it takes one parameter, reads nothing but that and its own steps, and has a result. */
  predicate Callable(flow: Graph) {
    && flow.outputName.Some? && flow.outputName.value in Outputs(flow.steps)
    && flow.inputName !in Outputs(flow.steps) && DistinctOutputs(flow.steps)
    && StepsScoped(flow.steps, flow.inputName, {flow.inputName})
  }

  /** The parameter becomes the handle, each output a name of its own that is not yet bound. */
  ghost predicate FreshRenaming(flow: Graph, m: Renaming, handle: string, output: string, bound: set<string>) {
    && m.Keys == {flow.inputName} + Outputs(flow.steps)
    && To(m, flow.inputName) == handle
    && flow.outputName.Some? && To(m, flow.outputName.value) == output
    && (forall y :: y in Outputs(flow.steps) ==> To(m, y) !in bound)
    && Injective(m, Outputs(flow.steps))
  }

  /**
   The steps of an inlined call run exactly as the flow itself does on the handle's value: they end in
   the same world, fail when it fails, bind its result, and leave every name bound before as it was.
   */
  lemma InlinedCallRuns(
    h: Host, flow: Graph, m: Renaming, handle: string, output: string, target: string, env: Env, log: Log)
    requires Callable(flow) && FreshRenaming(flow, m, handle, output, env.Keys) && handle in env
    requires StepsSpared(flow.steps, m)
    ensures var ran := RunSteps(h, InlinedSteps(flow.steps, m, flow.inputName, target), target, env, log);
            var called := RunGraph(h, flow, map[flow.inputName := env[handle]], log);
            && ran.log == called.log && ran.EnvDone? == called.Done?
            && (called.Done? ==>
                  && output in ran.env && ran.env[output] == called.value
                  && env.Keys <= ran.env.Keys && forall x :: x in env ==> ran.env[x] == env[x])
  {
    var e := map[flow.inputName := env[handle]];
    assert Injective(m, {flow.inputName} + Outputs(flow.steps));
    InlinedStepsRun(h, flow.steps, m, flow.inputName, target, {flow.inputName}, env.Keys, e, env, log);
  }

  /** In any caller, the inlined call does what one opaque step calling the flow and binding its result would. */
  lemma InliningIsSubstitution(
    h: Host, flow: Graph, m: Renaming, handle: string, output: string, target: string, after: seq<Step>, result: string,
    env: Env, log: Log)
    requires Callable(flow) && FreshRenaming(flow, m, handle, output, env.Keys) && handle in env
    requires StepsSpared(flow.steps, m)
    requires StepsScoped(after, target, env.Keys + {output}) && result in env.Keys + {output} + Outputs(after)
    ensures var call := InlinedSteps(flow.steps, m, flow.inputName, target);
            var called := RunGraph(h, flow, map[flow.inputName := env[handle]], log);
            (Finish(RunSteps(h, call + after, target, env, log), result)
             == if called.Done? then Finish(RunSteps(h, after, target, env[output := called.value], called.log), result)
                else Fail(called.log))
  {
    var call := InlinedSteps(flow.steps, m, flow.inputName, target);
    var called := RunGraph(h, flow, map[flow.inputName := env[handle]], log);
    InlinedCallRuns(h, flow, m, handle, output, target, env, log);
    RunStepsIsRunWith(h, call + after, target, env, log);
    RunStepsIsRunWith(h, call, target, env, log);
    RunWithConcat(StepRunner(h, target), call, after, env, log);
    if called.Done? {
      var ran := RunSteps(h, call, target, env, log);
      RunStepsIsRunWith(h, after, target, ran.env, ran.log);
      assert output !in env by {
        assert flow.outputName.value in Outputs(flow.steps);
      }
      OnlyScopeMatters(h, after, target, env.Keys + {output}, env[output := called.value], ran.env, ran.log);
    }
  }

  // ----- a renamed read can be captured -----

  const RENAMES: Renaming := map["p" := "x", "out" := "call"]

  function ArmOver(item: string): Graph {
    Graph(item, Some("y"), [Step(Pure(StdInit("k")), [item], "x"), Step(Passthrough, [item], "y")])
  }

  function Choice(subject: string, arm: Graph, output: string): Step {
    Step(Cond(StdInit("k"), Some(subject), arm, arm), [subject], output)
  }

  lemma ArmRuns(h: Host, item: string, v: Value, log: Log)
    requires item != "y"
    ensures RunGraph(h, ArmOver(item), map[item := v], log) == Done(if item == "x" then Rec(map["k" := v]) else v, log)
  {
    var arm, env := ArmOver(item), map[item := v];
    var bound := env["x" := Rec(map["k" := v])];
    assert RunStep(h, arm.steps[0], item, env, log) == Done(Rec(map["k" := v]), log);
    assert RunStep(h, arm.steps[1], item, bound, log) == Done(bound[item], log);
    assert RunSteps(h, arm.steps[1..], item, bound, log) == EnvDone(bound["y" := bound[item]], log);
  }

  lemma ChoiceRuns(h: Host, subject: string, arm: Graph, output: string, target: string, v: Value, log: Log)
    requires RunGraph(h, arm, map[subject := v], log).Done?
    ensures Finish(RunSteps(h, [Choice(subject, arm, output)], target, map[subject := v], log), output)
         == RunGraph(h, arm, map[subject := v], log)
  {
    var s, env := Choice(subject, arm, output), map[subject := v];
    var decided := Rec(map["k" := v]);
    assert "k" in decided.fields && Truthy(decided);
    assert Decision(h, s, env) == Some(decided);
    assert RunStep(h, s, target, env, log) == RunGraph(h, arm, env, log);
  }

  lemma ArmCopied()
    ensures CopyGraph(ArmOver("p"), RENAMES, true, {}) == ArmOver("x")
  {
    var arm := ArmOver("p");
    assert Outputs(arm.steps) == {"x", "y"} by {
      assert arm.steps[0] in arm.steps && arm.steps[1] in arm.steps;
    }
    var inside := Effective(arm, RENAMES, true, {});
    assert To(inside, "p") == "x";
    assert ToAll(inside, ["p"]) == ["x"];
    assert CopyStep(arm.steps[0], inside) == ArmOver("x").steps[0];
    assert CopyStep(arm.steps[1], inside) == ArmOver("x").steps[1];
    assert CopySteps(arm.steps[1..], inside) == [ArmOver("x").steps[1]];
  }

  function CapturingFlow(): Graph {
    Graph("p", Some("out"), [Choice("p", ArmOver("p"), "out")])
  }

  /** The inliner would choose these names: only the arm's own `x` speaks against them. */
  lemma CapturingNamesAreFresh()
    ensures var flow := CapturingFlow();
            && Callable(flow) && FreshRenaming(flow, RENAMES, "x", "call", {"x"})
            && !StepsSpared(flow.steps, RENAMES)
  {
    var flow := CapturingFlow();
    assert Outputs(flow.steps) == {"out"} by {
      assert flow.steps[0] in flow.steps;
    }
    assert "x" in Outputs(ArmOver("p").steps) by {
      assert ArmOver("p").steps[0] in ArmOver("p").steps;
    }
  }

  /**
   The inliner does not look inside nested graphs for the names it renames to. Here an arm binds `x` and
   the flow is called on the handle `x`: the arm's read of its parameter becomes a read of its own step.
   */
  lemma CapturedRenameGoesWrong(h: Host, v: Value, log: Log)
    ensures var call := InlinedSteps(CapturingFlow().steps, RENAMES, "p", "x");
            && RunGraph(h, CapturingFlow(), map["p" := v], log) == Done(v, log)
            && Finish(RunSteps(h, call, "x", map["x" := v], log), "call") == Done(Rec(map["k" := v]), log)
  {
    hide CopyGraph, RunStep, Decision;
    var s := CapturingFlow().steps[0];
    ArmRuns(h, "p", v, log);
    ChoiceRuns(h, "p", ArmOver("p"), "out", "p", v, log);
    ArmCopied();
    ArmRuns(h, "x", v, log);
    ChoiceRuns(h, "x", ArmOver("x"), "call", "x", v, log);
    assert ToAll(RENAMES, ["p"]) == ["x"];
    assert InlinedStep(s, RENAMES, "p", "x") == Choice("x", ArmOver("x"), "call");
    assert InlinedSteps(CapturingFlow().steps, RENAMES, "p", "x") == [Choice("x", ArmOver("x"), "call")];
  }
}
