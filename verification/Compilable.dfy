/** Which graphs compile: those whose sources are in order at every nesting. */
module Compilable {
  import opened Values
  import opened Ir
  import opened Graph
  import opened Reference
  import opened Layering
  import opened Compiler
  import opened WellFormedness
  import opened Scheduling
  import opened Soundness

  /** The graph's sources are in order when it starts from `initial`, and so are those of all graphs inside it. */
  predicate Sourced(g: Graph, initial: set<string>)
    decreases g, 1, 0
  {
    && SourcesInOrder(g, initial) && FinalOutput(g) in initial + Outputs(g.steps)
    && (g.inputName in initial || forall s | s in g.steps :: g.inputName !in InputSources(s))
    && StepsSourced(g.steps)
  }

  predicate StepsSourced(steps: seq<Step>)
    decreases steps, 0, 0
  {
    steps != [] ==> StepSourced(steps[0]) && StepsSourced(steps[1..])
  }

  /** A record lists an input, a switch has a case, and nested graphs are sourced by what they are given. */
  predicate StepSourced(s: Step)
    decreases s, 0, 0
  {
    match s.kind
    case Cond(_, _, ifTrue, ifFalse) => ArmSourced(ifTrue, BranchFields(s)) && ArmSourced(ifFalse, BranchFields(s))
    case Switching(_, _, cases, default) =>
      && cases != [] && CasesSourced(cases, BranchFields(s))
      && (default.Some? ==> ArmSourced(default.value, BranchFields(s)))
    case Mapping(body, _, _, consts) =>
      if Captures(s) == {} && consts == map[] then Sourced(body, {body.inputName}) && !IsSoleCaptor(body)
      else Sourced(body, BodyFields(s))
    case _ => IsRecord(s) ==> s.inputs != []
  }

  predicate ArmSourced(arm: Graph, incoming: set<string>)
    decreases arm, 2, 0
  {
    Sourced(arm, ArmFields(arm, incoming))
  }

  predicate CasesSourced(cases: seq<GraphCase>, incoming: set<string>)
    decreases cases, 0, 0
  {
    cases != [] ==> ArmSourced(cases[0].arm, incoming) && CasesSourced(cases[1..], incoming)
  }

  /** A lone `each` that captures the graph's input has no record to take it from. */
  predicate IsSoleCaptor(g: Graph) {
    |g.steps| == 1 && g.steps[0].kind.Mapping? && Captures(g.steps[0]) != {}
  }

  lemma StepSourcedOf(steps: seq<Step>, s: Step)
    requires StepsSourced(steps) && s in steps
    ensures StepSourced(s)
  {
    if s != steps[0] {
      StepSourcedOf(steps[1..], s);
    }
  }

  // ----- they compile -----

  lemma {:induction false} StepCompiles(s: Step, inputName: string)
    requires WellFormedStep(s) && StepSourced(s)
    ensures StepFromEnv(s, inputName).Ok?
    decreases s, 7, 0
  {
    match s.kind {
      case Cond(_, _, ifTrue, ifFalse) =>
        ArmCompiles(ifTrue, BranchFields(s));
        ArmCompiles(ifFalse, BranchFields(s));
        assert BranchFromEnv(s).Ok?;
      case Switching(_, _, cases, default) =>
        CasesCompile(cases, BranchFields(s));
        if default.Some? {
          ArmCompiles(default.value, BranchFields(s));
        }
        assert BranchFromEnv(s).Ok?;
      case Mapping(_, _, _, _) =>
        BodyCompiles(s);
        assert EachFromEnv(s).Ok?;
      case _ =>
    }
  }

  lemma {:induction false} ArmCompiles(arm: Graph, incoming: set<string>)
    requires WellFormedArm(arm) && ArmSourced(arm, incoming)
    ensures ArmNode(arm, incoming).Ok?
    decreases arm, 11, 0
  {
    assert WellFormed(arm);
    assert ExternalSources(arm) !! Outputs(arm.steps) && ArmSources(arm) !! Outputs(arm.steps);
    EnvCompiles(arm, ArmFields(arm, incoming));
  }

  lemma {:induction false} CasesCompile(cases: seq<GraphCase>, incoming: set<string>)
    requires WellFormedCases(cases, incoming) && CasesSourced(cases, incoming)
    ensures CaseNodes(cases, incoming).Ok?
    decreases cases, 12, 0
  {
    if cases != [] {
      ArmCompiles(cases[0].arm, incoming);
      CasesCompile(cases[1..], incoming);
    }
  }

  lemma {:induction false} BodyCompiles(s: Step)
    requires s.kind.Mapping? && WellFormedEach(s) && StepSourced(s)
    ensures EachBody(s).Ok?
    decreases s, 5, 0
  {
    var body, consts := s.kind.body, s.kind.consts;
    if Captures(s) == {} && consts == map[] {
      RawCompiles(body);
    } else {
      BodyFieldsAreFresh(s);
      EnvCompiles(body, BodyFields(s));
    }
  }

  lemma PiecesCompile(steps: seq<Step>, layers: seq<seq<Step>>, final: string, fields: set<string>, inputName: string)
    requires AllWithin(layers, steps) && (forall k | 0 <= k < |layers| :: layers[k] != [])
    requires forall s :: s in steps ==> StepFromEnv(s, inputName).Ok?
    ensures EnvPieces(steps, layers, final, fields, inputName).Ok?
    decreases |layers|
  {
    if layers != [] {
      LaterWithin(layers, steps);
      assert layers[0][0] in layers[0] && forall s :: s in layers[0] ==> s in steps;
      LayerCompiles(steps, layers[0], inputName);
      var live := LiveAfter(layers[1..], final, fields + Outputs(layers[0]), inputName);
      PiecesCompile(steps, layers[1..], final, live, inputName);
    }
  }

  lemma LayerCompiles(steps: seq<Step>, layer: seq<Step>, inputName: string)
    requires (forall s :: s in layer ==> s in steps) && forall s :: s in layer ==> StepFromEnv(s, inputName).Ok?
    ensures LayerNodes(steps, layer, inputName).Ok?
    decreases |layer|
  {
    if layer != [] {
      LayerCompiles(steps, layer[1..], inputName);
    }
  }

  lemma {:induction false} AllCompile(g: Graph)
    requires WellFormed(g) && StepsSourced(g.steps)
    ensures forall s :: s in g.steps ==> StepFromEnv(s, g.inputName).Ok?
    decreases g, 9, 0
  {
    forall s | s in g.steps ensures StepFromEnv(s, g.inputName).Ok? {
      WellFormedOf(g.steps, s);
      StepSourcedOf(g.steps, s);
      StepCompiles(s, g.inputName);
    }
  }

  /** `compile_env` accepts every well-formed graph whose sources are in order from the initial fields on. */
  lemma {:induction false} EnvCompiles(g: Graph, initial: set<string>)
    requires WellFormed(g) && initial !! Outputs(g.steps) && Sourced(g, initial)
    ensures CompileEnv(g, initial).Ok?
    decreases g, 10, 0
  {
    if HasResult(g) && g.steps != [] {
      AllCompile(g);
      CycleErrorIsMissingInput(g, initial);
      PiecesCompile(g.steps, Layers(g.steps, initial).value, FinalOutput(g), initial, g.inputName);
    }
  }

  /** `compile` accepts every such graph over its input, but for a lone `each` that captures the input. */
  lemma {:induction false} RawCompiles(g: Graph)
    requires WellFormed(g) && Sourced(g, {g.inputName}) && !IsSoleCaptor(g)
    ensures Compile(g).Ok?
    decreases g, 11, 0
  {
    if g.steps != [] {
      AllCompile(g);
      if IsLinearChain(g) {
        ChainCompiles(g.steps, g.inputName);
      } else {
        CycleErrorIsMissingInput(g, {g.inputName});
        LayersCompile(g, Layers(g.steps, {g.inputName}).value);
      }
    }
  }

  lemma {:induction false} ChainCompiles(steps: seq<Step>, inputName: string)
    requires forall s :: s in steps ==> StepFromEnv(s, inputName).Ok? && Captures(s) == {}
    ensures FlowingLeaves(steps).Ok?
    decreases |steps|
  {
    if steps != [] {
      FlowingCompiles(steps[0], inputName);
      ChainCompiles(steps[1..], inputName);
    }
  }

  lemma FlowingCompiles(s: Step, inputName: string)
    requires StepFromEnv(s, inputName).Ok? && Captures(s) == {}
    ensures FlowingLeaf(s).Ok?
  {
    if s.kind.Mapping? {
      assert StepFromEnv(s, inputName) == EachFromEnv(s) && EachBody(s).Ok?;
    }
  }

  lemma OnlyStep(g: Graph, layers: seq<seq<Step>>)
    requires Layers(g.steps, {g.inputName}) == Ok(layers) && g.steps != [] && IsFinalLayer(layers, FinalOutput(g))
    ensures g.steps == [layers[0][0]]
  {
    var first := layers[0][0];
    assert layers[0] == [first] && Flatten(layers[1..]) == [] && Flatten(layers) == [first] + [];
    LayersPartition(g.steps, {g.inputName});
    assert |multiset(g.steps)| == |g.steps| && multiset(g.steps) == multiset{first};
    assert g.steps[0] in multiset(g.steps);
  }

  lemma LayersCompile(g: Graph, layers: seq<seq<Step>>)
    requires WellFormed(g) && !IsSoleCaptor(g) && g.steps != []
    requires Layers(g.steps, {g.inputName}) == Ok(layers)
    requires forall s :: s in g.steps ==> StepFromEnv(s, g.inputName).Ok?
    ensures LayeredPieces(g, layers).Ok?
  {
    var first := layers[0][0];
    assert first in layers[0] && first in g.steps;
    WellFormedOf(g.steps, first);
    assert first.kind.Mapping? ==> WellFormedEach(first);
    LaterWithin(layers, g.steps);
    PiecesCompile(g.steps, layers, FinalOutput(g), {g.inputName}, g.inputName);
    PiecesCompile(g.steps, layers[1..], FinalOutput(g), FastLive(g, layers), g.inputName);
    if IsFinalLayer(layers, FinalOutput(g)) {
      OnlyStep(g, layers);
    }
    if Captures(first) == {} {
      FlowingCompiles(first, g.inputName);
    }
  }
}
