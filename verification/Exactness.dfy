/**
 When the compilers are right, exactly. A graph's own run is taken to complete: the program then either
 gives that run's result, or does not, by conditions that can be read off the graph.
 */
module Exactness {
  import opened Values
  import opened Ir
  import opened Graph
  import opened Reference
  import opened Layering
  import opened Compiler
  import opened ExecFacts
  import opened Leaves
  import opened WellFormedness
  import opened Simulation
  import opened Soundness
  import opened Liveness
  import opened Theorems

  // ----- compile_env -----

  /** Every branch of the graph finds its subject among the fields tracked at its layer. */
  predicate GraphHeld(g: Graph, initial: set<string>) {
    Layers(g.steps, initial).Ok? ==>
      SubjectsHeld(Layers(g.steps, initial).value, FinalOutput(g), initial, g.inputName)
  }

  /**
   Inside any enclosing environment, a graph that completes is compiled right if each subject is held, and
   fails if not.
   */
  lemma GraphExact(h: Host, g: Graph, initial: set<string>, e: Env, r: Env, log: Log)
    requires WellFormedArm(g) && Honest(h, g.steps) && CompileEnv(g, initial).Ok? && Enters(g, initial, e, r)
    requires SubjectsPrecede(g.steps) && RunGraph(h, g, r, log).Done?
    ensures GraphHeld(g, initial) ==> Exec(h, CompileEnv(g, initial).value, Rec(e), log) == RunGraph(h, g, r, log)
    ensures !GraphHeld(g, initial) ==> !Exec(h, CompileEnv(g, initial).value, Rec(e), log).Done?
  {
    CompileEnvForm(g, initial);
    var layers, final := Layers(g.steps, initial).value, FinalOutput(g);
    if GraphHeld(g, initial) {
      GraphSound(h, g, initial, e, r, log);
    } else if Exec(h, CompileEnv(g, initial).value, Rec(e), log).Done? {
      ExecSeqOf(h, EnvPieces(g.steps, layers, final, initial, g.inputName).value, Rec(e), log);
      DoneIsHeld(h, g.steps, layers, final, initial, g.inputName, e, log);
    }
  }

  /**
   On a run the graph completes, the env program is right if and only if every branch's subject is among
   the fields tracked at its layer.
   */
  lemma CompileEnvExact(h: Host, g: Graph, initial: set<string>, env: Env, log: Log)
    requires WellFormedArm(g) && Honest(h, g.steps) && CompileEnv(g, initial).Ok?
    requires env.Keys == initial && initial !! Outputs(g.steps) && BRANCH !in initial
    requires RunGraph(h, g, env, log).Done?
    ensures Layers(g.steps, initial).Ok?
    ensures Exec(h, CompileEnv(g, initial).value, Rec(env), log) == RunGraph(h, g, env, log)
            <==> SubjectsHeld(Layers(g.steps, initial).value, FinalOutput(g), initial, g.inputName)
  {
    CompileEnvForm(g, initial);
    DoneSubjectsPrecede(h, g.steps, g.inputName, env, log);
    GraphExact(h, g, initial, env, env, log);
  }

  // ----- a capture that was dropped -----

  /** An `each` that captures a name the record lacks fails on its first item. */
  lemma MissingCaptureFails(h: Host, s: Step, e: Env, name: string, log: Log)
    requires s.kind.Mapping? && EachFromEnv(s).Ok? && name in Captures(s) && name !in e
    requires s.inputs[0] in e && EachElements(h, s, e[s.inputs[0]]) != Some([])
    ensures Exec(h, EachFromEnv(s).value, Rec(e), log) == Fail(log)
  {
    var items, captures, k := s.inputs[0], Captures(s), s.kind;
    var elements := Elements(h, e[items]);
    EachOverPack(h, items, k.body.inputName, Identity(captures), k.consts, EachBody(s).value, k.maxParallel,
                 k.reducer, e, log);
    if elements.Some? {
      assert Identity(captures)[name] !in e;
      assert PackItems(e, elements.value, k.body.inputName, Identity(captures), k.consts) == None;
    }
  }

  /** The record at a layer boundary when the graph's input has been dropped from it. */
  ghost predicate Dropped(
    layers: seq<seq<Step>>, final: string, fields: set<string>, done: set<string>, inputName: string, e: Env, r: Env)
  {
    && e.Keys == fields && fields <= done && done <= r.Keys && Agree(e, r, fields)
    && ((Needed(layers, inputName) + {final}) * done) - {inputName} <= fields
    && inputName !in fields && inputName in done
    && BRANCH !in done && BRANCH !in r
  }

  lemma DroppedAdvances(
    layers: seq<seq<Step>>, final: string, fields: set<string>, done: set<string>, inputName: string,
    e: Env, r: Env, values: seq<Value>)
    requires layers != [] && Dropped(layers, final, fields, done, inputName, e, r)
    requires |values| == |layers[0]| && inputName !in Outputs(layers[0]) && BRANCH !in Outputs(layers[0])
    ensures var live := LiveAfter(layers[1..], final, fields + Outputs(layers[0]), inputName);
            var names := OutputList(layers[0]);
            Dropped(layers[1..], final, live, done + Outputs(layers[0]), inputName,
                    Restrict(Assign(e, names, values), live), Assign(r, names, values))
  {
    var names := OutputList(layers[0]);
    AssignKeys(e, names, values);
    AssignKeys(r, names, values);
    AssignAgree(e, r, names, values, fields);
    OutputListSet(layers[0]);
    NeededOf(layers, inputName);
  }

  /** A layer none of whose steps wants the input runs on the record without it. */
  lemma DroppedLayerFits(
    layers: seq<seq<Step>>, final: string, fields: set<string>, done: set<string>, inputName: string, e: Env, r: Env)
    requires layers != [] && Dropped(layers, final, fields, done, inputName, e, r)
    requires Ready(layers, done, inputName) && BRANCH !in Outputs(layers[0])
    requires forall s :: s in layers[0] ==>
               SubjectSet(s) <= fields && inputName !in InputSources(s) && !StepConsumes(s, inputName)
    ensures LayerFits(layers[0], inputName, e, r, Outputs(layers[0]))
  {
    NeededOf(layers, inputName);
    forall s | s in layers[0]
      ensures Fits(s, inputName, e, r) && Reads(s, inputName) !! Outputs(layers[0])
    {
      forall f | f in Reads(s, inputName) ensures f in fields && f in done {
        assert f in Needed(layers, inputName) || f in fields;
      }
    }
  }

  lemma {:induction false} RunWithKeeps(run: Runner, steps: seq<Step>, r: Env, log: Log, f: string)
    requires RunWith(run, steps, r, log).EnvDone? && f in r && f !in Outputs(steps)
    ensures f in RunWith(run, steps, r, log).env && RunWith(run, steps, r, log).env[f] == r[f]
    decreases |steps|
  {
    if steps != [] {
      assert steps == [steps[0]] + steps[1..];
      OutputsConcat([steps[0]], steps[1..]);
      assert steps[0] in steps;
      var o := run(steps[0], r, log);
      RunWithKeeps(run, steps[1..], r[steps[0].output := o.value], o.log, f);
    }
  }

  /** Each `each` that captures the name was given something other than an empty list. */
  ghost predicate CaptorsFed(h: Host, steps: seq<Step>, name: string, env: Env) {
    forall s :: s in steps && s.kind.Mapping? && name in Captures(s) && |s.inputs| == 1 && s.inputs[0] in env ==>
      EachElements(h, s, env[s.inputs[0]]) != Some([])
  }

  /** No step consumes the input, so a step that wants it captures it. */
  lemma WantingIsCapturing(s: Step, inputName: string)
    requires !StepConsumes(s, inputName) && inputName in InputSources(s)
    ensures s.kind.Mapping? && inputName in Captures(s)
  {
  }

  /** If a program from which the input was dropped ends, no step captured it, given that each captor got an item. */
  lemma {:induction false} NoCaptureWasDropped(
    h: Host, steps: seq<Step>, layers: seq<seq<Step>>, final: string, fields: set<string>, done: set<string>,
    inputName: string, e: Env, r: Env, log: Log)
    requires AllWithin(layers, steps) && (forall k | 0 <= k < |layers| :: layers[k] != [])
    requires EnvPieces(steps, layers, final, fields, inputName).Ok?
    requires AllSound(h, StepRunner(h, inputName), layers, inputName)
    requires Ready(layers, done, inputName) && Dropped(layers, final, fields, done, inputName, e, r)
    requires BRANCH !in Outputs(Flatten(layers)) && SubjectsHeld(layers, final, fields, inputName)
    requires forall s :: s in Flatten(layers) ==> !StepConsumes(s, inputName)
    requires RunWith(StepRunner(h, inputName), Flatten(layers), r, log).EnvDone?
    requires CaptorsFed(h, Flatten(layers), inputName, RunWith(StepRunner(h, inputName), Flatten(layers), r, log).env)
    requires ExecList(h, EnvPieces(steps, layers, final, fields, inputName).value, Rec(e), log).Done?
    ensures forall s :: s in Flatten(layers) ==> inputName !in InputSources(s)
    decreases |layers|
  {
    hide StepFromEnv, RunStep, Reads, LayerNodes;
    if layers != [] {
      var run, layer, rest := StepRunner(h, inputName), layers[0], layers[1..];
      assert Flatten(layers) == layer + Flatten(rest);
      OutputsConcat(layer, Flatten(rest));
      NoCaptureInLayer(h, steps, layers, final, fields, done, inputName, e, r, log);
      if IsFinalLayer(layers, final) {
        assert Flatten(rest) == [];
      } else {
        PiecesOfLayer(steps, layers, final, fields, inputName);
        var live := LiveAfter(rest, final, fields + Outputs(layer), inputName);
        DroppedLayerFits(layers, final, fields, done, inputName, e, r);
        LayerNodesSound(h, run, steps, layer, inputName);
        var values := LayerStep(h, run, layer, LayerNodes(steps, layer, inputName).value, inputName, live,
                                EnvPieces(steps, rest, final, live, inputName).value, e, r, log);
        RunWithConcat(run, layer, Flatten(rest), r, log);
        var ran := RunWith(run, layer, r, log);
        DroppedAdvances(layers, final, fields, done, inputName, e, r, values);
        NoCaptureWasDropped(h, steps, rest, final, live, done + Outputs(layer), inputName,
                            Restrict(Assign(e, OutputList(layer), values), live), ran.env, ran.log);
      }
    }
  }

  lemma CaptorCannotEnd(h: Host, s: Step, inputName: string, e: Env, r: Env)
    requires s.kind.Mapping? && inputName in Captures(s) && inputName !in e && |s.inputs| == 1
    requires s.inputs[0] in e && s.inputs[0] in r && e[s.inputs[0]] == r[s.inputs[0]]
    requires EachElements(h, s, r[s.inputs[0]]) != Some([])
    ensures !Ends(h, s, inputName, e)
  {
    if Ends(h, s, inputName, e) {
      var log :| Exec(h, StepFromEnv(s, inputName).value, Rec(e), log).Done?;
      MissingCaptureFails(h, s, e, inputName, log);
    }
  }

  lemma ItemsAreHeld(
    layers: seq<seq<Step>>, final: string, fields: set<string>, done: set<string>, inputName: string,
    e: Env, r: Env, s: Step, items: string)
    requires layers != [] && s in layers[0] && items in s.inputs && !StepConsumes(s, inputName)
    requires Ready(layers, done, inputName) && Dropped(layers, final, fields, done, inputName, e, r)
    ensures items in e && items in r && e[items] == r[items] && items !in Outputs(Flatten(layers))
  {
    NeededOf(layers, inputName);
    LaterOutputsAreNew(layers, done, inputName);
    assert items in Listed(s) && Listed(s) <= InputSources(s) <= done;
    assert LiveSources(s, inputName) <= Needed(layers, inputName);
  }

  lemma EndedEachHasItems(h: Host, s: Step, inputName: string, e: Env)
    requires s.kind.Mapping? && Ends(h, s, inputName, e)
    ensures |s.inputs| == 1 && s.inputs[0] in s.inputs
  {
    assert StepFromEnv(s, inputName) == EachFromEnv(s);
  }

  /** What the record and the completed run have in common: the list a captor is given. */
  lemma CaptorsItems(
    h: Host, layers: seq<seq<Step>>, final: string, fields: set<string>, done: set<string>, inputName: string,
    e: Env, r: Env, log: Log, s: Step)
    requires layers != [] && s in layers[0] && |s.inputs| == 1
    requires Ready(layers, done, inputName) && Dropped(layers, final, fields, done, inputName, e, r)
    requires !StepConsumes(s, inputName)
    requires RunWith(StepRunner(h, inputName), Flatten(layers), r, log).EnvDone?
    ensures var m := RunWith(StepRunner(h, inputName), Flatten(layers), r, log).env;
            s.inputs[0] in e && s.inputs[0] in m && e[s.inputs[0]] == m[s.inputs[0]]
  {
    ItemsAreHeld(layers, final, fields, done, inputName, e, r, s, s.inputs[0]);
    RunWithKeeps(StepRunner(h, inputName), Flatten(layers), r, log, s.inputs[0]);
  }

  lemma NoCaptureInLayer(
    h: Host, steps: seq<Step>, layers: seq<seq<Step>>, final: string, fields: set<string>, done: set<string>,
    inputName: string, e: Env, r: Env, log: Log)
    requires AllWithin(layers, steps) && (forall k | 0 <= k < |layers| :: layers[k] != [])
    requires EnvPieces(steps, layers, final, fields, inputName).Ok? && layers != []
    requires Ready(layers, done, inputName) && Dropped(layers, final, fields, done, inputName, e, r)
    requires forall s :: s in Flatten(layers) ==> !StepConsumes(s, inputName)
    requires RunWith(StepRunner(h, inputName), Flatten(layers), r, log).EnvDone?
    requires CaptorsFed(h, Flatten(layers), inputName, RunWith(StepRunner(h, inputName), Flatten(layers), r, log).env)
    requires ExecList(h, EnvPieces(steps, layers, final, fields, inputName).value, Rec(e), log).Done?
    ensures forall s :: s in layers[0] ==> inputName !in InputSources(s)
  {
    assert Flatten(layers) == layers[0] + Flatten(layers[1..]);
    var m := RunWith(StepRunner(h, inputName), Flatten(layers), r, log).env;
    var next, after := FirstLayerEnds(h, steps, layers, final, fields, inputName, e, log);
    forall s | s in layers[0] ensures inputName !in InputSources(s) {
      assert s in Flatten(layers) && Ends(h, s, inputName, e);
      if inputName in InputSources(s) {
        WantingIsCapturing(s, inputName);
        EndedEachHasItems(h, s, inputName, e);
        CaptorsItems(h, layers, final, fields, done, inputName, e, r, log, s);
        CaptorCannotEnd(h, s, inputName, e, m);
      }
    }
  }

  // ----- compile -----

  /** A quick start's first step is a leaf, or a branch that reads nothing; a sole step is a branch. */
  predicate FirstMayStart(g: Graph, layers: seq<seq<Step>>)
    requires layers != [] && layers[0] != []
  {
    if IsFinalLayer(layers, FinalOutput(g)) then IsBranch(layers[0][0])
    else FastStart(layers, g.inputName) ==> StartsOnRawInput(layers[0][0])
  }

  /**
   On a run the graph completes, in which each `each` that captures the graph's input is given an item, a
   graph whose first step may run on the raw input compiles right if and only if the guard holds: a quick
   start's later steps and result do not want the input, and branch subjects survive.
   */
  lemma CompileExact(h: Host, g: Graph, v: Value, log: Log)
    requires WellFormed(g) && Honest(h, g.steps) && Compile(g).Ok? && g.steps != [] && !IsLinearChain(g)
    requires Layers(g.steps, {g.inputName}).Ok? && FirstMayStart(g, Layers(g.steps, {g.inputName}).value)
    requires CompletesFed(h, g, v, log)
    ensures Exec(h, Compile(g).value, v, log) == RunGraph(h, g, map[g.inputName := v], log) <==> CompileGuard(g)
  {
    var r, layers := map[g.inputName := v], Layers(g.steps, {g.inputName}).value;
    CompileForm(g);
    DoneSubjectsPrecede(h, g.steps, g.inputName, r, log);
    if CompileGuard(g) {
      CompilePreserves(h, g, v, log);
    }
    if Exec(h, Compile(g).value, v, log).Done? {
      ExecSeqOf(h, LayeredPieces(g, layers).value, v, log);
      if IsFinalLayer(layers, FinalOutput(g)) {
        SoleBranchIsHeld(h, g, layers, v, log);
      } else if FastStart(layers, g.inputName) {
        QuickStartKeepsGuard(h, g, layers, v, log);
      } else {
        var pieces := EnvPieces(g.steps, layers, FinalOutput(g), {g.inputName}, g.inputName).value;
        ExecCons(h, Arr(StdInit(g.inputName)), pieces, v, log);
        DoneIsHeld(h, g.steps, layers, FinalOutput(g), {g.inputName}, g.inputName, r, log);
      }
    }
  }

  /**
   For a quick start from a leaf, whose branch subjects survive, the condition is that nothing later wants
   the input.
   */
  lemma QuickStartExact(h: Host, g: Graph, v: Value, log: Log)
    requires WellFormed(g) && Honest(h, g.steps) && Compile(g).Ok? && g.steps != [] && !IsLinearChain(g)
    requires Layers(g.steps, {g.inputName}).Ok?
    requires var layers := Layers(g.steps, {g.inputName}).value;
             && !IsFinalLayer(layers, FinalOutput(g)) && FastStart(layers, g.inputName) && IsLeaf(layers[0][0])
             && SubjectsHeld(layers[1..], FinalOutput(g), FastLive(g, layers), g.inputName)
    requires CompletesFed(h, g, v, log)
    ensures Exec(h, Compile(g).value, v, log) == RunGraph(h, g, map[g.inputName := v], log)
            <==> KeepsInputUnused(g, Layers(g.steps, {g.inputName}).value)
  {
    DoneSubjectsPrecede(h, g.steps, g.inputName, map[g.inputName := v], log);
    CompileExact(h, g, v, log);
  }

  lemma SoleBranchIsHeld(h: Host, g: Graph, layers: seq<seq<Step>>, v: Value, log: Log)
    requires Layered(g, layers) && IsFinalLayer(layers, FinalOutput(g))
    requires RunGraph(h, g, map[g.inputName := v], log).Done?
    ensures SubjectSet(layers[0][0]) <= {g.inputName}
  {
    SoleStep(g, layers);
    if !(SubjectSet(layers[0][0]) <= {g.inputName}) {
      UndecidedFails(h, layers[0][0], g.inputName, map[g.inputName := v], log);
    }
  }

  /** The graph runs to its end on `v`, and each `each` that captures its input is given an item. */
  ghost predicate CompletesFed(h: Host, g: Graph, v: Value, log: Log) {
    && RunGraph(h, g, map[g.inputName := v], log).Done?
    && CaptorsFed(h, g.steps, g.inputName, RunSteps(h, g.steps, g.inputName, map[g.inputName := v], log).env)
  }

  lemma QuickStartKeepsGuard(h: Host, g: Graph, layers: seq<seq<Step>>, v: Value, log: Log)
    requires WellFormed(g) && Honest(h, g.steps) && Layered(g, layers)
    requires !IsFinalLayer(layers, FinalOutput(g)) && FastStart(layers, g.inputName) && StartsOnRawInput(layers[0][0])
    requires CompletesFed(h, g, v, log) && SubjectsPrecede(g.steps)
    requires ExecList(h, LayeredPieces(g, layers).value, v, log).Done?
    ensures SubjectsHeld(layers[1..], FinalOutput(g), FastLive(g, layers), g.inputName) && InputUnusedLater(g, layers)
  {
    FastForm(g, layers);
    FirstStepStarts(h, g, layers, v, log);
    EndedStartIsSafe(h, g, layers, v, v, log);
  }

  /**
   A quick start whose first step does on `v` what it does in the graph on `w`, which the graph completes:
   if the program ends, then nothing after the first step wanted the input, and subjects were held.
   */
  lemma EndedStartIsSafe(h: Host, g: Graph, layers: seq<seq<Step>>, v: Value, w: Value, log: Log)
    requires WellFormed(g) && Honest(h, g.steps) && Layered(g, layers)
    requires !IsFinalLayer(layers, FinalOutput(g)) && FastStart(layers, g.inputName)
    requires FlowingLeaf(layers[0][0]).Ok? && SubjectSet(layers[0][0]) <= {g.inputName}
    requires Exec(h, FlowingLeaf(layers[0][0]).value, v, log)
          == RunStep(h, layers[0][0], g.inputName, map[g.inputName := w], log)
    requires CompletesFed(h, g, w, log) && SubjectsPrecede(g.steps)
    requires ExecList(h, LayeredPieces(g, layers).value, v, log).Done?
    ensures SubjectsHeld(layers[1..], FinalOutput(g), FastLive(g, layers), g.inputName) && InputUnusedLater(g, layers)
  {
    var later, live, final := layers[1..], FastLive(g, layers), FinalOutput(g);
    FastForm(g, layers);
    StartNames(g, layers);
    var o := RunStep(h, layers[0][0], g.inputName, map[g.inputName := w], log);
    var e := StartedRecord(h, g, layers, v, o, log);
    DoneIsHeld(h, g.steps, later, final, live, g.inputName, e, o.log);
    DoneHasResult(h, g.steps, later, final, live, g.inputName, e, o.log);
    InputIsNotCaptured(h, g, layers, w, o, e, log);
    LaterIsFlattened(g, layers);
  }

  lemma StartNames(g: Graph, layers: seq<seq<Step>>)
    requires WellFormed(g) && Layered(g, layers) && |layers[0]| == 1
    ensures layers[0][0] in g.steps && layers[0][0].output != g.inputName
    ensures g.inputName !in Outputs(Flatten(layers[1..]))
  {
    var s := layers[0][0];
    LayersOf(g, {g.inputName});
    assert s in layers[0] && s in g.steps && s.output in Outputs(g.steps);
    assert layers[0] == [s] && Flatten(layers) == [s] + Flatten(layers[1..]);
    OutputsConcat([s], Flatten(layers[1..]));
  }

  lemma FirstStepStarts(h: Host, g: Graph, layers: seq<seq<Step>>, v: Value, log: Log)
    requires WellFormed(g) && Honest(h, g.steps) && Layered(g, layers)
    requires FastStart(layers, g.inputName) && StartsOnRawInput(layers[0][0]) && FlowingLeaf(layers[0][0]).Ok?
    ensures Exec(h, FlowingLeaf(layers[0][0]).value, v, log)
         == RunStep(h, layers[0][0], g.inputName, map[g.inputName := v], log)
    ensures SubjectSet(layers[0][0]) == {}
  {
    var s := layers[0][0];
    assert s in layers[0] && s in g.steps;
    WellFormedOf(g.steps, s);
    HonestOf(h, g.steps, s);
    StartSound(h, s, g.inputName, v, map[g.inputName := v], log);
  }

  lemma LaterIsFlattened(g: Graph, layers: seq<seq<Step>>)
    requires layers != [] && forall t :: t in Flatten(layers[1..]) ==> g.inputName !in InputSources(t)
    ensures forall k, t | 1 <= k < |layers| && t in layers[k] :: g.inputName !in InputSources(t)
  {
    forall k, t | 1 <= k < |layers| && t in layers[k] ensures g.inputName !in InputSources(t) {
      assert t in layers[1..][k - 1];
      InFlattened(layers[1..], k - 1, t);
    }
  }

  lemma CaptorsFedWithin(h: Host, steps: seq<Step>, some: seq<Step>, name: string, env: Env)
    requires CaptorsFed(h, steps, name, env) && forall s :: s in some ==> s in steps
    ensures CaptorsFed(h, some, name, env)
  {
  }

  /** After the first step, the later layers run to where the declared order ends. */
  lemma LaterLayersRun(h: Host, g: Graph, layers: seq<seq<Step>>, v: Value, o: Outcome, log: Log)
    requires WellFormed(g) && Honest(h, g.steps) && Layered(g, layers)
    requires !IsFinalLayer(layers, FinalOutput(g)) && FastStart(layers, g.inputName)
    requires SubjectSet(layers[0][0]) <= {g.inputName} && FlowingLeaf(layers[0][0]).Ok? && SubjectsPrecede(g.steps)
    requires SubjectsHeld(layers[1..], FinalOutput(g), FastLive(g, layers), g.inputName)
    requires o == RunStep(h, layers[0][0], g.inputName, map[g.inputName := v], log) && o.Done?
    ensures RunWith(StepRunner(h, g.inputName), Flatten(layers[1..]),
                    map[g.inputName := v, layers[0][0].output := o.value], o.log)
         == RunSteps(h, g.steps, g.inputName, map[g.inputName := v], log)
    ensures Ready(layers[1..], {g.inputName, layers[0][0].output}, g.inputName)
    ensures Outputs(Flatten(layers[1..])) <= Outputs(g.steps)
    ensures forall t :: t in Flatten(layers[1..]) ==> t in g.steps && !StepConsumes(t, g.inputName)
  {
    hide Exec, RunStep, RunSteps, RunGraph, EnvPieces, Layers, SubjectsHeld, LayeredPieces;
    var r, s, later := map[g.inputName := v], layers[0][0], layers[1..];
    FastSchedule(h, g, layers, r, log);
    assert layers[0] == [s] && Flatten(layers) == [s] + Flatten(later);
    OutputsConcat([s], Flatten(later));
    RunCons(StepRunner(h, g.inputName), s, Flatten(later), r, log);
    assert r[s.output := o.value] == map[g.inputName := v, s.output := o.value] by {
      assert s in layers[0] && s in g.steps && s.output in Outputs(g.steps);
    }
    assert Outputs([s]) == {s.output} && {g.inputName} + Outputs(layers[0]) == {g.inputName, s.output};
    forall t | t in Flatten(later) ensures !StepConsumes(t, g.inputName) {
      InSomeLayer(later, t);
    }
  }

  lemma InputIsNotCaptured(h: Host, g: Graph, layers: seq<seq<Step>>, v: Value, o: Outcome, e: Env, log: Log)
    requires WellFormed(g) && Honest(h, g.steps) && Layered(g, layers)
    requires !IsFinalLayer(layers, FinalOutput(g)) && FastStart(layers, g.inputName)
    requires SubjectSet(layers[0][0]) <= {g.inputName} && FlowingLeaf(layers[0][0]).Ok?
    requires CompletesFed(h, g, v, log) && SubjectsPrecede(g.steps)
    requires SubjectsHeld(layers[1..], FinalOutput(g), FastLive(g, layers), g.inputName)
    requires o == RunStep(h, layers[0][0], g.inputName, map[g.inputName := v], log) && o.Done?
    requires e == Restrict(map[layers[0][0].output := o.value], FastLive(g, layers)) && e.Keys == FastLive(g, layers)
    requires AllWithin(layers[1..], g.steps)
    requires EnvPieces(g.steps, layers[1..], FinalOutput(g), FastLive(g, layers), g.inputName).Ok?
    requires ExecList(h, EnvPieces(g.steps, layers[1..], FinalOutput(g), FastLive(g, layers), g.inputName).value,
                      Rec(e), o.log).Done?
    ensures forall t :: t in Flatten(layers[1..]) ==> g.inputName !in InputSources(t)
  {
    var s, later := layers[0][0], layers[1..];
    var r := map[g.inputName := v, s.output := o.value];
    LaterLayersRun(h, g, layers, v, o, log);
    LayersAllSound(h, g, later);
    StartsDropped(g, layers, o.value, v);
    CaptorsFedWithin(h, g.steps, Flatten(later), g.inputName,
                     RunSteps(h, g.steps, g.inputName, map[g.inputName := v], log).env);
    NoCaptureWasDropped(h, g.steps, later, FinalOutput(g), FastLive(g, layers), {g.inputName, s.output}, g.inputName,
                        e, r, o.log);
  }

  lemma StartsDropped(g: Graph, layers: seq<seq<Step>>, value: Value, v: Value)
    requires WellFormed(g) && layers != [] && layers[0] != [] && AllWithin(layers, g.steps)
    ensures var s := layers[0][0];
            Dropped(layers[1..], FinalOutput(g), FastLive(g, layers), {g.inputName, s.output}, g.inputName,
                    Restrict(map[s.output := value], FastLive(g, layers)), map[g.inputName := v, s.output := value])
  {
    assert layers[0][0] in layers[0] && layers[0][0] in g.steps && layers[0][0].output in Outputs(g.steps);
  }

  /** The record a quick start leaves for the later layers. */
  lemma StartedRecord(h: Host, g: Graph, layers: seq<seq<Step>>, v: Value, o: Outcome, log: Log) returns (e: Env)
    requires WellFormed(g) && Layered(g, layers)
    requires !IsFinalLayer(layers, FinalOutput(g)) && FastStart(layers, g.inputName)
    requires FlowingLeaf(layers[0][0]).Ok? && Exec(h, FlowingLeaf(layers[0][0]).value, v, log) == o
    requires ExecList(h, LayeredPieces(g, layers).value, v, log).Done?
    requires AllWithin(layers[1..], g.steps)
    requires EnvPieces(g.steps, layers[1..], FinalOutput(g), FastLive(g, layers), g.inputName).Ok?
    ensures o.Done? && e == Restrict(map[layers[0][0].output := o.value], FastLive(g, layers))
    ensures e.Keys == FastLive(g, layers)
    ensures ExecList(h, EnvPieces(g.steps, layers[1..], FinalOutput(g), FastLive(g, layers), g.inputName).value,
                     Rec(e), o.log)
         == ExecList(h, LayeredPieces(g, layers).value, v, log)
  {
    var s, live := layers[0][0], FastLive(g, layers);
    FastForm(g, layers);
    var rest := EnvPieces(g.steps, layers[1..], FinalOutput(g), live, g.inputName).value;
    var prune := if live != {s.output} then [Prune(live)] else [];
    ExecCons(h, FlowingLeaf(s).value, [Arr(StdInit(s.output))] + (prune + rest), v, log);
    ExecCons(h, Arr(StdInit(s.output)), prune + rest, o.value, o.log);
    PruneSound(h, live, {s.output}, rest, map[s.output := o.value], o.log);
    e := Restrict(map[s.output := o.value], live);
  }

  lemma {:induction false} InSomeLayer(layers: seq<seq<Step>>, s: Step)
    requires s in Flatten(layers)
    ensures exists k :: 0 <= k < |layers| && s in layers[k]
    decreases |layers|
  {
    if s in layers[0] {
      assert 0 < |layers|;
    } else {
      InSomeLayer(layers[1..], s);
      var k :| 0 <= k < |layers[1..]| && s in layers[1..][k];
      assert s in layers[k + 1];
    }
  }

  lemma {:induction false} InFlattened(layers: seq<seq<Step>>, k: nat, s: Step)
    requires k < |layers| && s in layers[k]
    ensures s in Flatten(layers)
    decreases k
  {
    if k > 0 {
      InFlattened(layers[1..], k - 1, s);
    }
  }

  // ----- a branch as the first step -----

  /** The first layer starts the env record with a branch, run on the raw input. */
  ghost predicate StartsWithBranch(g: Graph) {
    && g.steps != [] && Compile(g).Ok? && !IsLinearChain(g)
    && var layers := Layers(g.steps, {g.inputName}).value;
       !IsFinalLayer(layers, FinalOutput(g)) && FastStart(layers, g.inputName) && IsBranch(layers[0][0])
  }

  function FirstStep(g: Graph): Step
    requires g.steps != [] && Layers(g.steps, {g.inputName}).Ok?
  {
    Layers(g.steps, {g.inputName}).value[0][0]
  }

  lemma StartForm(g: Graph)
    requires StartsWithBranch(g)
    ensures Layers(g.steps, {g.inputName}).Ok? && Layered(g, Layers(g.steps, {g.inputName}).value)
    ensures IsBranch(FirstStep(g)) && BranchFromEnv(FirstStep(g)).Ok?
    ensures exists rest :: Compile(g).value == SeqOf([BranchFromEnv(FirstStep(g)).value] + rest)
  {
    CompileForm(g);
    var layers := Layers(g.steps, {g.inputName}).value;
    FastForm(g, layers);
    var pieces := LayeredPieces(g, layers).value;
    assert pieces == [pieces[0]] + pieces[1..];
  }

  /**
   Its prune then asks the raw input for the branch's fields, and fails unless the input happens to be a
   record of them.
   */
  lemma FirstBranchFails(h: Host, g: Graph, v: Value, log: Log)
    requires StartsWithBranch(g) && Layers(g.steps, {g.inputName}).Ok? && IsBranch(FirstStep(g))
    requires var fields := BranchFields(FirstStep(g)); fields != {} && !(v.Rec? && fields <= v.fields.Keys)
    ensures Exec(h, Compile(g).value, v, log) == Fail(log)
  {
    StartForm(g);
    var s := FirstStep(g);
    var fields, branch := BranchFields(s), BranchFromEnv(s).value;
    var rest :| Compile(g).value == SeqOf([branch] + rest);
    ExecSeqOf(h, [branch] + rest, v, log);
    ExecCons(h, branch, rest, v, log);
    BranchNode(s);
    PruneOffRecord(h, s, BranchAlt(s), v, log);
  }

  /** After the first step nothing wants the input, and branch subjects survive in the record that is started. */
  ghost predicate LaterStepsAreSafe(g: Graph)
    requires g.steps != [] && Layers(g.steps, {g.inputName}).Ok?
  {
    var layers := Layers(g.steps, {g.inputName}).value;
    && InputUnusedLater(g, layers) && SubjectsPrecede(g.steps)
    && SubjectsHeld(layers[1..], FinalOutput(g), FastLive(g, layers), g.inputName)
  }

  /** A prune makes the same of records that agree on its fields. */
  lemma PruneForgets(h: Host, fields: set<string>, rest: seq<Node>, a: Env, b: Env, log: Log)
    requires fields <= a.Keys && fields <= b.Keys && Agree(a, b, fields)
    ensures Exec(h, SeqOf([Prune(fields)] + rest), Rec(a), log) == Exec(h, SeqOf([Prune(fields)] + rest), Rec(b), log)
  {
    ExecSeqOf(h, [Prune(fields)] + rest, Rec(a), log);
    ExecSeqOf(h, [Prune(fields)] + rest, Rec(b), log);
    ExecCons(h, Prune(fields), rest, Rec(a), log);
    ExecCons(h, Prune(fields), rest, Rec(b), log);
    ExecPrune(h, fields, a, log);
    ExecPrune(h, fields, b, log);
    assert Restrict(a, fields) == Restrict(b, fields);
  }

  /** A branch over the input alone, run on a raw record, reads the record's field of that name. */
  lemma BranchReadsInside(h: Host, s: Step, inputName: string, v: Value, log: Log)
    requires IsBranch(s) && WellFormedStep(s) && HonestStep(h, s) && BranchFromEnv(s).Ok?
    requires BranchFields(s) == {inputName} && v.Rec? && inputName in v.fields && inputName != BRANCH
    ensures Exec(h, BranchFromEnv(s).value, v, log)
         == RunStep(h, s, inputName, map[inputName := v.fields[inputName]], log)
  {
    hide Exec, RunStep, BranchFromEnv;
    var r := map[inputName := v.fields[inputName]];
    var rest := DecisionPieces(s) + [BranchAlt(s)];
    BranchNode(s);
    assert [Prune({inputName})] + DecisionPieces(s) + [BranchAlt(s)] == [Prune({inputName})] + rest;
    PruneForgets(h, {inputName}, rest, v.fields, r, log);
    assert InputSources(s) + SubjectSet(s) <= BranchFields(s) && Reads(s, inputName) <= {inputName};
    BranchSound(h, s, inputName, r, r, log);
  }

  /** On a record with a field of the input's name the program is the graph on that field's value, not on the record. */
  lemma FirstBranchReadsInside(h: Host, g: Graph, v: Value, log: Log)
    requires WellFormed(g) && Honest(h, g.steps) && StartsWithBranch(g) && Layers(g.steps, {g.inputName}).Ok?
    requires IsBranch(FirstStep(g)) && BranchFields(FirstStep(g)) == {g.inputName} && LaterStepsAreSafe(g)
    requires v.Rec? && g.inputName in v.fields
    ensures Exec(h, Compile(g).value, v, log) == RunGraph(h, g, map[g.inputName := v.fields[g.inputName]], log)
  {
    hide Exec, RunStep, RunGraph, EnvPieces, LayeredPieces, SubjectsHeld, Layers;
    var layers, s := Layers(g.steps, {g.inputName}).value, FirstStep(g);
    StartForm(g);
    CompileForm(g);
    FastForm(g, layers);
    assert s in layers[0] && s in g.steps;
    WellFormedOf(g.steps, s);
    HonestOf(h, g.steps, s);
    BranchReadsInside(h, s, g.inputName, v, log);
    assert SubjectSet(s) <= BranchFields(s);
    FastStartRuns(h, g, layers, v, map[g.inputName := v.fields[g.inputName]], log);
    ExecSeqOf(h, LayeredPieces(g, layers).value, v, log);
  }

  /** A first branch reads the input or nothing, if the graph gets past it. */
  lemma FirstBranchReads(g: Graph)
    requires WellFormed(g) && StartsWithBranch(g) && Layers(g.steps, {g.inputName}).Ok? && IsBranch(FirstStep(g))
    requires SubjectSet(FirstStep(g)) <= {g.inputName}
    ensures BranchFields(FirstStep(g)) == {} || BranchFields(FirstStep(g)) == {g.inputName}
  {
    hide EnvPieces, LayeredPieces, Layers, SourcesInOrder;
    var layers, s := Layers(g.steps, {g.inputName}).value, FirstStep(g);
    StartForm(g);
    LayersOf(g, {g.inputName});
    assert s in layers[0] && InputSources(s) <= {g.inputName};
    assert BranchFields(s) <= {g.inputName};
  }

  /** The field of the input's name, if the input is a record that has one. */
  predicate HasInside(g: Graph, v: Value) {
    v.Rec? && g.inputName in v.fields
  }

  /**
   Exactly when a leading branch compiles right. On a run the graph completes, with a subject that is the
   input if anything, the program gives that run if and only if nothing after the branch wants the input
   and subjects survive, and the branch reads nothing, or the value is a record whose field of the input's
   name the graph would treat just like the record itself. If something does want the input, the run on
   that field is taken to complete too.
   */
  lemma FirstBranchExact(h: Host, g: Graph, v: Value, log: Log)
    requires WellFormed(g) && Honest(h, g.steps) && StartsWithBranch(g) && Layers(g.steps, {g.inputName}).Ok?
    requires IsBranch(FirstStep(g)) && SubjectSet(FirstStep(g)) <= {g.inputName}
    requires CompletesFed(h, g, v, log)
    requires HasInside(g, v) ==> LaterStepsAreSafe(g) || CompletesFed(h, g, v.fields[g.inputName], log)
    ensures Exec(h, Compile(g).value, v, log) == RunGraph(h, g, map[g.inputName := v], log) <==>
            && LaterStepsAreSafe(g)
            && (|| BranchFields(FirstStep(g)) == {}
                || (HasInside(g, v) && RunGraph(h, g, map[g.inputName := v.fields[g.inputName]], log)
                                    == RunGraph(h, g, map[g.inputName := v], log)))
  {
    hide Exec, Compile, FastLive, SubjectsHeld, EnvPieces, RunStep, CaptorsFed, BranchFields, LaterStepsAreSafe;
    DoneSubjectsPrecede(h, g.steps, g.inputName, map[g.inputName := v], log);
    FirstBranchReads(g);
    if BranchFields(FirstStep(g)) == {} {
      IdleFirstBranch(h, g, v, log);
    } else if !HasInside(g, v) {
      FirstBranchFails(h, g, v, log);
    } else {
      FirstBranchInside(h, g, v, log);
    }
  }

  /** A first branch that reads nothing starts the record as a leaf would. */
  lemma IdleFirstBranch(h: Host, g: Graph, v: Value, log: Log)
    requires WellFormed(g) && Honest(h, g.steps) && StartsWithBranch(g) && Layers(g.steps, {g.inputName}).Ok?
    requires IsBranch(FirstStep(g)) && BranchFields(FirstStep(g)) == {} && CompletesFed(h, g, v, log)
    requires SubjectsPrecede(g.steps)
    ensures Exec(h, Compile(g).value, v, log) == RunGraph(h, g, map[g.inputName := v], log) <==> LaterStepsAreSafe(g)
  {
    CompileExact(h, g, v, log);
  }

  /** On a record with a field of the input's name. */
  lemma FirstBranchInside(h: Host, g: Graph, v: Value, log: Log)
    requires WellFormed(g) && Honest(h, g.steps) && StartsWithBranch(g) && Layers(g.steps, {g.inputName}).Ok?
    requires IsBranch(FirstStep(g)) && BranchFields(FirstStep(g)) == {g.inputName} && SubjectsPrecede(g.steps)
    requires HasInside(g, v) && RunGraph(h, g, map[g.inputName := v], log).Done?
    requires LaterStepsAreSafe(g) || CompletesFed(h, g, v.fields[g.inputName], log)
    ensures Exec(h, Compile(g).value, v, log) == RunGraph(h, g, map[g.inputName := v], log) <==>
            && LaterStepsAreSafe(g)
            && RunGraph(h, g, map[g.inputName := v.fields[g.inputName]], log)
               == RunGraph(h, g, map[g.inputName := v], log)
  {
    hide Exec, RunGraph, LaterStepsAreSafe, CompletesFed, BranchFields, Layers, WellFormed;
    if LaterStepsAreSafe(g) {
      FirstBranchReadsInside(h, g, v, log);
    } else {
      FirstBranchIsUnsafe(h, g, v, log);
    }
  }

  /** If something after the branch wants the input, or a subject is lost, then the program does not end. */
  lemma FirstBranchIsUnsafe(h: Host, g: Graph, v: Value, log: Log)
    requires WellFormed(g) && Honest(h, g.steps) && StartsWithBranch(g) && Layers(g.steps, {g.inputName}).Ok?
    requires IsBranch(FirstStep(g)) && BranchFields(FirstStep(g)) == {g.inputName} && SubjectsPrecede(g.steps)
    requires HasInside(g, v) && CompletesFed(h, g, v.fields[g.inputName], log) && !LaterStepsAreSafe(g)
    ensures !Exec(h, Compile(g).value, v, log).Done?
  {
    var layers, s := Layers(g.steps, {g.inputName}).value, FirstStep(g);
    StartForm(g);
    CompileForm(g);
    FastForm(g, layers);
    assert s in layers[0] && s in g.steps;
    WellFormedOf(g.steps, s);
    HonestOf(h, g.steps, s);
    BranchReadsInside(h, s, g.inputName, v, log);
    assert SubjectSet(s) <= BranchFields(s);
    ExecSeqOf(h, LayeredPieces(g, layers).value, v, log);
    if Exec(h, Compile(g).value, v, log).Done? {
      EndedStartIsSafe(h, g, layers, v, v.fields[g.inputName], log);
    }
  }

  // ----- an each over what is no list -----

  /** What the items of a non-list would come to, if the host can walk it: one run of the body each, in order. */
  ghost function Walked(h: Host, s: Step, r: Env, log: Log): Option<Outcome>
    requires s.kind.Mapping? && |s.inputs| == 1 && s.inputs[0] in r
  {
    var elements := h.iterate(r[s.inputs[0]]);
    if elements.None? then None
    else Some(Reduced(h, s.kind.reducer, RunItems(h, s.kind.body, r, s.kind.consts, elements.value, log)))
  }

  /** Without captures a value that is no list is an error; with captures the program walks it, if the host can. */
  lemma NonListIsWalked(h: Host, s: Step, inputName: string, e: Env, r: Env, log: Log)
    requires s.kind.Mapping? && WellFormedStep(s) && HonestStep(h, s) && EachFromEnv(s).Ok?
    requires Fits(s, inputName, e, r) && s.inputs[0] in r && !r[s.inputs[0]].List?
    ensures Exec(h, EachFromEnv(s).value, Rec(e), log)
         == if Captures(s) == {} || Walked(h, s, r, log).None? then Fail(log) else Walked(h, s, r, log).value
  {
    EachSound(h, s, inputName, e, r, log);
    RunEach(h, s, inputName, r, log);
  }

  /**
   Exactly when an `each` refuses what is no list: where the items it might walk would all go through, it
   fails if and only if it captures nothing or the host cannot walk the value.
   */
  lemma NonListExact(h: Host, s: Step, inputName: string, e: Env, r: Env, log: Log)
    requires s.kind.Mapping? && WellFormedStep(s) && HonestStep(h, s) && EachFromEnv(s).Ok?
    requires Fits(s, inputName, e, r) && s.inputs[0] in r && !r[s.inputs[0]].List?
    requires Walked(h, s, r, log).Some? ==> Walked(h, s, r, log).value.Done?
    ensures Exec(h, EachFromEnv(s).value, Rec(e), log) == Fail(log)
            <==> Captures(s) == {} || h.iterate(r[s.inputs[0]]).None?
  {
    NonListIsWalked(h, s, inputName, e, r, log);
  }

  // ----- an each whose item's name is captured -----

  /** A body that returns its item gives back the items it was run on, if it runs to its end on all of them. */
  lemma {:induction false} ItemsComeBack(h: Host, body: Graph, env: Env, consts: Env, items: seq<Value>, log: Log)
    requires FinalOutput(body) == body.inputName && body.inputName !in Outputs(body.steps) && body.inputName !in consts
    ensures var batch := RunItems(h, body, env, consts, items, log); batch.Batch? ==> batch.values == items
    decreases |items|
  {
    if items != [] {
      var scope := ItemEnv(env, body.inputName, items[0], consts);
      var run := StepRunner(h, body.inputName);
      RunStepsIsRunWith(h, body.steps, body.inputName, scope, log);
      var first := RunGraph(h, body, scope, log);
      if first.Done? {
        RunWithKeeps(run, body.steps, scope, log, body.inputName);
        ItemsComeBack(h, body, env, consts, items[1..], first.log);
        assert [items[0]] + items[1..] == items;
      }
    }
  }

  /**
   An `each` whose body returns its item, though the item's name is also captured, is right exactly on the
   lists that hold nothing but the outer value, whenever the graph itself gets through the list.
   */
  lemma CapturedItemExact(h: Host, s: Step, inputName: string, e: Env, r: Env, log: Log)
    requires s.kind.Mapping? && WellFormedEach(s) && HonestStep(h, s) && EachFromEnv(s).Ok?
    requires Fits(s, inputName, e, r) && s.kind.body.inputName in Captures(s)
    requires FinalOutput(s.kind.body) == s.kind.body.inputName && s.kind.reducer.None?
    requires RunStep(h, s, inputName, r, log).Done?
    ensures s.inputs[0] in r && s.kind.body.inputName in r && EachElements(h, s, r[s.inputs[0]]).Some?
    ensures Exec(h, EachFromEnv(s).value, Rec(e), log) == RunStep(h, s, inputName, r, log) <==>
            forall x :: x in EachElements(h, s, r[s.inputs[0]]).value ==> x == r[s.kind.body.inputName]
  {
    var body, consts := s.kind.body, s.kind.consts;
    CapturedItemIsOuter(h, s, inputName, e, r, log);
    RunEach(h, s, inputName, r, log);
    var elements, outer := EachElements(h, s, r[s.inputs[0]]).value, r[body.inputName];
    ItemsComeBack(h, body, r, consts, elements, log);
    ItemsComeBack(h, body, r, consts, Repeated(outer, |elements|), log);
    OnlyRepeats(elements, outer);
  }

  lemma OnlyRepeats(items: seq<Value>, v: Value)
    ensures items == Repeated(v, |items|) <==> forall x :: x in items ==> x == v
  {
    if items == Repeated(v, |items|) {
      forall x | x in items ensures x == v {
        var i :| 0 <= i < |items| && items[i] == x;
        assert Repeated(v, |items|)[i] == v;
      }
    }
    if forall x :: x in items ==> x == v {
      forall i | 0 <= i < |items| ensures items[i] == Repeated(v, |items|)[i] {
        assert items[i] in items;
      }
    }
  }
}
