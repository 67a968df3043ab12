/**
 What the env record holds: liveness at every layer of a compiled graph, and what a completed run of the
 program says about it. A program that ends found every key it asked for, so whatever the tracked
 fields lack is something no completed run can have wanted.
 */
module Liveness {
  import opened Values
  import opened Ir
  import opened Graph
  import opened Reference
  import opened Layering
  import opened Compiler
  import opened ExecFacts
  import opened WellFormedness
  import opened Simulation
  import opened Leaves
  import opened Soundness

  // ----- the tracked fields, in closed form -----

  lemma NeededShrinks(layers: seq<seq<Step>>, inputName: string, k: nat)
    requires k <= |layers|
    ensures Needed(layers[k..], inputName) <= Needed(layers, inputName)
  {
    forall f | f in Needed(layers[k..], inputName) ensures f in Needed(layers, inputName) {
      var j, s :| 0 <= j < |layers[k..]| && s in layers[k..][j] && f in LiveSources(s, inputName);
      assert s in layers[k + j];
    }
  }

  /** Past the first layer, the record holds what is bound so far and is still needed. */
  lemma {:induction false} FieldsAtForm(
    layers: seq<seq<Step>>, final: string, fields: set<string>, inputName: string, k: nat)
    requires 0 < k <= |layers|
    ensures FieldsAt(layers, final, fields, inputName, k)
         == (fields + Outputs(Flatten(layers[..k]))) * (Needed(layers[k..], inputName) + {final})
    decreases k
  {
    hide Reads, LiveSources, InputSources;
    var first, rest := layers[0], layers[1..];
    var live := LiveAfter(rest, final, fields + Outputs(first), inputName);
    assert layers[..k][0] == first && layers[..k][1..] == rest[..k - 1] && rest[k - 1..] == layers[k..];
    OutputsConcat(first, Flatten(rest[..k - 1]));
    if k == 1 {
      assert rest[..0] == [] && Outputs(Flatten([])) == {};
    } else {
      FieldsAtForm(rest, final, live, inputName, k - 1);
      NeededShrinks(rest, inputName, k - 1);
    }
  }

  /** A branch's subject survives to its branch exactly if it is in the fields tracked at the branch's layer. */
  lemma {:induction false} HeldAtEveryLayer(
    layers: seq<seq<Step>>, final: string, fields: set<string>, inputName: string)
    ensures SubjectsHeld(layers, final, fields, inputName) <==>
            forall k: nat, s | k < |layers| && s in layers[k] ::
              SubjectSet(s) <= FieldsAt(layers, final, fields, inputName, k)
    decreases |layers|
  {
    hide LiveAfter, Outputs, SubjectSet;
    if layers != [] {
      var rest, live := layers[1..], LiveAfter(layers[1..], final, fields + Outputs(layers[0]), inputName);
      HeldAtEveryLayer(rest, final, live, inputName);
      forall k: nat | k < |rest|
        ensures rest[k] == layers[k + 1]
        ensures FieldsAt(rest, final, live, inputName, k) == FieldsAt(layers, final, fields, inputName, k + 1)
      {
      }
      if SubjectsHeld(layers, final, fields, inputName) {
        forall k: nat, s | k < |layers| && s in layers[k]
          ensures SubjectSet(s) <= FieldsAt(layers, final, fields, inputName, k)
        {
          if k > 0 {
            assert s in rest[k - 1];
          }
        }
      }
      if forall k: nat, s | k < |layers| && s in layers[k] ::
           SubjectSet(s) <= FieldsAt(layers, final, fields, inputName, k)
      {
        forall k: nat, s | k < |rest| && s in rest[k]
          ensures SubjectSet(s) <= FieldsAt(rest, final, live, inputName, k)
        {
          assert s in layers[k + 1];
        }
        forall s | s in layers[0] ensures SubjectSet(s) <= fields {
          assert FieldsAt(layers, final, fields, inputName, 0) == fields;
        }
      }
    }
  }

  // ----- liveness at every layer -----

  lemma {:induction false} ReadyAt(layers: seq<seq<Step>>, done: set<string>, inputName: string, k: nat, s: Step)
    requires Ready(layers, done, inputName) && k < |layers| && s in layers[k]
    ensures InputSources(s) <= done + Outputs(Flatten(layers[..k]))
    decreases k
  {
    if k > 0 {
      assert layers[..k][0] == layers[0] && layers[..k][1..] == layers[1..][..k - 1];
      OutputsConcat(layers[0], Flatten(layers[1..][..k - 1]));
      ReadyAt(layers[1..], done + Outputs(layers[0]), inputName, k - 1, s);
    }
  }

  /** The keys that the nodes emitted for a step ask of the record: plucks, packs, merges and each_packs alike. */
  function KeysAsked(s: Step, inputName: string): set<string> {
    if IsBranch(s) then BranchFields(s)
    else if s.kind.Mapping? then Listed(s) + Captures(s)
    else if s.inputs == [] then {inputName}
    else Listed(s)
  }

  /**
   Liveness drops nothing: at the layer of each step the tracked fields hold all its sources, the input
   too if the graph was given it and the step consumes it, and with its subject every key it asks for.
   */
  lemma NothingAskedIsMissing(g: Graph, initial: set<string>, k: nat, s: Step)
    requires WellFormed(g) && SourcesInOrder(g, initial) && initial !! Outputs(g.steps) && Layers(g.steps, initial).Ok?
    requires k < |Layers(g.steps, initial).value| && s in Layers(g.steps, initial).value[k]
    ensures var fields := FieldsAt(Layers(g.steps, initial).value, FinalOutput(g), initial, g.inputName, k);
            && InputSources(s) <= fields
            && (g.inputName in initial && StepConsumes(s, g.inputName) ==> g.inputName in fields)
            && ((g.inputName in initial || !StepConsumes(s, g.inputName)) && SubjectSet(s) <= fields ==>
                  KeysAsked(s, g.inputName) <= fields)
  {
    var layers := Layers(g.steps, initial).value;
    LayersOf(g, initial);
    ReadyAt(layers, initial, g.inputName, k, s);
    if k > 0 {
      FieldsAtForm(layers, FinalOutput(g), initial, g.inputName, k);
      assert s in layers[k..][0];
      forall f | f in LiveSources(s, g.inputName) ensures f in Needed(layers[k..], g.inputName) {
        assert 0 <= 0 < |layers[k..]| && s in layers[k..][0] && f in LiveSources(s, g.inputName);
      }
    }
    assert IsLeaf(s) && s.inputs == [] ==> StepConsumes(s, g.inputName);
  }

  /** Nor is the result ever dropped. */
  lemma ResultIsNeverDropped(g: Graph, initial: set<string>)
    requires WellFormed(g) && SourcesInOrder(g, initial) && initial !! Outputs(g.steps) && Layers(g.steps, initial).Ok?
    requires FinalOutput(g) in initial + Outputs(g.steps)
    ensures var layers := Layers(g.steps, initial).value;
            FinalOutput(g) in FieldsAt(layers, FinalOutput(g), initial, g.inputName, |layers|)
  {
    var layers := Layers(g.steps, initial).value;
    LayersOf(g, initial);
    if layers != [] {
      FieldsAtForm(layers, FinalOutput(g), initial, g.inputName, |layers|);
      assert layers[..|layers|] == layers;
    }
  }

  /** A graph whose branch subjects are also read keeps them alive. */
  lemma ReadSubjectsSurvive(g: Graph, initial: set<string>)
    requires WellFormed(g) && SourcesInOrder(g, initial) && initial !! Outputs(g.steps)
    requires forall s :: s in g.steps && IsBranch(s) ==> SubjectIsRead(s)
    ensures SubjectsSurvive(g, initial)
  {
    DeclaredFrom(g, initial, 0);
    assert g.steps[0..] == g.steps && Outputs(g.steps[..0]) == {};
    assert initial + {g.inputName} + {} == initial + {g.inputName};
    DeclaredSubjectsPrecede(g.steps, initial + {g.inputName});
    if Layers(g.steps, initial).Ok? {
      var layers := Layers(g.steps, initial).value;
      HeldAtEveryLayer(layers, FinalOutput(g), initial, g.inputName);
      forall k: nat, s | k < |layers| && s in layers[k]
        ensures SubjectSet(s) <= FieldsAt(layers, FinalOutput(g), initial, g.inputName, k)
      {
        NothingAskedIsMissing(g, initial, k, s);
      }
    }
  }

  lemma {:induction false} DeclaredSubjectsPrecede(steps: seq<Step>, known: set<string>)
    requires Declared(steps, known) && forall s :: s in steps ==> SubjectSet(s) <= InputSources(s)
    ensures SubjectsPrecede(steps)
    decreases |steps|
  {
    if steps != [] {
      DeclaredIsFresh(steps, known);
      DeclaredSubjectsPrecede(steps[1..], known + {steps[0].output});
    }
  }

  // ----- completed runs -----

  lemma {:induction false} BranchEnds(h: Host, nodes: seq<Node>, v: Value, log: Log, i: nat) returns (logi: Log)
    requires ExecBranches(h, nodes, v, log).Batch? && i < |nodes|
    ensures Exec(h, nodes[i], v, logi).Done?
    decreases i
  {
    if i == 0 {
      logi := log;
    } else {
      logi := BranchEnds(h, nodes[1..], v, Exec(h, nodes[0], v, log).log, i - 1);
    }
  }

  lemma {:induction false} LayerNodesAt(steps: seq<Step>, layer: seq<Step>, inputName: string, i: nat)
    requires (forall s :: s in layer ==> s in steps) && LayerNodes(steps, layer, inputName).Ok? && i < |layer|
    ensures StepFromEnv(layer[i], inputName).Ok?
    ensures LayerNodes(steps, layer, inputName).value[i] == StepFromEnv(layer[i], inputName).value
    decreases |layer|
  {
    if i > 0 {
      LayerNodesAt(steps, layer[1..], inputName, i - 1);
    }
  }

  /** On this record every step of the layer compiles to a node that can run to its end. */
  ghost predicate AllEnd(h: Host, layer: seq<Step>, inputName: string, e: Env) {
    forall s :: s in layer ==> Ends(h, s, inputName, e)
  }

  ghost predicate Ends(h: Host, s: Step, inputName: string, e: Env) {
    StepFromEnv(s, inputName).Ok? && exists log :: Exec(h, StepFromEnv(s, inputName).value, Rec(e), log).Done?
  }

  /** The first layer of a program that ends: its nodes end, and the rest starts from the tracked fields. */
  lemma FirstLayerEnds(
    h: Host, steps: seq<Step>, layers: seq<seq<Step>>, final: string, fields: set<string>, inputName: string,
    e: Env, log: Log)
    returns (next: Env, after: Log)
    requires AllWithin(layers, steps) && (forall k | 0 <= k < |layers| :: layers[k] != [])
    requires EnvPieces(steps, layers, final, fields, inputName).Ok? && layers != [] && e.Keys == fields
    requires ExecList(h, EnvPieces(steps, layers, final, fields, inputName).value, Rec(e), log).Done?
    ensures AllEnd(h, layers[0], inputName, e)
    ensures !IsFinalLayer(layers, final) ==>
              var live := LiveAfter(layers[1..], final, fields + Outputs(layers[0]), inputName);
              && AllWithin(layers[1..], steps) && EnvPieces(steps, layers[1..], final, live, inputName).Ok?
              && next.Keys == live
              && ExecList(h, EnvPieces(steps, layers[1..], final, live, inputName).value, Rec(next), after)
              == ExecList(h, EnvPieces(steps, layers, final, fields, inputName).value, Rec(e), log)
  {
    next, after := e, log;
    if IsFinalLayer(layers, final) {
      ExecSeqItems(h, StepFromEnv(layers[0][0], inputName).value, Rec(e), log);
    } else {
      PiecesOfLayer(steps, layers, final, fields, inputName);
      next, after := LayerEnds(h, steps, layers, final, fields, inputName, e, log);
    }
  }

  lemma LayerEnds(
    h: Host, steps: seq<Step>, layers: seq<seq<Step>>, final: string, fields: set<string>, inputName: string,
    e: Env, log: Log)
    returns (next: Env, after: Log)
    requires AllWithin(layers, steps) && (forall k | 0 <= k < |layers| :: layers[k] != [])
    requires EnvPieces(steps, layers, final, fields, inputName).Ok? && layers != [] && e.Keys == fields
    requires AllWithin(layers[1..], steps) && LayerNodes(steps, layers[0], inputName).Ok?
    requires var held := fields + Outputs(layers[0]);
             var live := LiveAfter(layers[1..], final, held, inputName);
             && EnvPieces(steps, layers[1..], final, live, inputName).Ok?
             && EnvPieces(steps, layers, final, fields, inputName).value
             == LayerPieces(layers[0], LayerNodes(steps, layers[0], inputName).value, held, live)
                + EnvPieces(steps, layers[1..], final, live, inputName).value
    requires ExecList(h, EnvPieces(steps, layers, final, fields, inputName).value, Rec(e), log).Done?
    ensures AllEnd(h, layers[0], inputName, e)
    ensures var live := LiveAfter(layers[1..], final, fields + Outputs(layers[0]), inputName);
            && next.Keys == live
            && ExecList(h, EnvPieces(steps, layers[1..], final, live, inputName).value, Rec(next), after)
            == ExecList(h, EnvPieces(steps, layers, final, fields, inputName).value, Rec(e), log)
  {
    var layer, nodes := layers[0], LayerNodes(steps, layers[0], inputName).value;
    var live := LiveAfter(layers[1..], final, fields + Outputs(layer), inputName);
    forall n | n in nodes ensures !n.Par? {
      var i :| 0 <= i < |nodes| && nodes[i] == n;
      LayerNodesAt(steps, layer, inputName, i);
      StepIsNotPar(layer[i], inputName);
    }
    LayerRuns(h, layer, nodes, live, EnvPieces(steps, layers[1..], final, live, inputName).value, e, log);
    var batch := ExecBranches(h, nodes, Rec(e), log);
    next, after := Restrict(Assign(e, OutputList(layer), batch.values), live), batch.log;
    forall s | s in layer ensures Ends(h, s, inputName, e) {
      var i :| 0 <= i < |layer| && layer[i] == s;
      LayerNodesAt(steps, layer, inputName, i);
      var logi := BranchEnds(h, nodes, Rec(e), log, i);
    }
  }

  /**
   A program that ends passes every layer with a record of exactly the fields tracked there, on which each
   node of the layer runs to its end: no pluck, pack, merge or each_pack was without its key.
   */
  lemma {:induction false} EveryLayerIsReached(
    h: Host, steps: seq<Step>, layers: seq<seq<Step>>, final: string, fields: set<string>, inputName: string,
    e: Env, log: Log, k: nat)
    returns (reached: Env)
    requires AllWithin(layers, steps) && (forall k | 0 <= k < |layers| :: layers[k] != [])
    requires EnvPieces(steps, layers, final, fields, inputName).Ok? && e.Keys == fields && k < |layers|
    requires ExecList(h, EnvPieces(steps, layers, final, fields, inputName).value, Rec(e), log).Done?
    ensures reached.Keys == FieldsAt(layers, final, fields, inputName, k)
    ensures AllEnd(h, layers[k], inputName, reached)
    decreases k
  {
    hide StepFromEnv, LayerNodes, LiveAfter, Exec;
    var next, after := FirstLayerEnds(h, steps, layers, final, fields, inputName, e, log);
    if k == 0 {
      reached := e;
    } else {
      var live := LiveAfter(layers[1..], final, fields + Outputs(layers[0]), inputName);
      reached := EveryLayerIsReached(h, steps, layers[1..], final, live, inputName, next, after, k - 1);
    }
  }

  lemma EndedBranchWasComplete(h: Host, s: Step, inputName: string, e: Env)
    requires IsBranch(s) && Ends(h, s, inputName, e)
    ensures BranchFields(s) <= e.Keys
  {
    var log :| Exec(h, StepFromEnv(s, inputName).value, Rec(e), log).Done?;
    if !(BranchFields(s) <= e.Keys) {
      BranchNode(s);
      PruneOffRecord(h, s, BranchAlt(s), Rec(e), log);
    }
  }

  /** A program that ends has found every branch's subject in the tracked fields. */
  lemma DoneIsHeld(
    h: Host, steps: seq<Step>, layers: seq<seq<Step>>, final: string, fields: set<string>, inputName: string,
    e: Env, log: Log)
    requires AllWithin(layers, steps) && (forall k | 0 <= k < |layers| :: layers[k] != [])
    requires EnvPieces(steps, layers, final, fields, inputName).Ok? && e.Keys == fields
    requires ExecList(h, EnvPieces(steps, layers, final, fields, inputName).value, Rec(e), log).Done?
    ensures SubjectsHeld(layers, final, fields, inputName)
  {
    HeldAtEveryLayer(layers, final, fields, inputName);
    forall k: nat, s | k < |layers| && s in layers[k]
      ensures SubjectSet(s) <= FieldsAt(layers, final, fields, inputName, k)
    {
      var reached := EveryLayerIsReached(h, steps, layers, final, fields, inputName, e, log, k);
      if IsBranch(s) {
        EndedBranchWasComplete(h, s, inputName, reached);
      }
    }
  }

  /** A program that ends has found its result. */
  lemma {:induction false} DoneHasResult(
    h: Host, steps: seq<Step>, layers: seq<seq<Step>>, final: string, fields: set<string>, inputName: string,
    e: Env, log: Log)
    requires AllWithin(layers, steps) && (forall k | 0 <= k < |layers| :: layers[k] != [])
    requires EnvPieces(steps, layers, final, fields, inputName).Ok? && e.Keys == fields
    requires ExecList(h, EnvPieces(steps, layers, final, fields, inputName).value, Rec(e), log).Done?
    ensures final in fields + Outputs(Flatten(layers))
    decreases |layers|
  {
    if layers == [] {
      ExecOne(h, Arr(StdPluck(final)), Rec(e), log);
    } else {
      OutputsConcat(layers[0], Flatten(layers[1..]));
      if IsFinalLayer(layers, final) {
        assert layers[0][0] in layers[0];
      } else {
        var live := LiveAfter(layers[1..], final, fields + Outputs(layers[0]), inputName);
        var next, after := FirstLayerEnds(h, steps, layers, final, fields, inputName, e, log);
        DoneHasResult(h, steps, layers[1..], final, live, inputName, next, after);
      }
    }
  }

  /** A graph that runs to its end has bound every subject before its branch. */
  lemma {:induction false} DoneSubjectsPrecede(h: Host, steps: seq<Step>, inputName: string, r: Env, log: Log)
    requires RunSteps(h, steps, inputName, r, log).EnvDone? && DistinctOutputs(steps) && r.Keys !! Outputs(steps)
    ensures SubjectsPrecede(steps)
    decreases |steps|
  {
    if steps != [] {
      var s, rest := steps[0], steps[1..];
      assert steps == [s] + rest;
      OutputsConcat([s], rest);
      if !(SubjectSet(s) <= r.Keys) {
        UndecidedFails(h, s, inputName, r, log);
      }
      var first := RunStep(h, s, inputName, r, log);
      forall t | t in rest ensures t.output != s.output {
        var j :| 0 <= j < |rest| && rest[j] == t;
        assert steps[j + 1] == t && steps[0] == s;
      }
      DoneSubjectsPrecede(h, rest, inputName, r[s.output := first.value], first.log);
    }
  }
}
