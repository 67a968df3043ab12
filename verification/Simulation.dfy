/**
 The layered program simulates a step-by-step run. The argument treats the meaning of one step as
 given: `Sound` says that a compiled step on the env record does what the step does.
 */
module Simulation {
  import opened Values
  import opened Ir
  import opened Graph
  import opened Reference
  import opened Layering
  import opened Compiler
  import opened WellFormedness
  import opened ExecFacts

  /** The env record answers for everything the step reads. */
  ghost predicate Fits(s: Step, inputName: string, e: Env, r: Env) {
    Agree(e, r, Reads(s, inputName)) && InputSources(s) + SubjectSet(s) <= e.Keys && BRANCH !in e && BRANCH !in r
  }

  ghost predicate Sound(h: Host, run: Runner, s: Step, inputName: string, node: Node) {
    !node.Par? &&
    forall e: Env, r: Env, log: Log {:trigger Exec(h, node, Rec(e), log), run(s, r, log)} ::
      Fits(s, inputName, e, r) ==> Exec(h, node, Rec(e), log) == run(s, r, log)
  }

  /** The nodes compiled for the steps of a layer, each sound for its step. */
  ghost predicate Paired(h: Host, run: Runner, layer: seq<Step>, nodes: seq<Node>, inputName: string) {
    && |nodes| == |layer|
    && (layer != [] ==>
          Sound(h, run, layer[0], inputName, nodes[0]) && Paired(h, run, layer[1..], nodes[1..], inputName))
  }

  lemma PairedAreNotPar(h: Host, run: Runner, layer: seq<Step>, nodes: seq<Node>, inputName: string)
    requires Paired(h, run, layer, nodes, inputName)
    ensures forall n :: n in nodes ==> !n.Par?
  {
  }

  ghost predicate Modelled(run: Runner) {
    forall s: Step, r: Env, log: Log {:trigger run(s, r, log)} :: !run(s, r, log).Unmodelled?
  }

  // ----- one layer -----

  lemma AssignKeys(env: Env, names: seq<string>, values: seq<Value>)
    requires |names| == |values|
    ensures Assign(env, names, values).Keys == env.Keys + set n | n in names
    decreases |names|
  {
    if names != [] {
      AssignKeys(env[names[0] := values[0]], names[1..], values[1..]);
      assert names == [names[0]] + names[1..];
    }
  }

  lemma AssignAgree(e: Env, r: Env, names: seq<string>, values: seq<Value>, fields: set<string>)
    requires |names| == |values| && Agree(e, r, fields)
    ensures Agree(Assign(e, names, values), Assign(r, names, values), fields + set n | n in names)
    decreases |names|
  {
    if names != [] {
      assert Agree(e[names[0] := values[0]], r[names[0] := values[0]], fields + {names[0]});
      AssignAgree(e[names[0] := values[0]], r[names[0] := values[0]], names[1..], values[1..], fields + {names[0]});
      assert names == [names[0]] + names[1..];
    }
  }

  lemma OutputListSet(layer: seq<Step>)
    ensures (set n | n in OutputList(layer)) == Outputs(layer)
  {
    forall s | s in layer ensures s.output in OutputList(layer) {
      var i :| 0 <= i < |layer| && layer[i] == s;
      assert OutputList(layer)[i] == s.output;
    }
  }

  ghost predicate LayerFits(layer: seq<Step>, inputName: string, e: Env, r: Env, outputs: set<string>) {
    && BRANCH !in outputs
    && (forall s :: s in layer ==>
          Fits(s, inputName, e, r) && Reads(s, inputName) !! outputs && s.output in outputs)
  }

  /** A batch of branch results stands for the bindings a run of the layer's steps makes. */
  ghost predicate Matches(ran: EnvOutcome, batch: Batch, names: seq<string>, r: Env) {
    match ran
    case EnvFail(log) => batch == BatchFail(log)
    case EnvDone(r', log) =>
      batch.Batch? && |batch.values| == |names| && batch.log == log && r' == Assign(r, names, batch.values)
  }

  lemma MatchesCons(ran: EnvOutcome, batch: Batch, name: string, v: Value, names: seq<string>, r: Env, log: Log)
    requires Matches(ran, batch, names, r[name := v])
    ensures Matches(ran, if batch.Batch? then Joined(Batch([v], log), batch) else batch, [name] + names, r)
  {
    assert ([name] + names)[1..] == names;
    if batch.Batch? {
      assert ([v] + batch.values)[1..] == batch.values;
    }
  }

  lemma StepDoes(h: Host, run: Runner, s: Step, node: Node, inputName: string, e: Env, r: Env, log: Log)
    requires Sound(h, run, s, inputName, node) && Fits(s, inputName, e, r)
    ensures Exec(h, node, Rec(e), log) == run(s, r, log)
  {
  }

  lemma BranchesCons(h: Host, n: Node, nodes: seq<Node>, v: Value, log: Log)
    ensures ExecBranches(h, [n] + nodes, v, log) ==
            var o := Exec(h, n, v, log);
            if o.Done? then Joined(Batch([o.value], o.log), ExecBranches(h, nodes, v, o.log)) else Single(o)
  {
    assert ([n] + nodes)[1..] == nodes;
  }

  /** The branches of a layer, all given the same record, do what its steps do one after another. */
  lemma {:induction false} LayerSound(
    h: Host, run: Runner, layer: seq<Step>, nodes: seq<Node>, inputName: string, outputs: set<string>,
    e: Env, r: Env, log: Log)
    requires Modelled(run) && Paired(h, run, layer, nodes, inputName)
    requires LayerFits(layer, inputName, e, r, outputs)
    ensures Matches(RunWith(run, layer, r, log), ExecBranches(h, nodes, Rec(e), log), OutputList(layer), r)
    decreases |layer|
  {
    if layer != [] {
      var s, tail, later := layer[0], layer[1..], nodes[1..];
      assert layer == [s] + tail && nodes == [nodes[0]] + later;
      StepDoes(h, run, s, nodes[0], inputName, e, r, log);
      RunCons(run, s, tail, r, log);
      BranchesCons(h, nodes[0], later, Rec(e), log);
      var o := run(s, r, log);
      if o.Done? {
        var r1 := r[s.output := o.value];
        LayerFitsTail(layer, inputName, e, r, outputs, o.value);
        LayerSound(h, run, tail, later, inputName, outputs, e, r1, o.log);
        assert OutputList(layer) == [s.output] + OutputList(tail);
        MatchesCons(RunWith(run, tail, r1, o.log), ExecBranches(h, later, Rec(e), o.log), s.output, o.value,
                    OutputList(tail), r, o.log);
      }
    }
  }

  lemma LayerFitsTail(layer: seq<Step>, inputName: string, e: Env, r: Env, outputs: set<string>, v: Value)
    requires layer != [] && LayerFits(layer, inputName, e, r, outputs)
    ensures LayerFits(layer[1..], inputName, e, r[layer[0].output := v], outputs)
  {
    forall t | t in layer[1..]
      ensures Fits(t, inputName, e, r[layer[0].output := v]) && Reads(t, inputName) !! outputs && t.output in outputs
    {
      assert t in layer && layer[0] in layer && layer[0].output !in LiveSources(t, inputName);
    }
  }

  lemma LayerFoldSound(h: Host, layer: seq<Step>, e: Env, values: seq<Value>, log: Log)
    requires layer != [] && |values| == |layer|
    ensures Exec(h, Arr(LayerFold(layer)), List([Rec(e)] + values), log)
         == Done(Rec(Assign(e, OutputList(layer), values)), log)
  {
    assert ([Rec(e)] + values)[1..] == values;
    if |layer| == 1 {
      var e1 := e[layer[0].output := values[0]];
      assert OutputList(layer)[1..] == [] && values[1..] == [];
      assert Assign(e1, OutputList(layer)[1..], values[1..]) == e1;
    }
  }

  /** The nodes emitted for one layer: its branches beside the record, the fold back, and the liveness prune. */
  function LayerPieces(layer: seq<Step>, nodes: seq<Node>, held: set<string>, live: set<string>): seq<Node>
    requires layer != []
  {
    [ParOf([Ident] + nodes), Arr(LayerFold(layer))] + (if live != held then [Prune(live)] else [])
  }

  lemma PruneSound(h: Host, live: set<string>, held: set<string>, rest: seq<Node>, env: Env, log: Log)
    requires env.Keys == held && live <= held
    ensures ExecList(h, (if live != held then [Prune(live)] else []) + rest, Rec(env), log)
         == ExecList(h, rest, Rec(Restrict(env, live)), log)
  {
    if live != held {
      ExecCons(h, Prune(live), rest, Rec(env), log);
      ExecPrune(h, live, env, log);
    } else {
      assert [] + rest == rest;
      assert Restrict(env, live) == env;
    }
  }

  /** One layer on a record: its branches run in order, and the record is folded and pruned if they all end. */
  lemma LayerRuns(
    h: Host, layer: seq<Step>, nodes: seq<Node>, live: set<string>, rest: seq<Node>, e: Env, log: Log)
    requires layer != [] && |nodes| == |layer| && (forall n :: n in nodes ==> !n.Par?)
    requires live <= e.Keys + Outputs(layer)
    ensures var batch := ExecBranches(h, nodes, Rec(e), log);
            var o := ExecList(h, LayerPieces(layer, nodes, e.Keys + Outputs(layer), live) + rest, Rec(e), log);
            && (batch.Batch? ==>
                  && |batch.values| == |layer|
                  && Restrict(Assign(e, OutputList(layer), batch.values), live).Keys == live
                  && o == ExecList(h, rest, Rec(Restrict(Assign(e, OutputList(layer), batch.values), live)), batch.log))
            && (batch.BatchFail? ==> o == Fail(batch.log)) && (batch.BatchUnmodelled? ==> o == Unmodelled)
  {
    var held := e.Keys + Outputs(layer);
    var prune := if live != held then [Prune(live)] else [];
    var group, fold := ParOf([Ident] + nodes), Arr(LayerFold(layer));
    var tail := [fold] + (prune + rest);
    assert LayerPieces(layer, nodes, held, live) + rest == [group] + tail;
    ExecParOf(h, [Ident] + nodes, Rec(e), log);
    BranchesAfterIdent(h, nodes, Rec(e), log);
    ExecCons(h, group, tail, Rec(e), log);
    var batch := ExecBranches(h, nodes, Rec(e), log);
    BatchSize(h, nodes, Rec(e), log);
    if batch.Batch? {
      var values := batch.values;
      var e' := Assign(e, OutputList(layer), values);
      ExecCons(h, fold, prune + rest, List([Rec(e)] + values), batch.log);
      LayerFoldSound(h, layer, e, values, batch.log);
      AssignKeys(e, OutputList(layer), values);
      OutputListSet(layer);
      PruneSound(h, live, held, rest, e', batch.log);
    }
  }

  lemma BatchSize(h: Host, nodes: seq<Node>, v: Value, log: Log)
    ensures var batch := ExecBranches(h, nodes, v, log); batch.Batch? ==> |batch.values| == |nodes|
  {
  }

  /** One layer: it fails where its steps fail, and otherwise leaves the pruned record of their bindings. */
  lemma LayerStep(
    h: Host, run: Runner, layer: seq<Step>, nodes: seq<Node>, inputName: string, live: set<string>,
    rest: seq<Node>, e: Env, r: Env, log: Log)
    returns (values: seq<Value>)
    requires layer != [] && Modelled(run) && Paired(h, run, layer, nodes, inputName)
    requires LayerFits(layer, inputName, e, r, Outputs(layer))
    requires live <= e.Keys + Outputs(layer)
    ensures var ran := RunWith(run, layer, r, log);
            var o := ExecList(h, LayerPieces(layer, nodes, e.Keys + Outputs(layer), live) + rest, Rec(e), log);
            && (ran.EnvFail? ==> o == Fail(ran.log))
            && (ran.EnvDone? ==>
                  && |values| == |layer| && ran.env == Assign(r, OutputList(layer), values)
                  && o == ExecList(h, rest, Rec(Restrict(Assign(e, OutputList(layer), values), live)), ran.log))
  {
    PairedAreNotPar(h, run, layer, nodes, inputName);
    LayerRuns(h, layer, nodes, live, rest, e, log);
    LayerSound(h, run, layer, nodes, inputName, Outputs(layer), e, r, log);
    var batch := ExecBranches(h, nodes, Rec(e), log);
    values := if batch.Batch? then batch.values else [];
  }

  lemma BranchesAfterIdent(h: Host, nodes: seq<Node>, v: Value, log: Log)
    ensures ExecBranches(h, [Ident] + nodes, v, log) == Joined(Batch([v], log), ExecBranches(h, nodes, v, log))
  {
    assert ([Ident] + nodes)[1..] == nodes;
  }

  // ----- all layers -----

  ghost predicate AllSound(h: Host, run: Runner, layers: seq<seq<Step>>, inputName: string) {
    forall s :: s in Flatten(layers) && StepFromEnv(s, inputName).Ok? ==>
      Sound(h, run, s, inputName, StepFromEnv(s, inputName).value)
  }

  /**
   The record at a layer boundary: it holds exactly the fields the compiler tracks, agrees with the
   reference run on them, and lacks nothing that is bound and still needed.
   */
  ghost predicate Boundary(
    layers: seq<seq<Step>>, final: string, fields: set<string>, done: set<string>, inputName: string, e: Env, r: Env)
  {
    && e.Keys == fields && fields <= done && Agree(e, r, fields)
    && (Needed(layers, inputName) + {final}) * done <= fields
    && (inputName in Needed(layers, inputName) && inputName !in done ==> inputName !in r)
    && BRANCH !in done && BRANCH !in r
  }

  lemma NeededOf(layers: seq<seq<Step>>, inputName: string)
    requires layers != []
    ensures forall s :: s in layers[0] ==> LiveSources(s, inputName) <= Needed(layers, inputName)
    ensures Needed(layers[1..], inputName) <= Needed(layers, inputName)
  {
    forall f | f in Needed(layers[1..], inputName) ensures f in Needed(layers, inputName) {
      var k, s :| 0 <= k < |layers[1..]| && s in layers[1..][k] && f in LiveSources(s, inputName);
      assert s in layers[k + 1];
    }
  }

  lemma LayerNodesSound(h: Host, run: Runner, steps: seq<Step>, layer: seq<Step>, inputName: string)
    requires forall s :: s in layer ==> s in steps
    requires forall s :: s in layer && StepFromEnv(s, inputName).Ok? ==>
               Sound(h, run, s, inputName, StepFromEnv(s, inputName).value)
    requires LayerNodes(steps, layer, inputName).Ok?
    ensures Paired(h, run, layer, LayerNodes(steps, layer, inputName).value, inputName)
  {
    if layer != [] {
      assert layer[0] in layer;
      assert LayerNodes(steps, layer, inputName).value[1..] == LayerNodes(steps, layer[1..], inputName).value;
      LayerNodesSound(h, run, steps, layer[1..], inputName);
    }
  }

  /** The record after a layer stands in the same relation to the layers left. */
  lemma BoundaryAdvances(
    layers: seq<seq<Step>>, final: string, fields: set<string>, done: set<string>, inputName: string,
    e: Env, r: Env, values: seq<Value>)
    requires layers != [] && Boundary(layers, final, fields, done, inputName, e, r)
    requires |values| == |layers[0]| && inputName !in Outputs(layers[0]) && BRANCH !in Outputs(layers[0])
    ensures var held := fields + Outputs(layers[0]);
            var live := LiveAfter(layers[1..], final, held, inputName);
            var names := OutputList(layers[0]);
            Boundary(layers[1..], final, live, done + Outputs(layers[0]), inputName,
                     Restrict(Assign(e, names, values), live), Assign(r, names, values))
  {
    var names := OutputList(layers[0]);
    AssignKeys(e, names, values);
    AssignKeys(r, names, values);
    AssignAgree(e, r, names, values, fields);
    OutputListSet(layers[0]);
    NeededOf(layers, inputName);
  }

  lemma LayerIsFitted(
    layers: seq<seq<Step>>, final: string, fields: set<string>, done: set<string>, inputName: string, e: Env, r: Env)
    requires layers != [] && Boundary(layers, final, fields, done, inputName, e, r)
    requires Ready(layers, done, inputName) && BRANCH !in Outputs(layers[0])
    requires forall s :: s in layers[0] ==> SubjectSet(s) <= fields
    ensures LayerFits(layers[0], inputName, e, r, Outputs(layers[0]))
  {
    NeededOf(layers, inputName);
    forall s | s in layers[0]
      ensures Fits(s, inputName, e, r) && Reads(s, inputName) !! Outputs(layers[0])
    {
      assert Reads(s, inputName) <= done + {inputName};
      forall f | f in Reads(s, inputName) ensures (f in e <==> f in r) && (f in e ==> e[f] == r[f]) {
        assert f in Needed(layers, inputName) || f in fields;
      }
    }
  }

  /** The last step, when it is the result, runs straight from the record. */
  lemma FinalLayerSound(
    h: Host, run: Runner, layers: seq<seq<Step>>, final: string, node: Node, inputName: string,
    e: Env, r: Env, log: Log)
    requires IsFinalLayer(layers, final) && Modelled(run)
    requires Sound(h, run, layers[0][0], inputName, node) && Fits(layers[0][0], inputName, e, r)
    ensures ExecList(h, SeqItems(node), Rec(e), log) == Finish(RunWith(run, Flatten(layers), r, log), final)
  {
    var s := layers[0][0];
    ExecSeqItems(h, node, Rec(e), log);
    assert Flatten(layers) == [s] + [];
    RunCons(run, s, [], r, log);
    StepDoes(h, run, s, node, inputName, e, r, log);
  }

  lemma PiecesOfLayer(steps: seq<Step>, layers: seq<seq<Step>>, final: string, fields: set<string>, inputName: string)
    requires AllWithin(layers, steps) && (forall k | 0 <= k < |layers| :: layers[k] != [])
    requires layers != [] && !IsFinalLayer(layers, final)
    requires EnvPieces(steps, layers, final, fields, inputName).Ok?
    ensures var held := fields + Outputs(layers[0]);
            var live := LiveAfter(layers[1..], final, held, inputName);
            && LayerNodes(steps, layers[0], inputName).Ok?
            && AllWithin(layers[1..], steps)
            && EnvPieces(steps, layers[1..], final, live, inputName).Ok?
            && EnvPieces(steps, layers, final, fields, inputName).value
            == LayerPieces(layers[0], LayerNodes(steps, layers[0], inputName).value, held, live)
               + EnvPieces(steps, layers[1..], final, live, inputName).value
  {
  }

  /** One layer that is not the last: it fails where its steps fail, and leaves the record at the next boundary. */
  lemma LayerAhead(
    h: Host, run: Runner, steps: seq<Step>, layers: seq<seq<Step>>, final: string, fields: set<string>,
    done: set<string>, inputName: string, e: Env, r: Env, log: Log)
    returns (next: Env)
    requires AllWithin(layers, steps) && (forall k | 0 <= k < |layers| :: layers[k] != [])
    requires EnvPieces(steps, layers, final, fields, inputName).Ok? && layers != [] && !IsFinalLayer(layers, final)
    requires Modelled(run) && AllSound(h, run, layers, inputName)
    requires Boundary(layers, final, fields, done, inputName, e, r)
    requires LayerFits(layers[0], inputName, e, r, Outputs(layers[0]))
    requires inputName !in Outputs(layers[0]) && BRANCH !in Outputs(layers[0])
    ensures var live := LiveAfter(layers[1..], final, fields + Outputs(layers[0]), inputName);
            var ran := RunWith(run, layers[0], r, log);
            && AllWithin(layers[1..], steps) && EnvPieces(steps, layers[1..], final, live, inputName).Ok?
            && ExecList(h, EnvPieces(steps, layers, final, fields, inputName).value, Rec(e), log)
            == (if ran.EnvFail? then Fail(ran.log)
                else ExecList(h, EnvPieces(steps, layers[1..], final, live, inputName).value, Rec(next), ran.log))
            && (ran.EnvDone? ==>
                  Boundary(layers[1..], final, live, done + Outputs(layers[0]), inputName, next, ran.env))
  {
    hide StepFromEnv, InputSources, Reads, LayerNodes, RunWith, Needed;
    var layer, rest := layers[0], layers[1..];
    var live := LiveAfter(rest, final, fields + Outputs(layer), inputName);
    assert Flatten(layers) == layer + Flatten(rest);
    PiecesOfLayer(steps, layers, final, fields, inputName);
    LayerNodesSound(h, run, steps, layer, inputName);
    var values := LayerStep(h, run, layer, LayerNodes(steps, layer, inputName).value, inputName, live,
                            EnvPieces(steps, rest, final, live, inputName).value, e, r, log);
    next := e;
    if RunWith(run, layer, r, log).EnvDone? {
      next := Restrict(Assign(e, OutputList(layer), values), live);
      BoundaryAdvances(layers, final, fields, done, inputName, e, r, values);
    }
  }

  /** The nodes emitted for the layers compute what running the layers' steps computes. */
  lemma {:induction false} PiecesSound(
    h: Host, run: Runner, steps: seq<Step>, layers: seq<seq<Step>>, final: string, fields: set<string>,
    done: set<string>, inputName: string, e: Env, r: Env, log: Log)
    requires AllWithin(layers, steps) && (forall k | 0 <= k < |layers| :: layers[k] != [])
    requires EnvPieces(steps, layers, final, fields, inputName).Ok?
    requires Modelled(run) && AllSound(h, run, layers, inputName)
    requires Ready(layers, done, inputName) && Boundary(layers, final, fields, done, inputName, e, r)
    requires final in done + Outputs(Flatten(layers)) && BRANCH !in Outputs(Flatten(layers))
    requires SubjectsHeld(layers, final, fields, inputName)
    ensures ExecList(h, EnvPieces(steps, layers, final, fields, inputName).value, Rec(e), log)
         == Finish(RunWith(run, Flatten(layers), r, log), final)
    decreases |layers|
  {
    hide StepFromEnv, InputSources, Reads, LayerNodes, Needed;
    if layers == [] {
      ExecOne(h, Arr(StdPluck(final)), Rec(e), log);
    } else {
      var layer, rest := layers[0], layers[1..];
      assert Flatten(layers) == layer + Flatten(rest);
      assert forall s :: s in layer || s in Flatten(rest) ==> s in Flatten(layers);
      OutputsConcat(layer, Flatten(rest));
      LayerIsFitted(layers, final, fields, done, inputName, e, r);
      if IsFinalLayer(layers, final) {
        assert layer[0] in layer;
        FinalLayerSound(h, run, layers, final, StepFromEnv(layer[0], inputName).value, inputName, e, r, log);
      } else {
        var live := LiveAfter(rest, final, fields + Outputs(layer), inputName);
        var next := LayerAhead(h, run, steps, layers, final, fields, done, inputName, e, r, log);
        RunWithConcat(run, layer, Flatten(rest), r, log);
        var ran := RunWith(run, layer, r, log);
        if ran.EnvDone? {
          PiecesSound(h, run, steps, rest, final, live, done + Outputs(layer), inputName, next, ran.env, ran.log);
        }
      }
    }
  }
}
