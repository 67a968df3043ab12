/** The compiler's passes as the loops that run them, each proved to compute its specification. */
module Passes {
  import opened Values
  import opened Ir
  import opened Graph
  import opened Layering
  import opened Compiler
  import opened Scheduling

  // ----- node constructors -----

  /** The left fold behind `seq` and `par`. */
  method Binary(parallel: bool, flows: seq<Node>) returns (r: Node)
    requires flows != []
    ensures r == if parallel then ParOf(flows) else Chain(flows)
  {
    r := flows[0];
    assert flows[..1] == [flows[0]];
    for i := 1 to |flows|
      invariant r == if parallel then ParOf(flows[..i]) else Chain(flows[..i])
    {
      assert flows[..i + 1][..i] == flows[..i];
      r := if parallel then Par(None, r, flows[i]) else Seq(r, flows[i]);
    }
    assert flows[..|flows|] == flows;
  }

  lemma CollapsePair(nodes: seq<Node>, index: nat)
    requires index + 1 < |nodes| && Collapsible(nodes[index], nodes[index + 1])
    ensures Collapse(nodes[index..]) == [nodes[index + 1]] + Collapse(nodes[index + 2..])
  {
    assert nodes[index..][2..] == nodes[index + 2..];
  }

  lemma CollapseOne(nodes: seq<Node>, index: nat)
    requires index < |nodes| && !(index + 1 < |nodes| && Collapsible(nodes[index], nodes[index + 1]))
    ensures Collapse(nodes[index..]) == [nodes[index]] + Collapse(nodes[index + 1..])
  {
    assert nodes[index..][1..] == nodes[index + 1..];
    if index + 1 == |nodes| {
      assert nodes[index..] == [nodes[index]] && Collapse(nodes[index + 1..]) == [];
    }
  }

  lemma AppendOne(collapsed: seq<Node>, n: Node, rest: seq<Node>)
    ensures collapsed + ([n] + rest) == collapsed + [n] + rest
  {
  }

  method CollapsePrunePluckPairs(nodes: seq<Node>) returns (collapsed: seq<Node>)
    ensures collapsed == Collapse(nodes)
  {
    collapsed := [];
    var index := 0;
    assert nodes[0..] == nodes && [] + Collapse(nodes) == Collapse(nodes);
    while index < |nodes|
      invariant index <= |nodes|
      invariant Collapse(nodes) == collapsed + Collapse(nodes[index..])
    {
      if index + 1 < |nodes| && Collapsible(nodes[index], nodes[index + 1]) {
        CollapsePair(nodes, index);
        AppendOne(collapsed, nodes[index + 1], Collapse(nodes[index + 2..]));
        collapsed, index := collapsed + [nodes[index + 1]], index + 2;
      } else {
        CollapseOne(nodes, index);
        AppendOne(collapsed, nodes[index], Collapse(nodes[index + 1..]));
        collapsed, index := collapsed + [nodes[index]], index + 1;
      }
    }
    assert nodes[|nodes|..] == [] && collapsed + [] == collapsed;
  }

  // ----- the linear-chain test -----

  function Tally(consumers: map<string, nat>, field: string): nat {
    if field in consumers then consumers[field] else 0
  }

  predicate ChainLinks(steps: seq<Step>)
    requires steps != []
  {
    steps[0].inputs == [] && forall i | 1 <= i < |steps| :: steps[i].inputs == [steps[i - 1].output]
  }

  /**
   The test counts every source's consumers and insists on at most one each. With distinct outputs
   the links already say so, so the count never rejects.
   */
  method DetectLinearChain(g: Graph) returns (linear: bool)
    requires DistinctOutputs(g.steps)
    ensures linear == IsLinearChain(g)
  {
    hide Captures, InputSources, IsBranch;
    var steps := g.steps;
    if steps == [] || steps[|steps| - 1].output != FinalOutput(g) {
      return false;
    }
    for i := 0 to |steps|
      invariant forall j | 0 <= j < i :: !IsBranch(steps[j]) && Captures(steps[j]) == {}
    {
      if IsBranch(steps[i]) || Captures(steps[i]) != {} {
        assert steps[i] in g.steps;
        return false;
      }
    }
    if steps[0].inputs != [] {
      return false;
    }
    for i := 1 to |steps|
      invariant forall j | 1 <= j < i :: steps[j].inputs == [steps[j - 1].output]
    {
      if |steps[i].inputs| != 1 || steps[i].inputs[0] != steps[i - 1].output {
        return false;
      }
      assert steps[i].inputs == [steps[i - 1].output];
    }
    var consumers: map<string, nat> := map[];
    for i := 0 to |steps|
      invariant forall f | f in consumers :: consumers[f] == 1 && exists j | 0 <= j < i - 1 :: steps[j].output == f
    {
      ghost var before := consumers;
      ChainSources(steps, i);
      var pending := InputSources(steps[i]);
      while pending != {}
        invariant pending <= InputSources(steps[i])
        invariant forall f | f in consumers ::
                    consumers[f] == 1 && (f in before || (f in InputSources(steps[i]) && f !in pending))
        decreases |pending|
      {
        var source :| source in pending;
        pending := pending - {source};
        consumers := consumers[source := Tally(consumers, source) + 1];
      }
    }
    linear := forall s | s in steps :: Tally(consumers, s.output) <= 1;
  }

  lemma ChainSources(steps: seq<Step>, i: nat)
    requires i < |steps| && ChainLinks(steps)
    requires !IsBranch(steps[i]) && Captures(steps[i]) == {}
    ensures InputSources(steps[i]) == if i == 0 then {} else {steps[i - 1].output}
  {
  }

  // ----- compile_env and compile -----

  function PrependPieces(pieces: seq<Node>, rest: Result<seq<Node>>): Result<seq<Node>> {
    match rest
    case Err => Err
    case Ok(more) => Ok(pieces + more)
  }

  lemma PrependTwice(a: seq<Node>, b: seq<Node>, rest: Result<seq<Node>>)
    ensures PrependPieces(a + b, rest) == PrependPieces(a, PrependPieces(b, rest))
    ensures PrependPieces([], rest) == rest
  {
    if rest.Ok? {
      assert a + b + rest.value == a + (b + rest.value) && [] + rest.value == rest.value;
    }
  }

  /** The nodes of one layer that is not the last word: its group, its fold, and a prune if fields died. */
  method CompileLayer(
    steps: seq<Step>, layers: seq<seq<Step>>, final: string, fields: set<string>, inputName: string)
    returns (pieces: Result<seq<Node>>, live: set<string>)
    requires layers != [] && AllWithin(layers, steps) && (forall k | 0 <= k < |layers| :: layers[k] != [])
    requires !IsFinalLayer(layers, final)
    ensures AllWithin(layers[1..], steps)
    ensures final in live <==> final in fields + Outputs(layers[0])
    ensures EnvPieces(steps, layers, final, fields, inputName) ==
            if pieces.Err? then Err
            else PrependPieces(pieces.value, EnvPieces(steps, layers[1..], final, live, inputName))
  {
    var layer := layers[0];
    LaterWithin(layers, steps);
    var held := fields + Outputs(layer);
    live := LiveAfter(layers[1..], final, held, inputName);
    var nodes := LayerNodes(steps, layer, inputName);
    if nodes.Err? {
      pieces := Err;
    } else {
      var prune := if live != held then [Prune(live)] else [];
      pieces := Ok([ParOf([Ident] + nodes.value), Arr(LayerFold(layer))] + prune);
    }
  }

  lemma FlattenHead(layers: seq<seq<Step>>)
    requires layers != []
    ensures Outputs(Flatten(layers)) == Outputs(layers[0]) + Outputs(Flatten(layers[1..]))
  {
    OutputsConcat(layers[0], Flatten(layers[1..]));
  }

  /** The result field is held at the end of the layers exactly if something binds it. */
  ghost predicate Holds(final: string, fields: set<string>, layers: seq<seq<Step>>) {
    final in fields + Outputs(Flatten(layers))
  }

  lemma HoldsOn(final: string, fields: set<string>, live: set<string>, layers: seq<seq<Step>>)
    requires layers != [] && (final in live <==> final in fields + Outputs(layers[0]))
    ensures Holds(final, live, layers[1..]) == Holds(final, fields, layers)
  {
    FlattenHead(layers);
  }

  /**
   The loop over the layers that both entry points share once an env record is flowing. It also
   reports the fields held at the end, unless the last layer was the result itself.
   */
  method CompileLayers(
    steps: seq<Step>, layers: seq<seq<Step>>, final: string, initial: set<string>, inputName: string)
    returns (r: Result<seq<Node>>, held: Option<set<string>>)
    requires AllWithin(layers, steps) && (forall k | 0 <= k < |layers| :: layers[k] != [])
    ensures r == EnvPieces(steps, layers, final, initial, inputName)
    ensures r.Ok? && held.Some? ==> (final in held.value <==> Holds(final, initial, layers))
    ensures r.Ok? && held.None? ==> Holds(final, initial, layers)
  {
    var pieces: seq<Node>, current, todo := [], initial, layers;
    PrependTwice([], [], EnvPieces(steps, layers, final, initial, inputName));
    while todo != []
      invariant AllWithin(todo, steps) && (forall k | 0 <= k < |todo| :: todo[k] != [])
      invariant EnvPieces(steps, layers, final, initial, inputName)
             == PrependPieces(pieces, EnvPieces(steps, todo, final, current, inputName))
      invariant Holds(final, current, todo) == Holds(final, initial, layers)
      decreases |todo|
    {
      if IsFinalLayer(todo, final) {
        assert todo[0][0] in todo[0];
        FlattenHead(todo);
        var node := StepFromEnv(todo[0][0], inputName);
        return if node.Err? then Err else Ok(pieces + SeqItems(node.value)), None;
      }
      var compiled, live := CompileLayer(steps, todo, final, current, inputName);
      HoldsOn(final, current, live, todo);
      if compiled.Err? {
        return Err, None;
      }
      PrependTwice(pieces, compiled.value, EnvPieces(steps, todo[1..], final, live, inputName));
      pieces, current, todo := pieces + compiled.value, live, todo[1..];
    }
    return Ok(pieces + [Arr(StdPluck(final))]), Some(current);
  }

  lemma LayersBindOutputs(steps: seq<Step>, initial: set<string>)
    requires Layers(steps, initial).Ok?
    ensures Outputs(Flatten(Layers(steps, initial).value)) == Outputs(steps)
  {
    var flat := Flatten(Layers(steps, initial).value);
    LayersPartition(steps, initial);
    forall s ensures s in flat <==> s in steps {
      assert s in flat <==> s in multiset(flat);
      assert s in steps <==> s in multiset(steps);
    }
  }

  method CompileEnvGraph(g: Graph, initial: set<string>) returns (r: Result<Node>)
    requires DistinctOutputs(g.steps)
    ensures r == CompileEnv(g, initial)
  {
    var ordered := DepthFirstSort(g, initial);
    if ordered.Err? {
      return Err;
    }
    if g.outputName.None? && ordered.value == [] {
      return Ok(Ident);
    }
    var final := if g.outputName.Some? then g.outputName.value else ordered.value[|ordered.value| - 1].output;
    if ordered.value == [] {
      return if final !in initial then Err else Ok(Arr(StdPluck(final)));
    }
    var layers := EffectFencedLayers(ordered.value, initial);
    if layers.Err? {
      return Err;
    }
    LayersBindOutputs(g.steps, initial);
    var pieces, held := CompileLayers(g.steps, layers.value, final, initial, g.inputName);
    if pieces.Err? || (held.Some? && final !in held.value) {
      return Err;
    }
    var collapsed := CollapsePrunePluckPairs(pieces.value);
    var node := Binary(false, collapsed);
    return Ok(node);
  }

  method CompileGraph(g: Graph) returns (r: Result<Node>)
    requires DistinctOutputs(g.steps)
    ensures r == Compile(g)
  {
    var ordered := DepthFirstSort(g, {g.inputName});
    if ordered.Err? {
      return Err;
    }
    var final := FinalOutput(g);
    if final != g.inputName && final !in Outputs(g.steps) {
      return Err;
    }
    if ordered.value == [] {
      return Ok(Ident);
    }
    var pieces: Result<seq<Node>>;
    var linear := DetectLinearChain(g);
    if linear {
      pieces := FlowingLeaves(g.steps);
    } else {
      var layers := EffectFencedLayers(ordered.value, {g.inputName});
      if layers.Err? {
        return Err;
      }
      pieces := CompileLayered(g, layers.value);
    }
    if pieces.Err? {
      return Err;
    }
    var collapsed := CollapsePrunePluckPairs(pieces.value);
    var node := Binary(false, collapsed);
    return Ok(node);
  }

  method CompileLayered(g: Graph, layers: seq<seq<Step>>) returns (r: Result<seq<Node>>)
    requires layers != [] && AllWithin(layers, g.steps) && (forall k | 0 <= k < |layers| :: layers[k] != [])
    ensures r == LayeredPieces(g, layers)
  {
    var final, first := FinalOutput(g), layers[0][0];
    assert first in layers[0];
    if |layers| == 1 && |layers[0]| == 1 && first.output == final && !IsBranch(first) {
      var node := FlowingLeaf(first);
      return if node.Err? then Err else Ok([node.value]);
    }
    if !IsFinalLayer(layers, final) && FastStart(layers, g.inputName) {
      var node := FlowingLeaf(first);
      if node.Err? {
        return Err;
      }
      var live := LiveAfter(layers[1..], final, {first.output}, g.inputName);
      LaterWithin(layers, g.steps);
      var rest, _ := CompileLayers(g.steps, layers[1..], final, live, g.inputName);
      var head := [node.value, Arr(StdInit(first.output))] + (if live != {first.output} then [Prune(live)] else []);
      return PrependPieces(head, rest);
    }
    var rest, _ := CompileLayers(g.steps, layers, final, {g.inputName}, g.inputName);
    return PrependPieces([Arr(StdInit(g.inputName))], rest);
  }
}
