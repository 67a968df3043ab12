/**
 The compiler from graphs to nodes: env threading with liveness pruning, branch lowering through the
 reserved branch field, closure conversion of `each` bodies, and the two fast paths of `compile`.
 */
module Compiler {
  import opened Values
  import opened Ir
  import opened Graph
  import opened Reference
  import opened Layering

  // ----- leaves and their projections -----

  function Leaf(s: Step): Node
    requires IsLeaf(s)
  {
    match s.kind
    case Tool(tool, _) => Prim("", Call(tool, None))
    case Thinking(reasoner) => Prim("", Think(reasoner))
    case Pure(fn) => Arr(fn)
    case Passthrough => Ident
  }

  function InputProjection(s: Step, inputName: string): Node {
    if s.inputs == [] then Arr(StdPluck(inputName))
    else if |s.inputs| == 1 then Arr(StdPluck(s.inputs[0]))
    else Arr(StdMerge(s.inputs))
  }

  function Plucks(names: seq<string>): seq<Node> {
    seq(|names|, i requires 0 <= i < |names| => Arr(StdPluck(names[i])))
  }

  function RecordProjection(s: Step): Node
    requires s.inputs != []
  {
    ParOf(Plucks(s.inputs))
  }

  // ----- steps over an env record -----

  function StepFromEnv(s: Step, inputName: string): Result<Node>
    decreases s, 7, 0
  {
    if IsBranch(s) then BranchFromEnv(s)
    else if s.kind.Mapping? then EachFromEnv(s)
    else if IsMultiMerge(s) then Ok(InputProjection(s, inputName))
    else if IsRecord(s) then
      if s.inputs == [] then Err else Ok(SeqOf([RecordProjection(s), Leaf(s)]))
    else Ok(SeqOf([InputProjection(s, inputName), Leaf(s)]))
  }

  /** The nodes that compute the branch decision into the reserved field, when there is a subject. */
  function DecisionPieces(s: Step): seq<Node>
    requires IsBranch(s)
  {
    match Subject(s)
    case None => []
    case Some(subject) =>
      var fn := if s.kind.Cond? then s.kind.pred else s.kind.select;
      [ParOf([Ident, SeqOf([Arr(StdPluck(subject)), Arr(fn)])]), Arr(StdAssign(BRANCH))]
  }

  function BranchFromEnv(s: Step): Result<Node>
    requires IsBranch(s)
    decreases s, 6, 0
  {
    var fields := BranchFields(s);
    var lowered :=
      match s.kind
      case Cond(pred, subject, ifTrue, ifFalse) =>
        (var onTrue :- ArmNode(ifTrue, fields);
         var onFalse :- ArmNode(ifFalse, fields);
         Ok(Alt(if subject.Some? then StdBranchPredicate else pred, onTrue, onFalse)))
      case Switching(select, subject, cases, default) =>
        (var compiled :- CaseNodes(cases, fields);
         var fallback :- DefaultNode(default, fields);
         if compiled == [] then Err
         else Ok(Switch(if subject.Some? then StdBranchSelector else select, compiled, fallback)));
    match lowered
    case Err => Err
    case Ok(alt) => Ok(SeqOf([Prune(fields)] + DecisionPieces(s) + [alt]))
  }

  function CaseNodes(cases: seq<GraphCase>, fields: set<string>): (r: Result<seq<NodeCase>>)
    ensures r.Ok? ==> |r.value| == |cases|
    decreases cases, 12, 0
  {
    if cases == [] then Ok([])
    else
      var arm :- ArmNode(cases[0].arm, fields);
      var rest :- CaseNodes(cases[1..], fields);
      Ok([NodeCase(cases[0].key, arm)] + rest)
  }

  function DefaultNode(default: Option<Graph>, fields: set<string>): (r: Result<Option<Node>>)
    ensures r.Ok? ==> (r.value.Some? <==> default.Some?)
    decreases default, 12, 0
  {
    match default
    case None => Ok(None)
    case Some(arm) =>
      var node :- ArmNode(arm, fields);
      Ok(Some(node))
  }

  function ArmNode(arm: Graph, incoming: set<string>): Result<Node>
    decreases arm, 11, 0
  {
    var fields := ArmFields(arm, incoming);
    var body :- CompileEnv(arm, fields);
    Ok(SeqOf([Prune(fields)] + SeqItems(body)))
  }

  // ----- each -----

  function Identity(fields: set<string>): map<string, string> {
    map f | f in fields :: f
  }

  function EachFromEnv(s: Step): Result<Node>
    requires s.kind.Mapping?
    decreases s, 6, 0
  {
    var captures := Captures(s);
    if |s.inputs| != 1 then Err
    else
      var body :- EachBody(s);
      var mapped := Each(body, s.kind.maxParallel, s.kind.reducer);
      if captures != {} then
        Ok(SeqOf([Arr(StdEachPack(s.inputs[0], s.kind.body.inputName, Identity(captures), s.kind.consts)), mapped]))
      else Ok(SeqOf([Arr(StdPluck(s.inputs[0])), mapped]))
  }

  /** An `each` on the raw flowing value has no environment to take captures from. */
  function EachFromFlowing(s: Step): Result<Node>
    requires s.kind.Mapping?
    decreases s, 6, 0
  {
    if Captures(s) != {} then Err
    else
      var body :- EachBody(s);
      Ok(Each(body, s.kind.maxParallel, s.kind.reducer))
  }

  function ItemSelectors(inputName: string, consts: Env): map<string, Selector> {
    map[inputName := Input] + (map c | c in consts :: Const(consts[c]))
  }

  /** Unpack a per-item record into the body's fields, then run the body over them. */
  function UnpackPieces(fields: set<string>, inner: Node): seq<Node> {
    [Arr(StdUnpack(Identity(fields)))] + SeqItems(inner)
  }

  function EachBody(s: Step): Result<Node>
    requires s.kind.Mapping?
    decreases s, 5, 0
  {
    var body, consts := s.kind.body, s.kind.consts;
    if Captures(s) == {} && consts == map[] then Compile(body)
    else
      var inner :- CompileEnv(body, BodyFields(s));
      var unpacked := UnpackPieces(BodyFields(s), inner);
      if Captures(s) != {} then Ok(SeqOf(unpacked))
      else Ok(SeqOf([Arr(StdPack(ItemSelectors(body.inputName, consts)))] + unpacked))
  }

  // ----- graphs over an env record -----

  /** What the layers still to come read, and the result once it is bound. */
  function LiveAfter(layers: seq<seq<Step>>, final: string, fields: set<string>, inputName: string): set<string> {
    fields * (Needed(layers, inputName) + {final})
  }

  function Needed(layers: seq<seq<Step>>, inputName: string): set<string> {
    set k, s, f | 0 <= k < |layers| && s in layers[k] && f in LiveSources(s, inputName) :: f
  }

  function LayerNodes(steps: seq<Step>, layer: seq<Step>, inputName: string): (r: Result<seq<Node>>)
    requires forall s :: s in layer ==> s in steps
    ensures r.Ok? ==> |r.value| == |layer|
    decreases steps, 8, |layer|
  {
    if layer == [] then Ok([])
    else
      assert layer[0] in steps;
      var node :- StepFromEnv(layer[0], inputName);
      var rest :- LayerNodes(steps, layer[1..], inputName);
      Ok([node] + rest)
  }

  function LayerFold(layer: seq<Step>): PureFn
    requires layer != []
  {
    if |layer| == 1 then StdAssign(layer[0].output) else StdCollect(OutputList(layer))
  }

  predicate IsFinalLayer(layers: seq<seq<Step>>, final: string) {
    |layers| == 1 && |layers[0]| == 1 && layers[0][0].output == final
  }

  /** The nodes for the layers still to run, given the fields the env record holds. */
  function EnvPieces(
    steps: seq<Step>, layers: seq<seq<Step>>, final: string, fields: set<string>, inputName: string)
    : (r: Result<seq<Node>>)
    requires AllWithin(layers, steps) && (forall k | 0 <= k < |layers| :: layers[k] != [])
    ensures r.Ok? ==> r.value != []
    decreases steps, 9, |layers|
  {
    if layers == [] then Ok([Arr(StdPluck(final))])
    else if IsFinalLayer(layers, final) then
      assert layers[0][0] in steps;
      var node :- StepFromEnv(layers[0][0], inputName);
      Ok(SeqItems(node))
    else
      var layer := layers[0];
      var nodes :- LayerNodes(steps, layer, inputName);
      var held := fields + Outputs(layer);
      var live := LiveAfter(layers[1..], final, held, inputName);
      var rest :- EnvPieces(steps, layers[1..], final, live, inputName);
      Ok([ParOf([Ident] + nodes), Arr(LayerFold(layer))] + (if live != held then [Prune(live)] else []) + rest)
  }

  function CompileEnv(g: Graph, initial: set<string>): Result<Node>
    decreases g, 10, 0
  {
    var ordered :- Toposort(g, initial);
    if !HasResult(g) then Ok(Ident)
    else
      var final := FinalOutput(g);
      if final !in initial + Outputs(g.steps) then Err
      else if ordered == [] then Ok(Arr(StdPluck(final)))
      else
        var layers :- Layers(g.steps, initial);
        var pieces :- EnvPieces(g.steps, layers, final, initial, g.inputName);
        Ok(SeqOf(pieces))
  }

  // ----- compile: graphs over one raw input -----

  predicate IsLinearChain(g: Graph) {
    && g.steps != []
    && g.steps[|g.steps| - 1].output == FinalOutput(g)
    && (forall s | s in g.steps :: !IsBranch(s) && Captures(s) == {})
    && g.steps[0].inputs == []
    && (forall i | 1 <= i < |g.steps| :: g.steps[i].inputs == [g.steps[i - 1].output])
  }

  function FlowingLeaf(s: Step): Result<Node>
    decreases s, 7, 0
  {
    if IsBranch(s) then BranchFromEnv(s)
    else if s.kind.Mapping? then EachFromFlowing(s)
    else Ok(Leaf(s))
  }

  function FlowingLeaves(steps: seq<Step>): (r: Result<seq<Node>>)
    ensures r.Ok? ==> |r.value| == |steps|
    decreases steps, 8, 0
  {
    if steps == [] then Ok([])
    else
      var node :- FlowingLeaf(steps[0]);
      var rest :- FlowingLeaves(steps[1..]);
      Ok([node] + rest)
  }

  predicate LaterConsume(layers: seq<seq<Step>>, inputName: string) {
    exists k, s | 0 <= k < |layers| && s in layers[k] :: StepConsumes(s, inputName)
  }

  /** The env record is started from the first step's result, and the raw input is dropped. */
  predicate FastStart(layers: seq<seq<Step>>, inputName: string)
    requires layers != []
  {
    |layers[0]| == 1 && layers[0][0].inputs == [] && !LaterConsume(layers[1..], inputName)
  }

  function LayeredPieces(g: Graph, layers: seq<seq<Step>>): (r: Result<seq<Node>>)
    requires layers != [] && AllWithin(layers, g.steps) && (forall k | 0 <= k < |layers| :: layers[k] != [])
    ensures r.Ok? ==> r.value != []
    decreases g.steps, 10, 0
  {
    var final := FinalOutput(g);
    var first := layers[0][0];
    assert first in layers[0] && first in g.steps;
    if IsFinalLayer(layers, final) && !IsBranch(first) then
      var node :- FlowingLeaf(first);
      Ok([node])
    else if !IsFinalLayer(layers, final) && FastStart(layers, g.inputName) then
      var node :- FlowingLeaf(first);
      var live := LiveAfter(layers[1..], final, {first.output}, g.inputName);
      LaterWithin(layers, g.steps);
      var rest :- EnvPieces(g.steps, layers[1..], final, live, g.inputName);
      Ok([node, Arr(StdInit(first.output))] + (if live != {first.output} then [Prune(live)] else []) + rest)
    else
      var rest :- EnvPieces(g.steps, layers, final, {g.inputName}, g.inputName);
      Ok([Arr(StdInit(g.inputName))] + rest)
  }

  function Compile(g: Graph): Result<Node>
    decreases g, 11, 0
  {
    var ordered :- Toposort(g, {g.inputName});
    if FinalOutput(g) !in {g.inputName} + Outputs(g.steps) then Err
    else if ordered == [] then Ok(Ident)
    else if IsLinearChain(g) then
      var nodes :- FlowingLeaves(g.steps);
      Ok(SeqOf(nodes))
    else
      var layers :- Layers(g.steps, {g.inputName});
      var pieces :- LayeredPieces(g, layers);
      Ok(SeqOf(pieces))
  }

  // ----- flows with bound parameters -----

  /** A flow with all parameters but one bound to constants: pack the record, then the env program. */
  function BoundFlow(g: Graph, remaining: string, bound: Env): Result<Node> {
    var program :- CompileEnv(g, {remaining} + bound.Keys);
    Ok(Chain([Arr(StdPack(ItemSelectors(remaining, bound))), program]))
  }
}
