/**
 The intermediate representation: a finite tree of nodes, its constructors, and its interpreter.
 */
module Ir {
  import opened Values

  datatype Selector = Field(name: string) | Input | Const(value: Value)

  /** Pure functions a node may name: the standard family with its static arguments, or a registered user pure. */
  datatype PureFn =
    | StdInit(key: string)
    | StdPluck(key: string)
    | StdAssign(key: string)
    | StdCollect(names: seq<string>)
    | StdPairMerge
    | StdMerge(names: seq<string>)
    | StdPack(selectors: map<string, Selector>)
    | StdUnpack(sources: map<string, string>)
    | StdRecord(args: Option<Value>)
    | StdEachPack(items: string, item: string, captures: map<string, string>, consts: Env)
    | StdBranchPredicate
    | StdBranchSelector
    | User(name: string, args: Option<Value>)

  const BRANCH := "__branch__"

  datatype PrimStep =
    | Call(tool: string, frozenHash: Option<string>)
    | Think(reasoner: string)
    | Sub(ref: string)

  datatype MergeKind = All | Race | Hedge | Quorum

  datatype Merge = Merge(kind: MergeKind, hedgeMs: Option<nat>, quorumM: Option<nat>, reducer: Option<string>)

  datatype NodeCase = NodeCase(key: string, node: Node)

  datatype Node =
    | Prim(id: string, step: PrimStep)
    | Ident
    | Arr(fn: PureFn)
    | Seq(left: Node, right: Node)
    | Par(merge: Option<Merge>, left: Node, right: Node)
    | Alt(pred: PureFn, ifTrue: Node, ifFalse: Node)
    | Switch(select: PureFn, cases: seq<NodeCase>, default: Option<Node>)
    | Each(body: Node, bound: Option<nat>, reducer: Option<PureFn>)
    | IterUpTo(rounds: nat, body: Node, until: Option<PureFn>)
    | EvalPlan(planner: string, plan: Option<Node>)
    | App(controller: string)
    | Loop(body: Node)

  // ----- standard pures -----

  /** The record merge of several env fields; later records win. */
  function MergeFields(h: Host, env: Env, names: seq<string>): Option<Env>
  {
    if names == [] then Some(map[])
    else
      var last := |names| - 1;
      if names[last] !in env then None
      else
        match MergeFields(h, env, names[..last])
        case None => None
        case Some(merged) =>
          match AsRecord(h, env[names[last]])
          case None => None
          case Some(record) => Some(merged + record)
  }

  function Select(v: Value, selector: Selector): Option<Value> {
    match selector
    case Field(name) => if v.Rec? && name in v.fields then Some(v.fields[name]) else None
    case Input => Some(v)
    case Const(c) => Some(c)
  }

  function Pack(v: Value, selectors: map<string, Selector>): Option<Value> {
    if forall f | f in selectors :: Select(v, selectors[f]).Some?
    then Some(Rec(map f | f in selectors :: Select(v, selectors[f]).value))
    else None
  }

  function PackItem(env: Env, item: string, element: Value, captures: map<string, string>, consts: Env): Value
    requires forall f | f in captures :: captures[f] in env
  {
    Rec(map[item := element] + (map f | f in captures :: env[captures[f]]) + consts)
  }

  function PackItems(env: Env, elements: seq<Value>, item: string, captures: map<string, string>, consts: Env)
    : Option<seq<Value>>
  {
    if elements == [] then Some([])
    else if forall f | f in captures :: captures[f] in env then
      match PackItems(env, elements[1..], item, captures, consts)
      case None => None
      case Some(rest) => Some([PackItem(env, item, elements[0], captures, consts)] + rest)
    else None
  }

  function Apply(h: Host, fn: PureFn, v: Value): Option<Value> {
    match fn
    case StdInit(key) => Some(Rec(map[key := v]))
    case StdPluck(key) => if v.Rec? && key in v.fields then Some(v.fields[key]) else None
    case StdAssign(key) =>
      if v.List? && |v.items| == 2 then
        match AsRecord(h, v.items[0])
        case None => None
        case Some(env) => Some(Rec(env[key := v.items[1]]))
      else None
    case StdCollect(names) =>
      if v.List? && |v.items| == |names| + 1 then
        match AsRecord(h, v.items[0])
        case None => None
        case Some(env) => Some(Rec(Assign(env, names, v.items[1..])))
      else None
    case StdPairMerge =>
      if v.List? && |v.items| == 2 then
        match AsRecord(h, v.items[0])
        case None => None
        case Some(left) =>
          match AsRecord(h, v.items[1])
          case None => None
          case Some(right) => Some(Rec(left + right))
      else None
    case StdMerge(names) =>
      if v.Rec? then
        match MergeFields(h, v.fields, names)
        case None => None
        case Some(merged) => Some(Rec(merged))
      else None
    case StdPack(selectors) => Pack(v, selectors)
    case StdUnpack(sources) => Pack(v, map f | f in sources :: Field(sources[f]))
    case StdRecord(args) => h.user("std.record", args, v)
    case StdEachPack(items, item, captures, consts) =>
      if v.Rec? && items in v.fields then
        match Elements(h, v.fields[items])
        case None => None
        case Some(elements) =>
          match PackItems(v.fields, elements, item, captures, consts)
          case None => None
          case Some(packed) => Some(List(packed))
      else None
    case StdBranchPredicate => if v.Rec? && BRANCH in v.fields then Some(Bool(Truthy(v.fields[BRANCH]))) else None
    case StdBranchSelector => if v.Rec? && BRANCH in v.fields then Some(Str(AsText(h, v.fields[BRANCH]))) else None
    case User(name, args) => h.user(name, args, v)
  }

  // ----- interpreter -----

  /** A `par` that waits for every branch; chains of these are one flat group of branches. */
  predicate IsAllPar(n: Node) {
    n.Par? && (n.merge.None? || n.merge.value.kind == All)
  }

  /** A `par` of one merge kind; a chain of these is one flat race group. */
  predicate InGroup(n: Node, kind: MergeKind) {
    n.Par? && n.merge.Some? && n.merge.value.kind == kind
  }

  /** Where a case key stands, or the number of cases if it is none of them. */
  function KeyIndex(keys: seq<string>, key: Value): (i: nat)
    ensures i <= |keys|
  {
    if keys == [] || Str(keys[0]) == key then 0 else 1 + KeyIndex(keys[1..], key)
  }

  function CaseIndex(cases: seq<NodeCase>, key: Value): (i: nat)
    ensures i <= |cases|
  {
    KeyIndex(seq(|cases|, i requires 0 <= i < |cases| => cases[i].key), key)
  }

  function Reduced(h: Host, reducer: Option<PureFn>, batch: Batch): Outcome {
    match batch
    case BatchUnmodelled => Unmodelled
    case BatchFail(log) => Fail(log)
    case Batch(values, log) =>
      match reducer
      case None => Done(List(values), log)
      case Some(fn) => Returned(Apply(h, fn, List(values)), log)
  }

  function Joined(first: Batch, second: Batch): Batch
    requires first.Batch?
  {
    if second.Batch? then Batch(first.values + second.values, second.log) else second
  }

  function Single(o: Outcome): Batch {
    match o
    case Done(v, log) => Batch([v], log)
    case Fail(log) => BatchFail(log)
    case Unmodelled => BatchUnmodelled
  }

  /** Evaluate a node on a value in a world. Branches of a `par` and items of an `each` run in order. */
  function Exec(h: Host, n: Node, v: Value, log: Log): Outcome
    decreases n, 2, 0
  {
    match n
    case Prim(_, Call(tool, _)) => Invoke(h, tool, v, log)
    case Prim(_, Think(reasoner)) => Returned(h.think(reasoner, v, log), log)
    case Ident => Done(v, log)
    case Arr(fn) => Returned(Apply(h, fn, v), log)
    case Seq(left, right) =>
      var first := Exec(h, left, v, log);
      if first.Done? then Exec(h, right, first.value, first.log) else first
    case Par(merge, _, _) =>
      if IsAllPar(n) then
        Reduced(h,
                if merge.None? || merge.value.reducer.None? then None else Some(User(merge.value.reducer.value, None)),
                Gather(h, n, v, log))
      else Unmodelled
    case Alt(pred, ifTrue, ifFalse) =>
      (match Apply(h, pred, v)
       case None => Fail(log)
       case Some(d) => if Truthy(d) then Exec(h, ifTrue, v, log) else Exec(h, ifFalse, v, log))
    case Switch(select, cases, default) =>
      (match Apply(h, select, v)
       case None => Fail(log)
       case Some(key) =>
         var i := CaseIndex(cases, key);
         if !Hashable(key) then Fail(log)
         else if i < |cases| then Exec(h, cases[i].node, v, log)
         else if default.Some? then Exec(h, default.value, v, log)
         else Fail(log))
    case Each(body, _, reducer) =>
      if v.List? then Reduced(h, reducer, ExecItems(h, body, v.items, log)) else Fail(log)
    case _ => Unmodelled
  }

  /** The results of a flat group of branches, every one of them given the same input. */
  function Gather(h: Host, n: Node, v: Value, log: Log): Batch
    requires IsAllPar(n)
    decreases n, 1, 0
  {
    var left := if IsAllPar(n.left) then Gather(h, n.left, v, log) else Single(Exec(h, n.left, v, log));
    if !left.Batch? then left
    else
      Joined(left,
             if IsAllPar(n.right) then Gather(h, n.right, v, left.log)
             else Single(Exec(h, n.right, v, left.log)))
  }

  function ExecItems(h: Host, body: Node, items: seq<Value>, log: Log): Batch
    decreases body, 3, |items|
  {
    if items == [] then Batch([], log)
    else
      var first := Single(Exec(h, body, items[0], log));
      if first.Batch? then Joined(first, ExecItems(h, body, items[1..], first.log)) else first
  }

  // ----- constructors -----

  /** `seq` over several flows: a left-leaning binary chain. */
  function Chain(nodes: seq<Node>): Node
    requires nodes != []
  {
    var last := |nodes| - 1;
    if last == 0 then nodes[0] else Seq(Chain(nodes[..last]), nodes[last])
  }

  /** `par` over several flows: a left-leaning binary chain. */
  function ParOf(nodes: seq<Node>): Node
    requires nodes != []
  {
    var last := |nodes| - 1;
    if last == 0 then nodes[0] else Par(None, ParOf(nodes[..last]), nodes[last])
  }

  function Prune(fields: set<string>): Node {
    Arr(StdPack(map f | f in fields :: Field(f)))
  }

  /** A prune to one field followed by a pluck of that field: the pluck alone does the work of both. */
  predicate Collapsible(first: Node, second: Node) {
    && second.Arr? && second.fn.StdPluck?
    && first == Arr(StdPack(map[second.fn.key := Field(second.fn.key)]))
  }

  function Collapse(nodes: seq<Node>): (r: seq<Node>)
    ensures nodes != [] ==> r != []
  {
    if |nodes| < 2 then nodes
    else if Collapsible(nodes[0], nodes[1]) then [nodes[1]] + Collapse(nodes[2..])
    else [nodes[0]] + Collapse(nodes[1..])
  }

  function SeqOf(nodes: seq<Node>): Node
    requires nodes != []
  {
    Chain(Collapse(nodes))
  }

  function SeqItems(n: Node): (r: seq<Node>)
    ensures r != []
  {
    if n.Seq? then SeqItems(n.left) + SeqItems(n.right) else [n]
  }
}
