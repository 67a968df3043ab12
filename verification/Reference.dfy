/**
 Reference semantics of a graph: its steps run one at a time, in declaration order, over an
 environment of names and a world. Branch arms and `each` bodies see the whole enclosing environment.
 */
module Reference {
  import opened Values
  import opened Ir
  import opened Graph
  import opened Layering

  function GraphKeys(cases: seq<GraphCase>): seq<string> {
    seq(|cases|, i requires 0 <= i < |cases| => cases[i].key)
  }

  function GraphCaseIndex(cases: seq<GraphCase>, key: Value): (i: nat)
    ensures i <= |cases|
  {
    KeyIndex(GraphKeys(cases), key)
  }

  function FieldValues(env: Env, names: seq<string>): Option<seq<Value>>
  {
    if names == [] then Some([])
    else
      var last := |names| - 1;
      match FieldValues(env, names[..last])
      case None => None
      case Some(values) => if names[last] in env then Some(values + [env[names[last]]]) else None
  }

  function MergedFields(h: Host, env: Env, names: seq<string>): Option<Value> {
    match MergeFields(h, env, names)
    case None => None
    case Some(merged) => Some(Rec(merged))
  }

  /** Authored `std.merge` of several inputs is the merge itself; there is no further call to make. */
  predicate IsMultiMerge(s: Step) {
    s.kind.Pure? && (s.kind.fn.StdPairMerge? || s.kind.fn.StdMerge?) && |s.inputs| > 1
  }

  predicate IsRecord(s: Step) {
    s.kind.Pure? && s.kind.fn.StdRecord?
  }

  /** The argument of a leaf step: the graph input, one field, or several fields put together. */
  function LeafArgument(h: Host, s: Step, inputName: string, env: Env): Option<Value> {
    if s.inputs == [] then
      if inputName in env then Some(env[inputName]) else None
    else if |s.inputs| == 1 then
      if s.inputs[0] in env then Some(env[s.inputs[0]]) else None
    else if IsRecord(s) then
      match FieldValues(env, s.inputs)
      case None => None
      case Some(values) => Some(List(values))
    else MergedFields(h, env, s.inputs)
  }

  function RunLeaf(h: Host, s: Step, arg: Value, log: Log): Outcome
    requires IsLeaf(s)
  {
    if IsMultiMerge(s) then Done(arg, log)
    else
      match s.kind
      case Tool(tool, _) => Invoke(h, tool, arg, log)
      case Thinking(reasoner) => Returned(h.think(reasoner, arg, log), log)
      case Pure(fn) => Returned(Apply(h, fn, arg), log)
      case Passthrough => Done(arg, log)
  }

  /** The value a branch decides on: its function of the subject, or of the record of its fields. */
  function Decision(h: Host, s: Step, env: Env): Option<Value>
    requires IsBranch(s)
  {
    var fn := if s.kind.Cond? then s.kind.pred else s.kind.select;
    match Subject(s)
    case None => Apply(h, fn, Rec(Restrict(env, BranchFields(s))))
    case Some(subject) => if subject in env then Apply(h, fn, env[subject]) else None
  }

  /** A selector computed from a subject is read as text; any other is looked up as it is. */
  function SwitchKey(h: Host, s: Step, decision: Value): Value
    requires IsBranch(s)
  {
    if Subject(s).Some? then Str(AsText(h, decision)) else decision
  }

  /** An `each` with captures walks any iterable; without captures it insists on a list. */
  function EachElements(h: Host, s: Step, items: Value): Option<seq<Value>> {
    if Captures(s) != {} then Elements(h, items)
    else if items.List? then Some(items.items)
    else None
  }

  /** The scope of one item: the enclosing environment, the item, and the constants. */
  function ItemEnv(env: Env, itemName: string, item: Value, consts: Env): Env {
    env[itemName := item] + consts
  }

  function RunStep(h: Host, s: Step, inputName: string, env: Env, log: Log): (o: Outcome)
    ensures !o.Unmodelled?
    decreases s, 0, 0
  {
    match s.kind
    case Cond(_, _, ifTrue, ifFalse) =>
      (match Decision(h, s, env)
       case None => Fail(log)
       case Some(d) => if Truthy(d) then RunGraph(h, ifTrue, env, log) else RunGraph(h, ifFalse, env, log))
    case Switching(_, _, cases, default) =>
      (match Decision(h, s, env)
       case None => Fail(log)
       case Some(d) =>
         var i := GraphCaseIndex(cases, SwitchKey(h, s, d));
         if !Hashable(SwitchKey(h, s, d)) then Fail(log)
         else if i < |cases| then RunGraph(h, cases[i].arm, env, log)
         else if default.Some? then RunGraph(h, default.value, env, log)
         else Fail(log))
    case Mapping(body, _, reducer, consts) =>
      if |s.inputs| == 1 && s.inputs[0] in env then
        match EachElements(h, s, env[s.inputs[0]])
        case None => Fail(log)
        case Some(elements) => Reduced(h, reducer, RunItems(h, body, env, consts, elements, log))
      else Fail(log)
    case _ =>
      match LeafArgument(h, s, inputName, env)
      case None => Fail(log)
      case Some(arg) => RunLeaf(h, s, arg, log)
  }

  function RunSteps(h: Host, steps: seq<Step>, inputName: string, env: Env, log: Log): EnvOutcome
    decreases steps, 0, 0
  {
    if steps == [] then EnvDone(env, log)
    else
      var first := RunStep(h, steps[0], inputName, env, log);
      if first.Done? then RunSteps(h, steps[1..], inputName, env[steps[0].output := first.value], first.log)
      else EnvFail(first.log)
  }

  function Finish(ran: EnvOutcome, name: string): Outcome {
    match ran
    case EnvFail(log) => Fail(log)
    case EnvDone(env, log) => if name in env then Done(env[name], log) else Fail(log)
  }

  function RunGraph(h: Host, g: Graph, env: Env, log: Log): (o: Outcome)
    ensures !o.Unmodelled?
    decreases g, 0, 0
  {
    Finish(RunSteps(h, g.steps, g.inputName, env, log), FinalOutput(g))
  }

  function RunItems(h: Host, body: Graph, env: Env, consts: Env, items: seq<Value>, log: Log): (b: Batch)
    ensures !b.BatchUnmodelled?
    decreases body, 1, |items|
  {
    if items == [] then Batch([], log)
    else
      var first := Single(RunGraph(h, body, ItemEnv(env, body.inputName, items[0], consts), log));
      if first.Batch? then Joined(first, RunItems(h, body, env, consts, items[1..], first.log)) else first
  }

  // ----- the reference run as an instance of any step-by-step run -----

  function StepRunner(h: Host, inputName: string): Runner {
    (s, env, log) => RunStep(h, s, inputName, env, log)
  }

  lemma RunStepsIsRunWith(h: Host, steps: seq<Step>, inputName: string, env: Env, log: Log)
    ensures RunSteps(h, steps, inputName, env, log) == RunWith(StepRunner(h, inputName), steps, env, log)
  {
  }

  lemma RunEach(h: Host, s: Step, inputName: string, env: Env, log: Log)
    requires s.kind.Mapping? && |s.inputs| == 1 && s.inputs[0] in env
    ensures var elements := EachElements(h, s, env[s.inputs[0]]);
            RunStep(h, s, inputName, env, log) ==
            if elements.None? then Fail(log)
            else Reduced(h, s.kind.reducer, RunItems(h, s.kind.body, env, s.kind.consts, elements.value, log))
  {
  }

  lemma RunItemsCons(h: Host, body: Graph, env: Env, consts: Env, first: Value, rest: seq<Value>, log: Log)
    ensures RunItems(h, body, env, consts, [first] + rest, log) ==
            var o := Single(RunGraph(h, body, ItemEnv(env, body.inputName, first, consts), log));
            if o.Batch? then Joined(o, RunItems(h, body, env, consts, rest, o.log)) else o
  {
    assert ([first] + rest)[1..] == rest;
  }

  // ----- steps that are not barriers leave the world alone -----

  lemma {:induction false} ReadsKeepTheWorld(h: Host, s: Step, inputName: string, env: Env, log: Log)
    requires HonestStep(h, s) && !IsBarrier(s)
    ensures RunStep(h, s, inputName, env, log).log == log
    decreases s, 0, 0
  {
    match s.kind {
      case Cond(_, _, ifTrue, ifFalse) =>
        ReadGraphKeepsTheWorld(h, ifTrue, env, log);
        ReadGraphKeepsTheWorld(h, ifFalse, env, log);
      case Switching(_, _, cases, default) =>
        var d := Decision(h, s, env);
        if d.Some? {
          var i := GraphCaseIndex(cases, SwitchKey(h, s, d.value));
          if i < |cases| {
            HonestCaseOf(h, cases, i);
            NoBarrierInCase(cases, i);
            ReadGraphKeepsTheWorld(h, cases[i].arm, env, log);
          } else if default.Some? {
            ReadGraphKeepsTheWorld(h, default.value, env, log);
          }
        }
      case Mapping(body, _, reducer, consts) =>
        if |s.inputs| == 1 && s.inputs[0] in env {
          var elements := EachElements(h, s, env[s.inputs[0]]);
          if elements.Some? {
            ReadItemsKeepTheWorld(h, body, env, consts, elements.value, log);
          }
        }
      case _ =>
    }
  }

  lemma NoBarrierInCase(cases: seq<GraphCase>, i: nat)
    requires !CasesHaveBarrier(cases) && i < |cases|
    ensures !HasBarrier(cases[i].arm.steps)
  {
    if i > 0 {
      NoBarrierInCase(cases[1..], i - 1);
    }
  }

  lemma {:induction false} ReadGraphKeepsTheWorld(h: Host, g: Graph, env: Env, log: Log)
    requires Honest(h, g.steps) && !HasBarrier(g.steps)
    ensures RunGraph(h, g, env, log).log == log
    decreases g, 0, 0
  {
    ReadStepsKeepTheWorld(h, g.steps, g.inputName, env, log);
  }

  lemma {:induction false} ReadStepsKeepTheWorld(h: Host, steps: seq<Step>, inputName: string, env: Env, log: Log)
    requires Honest(h, steps) && !HasBarrier(steps)
    ensures RunSteps(h, steps, inputName, env, log).log == log
    decreases steps, 0, 0
  {
    if steps != [] {
      ReadsKeepTheWorld(h, steps[0], inputName, env, log);
      var first := RunStep(h, steps[0], inputName, env, log);
      if first.Done? {
        ReadStepsKeepTheWorld(h, steps[1..], inputName, env[steps[0].output := first.value], log);
      }
    }
  }

  lemma {:induction false} ReadItemsKeepTheWorld(
    h: Host, body: Graph, env: Env, consts: Env, items: seq<Value>, log: Log)
    requires Honest(h, body.steps) && !HasBarrier(body.steps)
    ensures RunItems(h, body, env, consts, items, log).log == log
    decreases body, 1, |items|
  {
    if items != [] {
      ReadGraphKeepsTheWorld(h, body, ItemEnv(env, body.inputName, items[0], consts), log);
      ReadItemsKeepTheWorld(h, body, env, consts, items[1..], log);
    }
  }
}
