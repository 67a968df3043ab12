/** The frontend's side of inlining: choosing names and adding the renamed steps to the caller's graph. */
module FreshNames {
  import opened Values
  import opened Numerals
  import opened Ir
  import opened Graph
  import opened Layering
  import opened Inlining
  import opened Substitution
  import opened Builder

  /** The names tried for a step of a call, in order. */
  function Candidate(call: string, original: string, i: nat): string {
    if i == 0 then call + "__" + original else call + "__" + original + "_" + Decimal(i)
  }

  lemma CandidatesDiffer(call: string, original: string, i: nat, j: nat)
    requires i < j
    ensures Candidate(call, original, i) != Candidate(call, original, j)
  {
    var base := call + "__" + original;
    var c, d := Candidate(call, original, i), Candidate(call, original, j);
    assert d[|base| + 1..] == Decimal(j);
    if i == 0 {
      assert |d| > |c|;
    } else {
      assert c[|base| + 1..] == Decimal(i);
      if c == d {
        DecimalReadsBack(i);
        DecimalReadsBack(j);
      }
    }
  }

  /** The name a step gets: its own if it is free, else the first candidate that is. */
  ghost predicate IsChosen(bound: set<string>, call: string, original: string, name: string) {
    if original !in bound then name == original
    else exists i: nat :: name == Candidate(call, original, i) && name !in bound && IsTaken(bound, call, original, i)
  }

  ghost predicate IsTaken(bound: set<string>, call: string, original: string, i: nat) {
    forall j: nat :: j < i ==> Candidate(call, original, j) in bound
  }

  ghost predicate AreEarlier(tried: set<string>, call: string, original: string, i: nat) {
    forall d :: d in tried ==> exists j: nat :: j < i && d == Candidate(call, original, j)
  }

  /** A candidate that turns out to be taken is one more bound name the search has seen: it cannot go on forever. */
  lemma NextCandidate(bound: set<string>, call: string, original: string, i: nat, tried: set<string>)
    requires IsTaken(bound, call, original, i) && Candidate(call, original, i) in bound
    requires tried <= bound && AreEarlier(tried, call, original, i)
    ensures var more := tried + {Candidate(call, original, i)};
            IsTaken(bound, call, original, i + 1) && AreEarlier(more, call, original, i + 1)
            && |tried| < |more| <= |bound|
  {
    var name := Candidate(call, original, i);
    if name in tried {
      var j: nat :| j < i && name == Candidate(call, original, j);
      CandidatesDiffer(call, original, j, i);
      assert false;
    }
    SubsetSize(tried + {name}, bound);
  }

  class BuildContext {
    const graph: GraphBuilder
    var bound: set<string>

    ghost predicate Valid()
      reads this, graph
    {
      graph.Valid() && graph.outputs <= bound && graph.inputName in bound
    }

    constructor (graph: GraphBuilder)
      requires graph.Valid()
      ensures Valid() && this.graph == graph && bound == graph.outputs + {graph.inputName}
    {
      this.graph, bound := graph, graph.outputs + {graph.inputName};
    }

    method InlineOutputName(call: string, original: string) returns (name: string)
      modifies this
      ensures IsChosen(old(bound), call, original, name)
      ensures name !in old(bound) && bound == old(bound) + {name}
    {
      if original !in bound {
        bound := bound + {original};
        return original;
      }
      name := Candidate(call, original, 0);
      var index := 0;
      ghost var tried: set<string> := {};
      while name in bound
        invariant name == Candidate(call, original, index) && IsTaken(bound, call, original, index)
        invariant tried <= bound == old(bound) && AreEarlier(tried, call, original, index)
        decreases |bound| - |tried|
      {
        NextCandidate(bound, call, original, index, tried);
        tried := tried + {name};
        index := index + 1;
        name := Candidate(call, original, index);
      }
      bound := bound + {name};
    }

    /** Rename the parameter to the handle and every step output to the call's output or a fresh name. */
    method PlanRenaming(flow: Graph, handle: string, output: string) returns (m: Renaming)
      requires flow.outputName.Some? && DistinctOutputs(flow.steps)
      requires flow.inputName !in Outputs(flow.steps) && flow.outputName.value in Outputs(flow.steps)
      requires output in bound
      modifies this
      ensures FreshRenaming(flow, m, handle, output, old(bound) - {output})
      ensures bound == old(bound) + Image(m, Outputs(flow.steps))
    {
      m := map[flow.inputName := handle];
      for k := 0 to |flow.steps|
        invariant m.Keys == {flow.inputName} + Outputs(flow.steps[..k]) && m[flow.inputName] == handle
        invariant bound == old(bound) + Image(m, Outputs(flow.steps[..k]))
        invariant Injective(m, Outputs(flow.steps[..k]))
        invariant forall y :: y in Outputs(flow.steps[..k]) ==>
                    if y == flow.outputName.value then m[y] == output else m[y] !in old(bound)
      {
        var original := flow.steps[k].output;
        NextOutput(flow.steps, k);
        ghost var before := m;
        if original == flow.outputName.value {
          m := m[original := output];
        } else {
          var name := InlineOutputName(output, original);
          m := m[original := name];
        }
        ExtendRenaming(before, m, Outputs(flow.steps[..k]), original);
      }
      assert flow.steps[..|flow.steps|] == flow.steps;
    }

    /** Add one step to the caller's graph the way its kind asks for. */
    method AddStep(s: Step) returns (added: bool)
      requires graph.Valid() && (s.kind.Mapping? ==> |s.inputs| == 1)
      modifies graph
      ensures graph.Valid() && added == old(Accepts(graph, s))
      ensures graph.steps == if added then old(graph.steps) + [s] else old(graph.steps)
      ensures graph.outputs == if added then old(graph.outputs) + {s.output} else old(graph.outputs)
    {
      LastOutput(graph.steps, s);
      match s.kind {
        case Cond(pred, subject, ifTrue, ifFalse) =>
          added := graph.AddCond(pred, s.inputs, s.output, ifTrue, ifFalse, subject);
        case Switching(select, subject, cases, default) =>
          added := graph.AddSwitch(select, s.inputs, s.output, cases, default, subject);
        case Mapping(body, maxParallel, reducer, consts) =>
          assert s.inputs == [s.inputs[0]];
          added := graph.AddEach(body, s.inputs[0], s.output, maxParallel, reducer, consts);
        case kind => added := graph.AddStep(kind, s.inputs, s.output);
      }
    }

    method AddInlined(flow: Graph, m: Renaming) returns (added: bool)
      requires graph.Valid() && StepsScoped(flow.steps, flow.inputName, {flow.inputName})
      modifies graph
      ensures graph.Valid() && graph.outputs <= old(graph.outputs) + Image(m, Outputs(flow.steps))
      ensures added ==> graph.steps == old(graph.steps) + InlinedSteps(flow.steps, m, flow.inputName, graph.inputName)
      ensures !added ==> StopsShort(old(graph.steps), flow, m)
    {
      hide StepsScoped, InlinedStep, To;
      assert InlinedSteps(flow.steps[..0], m, flow.inputName, graph.inputName) == [];
      for k := 0 to |flow.steps|
        invariant graph.Valid() && graph.outputs <= old(graph.outputs) + Image(m, Outputs(flow.steps))
        invariant graph.steps == old(graph.steps) + InlinedSteps(flow.steps[..k], m, flow.inputName, graph.inputName)
      {
        var s := InlinedStep(flow.steps[k], m, flow.inputName, graph.inputName);
        InlinedShape(flow, m, graph.inputName, k);
        var ok := AddStep(s);
        if !ok {
          assert StopsAt(old(graph.steps), flow, m, k);
          return false;
        }
        NextInlined(flow.steps, m, flow.inputName, graph.inputName, k);
      }
      assert flow.steps[..|flow.steps|] == flow.steps;
      added := true;
    }

    /** The graph holds the call's first steps and refuses the next one. */
    ghost predicate StopsShort(before: seq<Step>, flow: Graph, m: Renaming)
      reads this, graph
    {
      exists k: nat :: k < |flow.steps| && StopsAt(before, flow, m, k)
    }

    ghost predicate StopsAt(before: seq<Step>, flow: Graph, m: Renaming, k: nat)
      requires k < |flow.steps|
      reads this, graph
    {
      && graph.steps == before + InlinedSteps(flow.steps[..k], m, flow.inputName, graph.inputName)
      && !Accepts(graph, InlinedStep(flow.steps[k], m, flow.inputName, graph.inputName))
    }

    /** Inline a call of the flow on a handle, unless the graph refuses one of the renamed steps. */
    method InlineFlow(flow: Graph, handle: string, output: string) returns (added: bool, m: Renaming)
      requires Valid() && output in bound && output !in graph.outputs + {graph.inputName} && Callable(flow)
      modifies this, graph
      ensures Valid() && FreshRenaming(flow, m, handle, output, old(graph.outputs) + {graph.inputName})
      ensures added ==> graph.steps == old(graph.steps) + InlinedSteps(flow.steps, m, flow.inputName, graph.inputName)
      ensures !added ==> StopsShort(old(graph.steps), flow, m)
    {
      m := PlanRenaming(flow, handle, output);
      added := AddInlined(flow, m);
    }
  }

  lemma {:induction false} ScopedAt(steps: seq<Step>, inputName: string, scope: set<string>, k: nat)
    requires StepsScoped(steps, inputName, scope) && k < |steps|
    ensures steps[k].kind.Mapping? ==> |steps[k].inputs| == 1
    decreases k
  {
    if k > 0 {
      ScopedAt(steps[1..], inputName, scope + {steps[0].output}, k - 1);
    }
  }

  /** A renamed step has a renamed output, and an `each` still lists its items alone. */
  lemma InlinedShape(flow: Graph, m: Renaming, target: string, k: nat)
    requires StepsScoped(flow.steps, flow.inputName, {flow.inputName}) && k < |flow.steps|
    ensures var s := InlinedStep(flow.steps[k], m, flow.inputName, target);
            s.output in Image(m, Outputs(flow.steps)) && (s.kind.Mapping? ==> |s.inputs| == 1)
  {
    ScopedAt(flow.steps, flow.inputName, {flow.inputName}, k);
    assert flow.steps[k] in flow.steps && flow.steps[k].output in Outputs(flow.steps);
  }

  lemma NextInlined(steps: seq<Step>, m: Renaming, source: string, target: string, k: nat)
    requires k < |steps|
    ensures InlinedSteps(steps[..k + 1], m, source, target)
         == InlinedSteps(steps[..k], m, source, target) + [InlinedStep(steps[k], m, source, target)]
  {
  }

  lemma LastOutput(steps: seq<Step>, s: Step)
    ensures Outputs(steps + [s]) == Outputs(steps) + {s.output}
  {
    OutputsConcat(steps, [s]);
    assert Outputs([s]) == {s.output};
  }

  /** What a graph under construction asks of a step. */
  predicate Accepts(graph: GraphBuilder, s: Step)
    reads graph
  {
    && !Reserved(s.output) && s.output !in graph.outputs
    && (s.kind.Switching? ==> s.kind.cases != [])
    && (s.kind.Mapping? ==> s.kind.maxParallel != Some(0) && Captures(s) <= graph.outputs + {graph.inputName})
  }

  lemma SubsetSize(a: set<string>, b: set<string>)
    requires a <= b
    ensures |a| <= |b|
  {
    if a != {} {
      var x :| x in a;
      SubsetSize(a - {x}, b - {x});
    }
  }

  lemma NextOutput(steps: seq<Step>, k: nat)
    requires DistinctOutputs(steps) && k < |steps|
    ensures Outputs(steps[..k + 1]) == Outputs(steps[..k]) + {steps[k].output}
    ensures steps[k].output in Outputs(steps) && steps[k].output !in Outputs(steps[..k])
  {
    assert steps[..k + 1] == steps[..k] + [steps[k]];
    OutputsConcat(steps[..k], [steps[k]]);
    assert Outputs([steps[k]]) == {steps[k].output};
    assert steps[k] in steps;
  }

  lemma ExtendRenaming(before: Renaming, after: Renaming, names: set<string>, y: string)
    requires y !in names && names <= before.Keys && y in after && after == before[y := after[y]]
    ensures Image(after, names + {y}) == Image(before, names) + {after[y]}
  {
    forall x | x in names ensures To(after, x) == To(before, x) && To(after, x) in Image(after, names + {y}) {
      assert x in names + {y};
    }
    assert y in names + {y} && To(after, y) == after[y];
  }
}
