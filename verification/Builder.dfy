/** The authoring surface: a graph under construction, which rejects steps the compiler could not name. */
module Builder {
  import opened Values
  import opened Ir
  import opened Graph
  import opened Layering

  /** Names of the form `__..__` are the compiler's own. A newline keeps a name out of the pattern. */
  predicate Reserved(name: string) {
    && |name| >= 4
    && name[..2] == "__" && name[|name| - 2..] == "__"
    && '\n' !in name
  }

  class GraphBuilder {
    const inputName: string
    const explicit: bool
    var outputName: Option<string>
    var steps: seq<Step>
    var outputs: set<string>

    ghost predicate Valid()
      reads this
    {
      && DistinctOutputs(steps) && outputs == Outputs(steps)
      && (forall f | f in outputs :: !Reserved(f))
      && (!explicit ==> outputName == if steps == [] then None else Some(steps[|steps| - 1].output))
    }

    /** The graph built so far. */
    function Built(): Graph
      reads this
    {
      Graph(inputName, outputName, steps)
    }

    constructor (inputName: string, outputName: Option<string>)
      requires outputName.Some? ==> !Reserved(outputName.value)
      ensures Valid() && Built() == Graph(inputName, outputName, [])
      ensures explicit == outputName.Some?
    {
      this.inputName, this.outputName, this.explicit := inputName, outputName, outputName.Some?;
      steps, outputs := [], {};
    }

    /** What a graph becomes when a step joins it: the step is last, and the result unless one was named. */
    ghost function With(g: Graph, s: Step): Graph {
      Graph(g.inputName, if explicit then g.outputName else Some(s.output), g.steps + [s])
    }

    ghost function Admissible(s: Step): bool
      reads this
    {
      !Reserved(s.output) && s.output !in outputs
    }

    method Add(s: Step) returns (added: bool)
      requires Valid()
      modifies this
      ensures Valid() && added == old(Admissible(s))
      ensures Built() == if added then With(old(Built()), s) else old(Built())
    {
      if Reserved(s.output) || s.output in outputs {
        return false;
      }
      FreshOutput(steps, s);
      steps, outputs := steps + [s], outputs + {s.output};
      if !explicit {
        outputName := Some(s.output);
      }
      added := true;
    }

    method AddStep(kind: StepKind, inputs: seq<string>, output: string) returns (added: bool)
      requires Valid() && IsLeaf(Step(kind, inputs, output))
      modifies this
      ensures Valid() && added == old(Admissible(Step(kind, inputs, output)))
      ensures Built() == if added then With(old(Built()), Step(kind, inputs, output)) else old(Built())
    {
      added := Add(Step(kind, inputs, output));
    }

    method AddCond(
      pred: PureFn, inputs: seq<string>, output: string, ifTrue: Graph, ifFalse: Graph, subject: Option<string>)
      returns (added: bool)
      requires Valid()
      modifies this
      ensures var s := Step(Cond(pred, subject, ifTrue, ifFalse), inputs, output);
              && Valid() && added == old(Admissible(s))
              && Built() == if added then With(old(Built()), s) else old(Built())
    {
      added := Add(Step(Cond(pred, subject, ifTrue, ifFalse), inputs, output));
    }

    method AddSwitch(
      select: PureFn, inputs: seq<string>, output: string, cases: seq<GraphCase>, default: Option<Graph>,
      subject: Option<string>)
      returns (added: bool)
      requires Valid()
      modifies this
      ensures var s := Step(Switching(select, subject, cases, default), inputs, output);
              && Valid() && added == (cases != [] && old(Admissible(s)))
              && Built() == if added then With(old(Built()), s) else old(Built())
    {
      if cases == [] {
        return false;
      }
      added := Add(Step(Switching(select, subject, cases, default), inputs, output));
    }

    /** An `each` body may capture only constants, the input, and what earlier steps produced. */
    method AddEach(
      body: Graph, items: string, output: string, maxParallel: Option<nat>, reducer: Option<PureFn>, consts: Env)
      returns (added: bool)
      requires Valid()
      modifies this
      ensures var s := Step(Mapping(body, maxParallel, reducer, consts), [items], output);
              && Valid()
              && added == (maxParallel != Some(0) && old(Admissible(s) && Captures(s) <= outputs + {inputName}))
              && Built() == if added then With(old(Built()), s) else old(Built())
    {
      var s := Step(Mapping(body, maxParallel, reducer, consts), [items], output);
      if maxParallel == Some(0) || !(Captures(s) <= outputs + {inputName}) {
        return false;
      }
      added := Add(s);
    }
  }

  lemma FreshOutput(steps: seq<Step>, s: Step)
    requires DistinctOutputs(steps) && s.output !in Outputs(steps)
    ensures DistinctOutputs(steps + [s]) && Outputs(steps + [s]) == Outputs(steps) + {s.output}
  {
    OutputsConcat(steps, [s]);
    forall i | 0 <= i < |steps| ensures steps[i].output in Outputs(steps) {
      assert steps[i] in steps;
    }
  }

  lemma BranchFieldIsReserved()
    ensures Reserved(BRANCH)
  {
    assert BRANCH[..2] == "__" && BRANCH[|BRANCH| - 2..] == "__";
  }

  /** However a graph was built, the compiler's branch field is not among its outputs. */
  lemma NoBuiltGraphBindsTheBranchField(b: GraphBuilder)
    requires b.Valid()
    ensures BRANCH !in Outputs(b.Built().steps) && DistinctOutputs(b.Built().steps)
  {
    BranchFieldIsReserved();
  }
}
