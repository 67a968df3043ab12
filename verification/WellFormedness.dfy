/** The graphs the compiler's guarantees are about, and the guard of `compile`. */
module WellFormedness {
  import opened Values
  import opened Ir
  import opened Graph
  import opened Reference
  import opened Layering
  import opened Compiler

  // ----- the fields the env record holds -----

  /** The fields tracked where layer k begins, or past the last layer. */
  function FieldsAt(layers: seq<seq<Step>>, final: string, fields: set<string>, inputName: string, k: nat): set<string>
    requires k <= |layers|
  {
    if k == 0 then fields
    else
      var live := LiveAfter(layers[1..], final, fields + Outputs(layers[0]), inputName);
      FieldsAt(layers[1..], final, live, inputName, k - 1)
  }

  /** Every branch's subject is among the fields tracked at its layer. */
  predicate SubjectsHeld(layers: seq<seq<Step>>, final: string, fields: set<string>, inputName: string) {
    layers != [] ==>
      && (forall s | s in layers[0] :: SubjectSet(s) <= fields)
      && var live := LiveAfter(layers[1..], final, fields + Outputs(layers[0]), inputName);
         SubjectsHeld(layers[1..], final, live, inputName)
  }

  /** Branch subjects are bound before they decide, and survive to their branch when the graph starts from `initial`. */
  predicate SubjectsSurvive(g: Graph, initial: set<string>) {
    && SubjectsPrecede(g.steps)
    && (Layers(g.steps, initial).Ok? ==>
          SubjectsHeld(Layers(g.steps, initial).value, FinalOutput(g), initial, g.inputName))
  }

  // ----- the guard of `compile` -----

  /** A quick start's fields: what is live of the first step's result. */
  function FastLive(g: Graph, layers: seq<seq<Step>>): set<string>
    requires layers != [] && layers[0] != []
  {
    LiveAfter(layers[1..], FinalOutput(g), {layers[0][0].output}, g.inputName)
  }

  /**
   When `compile`'s shortcuts are right. A sole step runs on the raw input, so it may list it at most
   once. Starting the env record from the first step runs it on the raw input and then drops that, so
   the step must not be a branch that reads fields, and nothing later, the result included, may want
   the input. Branch subjects must survive to their branches in the record that is started.
   */
  predicate CompileGuard(g: Graph) {
    g.steps == [] || IsLinearChain(g) || Layers(g.steps, {g.inputName}).Err? ||
    var layers := Layers(g.steps, {g.inputName}).value;
    var first := layers[0][0];
    && SubjectsPrecede(g.steps)
    && (if IsFinalLayer(layers, FinalOutput(g)) then
          if IsBranch(first) then SubjectSet(first) <= {g.inputName} else |first.inputs| <= 1
        else if FastStart(layers, g.inputName) then
          && KeepsInputUnused(g, layers)
          && SubjectsHeld(layers[1..], FinalOutput(g), FastLive(g, layers), g.inputName)
        else SubjectsHeld(layers, FinalOutput(g), {g.inputName}, g.inputName))
  }

  predicate KeepsInputUnused(g: Graph, layers: seq<seq<Step>>)
    requires layers != [] && layers[0] != []
  {
    StartsOnRawInput(layers[0][0]) && InputUnusedLater(g, layers)
  }

  /** Neither the result nor any step after the first wants the graph's input. */
  predicate InputUnusedLater(g: Graph, layers: seq<seq<Step>>) {
    && FinalOutput(g) != g.inputName
    && (forall k, s | 1 <= k < |layers| && s in layers[k] :: g.inputName !in InputSources(s))
  }

  predicate StartsOnRawInput(s: Step) {
    IsLeaf(s) || (IsBranch(s) && BranchFields(s) == {})
  }

  /** A branch subject is also read by an arm or listed as an input, as the authoring frontend sees to. */
  predicate SubjectIsRead(s: Step)
    requires IsBranch(s)
  {
    Subject(s).Some? ==> Subject(s).value in InputSources(s)
  }

  predicate WellFormed(g: Graph)
    decreases g, 1, 0
  {
    && DistinctOutputs(g.steps)
    && g.inputName !in Outputs(g.steps) && g.inputName != BRANCH && BRANCH !in Outputs(g.steps)
    && WellFormedSteps(g.steps)
  }

  predicate WellFormedSteps(steps: seq<Step>)
    decreases steps, 0, 0
  {
    steps != [] ==> WellFormedStep(steps[0]) && WellFormedSteps(steps[1..])
  }

  predicate WellFormedStep(s: Step)
    decreases s, 0, 2
  {
    match s.kind
    case Cond(_, _, ifTrue, ifFalse) =>
      WellFormedArm(ifTrue) && WellFormedArm(ifFalse)
      && SubjectsSurvive(ifTrue, ArmFields(ifTrue, BranchFields(s)))
      && SubjectsSurvive(ifFalse, ArmFields(ifFalse, BranchFields(s)))
    case Switching(_, _, cases, default) =>
      && WellFormedCases(cases, BranchFields(s))
      && (default.Some? ==>
            && WellFormedArm(default.value)
            && SubjectsSurvive(default.value, ArmFields(default.value, BranchFields(s))))
    case Mapping(_, _, _, _) => WellFormedEach(s) && s.kind.body.inputName !in Captures(s)
    case _ => true
  }

  /** All an `each` needs but that its body's item is not also a captured name. */
  predicate WellFormedEach(s: Step)
    requires s.kind.Mapping?
    decreases s, 0, 1
  {
    var body, consts := s.kind.body, s.kind.consts;
    && |s.inputs| == 1 && WellFormedArm(body)
    && BRANCH !in consts.Keys && consts.Keys !! Outputs(body.steps)
    && (if Captures(s) == {} && consts == map[] then CompileGuard(body) else SubjectsSurvive(body, BodyFields(s)))
  }

  predicate WellFormedArm(g: Graph)
    decreases g, 2, 0
  {
    HasResult(g) && WellFormed(g)
  }

  predicate WellFormedCases(cases: seq<GraphCase>, incoming: set<string>)
    decreases cases, 0, 0
  {
    cases != [] ==>
      && WellFormedArm(cases[0].arm) && SubjectsSurvive(cases[0].arm, ArmFields(cases[0].arm, incoming))
      && WellFormedCases(cases[1..], incoming)
  }

  lemma WellFormedOf(steps: seq<Step>, s: Step)
    requires WellFormedSteps(steps) && s in steps
    ensures WellFormedStep(s)
  {
    if s != steps[0] {
      WellFormedOf(steps[1..], s);
    }
  }

  lemma WellFormedCaseOf(cases: seq<GraphCase>, incoming: set<string>, i: nat)
    requires WellFormedCases(cases, incoming) && i < |cases|
    ensures WellFormedArm(cases[i].arm) && SubjectsSurvive(cases[i].arm, ArmFields(cases[i].arm, incoming))
  {
    if i > 0 {
      WellFormedCaseOf(cases[1..], incoming, i - 1);
    }
  }
}
