/**
 The dataflow graph: single-assignment steps in declaration order, and the field analyses the
 compiler runs on it. Lists of field names are modelled as sets: only membership reaches the
 emitted node, whose field arguments are dictionaries.
 */
module Graph {
  import opened Values
  import opened Ir

  datatype Effect = Read | Write | External | Dangerous

  datatype GraphCase = GraphCase(key: string, arm: Graph)

  /** What a step does. `contract` is the effect a tool declares; a tool without one is taken to write. */
  datatype StepKind =
    | Tool(tool: string, contract: Option<Effect>)
    | Thinking(reasoner: string)
    | Pure(fn: PureFn)
    | Passthrough
    | Cond(pred: PureFn, condSubject: Option<string>, ifTrue: Graph, ifFalse: Graph)
    | Switching(select: PureFn, switchSubject: Option<string>, cases: seq<GraphCase>, default: Option<Graph>)
    | Mapping(body: Graph, maxParallel: Option<nat>, reducer: Option<PureFn>, consts: Env)

  datatype Step = Step(kind: StepKind, inputs: seq<string>, output: string)

  datatype Graph = Graph(inputName: string, outputName: Option<string>, steps: seq<Step>)

  predicate IsLeaf(s: Step) {
    s.kind.Tool? || s.kind.Thinking? || s.kind.Pure? || s.kind.Passthrough?
  }

  predicate IsBranch(s: Step) {
    s.kind.Cond? || s.kind.Switching?
  }

  function Subject(s: Step): Option<string>
    requires IsBranch(s)
  {
    if s.kind.Cond? then s.kind.condSubject else s.kind.switchSubject
  }

  function Listed(s: Step): set<string> {
    set f | f in s.inputs
  }

  function Outputs(steps: seq<Step>): set<string> {
    set s | s in steps :: s.output
  }

  function OutputList(steps: seq<Step>): seq<string> {
    seq(|steps|, i requires 0 <= i < |steps| => steps[i].output)
  }

  function FinalOutput(g: Graph): string {
    if g.outputName.Some? then g.outputName.value
    else if g.steps != [] then g.steps[|g.steps| - 1].output
    else g.inputName
  }

  predicate HasResult(g: Graph) {
    g.outputName.Some? || g.steps != []
  }

  // ----- what a step and a graph read -----

  /** Fields a branch takes from its arms: what they read from outside, and their item if they use it. */
  function BranchSources(s: Step): set<string>
    decreases s, 1, 0
  {
    match s.kind
    case Cond(_, _, ifTrue, ifFalse) => ArmSources(ifTrue) + ArmSources(ifFalse)
    case Switching(_, _, cases, default) =>
      CaseSources(cases) + (if default.Some? then ArmSources(default.value) else {})
    case _ => {}
  }

  function CaseSources(cases: seq<GraphCase>): set<string>
    decreases cases, 0, 0
  {
    if cases == [] then {} else ArmSources(cases[0].arm) + CaseSources(cases[1..])
  }

  function ArmSources(arm: Graph): set<string>
    decreases arm, 3, 0
  {
    ExternalSources(arm) + (if ConsumesInput(arm) then {arm.inputName} else {})
  }

  /** Names a graph reads that none of its steps produces, other than its input. */
  function ExternalSources(g: Graph): set<string>
    decreases g, 2, 0
  {
    StepsSources(g.steps) - Outputs(g.steps) - {g.inputName}
    + (if g.outputName.Some? then {g.outputName.value} - Outputs(g.steps) else {})
  }

  function StepsSources(steps: seq<Step>): set<string>
    decreases steps, 0, 0
  {
    if steps == [] then {}
    else Listed(steps[0]) + BranchSources(steps[0]) + StepsSources(steps[1..])
  }

  predicate ConsumesInput(g: Graph)
    decreases g, 2, 0
  {
    g.outputName == Some(g.inputName) || StepsConsume(g.steps, g.inputName)
  }

  predicate StepsConsume(steps: seq<Step>, field: string)
    decreases steps, 0, 0
  {
    steps != [] && (StepConsumes(steps[0], field) || StepsConsume(steps[1..], field))
  }

  predicate StepConsumes(s: Step, field: string)
    decreases s, 3, 0
  {
    || field in s.inputs
    || (s.inputs == [] && IsLeaf(s))
    || (IsBranch(s) && field in BranchFields(s))
  }

  /** The fields a branch keeps for its predicate and its arms. */
  function BranchFields(s: Step): set<string>
    requires IsBranch(s)
    decreases s, 2, 0
  {
    Listed(s) + (if Subject(s).Some? then {Subject(s).value} else {}) + BranchSources(s)
  }

  /** Names an `each` body takes from the enclosing scope at run time. */
  function Captures(s: Step): set<string> {
    if s.kind.Mapping? then ExternalSources(s.kind.body) - s.kind.consts.Keys else {}
  }

  function InputSources(s: Step): set<string> {
    Listed(s) + BranchSources(s) + Captures(s)
  }

  function LiveSources(s: Step, inputName: string): set<string> {
    InputSources(s) + (if StepConsumes(s, inputName) then {inputName} else {})
  }

  /** The field a branch decides on, if it names one. */
  function SubjectSet(s: Step): set<string> {
    if IsBranch(s) && Subject(s).Some? then {Subject(s).value} else {}
  }

  /** Everything that can make a difference to a step: its live sources, and its subject though nothing else read it. */
  function Reads(s: Step, inputName: string): set<string> {
    LiveSources(s, inputName) + SubjectSet(s)
  }

  function ArmFields(arm: Graph, incoming: set<string>): set<string> {
    ArmSources(arm) * incoming
  }

  function BodyFields(s: Step): set<string>
    requires s.kind.Mapping?
  {
    {s.kind.body.inputName} + Captures(s) + s.kind.consts.Keys
  }

  // ----- effects -----

  predicate DeclaresWrite(contract: Option<Effect>) {
    contract.None? || contract.value != Read
  }

  /** A barrier may change the world: a writing tool, or a branch or each that holds one at any depth. */
  predicate IsBarrier(s: Step)
    decreases s, 0, 0
  {
    match s.kind
    case Tool(_, contract) => DeclaresWrite(contract)
    case Cond(_, _, ifTrue, ifFalse) => HasBarrier(ifTrue.steps) || HasBarrier(ifFalse.steps)
    case Switching(_, _, cases, default) =>
      CasesHaveBarrier(cases) || (default.Some? && HasBarrier(default.value.steps))
    case Mapping(body, _, _, _) => HasBarrier(body.steps)
    case _ => false
  }

  predicate HasBarrier(steps: seq<Step>)
    decreases steps, 0, 0
  {
    steps != [] && (IsBarrier(steps[0]) || HasBarrier(steps[1..]))
  }

  predicate CasesHaveBarrier(cases: seq<GraphCase>)
    decreases cases, 0, 0
  {
    cases != [] && (HasBarrier(cases[0].arm.steps) || CasesHaveBarrier(cases[1..]))
  }

  /** Declared contracts are honest: no tool declared read-only changes the world. */
  predicate HonestStep(h: Host, s: Step)
    decreases s, 0, 0
  {
    match s.kind
    case Tool(tool, contract) => h.writes(tool) ==> DeclaresWrite(contract)
    case Cond(_, _, ifTrue, ifFalse) => Honest(h, ifTrue.steps) && Honest(h, ifFalse.steps)
    case Switching(_, _, cases, default) =>
      HonestCases(h, cases) && (default.Some? ==> Honest(h, default.value.steps))
    case Mapping(body, _, _, _) => Honest(h, body.steps)
    case _ => true
  }

  predicate Honest(h: Host, steps: seq<Step>)
    decreases steps, 0, 0
  {
    steps != [] ==> HonestStep(h, steps[0]) && Honest(h, steps[1..])
  }

  predicate HonestCases(h: Host, cases: seq<GraphCase>)
    decreases cases, 0, 0
  {
    cases != [] ==> Honest(h, cases[0].arm.steps) && HonestCases(h, cases[1..])
  }

  // ----- facts about the analyses -----

  lemma OutputsConcat(a: seq<Step>, b: seq<Step>)
    ensures Outputs(a + b) == Outputs(a) + Outputs(b)
  {
    forall f | f in Outputs(a) + Outputs(b) ensures f in Outputs(a + b) {
      var s :| (s in a || s in b) && s.output == f;
      assert s in a + b;
    }
  }

  lemma StepsSourcesOf(steps: seq<Step>, s: Step)
    requires s in steps
    ensures Listed(s) + BranchSources(s) <= StepsSources(steps)
  {
    if s != steps[0] {
      StepsSourcesOf(steps[1..], s);
    }
  }

  lemma StepsConsumeOf(steps: seq<Step>, s: Step, field: string)
    requires s in steps && StepConsumes(s, field)
    ensures StepsConsume(steps, field)
  {
    if s != steps[0] {
      StepsConsumeOf(steps[1..], s, field);
    }
  }

  lemma CaseSourcesOf(cases: seq<GraphCase>, i: nat)
    requires i < |cases|
    ensures ArmSources(cases[i].arm) <= CaseSources(cases)
  {
    if i > 0 {
      CaseSourcesOf(cases[1..], i - 1);
    }
  }

  lemma HonestOf(h: Host, steps: seq<Step>, s: Step)
    requires Honest(h, steps) && s in steps
    ensures HonestStep(h, s)
  {
    if s != steps[0] {
      HonestOf(h, steps[1..], s);
    }
  }

  lemma HonestCaseOf(h: Host, cases: seq<GraphCase>, i: nat)
    requires HonestCases(h, cases) && i < |cases|
    ensures Honest(h, cases[i].arm.steps)
  {
    if i > 0 {
      HonestCaseOf(h, cases[1..], i - 1);
    }
  }
}
