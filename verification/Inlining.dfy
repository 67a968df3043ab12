/**
 Inlining: a call of a one-parameter flow is replaced by its steps, renamed into the caller's scope.
 Nested graphs keep their own names, so only what they read from outside is renamed in them.
 */
module Inlining {
  import opened Values
  import opened Ir
  import opened Graph
  import opened Layering
  import opened Reference

  type Renaming = map<string, string>

  function To(m: Renaming, x: string): string {
    if x in m then m[x] else x
  }

  function ToAll(m: Renaming, names: seq<string>): seq<string> {
    seq(|names|, i requires 0 <= i < |names| => To(m, names[i]))
  }

  function ToSubject(m: Renaming, subject: Option<string>): Option<string> {
    if subject.Some? then Some(To(m, subject.value)) else None
  }

  function Image(m: Renaming, names: set<string>): set<string> {
    set x | x in names :: To(m, x)
  }

  // ----- copying a nested graph -----

  /** The renames that still apply inside `g`: what it binds itself is not renamed. */
  function Effective(g: Graph, m: Renaming, renameInput: bool, excluded: set<string>): Renaming {
    map x | x in m && m[x] != x && x !in Outputs(g.steps) && x !in excluded && (renameInput || x != g.inputName) :: m[x]
  }

  function CopyGraph(g: Graph, m: Renaming, renameInput: bool, excluded: set<string>): Graph
    decreases g, 0, 0
  {
    var inside := Effective(g, m, renameInput, excluded);
    Graph(
      if renameInput then To(inside, g.inputName) else g.inputName,
      if g.outputName.Some? && g.outputName.value !in Outputs(g.steps) then ToSubject(inside, g.outputName)
      else g.outputName,
      CopySteps(g.steps, inside))
  }

  function CopySteps(steps: seq<Step>, m: Renaming): (r: seq<Step>)
    ensures |r| == |steps|
    ensures forall i :: 0 <= i < |steps| ==> r[i].output == steps[i].output
    decreases steps, 0, 0
  {
    if steps == [] then [] else [CopyStep(steps[0], m)] + CopySteps(steps[1..], m)
  }

  function CopyStep(s: Step, m: Renaming): Step
    decreases s, 1, 0
  {
    Step(CopyKind(s, m), ToAll(m, s.inputs), s.output)
  }

  function CopyKind(s: Step, m: Renaming): StepKind
    decreases s, 0, 0
  {
    match s.kind
    case Cond(pred, subject, ifTrue, ifFalse) =>
      Cond(pred, ToSubject(m, subject), CopyGraph(ifTrue, m, true, {}), CopyGraph(ifFalse, m, true, {}))
    case Switching(select, subject, cases, default) =>
      Switching(select, ToSubject(m, subject), CopyCases(cases, m),
                if default.Some? then Some(CopyGraph(default.value, m, true, {})) else None)
    case Mapping(body, maxParallel, reducer, consts) =>
      Mapping(CopyGraph(body, m, false, consts.Keys), maxParallel, reducer, consts)
    case leaf => leaf
  }

  function CopyCases(cases: seq<GraphCase>, m: Renaming): (r: seq<GraphCase>)
    ensures |r| == |cases|
    ensures forall i :: 0 <= i < |cases| ==> r[i] == GraphCase(cases[i].key, CopyGraph(cases[i].arm, m, true, {}))
    decreases cases, 0, 0
  {
    if cases == [] then []
    else [GraphCase(cases[0].key, CopyGraph(cases[0].arm, m, true, {}))] + CopyCases(cases[1..], m)
  }

  // ----- copying the steps of the call -----

  /** A step that reads its flow's input by default reads the handle the flow was called with. */
  function InlinedInputs(s: Step, m: Renaming, source: string, target: string): seq<string> {
    if s.inputs == [] then (if To(m, source) == target then [] else [To(m, source)]) else ToAll(m, s.inputs)
  }

  function InlinedStep(s: Step, m: Renaming, source: string, target: string): Step {
    Step(CopyKind(s, m), InlinedInputs(s, m, source, target), To(m, s.output))
  }

  function InlinedSteps(steps: seq<Step>, m: Renaming, source: string, target: string): seq<Step> {
    seq(|steps|, i requires 0 <= i < |steps| => InlinedStep(steps[i], m, source, target))
  }

  // ----- what inlining asks of a flow -----

  /** Every name a step reads is in scope, a branch names the subject it decides on, and an arm's item is in scope. */
  predicate StepScoped(s: Step, inputName: string, scope: set<string>)
    decreases s, 0, 0
  {
    && Listed(s) <= scope
    && match s.kind
       case Cond(_, subject, ifTrue, ifFalse) =>
         && subject.Some? && subject.value in scope
         && GraphScoped(ifTrue, scope) && GraphScoped(ifFalse, scope)
       case Switching(_, subject, cases, default) =>
         && subject.Some? && subject.value in scope
         && CasesScoped(cases, scope) && (default.Some? ==> GraphScoped(default.value, scope))
       case Mapping(body, _, _, consts) => |s.inputs| == 1 && GraphScoped(body, scope + {body.inputName} + consts.Keys)
       case _ => s.inputs == [] ==> inputName in scope
  }

  /** A graph reads nothing it is yet to bind, even if a name of that kind is bound outside. */
  predicate GraphScoped(g: Graph, scope: set<string>)
    decreases g, 1, 0
  {
    && g.inputName in scope && g.inputName !in Outputs(g.steps)
    && StepsScoped(g.steps, g.inputName, scope - Outputs(g.steps))
    && (g.outputName.Some? ==> g.outputName.value in scope + Outputs(g.steps))
  }

  predicate StepsScoped(steps: seq<Step>, inputName: string, scope: set<string>)
    decreases steps, 0, 0
  {
    steps != [] ==>
      StepScoped(steps[0], inputName, scope) && StepsScoped(steps[1..], inputName, scope + {steps[0].output})
  }

  predicate CasesScoped(cases: seq<GraphCase>, scope: set<string>)
    decreases cases, 0, 0
  {
    cases != [] ==> GraphScoped(cases[0].arm, scope) && CasesScoped(cases[1..], scope)
  }

  /** Names a step takes from its scope, whatever in it reads them: the step itself, an arm, or a body. */
  function FreeInStep(s: Step): set<string>
    decreases s, 0, 0
  {
    Listed(s) + SubjectSet(s) +
    match s.kind
    case Cond(_, _, ifTrue, ifFalse) => FreeInGraph(ifTrue) + FreeInGraph(ifFalse)
    case Switching(_, _, cases, default) =>
      FreeInCases(cases) + (if default.Some? then FreeInGraph(default.value) else {})
    case Mapping(body, _, _, consts) => FreeInGraph(body) - {body.inputName} - consts.Keys
    case _ => {}
  }

  function FreeInGraph(g: Graph): set<string>
    decreases g, 1, 0
  {
    {g.inputName} + FreeInSteps(g.steps) + (if g.outputName.Some? then {g.outputName.value} else {}) - Outputs(g.steps)
  }

  function FreeInSteps(steps: seq<Step>): set<string>
    decreases steps, 0, 0
  {
    if steps == [] then {} else FreeInStep(steps[0]) + FreeInSteps(steps[1..])
  }

  function FreeInCases(cases: seq<GraphCase>): set<string>
    decreases cases, 0, 0
  {
    if cases == [] then {} else FreeInGraph(cases[0].arm) + FreeInCases(cases[1..])
  }

  /** What a nested graph binds itself, other than by its steps: the item and the constants of an `each` body. */
  function OwnNames(g: Graph, renameInput: bool, excluded: set<string>): set<string> {
    excluded + (if renameInput then {} else {g.inputName})
  }

  /** No read of a nested graph is captured: renamed, it is still none of the names bound around the read. */
  predicate StepSpared(s: Step, m: Renaming)
    decreases s, 0, 0
  {
    match s.kind
    case Cond(_, _, ifTrue, ifFalse) => GraphSpared(ifTrue, m, true, {}) && GraphSpared(ifFalse, m, true, {})
    case Switching(_, _, cases, default) =>
      CasesSpared(cases, m) && (default.Some? ==> GraphSpared(default.value, m, true, {}))
    case Mapping(body, _, _, consts) => GraphSpared(body, m, false, consts.Keys)
    case _ => true
  }

  predicate GraphSpared(g: Graph, m: Renaming, renameInput: bool, excluded: set<string>)
    decreases g, 1, 0
  {
    var own := OwnNames(g, renameInput, excluded);
    && (forall x | x in FreeInGraph(g) - own :: To(m, x) !in own + Outputs(g.steps))
    && StepsSpared(g.steps, Effective(g, m, renameInput, excluded))
  }

  predicate StepsSpared(steps: seq<Step>, m: Renaming)
    decreases steps, 0, 0
  {
    steps != [] ==> StepSpared(steps[0], m) && StepsSpared(steps[1..], m)
  }

  predicate CasesSpared(cases: seq<GraphCase>, m: Renaming)
    decreases cases, 0, 0
  {
    cases != [] ==> GraphSpared(cases[0].arm, m, true, {}) && CasesSpared(cases[1..], m)
  }

  lemma ScopedCaseOf(cases: seq<GraphCase>, scope: set<string>, m: Renaming, i: nat)
    requires CasesScoped(cases, scope) && CasesSpared(cases, m) && i < |cases|
    ensures GraphScoped(cases[i].arm, scope) && GraphSpared(cases[i].arm, m, true, {})
  {
    if i > 0 {
      ScopedCaseOf(cases[1..], scope, m, i - 1);
    }
  }

  // ----- only what is read need be in scope -----

  lemma {:induction false} NarrowStep(s: Step, inputName: string, scope: set<string>, narrow: set<string>)
    requires StepScoped(s, inputName, scope) && FreeInStep(s) * scope <= narrow && inputName in narrow
    ensures StepScoped(s, inputName, narrow)
    decreases s, 0, 0
  {
    match s.kind {
      case Cond(_, _, ifTrue, ifFalse) =>
        NarrowGraph(ifTrue, scope, narrow);
        NarrowGraph(ifFalse, scope, narrow);
      case Switching(_, _, cases, default) =>
        NarrowCases(cases, scope, narrow);
        if default.Some? {
          NarrowGraph(default.value, scope, narrow);
        }
      case Mapping(body, _, _, consts) =>
        NarrowGraph(body, scope + {body.inputName} + consts.Keys, narrow + {body.inputName} + consts.Keys);
      case _ =>
    }
  }

  lemma {:induction false} NarrowGraph(g: Graph, scope: set<string>, narrow: set<string>)
    requires GraphScoped(g, scope) && FreeInGraph(g) * scope <= narrow
    ensures GraphScoped(g, narrow)
    decreases g, 1, 0
  {
    assert g.inputName in FreeInGraph(g) * scope;
    NarrowSteps(g.steps, g.inputName, scope - Outputs(g.steps), narrow - Outputs(g.steps));
  }

  lemma {:induction false} NarrowSteps(steps: seq<Step>, inputName: string, scope: set<string>, narrow: set<string>)
    requires StepsScoped(steps, inputName, scope) && FreeInSteps(steps) * scope <= narrow && inputName in narrow
    ensures StepsScoped(steps, inputName, narrow)
    decreases steps, 0, 0
  {
    if steps != [] {
      NarrowSteps(steps[1..], inputName, scope + {steps[0].output}, narrow + {steps[0].output});
      NarrowStep(steps[0], inputName, scope, narrow);
    }
  }

  lemma {:induction false} NarrowCases(cases: seq<GraphCase>, scope: set<string>, narrow: set<string>)
    requires CasesScoped(cases, scope) && FreeInCases(cases) * scope <= narrow
    ensures CasesScoped(cases, narrow)
    decreases cases, 0, 0
  {
    if cases != [] {
      NarrowGraph(cases[0].arm, scope, narrow);
      NarrowCases(cases[1..], scope, narrow);
    }
  }

  // ----- renamings -----

  ghost predicate Injective(m: Renaming, scope: set<string>) {
    forall x, y :: x in scope && y in scope && To(m, x) == To(m, y) ==> x == y
  }

  /** `r` holds under the new names what `e` holds under the old ones. */
  ghost predicate Matched(m: Renaming, scope: set<string>, e: Env, r: Env) {
    forall x :: x in scope ==> x in e && To(m, x) in r && r[To(m, x)] == e[x]
  }

  /** The renames inside a nested graph leave what it binds alone and keep what it can read apart from that. */
  ghost predicate RenamesInside(g: Graph, inside: Renaming, scope: set<string>) {
    Injective(inside, scope + Outputs(g.steps)) && forall y :: y in Outputs(g.steps) ==> To(inside, y) == y
  }

  /** What of a scope, and of its own names, a nested graph can read. */
  function ReadScope(g: Graph, renameInput: bool, excluded: set<string>, scope: set<string>): set<string> {
    (scope + OwnNames(g, renameInput, excluded)) * FreeInGraph(g)
  }

  /** The renames inside a nested graph do what the outer ones do on every name it reads. */
  lemma EffectiveRenaming(g: Graph, m: Renaming, renameInput: bool, excluded: set<string>, scope: set<string>)
    requires Injective(m, scope) && GraphSpared(g, m, renameInput, excluded)
    requires GraphScoped(g, scope + OwnNames(g, renameInput, excluded))
    ensures var inside, narrow := Effective(g, m, renameInput, excluded), ReadScope(g, renameInput, excluded, scope);
            var own := OwnNames(g, renameInput, excluded);
            && GraphScoped(g, narrow) && RenamesInside(g, inside, narrow)
            && forall x :: x in narrow ==> To(inside, x) == if x in own then x else To(m, x)
  {
    hide StepsScoped, StepsSpared, FreeInSteps;
    NarrowGraph(g, scope + OwnNames(g, renameInput, excluded), ReadScope(g, renameInput, excluded, scope));
  }

  lemma {:induction false} ReadsMatch(h: Host, m: Renaming, e: Env, r: Env, names: seq<string>)
    requires Matched(m, (set n | n in names), e, r)
    ensures MergeFields(h, r, ToAll(m, names)) == MergeFields(h, e, names)
    ensures FieldValues(r, ToAll(m, names)) == FieldValues(e, names)
    decreases |names|
  {
    if names != [] {
      var last := |names| - 1;
      assert ToAll(m, names)[..last] == ToAll(m, names[..last]);
      assert forall n :: n in names[..last] ==> n in names;
      ReadsMatch(h, m, e, r, names[..last]);
      assert names[last] in names && ToAll(m, names)[last] == To(m, names[last]);
    }
  }

  // ----- copying renames exactly what is read -----

  lemma ListedImage(s: Step, m: Renaming)
    ensures Listed(CopyStep(s, m)) == Image(m, Listed(s))
  {
    var t := CopyStep(s, m);
    forall i | 0 <= i < |s.inputs| ensures To(m, s.inputs[i]) in t.inputs {
      assert t.inputs[i] == To(m, s.inputs[i]);
    }
  }

  lemma ImageOfUnion(m: Renaming, a: set<string>, b: set<string>)
    ensures Image(m, a + b) == Image(m, a) + Image(m, b)
  {
    forall y | y in Image(m, a) + Image(m, b) ensures y in Image(m, a + b) {
      if y in Image(m, a) {
        var x :| x in a && To(m, x) == y;
        assert x in a + b;
      } else {
        var x :| x in b && To(m, x) == y;
        assert x in a + b;
      }
    }
  }

  lemma ImageMember(m: Renaming, scope: set<string>, a: set<string>, x: string)
    requires Injective(m, scope) && a <= scope && x in scope
    ensures To(m, x) in Image(m, a) <==> x in a
  {
  }

  /** What a step's arms read, and whether it consumes a field, is the same up to the renaming. */
  lemma {:induction false} StepSources(s: Step, m: Renaming, inputName: string, scope: set<string>)
    requires StepScoped(s, inputName, scope) && StepSpared(s, m) && Injective(m, scope)
    ensures BranchSources(s) <= scope
    ensures BranchSources(CopyStep(s, m)) == Image(m, BranchSources(s))
    decreases s, 0, 0
  {
    hide ArmSources, GraphScoped, GraphSpared, CopyGraph;
    match s.kind {
      case Cond(_, _, ifTrue, ifFalse) =>
        ArmSourcesImage(ifTrue, m, scope);
        ArmSourcesImage(ifFalse, m, scope);
        ImageOfUnion(m, ArmSources(ifTrue), ArmSources(ifFalse));
      case Switching(_, _, cases, default) =>
        CaseSourcesImage(cases, m, scope);
        if default.Some? {
          ArmSourcesImage(default.value, m, scope);
          ImageOfUnion(m, CaseSources(cases), ArmSources(default.value));
        }
      case _ =>
    }
  }

  lemma {:induction false} CaseSourcesImage(cases: seq<GraphCase>, m: Renaming, scope: set<string>)
    requires CasesScoped(cases, scope) && CasesSpared(cases, m) && Injective(m, scope)
    ensures CaseSources(cases) <= scope
    ensures CaseSources(CopyCases(cases, m)) == Image(m, CaseSources(cases))
    decreases cases, 0, 0
  {
    if cases != [] {
      ArmSourcesImage(cases[0].arm, m, scope);
      CaseSourcesImage(cases[1..], m, scope);
      ImageOfUnion(m, ArmSources(cases[0].arm), CaseSources(cases[1..]));
      assert CopyCases(cases, m)[1..] == CopyCases(cases[1..], m);
    }
  }

  lemma StepConsumption(s: Step, m: Renaming, inputName: string, scope: set<string>, f: string)
    requires StepScoped(s, inputName, scope) && StepSpared(s, m) && Injective(m, scope)
    requires f in scope
    ensures StepConsumes(CopyStep(s, m), To(m, f)) <==> StepConsumes(s, f)
    decreases s, 1, 0
  {
    ListedImage(s, m);
    StepSources(s, m, inputName, scope);
    ImageMember(m, scope, Listed(s), f);
    ImageMember(m, scope, BranchSources(s), f);
  }

  lemma {:induction false} StepsSourcesImage(
    steps: seq<Step>, m: Renaming, inputName: string, scope: set<string>, f: string)
    requires StepsScoped(steps, inputName, scope) && StepsSpared(steps, m)
    requires Injective(m, scope + Outputs(steps)) && f in scope
    ensures StepsSources(steps) <= scope + Outputs(steps)
    ensures StepsSources(CopySteps(steps, m)) == Image(m, StepsSources(steps))
    ensures StepsConsume(CopySteps(steps, m), To(m, f)) <==> StepsConsume(steps, f)
    decreases steps, 0, 0
  {
    if steps != [] {
      var s, rest := steps[0], steps[1..];
      assert CopySteps(steps, m)[1..] == CopySteps(rest, m);
      assert scope + Outputs(steps) == scope + {s.output} + Outputs(rest) by {
        assert [s] + rest == steps;
        OutputsConcat([s], rest);
      }
      ListedImage(s, m);
      StepSources(s, m, inputName, scope);
      StepConsumption(s, m, inputName, scope, f);
      StepsSourcesImage(rest, m, inputName, scope + {s.output}, f);
      ImageOfUnion(m, Listed(s), BranchSources(s));
      ImageOfUnion(m, Listed(s) + BranchSources(s), StepsSources(rest));
    }
  }

  lemma CopiedOutputs(steps: seq<Step>, m: Renaming)
    ensures Outputs(CopySteps(steps, m)) == Outputs(steps)
  {
    var copy := CopySteps(steps, m);
    forall i | 0 <= i < |steps| ensures steps[i].output in Outputs(copy) && copy[i].output in Outputs(steps) {
      assert copy[i] in copy && steps[i] in steps;
    }
  }

  lemma ImageOutside(m: Renaming, scope: set<string>, a: set<string>, own: set<string>)
    requires Injective(m, scope) && a <= scope && own <= scope && forall y :: y in own ==> To(m, y) == y
    ensures Image(m, a) - own == Image(m, a - own)
  {
    forall x | x in a ensures To(m, x) in own <==> x in own {
    }
  }

  lemma {:induction false} ArmSourcesImage(arm: Graph, m: Renaming, scope: set<string>)
    requires GraphScoped(arm, scope) && GraphSpared(arm, m, true, {}) && Injective(m, scope)
    ensures ArmSources(arm) <= scope
    ensures ArmSources(CopyGraph(arm, m, true, {})) == Image(m, ArmSources(arm))
    decreases arm, 2, 0
  {
    hide StepsSources, CopySteps, FreeInGraph;
    var inside, narrow := Effective(arm, m, true, {}), ReadScope(arm, true, {}, scope);
    assert scope + OwnNames(arm, true, {}) == scope;
    EffectiveRenaming(arm, m, true, {}, scope);
    GraphSourcesImage(arm, m, true, {}, narrow);
    assert ArmSources(arm) <= narrow;
    assert forall x :: x in ArmSources(arm) ==> To(inside, x) == To(m, x);
    assert Image(inside, ArmSources(arm)) == Image(m, ArmSources(arm));
    ImageOfUnion(inside, ExternalSources(arm), {arm.inputName});
    ImageOfUnion(inside, ExternalSources(arm), {});
  }

  lemma {:induction false} GraphSourcesImage(
    g: Graph, m: Renaming, renameInput: bool, excluded: set<string>, scope: set<string>)
    requires GraphScoped(g, scope) && StepsSpared(g.steps, Effective(g, m, renameInput, excluded))
    requires RenamesInside(g, Effective(g, m, renameInput, excluded), scope)
    ensures var copy, inside := CopyGraph(g, m, renameInput, excluded), Effective(g, m, renameInput, excluded);
            && ExternalSources(g) <= scope - Outputs(g.steps)
            && copy.inputName == To(inside, g.inputName)
            && ExternalSources(copy) == Image(inside, ExternalSources(g))
            && (ConsumesInput(copy) <==> ConsumesInput(g))
    decreases g, 1, 0
  {
    hide StepsScoped, StepsSpared, StepsSources, StepsConsume, CopySteps;
    var copy, inside := CopyGraph(g, m, renameInput, excluded), Effective(g, m, renameInput, excluded);
    var out := Outputs(g.steps);
    assert scope - out + out == scope + out;
    StepsSourcesImage(g.steps, inside, g.inputName, scope - out, g.inputName);
    CopiedOutputs(g.steps, inside);
    var read := StepsSources(g.steps);
    ImageOutside(inside, scope + out, read, out);
    ImageWithout(inside, scope - out, read - out, g.inputName);
    var result, copied := ResultSources(g), ResultSources(copy);
    assert copied == Image(inside, result);
    ImageOfUnion(inside, read - out - {g.inputName}, result);
    assert ExternalSources(copy) == StepsSources(copy.steps) - out - {copy.inputName} + copied;
  }

  /** A result no step produces is read from outside. */
  function ResultSources(g: Graph): set<string> {
    if g.outputName.Some? then {g.outputName.value} - Outputs(g.steps) else {}
  }

  lemma ImageWithout(m: Renaming, scope: set<string>, a: set<string>, x: string)
    requires Injective(m, scope) && a <= scope && x in scope
    ensures Image(m, a) - {To(m, x)} == Image(m, a - {x})
  {
  }

  /** An `each` captures something after copying exactly if it did before. */
  lemma CapturesSurvive(s: Step, m: Renaming, inputName: string, scope: set<string>)
    requires s.kind.Mapping? && StepScoped(s, inputName, scope) && StepSpared(s, m) && Injective(m, scope)
    ensures Captures(CopyStep(s, m)) == {} <==> Captures(s) == {}
  {
    hide CopyGraph, FreeInGraph, StepsSources;
    var body, consts := s.kind.body, s.kind.consts.Keys;
    var inside, narrow := Effective(body, m, false, consts), ReadScope(body, false, consts, scope);
    BodyScope(s, inputName, scope);
    EffectiveRenaming(body, m, false, consts, scope);
    GraphSourcesImage(body, m, false, consts, narrow);
    ImageOutside(inside, narrow, ExternalSources(body), consts * narrow);
    assert Captures(s) == ExternalSources(body) - consts * narrow;
    assert Captures(CopyStep(s, m)) == Image(inside, ExternalSources(body)) - consts;
    forall x | x in ExternalSources(body) ensures To(inside, x) in consts <==> x in consts {
    }
    if x :| x in Captures(s) {
      assert To(inside, x) in Captures(CopyStep(s, m));
    }
  }

  lemma BodyScope(s: Step, inputName: string, scope: set<string>)
    requires s.kind.Mapping? && StepScoped(s, inputName, scope)
    ensures GraphScoped(s.kind.body, scope + OwnNames(s.kind.body, false, s.kind.consts.Keys))
  {
    var body, consts := s.kind.body, s.kind.consts.Keys;
    assert scope + OwnNames(body, false, consts) == scope + {body.inputName} + consts;
  }

  // ----- a copy runs as the original does -----

  lemma {:induction false} CopiedStepRuns(
    h: Host, s: Step, m: Renaming, inputName: string, scope: set<string>, e: Env, r: Env, log: Log)
    requires StepScoped(s, inputName, scope) && StepSpared(s, m)
    requires Injective(m, scope) && Matched(m, scope, e, r)
    ensures RunStep(h, CopyStep(s, m), To(m, inputName), r, log) == RunStep(h, s, inputName, e, log)
    decreases s, 1, 0
  {
    if IsLeaf(s) {
      CopiedLeafRuns(h, s, m, inputName, scope, e, r, log);
    } else if IsBranch(s) {
      CopiedBranchRuns(h, s, m, inputName, scope, e, r, log);
    } else {
      CopiedEachRuns(h, s, m, inputName, scope, e, r, log);
    }
  }

  lemma LeafKind(s: Step, m: Renaming)
    requires IsLeaf(s)
    ensures CopyKind(s, m) == s.kind
  {
    match s.kind {
      case Tool(_, _) =>
      case Thinking(_) =>
      case Pure(_) =>
      case Passthrough =>
    }
  }

  lemma CopiedDecision(h: Host, s: Step, m: Renaming, inputName: string, scope: set<string>, e: Env, r: Env)
    requires IsBranch(s) && StepScoped(s, inputName, scope) && Matched(m, scope, e, r)
    ensures IsBranch(CopyStep(s, m)) && Decision(h, CopyStep(s, m), r) == Decision(h, s, e)
  {
    var copy := CopyStep(s, m);
    assert copy.kind == CopyKind(s, m);
  }

  lemma CopiedLeafRuns(
    h: Host, s: Step, m: Renaming, inputName: string, scope: set<string>, e: Env, r: Env, log: Log)
    requires IsLeaf(s) && StepScoped(s, inputName, scope) && Matched(m, scope, e, r)
    ensures RunStep(h, CopyStep(s, m), To(m, inputName), r, log) == RunStep(h, s, inputName, e, log)
  {
    var copy := CopyStep(s, m);
    LeafKind(s, m);
    if s.inputs != [] {
      assert s.inputs[0] in Listed(s);
      assert copy.inputs[0] == To(m, s.inputs[0]);
    }
    assert forall x :: x in Listed(s) ==> x in scope;
    ReadsMatch(h, m, e, r, s.inputs);
    assert LeafArgument(h, copy, To(m, inputName), r) == LeafArgument(h, s, inputName, e);
  }

  lemma {:induction false} CopiedBranchRuns(
    h: Host, s: Step, m: Renaming, inputName: string, scope: set<string>, e: Env, r: Env, log: Log)
    requires IsBranch(s) && StepScoped(s, inputName, scope) && StepSpared(s, m)
    requires Injective(m, scope) && Matched(m, scope, e, r)
    ensures RunStep(h, CopyStep(s, m), To(m, inputName), r, log) == RunStep(h, s, inputName, e, log)
    decreases s, 0, 0
  {
    hide CopyGraph, RunGraph, GraphScoped, GraphSpared, Injective, FreeInGraph;
    var copy := CopyStep(s, m);
    CopiedDecision(h, s, m, inputName, scope, e, r);
    var d := Decision(h, s, e);
    if d.Some? {
      if s.kind.Cond? {
        CopiedArmRuns(h, s.kind.ifTrue, m, scope, e, r, log);
        CopiedArmRuns(h, s.kind.ifFalse, m, scope, e, r, log);
      } else {
        var cases, key := s.kind.cases, SwitchKey(h, s, d.value);
        CopiedCaseIndex(cases, m, key);
        var i := GraphCaseIndex(cases, key);
        if i < |cases| {
          ScopedCaseOf(cases, scope, m, i);
          CopiedArmRuns(h, cases[i].arm, m, scope, e, r, log);
        } else if s.kind.default.Some? {
          CopiedArmRuns(h, s.kind.default.value, m, scope, e, r, log);
        }
      }
    }
  }

  lemma CopiedCaseIndex(cases: seq<GraphCase>, m: Renaming, key: Value)
    ensures GraphCaseIndex(CopyCases(cases, m), key) == GraphCaseIndex(cases, key)
  {
    assert GraphKeys(CopyCases(cases, m)) == GraphKeys(cases);
  }

  lemma {:induction false} CopiedArmRuns(
    h: Host, arm: Graph, m: Renaming, scope: set<string>, e: Env, r: Env, log: Log)
    requires GraphScoped(arm, scope) && GraphSpared(arm, m, true, {})
    requires Injective(m, scope) && Matched(m, scope, e, r)
    ensures RunGraph(h, CopyGraph(arm, m, true, {}), r, log) == RunGraph(h, arm, e, log)
    decreases arm, 1, 0
  {
    assert scope + OwnNames(arm, true, {}) == scope;
    EffectiveRenaming(arm, m, true, {}, scope);
    CopiedGraphRuns(h, arm, m, true, {}, ReadScope(arm, true, {}, scope), e, r, log);
  }

  lemma {:induction false} CopiedGraphRuns(
    h: Host, g: Graph, m: Renaming, renameInput: bool, excluded: set<string>, scope: set<string>,
    e: Env, r: Env, log: Log)
    requires GraphScoped(g, scope) && StepsSpared(g.steps, Effective(g, m, renameInput, excluded))
    requires RenamesInside(g, Effective(g, m, renameInput, excluded), scope)
    requires Matched(Effective(g, m, renameInput, excluded), scope - Outputs(g.steps), e, r)
    ensures RunGraph(h, CopyGraph(g, m, renameInput, excluded), r, log) == RunGraph(h, g, e, log)
    decreases g, 0, 0
  {
    var copy, inside := CopyGraph(g, m, renameInput, excluded), Effective(g, m, renameInput, excluded);
    var out := Outputs(g.steps);
    assert scope - out + out == scope + out;
    CopiedStepsRun(h, g.steps, inside, g.inputName, scope - out, e, r, log);
    assert copy.inputName == To(inside, g.inputName);
    FinalOutputCopied(g, m, renameInput, excluded, scope);
  }

  lemma FinalOutputCopied(g: Graph, m: Renaming, renameInput: bool, excluded: set<string>, scope: set<string>)
    requires GraphScoped(g, scope)
    ensures var inside := Effective(g, m, renameInput, excluded);
            && FinalOutput(CopyGraph(g, m, renameInput, excluded)) == To(inside, FinalOutput(g))
            && FinalOutput(g) in scope + Outputs(g.steps)
  {
    hide FreeInGraph, StepsScoped, CopyStep, CopyKind;
    if g.outputName.None? && g.steps != [] {
      assert g.steps[|g.steps| - 1] in g.steps;
    }
  }

  lemma {:induction false} CopiedStepsRun(
    h: Host, steps: seq<Step>, m: Renaming, inputName: string, scope: set<string>, e: Env, r: Env, log: Log)
    requires StepsScoped(steps, inputName, scope) && StepsSpared(steps, m)
    requires forall y :: y in Outputs(steps) ==> To(m, y) == y
    requires Injective(m, scope + Outputs(steps)) && Matched(m, scope, e, r)
    ensures var ran := RunSteps(h, CopySteps(steps, m), To(m, inputName), r, log);
            var was := RunSteps(h, steps, inputName, e, log);
            && ran.log == was.log && ran.EnvDone? == was.EnvDone?
            && (was.EnvDone? ==> Matched(m, scope + Outputs(steps), was.env, ran.env))
    decreases steps, 0, 0
  {
    hide StepScoped, StepSpared, RunStep, CopyStep;
    if steps == [] {
      assert scope + Outputs(steps) == scope;
    } else {
      var s, rest := steps[0], steps[1..];
      assert CopySteps(steps, m)[1..] == CopySteps(rest, m);
      assert scope + Outputs(steps) == scope + {s.output} + Outputs(rest) && Outputs(rest) <= Outputs(steps) by {
        assert [s] + rest == steps;
        OutputsConcat([s], rest);
      }
      assert s.output in Outputs(steps);
      CopiedStepRuns(h, s, m, inputName, scope, e, r, log);
      var first := RunStep(h, s, inputName, e, log);
      if first.Done? {
        BindRenamed(m, scope, s.output, first.value, e, r);
        CopiedStepsRun(h, rest, m, inputName, scope + {s.output},
                       e[s.output := first.value], r[s.output := first.value], first.log);
      }
    }
  }

  lemma BindRenamed(m: Renaming, scope: set<string>, y: string, v: Value, e: Env, r: Env)
    requires Matched(m, scope, e, r) && Injective(m, scope + {y})
    ensures Matched(m, scope + {y}, e[y := v], r[To(m, y) := v])
  {
    forall x | x in scope && x != y ensures To(m, x) != To(m, y) {
      assert x in scope + {y} && y in scope + {y};
    }
  }

  lemma {:induction false} CopiedEachRuns(
    h: Host, s: Step, m: Renaming, inputName: string, scope: set<string>, e: Env, r: Env, log: Log)
    requires s.kind.Mapping? && StepScoped(s, inputName, scope) && StepSpared(s, m)
    requires Injective(m, scope) && Matched(m, scope, e, r)
    ensures RunStep(h, CopyStep(s, m), To(m, inputName), r, log) == RunStep(h, s, inputName, e, log)
    decreases s, 0, 0
  {
    var copy := CopyStep(s, m);
    assert copy.inputs == [To(m, s.inputs[0])] && s.inputs[0] in Listed(s);
    assert s.inputs[0] in e && r[To(m, s.inputs[0])] == e[s.inputs[0]];
    CapturesSurvive(s, m, inputName, scope);
    var elements := EachElements(h, s, e[s.inputs[0]]);
    RunEach(h, s, inputName, e, log);
    RunEach(h, copy, To(m, inputName), r, log);
    if elements.Some? {
      CopiedItemsRun(h, s, m, inputName, scope, e, r, elements.value, log);
    }
  }

  lemma {:induction false} CopiedItemsRun(
    h: Host, s: Step, m: Renaming, inputName: string, scope: set<string>, e: Env, r: Env, items: seq<Value>, log: Log)
    requires s.kind.Mapping? && StepScoped(s, inputName, scope) && StepSpared(s, m)
    requires Injective(m, scope) && Matched(m, scope, e, r)
    ensures RunItems(h, CopyGraph(s.kind.body, m, false, s.kind.consts.Keys), r, s.kind.consts, items, log)
         == RunItems(h, s.kind.body, e, s.kind.consts, items, log)
    decreases s.kind.body, 1, |items|
  {
    var body, consts := s.kind.body, s.kind.consts;
    if items != [] {
      var item := body.inputName;
      BodyScope(s, inputName, scope);
      EffectiveRenaming(body, m, false, consts.Keys, scope);
      BindItem(s, m, scope, items[0], e, r);
      CopiedGraphRuns(h, body, m, false, consts.Keys, ReadScope(body, false, consts.Keys, scope),
                      ItemEnv(e, item, items[0], consts), ItemEnv(r, item, items[0], consts), log);
      var first := RunGraph(h, body, ItemEnv(e, item, items[0], consts), log);
      CopiedItemsRun(h, s, m, inputName, scope, e, r, items[1..], first.log);
    }
  }

  lemma BindItem(s: Step, m: Renaming, scope: set<string>, item: Value, e: Env, r: Env)
    requires s.kind.Mapping? && StepSpared(s, m) && Matched(m, scope, e, r)
    ensures var body, consts := s.kind.body, s.kind.consts;
            Matched(Effective(body, m, false, consts.Keys),
                    ReadScope(body, false, consts.Keys, scope) - Outputs(body.steps),
                    ItemEnv(e, body.inputName, item, consts), ItemEnv(r, body.inputName, item, consts))
  {
  }
}
