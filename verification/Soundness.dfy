/**
 Semantic preservation: a compiled graph does to every value and every world what running its steps
 one at a time in declaration order does, failures included.
 */
module Soundness {
  import opened Values
  import opened Ir
  import opened Graph
  import opened Reference
  import opened Layering
  import opened Compiler
  import opened ExecFacts
  import opened Simulation
  import opened Leaves
  import opened WellFormedness

  // ----- small facts -----

  lemma PiecesCompileAll(
    steps: seq<Step>, layers: seq<seq<Step>>, final: string, fields: set<string>, inputName: string, s: Step)
    requires AllWithin(layers, steps) && (forall k | 0 <= k < |layers| :: layers[k] != [])
    requires EnvPieces(steps, layers, final, fields, inputName).Ok? && s in Flatten(layers)
    ensures StepFromEnv(s, inputName).Ok?
    decreases |layers|
  {
    if IsFinalLayer(layers, final) {
      assert Flatten(layers[1..]) == [];
    } else {
      var held := fields + Outputs(layers[0]);
      if s in layers[0] {
        LayerCompilesAll(steps, layers[0], inputName, s);
      } else {
        PiecesCompileAll(steps, layers[1..], final, LiveAfter(layers[1..], final, held, inputName), inputName, s);
      }
    }
  }

  lemma LayerCompilesAll(steps: seq<Step>, layer: seq<Step>, inputName: string, s: Step)
    requires forall t :: t in layer ==> t in steps
    requires LayerNodes(steps, layer, inputName).Ok? && s in layer
    ensures StepFromEnv(s, inputName).Ok?
  {
    if s != layer[0] {
      LayerCompilesAll(steps, layer[1..], inputName, s);
    }
  }

  lemma NeedingInput(layers: seq<seq<Step>>, inputName: string, steps: seq<Step>)
    requires AllWithin(layers, steps) && inputName in Needed(layers, inputName)
    ensures StepsConsume(steps, inputName) || exists s :: s in steps && inputName in InputSources(s)
  {
    var k, s :| 0 <= k < |layers| && s in layers[k] && inputName in LiveSources(s, inputName);
    assert s in steps;
    if StepConsumes(s, inputName) {
      StepsConsumeOf(steps, s, inputName);
    }
  }

  // ----- scheduling applied to the reference run -----

  /** A well-formed graph's layers: ready one after another, with the graph's steps in them. */
  lemma LayersOf(g: Graph, initial: set<string>)
    requires WellFormed(g) && SourcesInOrder(g, initial) && initial !! Outputs(g.steps) && Layers(g.steps, initial).Ok?
    ensures var layers := Layers(g.steps, initial).value;
            && Ready(layers, initial, g.inputName) && Declared(g.steps, initial + {g.inputName})
            && (forall s :: s in Flatten(layers) <==> s in g.steps)
            && Outputs(Flatten(layers)) == Outputs(g.steps)
            && (forall s :: s in g.steps ==> InputSources(s) <= initial + Outputs(g.steps))
  {
    var layers := Layers(g.steps, initial).value;
    DeclaredFrom(g, initial, 0);
    assert g.steps[0..] == g.steps && Outputs(g.steps[..0]) == {};
    assert initial + {g.inputName} + {} == initial + {g.inputName};
    LayersAreReady(g.steps, initial, g.inputName);
    LayersPartition(g.steps, initial);
    SameMembers(Flatten(layers), g.steps);
    LayeredSources(layers, initial, g.inputName);
  }

  lemma StepsKeepTheWorld(h: Host, g: Graph)
    requires Honest(h, g.steps)
    ensures forall s :: s in g.steps && !IsBarrier(s) ==> KeepsTheWorld(StepRunner(h, g.inputName), s)
  {
    hide RunStep, IsBarrier, Honest;
    var run := StepRunner(h, g.inputName);
    forall s | s in g.steps && !IsBarrier(s) ensures KeepsTheWorld(run, s) {
      HonestOf(h, g.steps, s);
      forall r: Env, log: Log ensures !run(s, r, log).Unmodelled? && run(s, r, log).log == log {
        ReadsKeepTheWorld(h, s, g.inputName, r, log);
      }
    }
  }

  /** The layers are as good as the declared order. */
  lemma Scheduled(h: Host, g: Graph, initial: set<string>, r: Env, log: Log)
    requires WellFormed(g) && Honest(h, g.steps) && SourcesInOrder(g, initial)
    requires initial !! Outputs(g.steps) && initial <= r.Keys && BRANCH !in r
    requires Layers(g.steps, initial).Ok?
    requires SubjectsPrecede(g.steps) && Settled(Layers(g.steps, initial).value)
    requires forall s :: s in g.steps ==> Framed(StepRunner(h, g.inputName), s, g.inputName)
    ensures RunSteps(h, g.steps, g.inputName, r, log)
         == RunWith(StepRunner(h, g.inputName), Flatten(Layers(g.steps, initial).value), r, log)
  {
    hide RunStep, IsBarrier, Honest, Settled, SubjectsPrecede, Declared, RunSteps, RunWith, Flatten, WellFormedSteps;
    hide SourcesInOrder, Layers;
    var run := StepRunner(h, g.inputName);
    LayersOf(g, initial);
    StepsKeepTheWorld(h, g);
    LayersReorder(run, g.steps, initial, g.inputName, r, log);
    RunStepsIsRunWith(h, g.steps, g.inputName, r, log);
  }

  lemma LaterOutputsAreNew(layers: seq<seq<Step>>, done: set<string>, inputName: string)
    requires Ready(layers, done, inputName)
    ensures Outputs(Flatten(layers)) !! done
  {
    if layers != [] {
      LaterOutputsAreNew(layers[1..], done + Outputs(layers[0]), inputName);
      OutputsConcat(layers[0], Flatten(layers[1..]));
    }
  }

  /** A subject that is tracked at its layer is produced by no layer from there on. */
  lemma HeldIsSettled(layers: seq<seq<Step>>, final: string, fields: set<string>, done: set<string>, inputName: string)
    requires Ready(layers, done, inputName) && fields <= done && SubjectsHeld(layers, final, fields, inputName)
    ensures Settled(layers)
  {
    if layers != [] {
      var live := LiveAfter(layers[1..], final, fields + Outputs(layers[0]), inputName);
      LaterOutputsAreNew(layers, done, inputName);
      HeldIsSettled(layers[1..], final, live, done + Outputs(layers[0]), inputName);
    }
  }

  // ----- the theorem, by induction on the nesting of graphs -----

  /**
   A compiled step, given an env record that answers for its live sources, does what the step does
   in the full environment.
   */
  lemma {:induction false} StepSound(h: Host, s: Step, inputName: string, e: Env, r: Env, log: Log)
    requires WellFormedStep(s) && HonestStep(h, s) && StepFromEnv(s, inputName).Ok?
    requires Fits(s, inputName, e, r)
    ensures Exec(h, StepFromEnv(s, inputName).value, Rec(e), log) == RunStep(h, s, inputName, r, log)
    decreases s, 7, 0
  {
    if IsBranch(s) {
      BranchSound(h, s, inputName, e, r, log);
    } else if s.kind.Mapping? {
      EachSound(h, s, inputName, e, r, log);
    } else {
      LeafStepSound(h, s, inputName, e, r, log);
    }
  }

  lemma {:induction false} BranchSound(h: Host, s: Step, inputName: string, e: Env, r: Env, log: Log)
    requires IsBranch(s) && WellFormedStep(s) && HonestStep(h, s) && BranchFromEnv(s).Ok?
    requires Fits(s, inputName, e, r)
    ensures Exec(h, BranchFromEnv(s).value, Rec(e), log) == RunStep(h, s, inputName, r, log)
    decreases s, 6, 0
  {
    var fields := BranchFields(s);
    assert fields <= InputSources(s) + SubjectSet(s) <= Reads(s, inputName);
    BranchNode(s);
    LoweredBranch(h, s, BranchAlt(s), e, r, log);
    if s.kind.Cond? {
      CondSound(h, s, inputName, r, log);
    } else {
      SwitchSound(h, s, inputName, r, log);
    }
  }

  /** The `alt` that a branch lowers to. */
  function BranchAlt(s: Step): Node
    requires IsBranch(s) && BranchFromEnv(s).Ok?
  {
    match s.kind
    case Cond(pred, subject, ifTrue, ifFalse) =>
      Alt(if subject.Some? then StdBranchPredicate else pred,
          ArmNode(ifTrue, BranchFields(s)).value, ArmNode(ifFalse, BranchFields(s)).value)
    case Switching(select, subject, cases, default) =>
      Switch(if subject.Some? then StdBranchSelector else select,
             CaseNodes(cases, BranchFields(s)).value, DefaultNode(default, BranchFields(s)).value)
  }

  lemma BranchNode(s: Step)
    requires IsBranch(s) && BranchFromEnv(s).Ok?
    ensures BranchFromEnv(s).value == SeqOf([Prune(BranchFields(s))] + DecisionPieces(s) + [BranchAlt(s)])
  {
  }

  /** What a branch's `alt` must do with the record of the branch's fields, decided or not. */
  ghost predicate AltDoes(h: Host, s: Step, alt: Node, ran: Outcome, r: Env, log: Log)
    requires IsBranch(s)
  {
    var kept, d := Restrict(r, BranchFields(s)), Decision(h, s, r);
    && (d.Some? ==> Exec(h, alt, Rec(DecidedRecord(kept, s, d.value)), log) == ran)
    && (d.None? ==> ran == Fail(log) && (Subject(s).None? ==> Exec(h, alt, Rec(kept), log) == ran))
  }

  /** The decided record still answers for every field of the branch. */
  lemma DecidedFits(s: Step, r: Env, d: Value)
    requires IsBranch(s) && BranchFields(s) <= r.Keys && BRANCH !in r
    ensures var decided := DecidedRecord(Restrict(r, BranchFields(s)), s, d);
            BranchFields(s) <= decided.Keys && Agree(decided, r, BranchFields(s)) && BRANCH !in BranchFields(s)
  {
  }

  lemma {:induction false} CondSound(h: Host, s: Step, inputName: string, r: Env, log: Log)
    requires s.kind.Cond? && WellFormedStep(s) && HonestStep(h, s) && BranchFromEnv(s).Ok?
    requires BranchFields(s) <= r.Keys && BRANCH !in r
    ensures AltDoes(h, s, BranchAlt(s), RunStep(h, s, inputName, r, log), r, log)
    decreases s, 5, 0
  {
    var fields, onTrue, onFalse := BranchFields(s), s.kind.ifTrue, s.kind.ifFalse;
    var nodeTrue, nodeFalse := ArmNode(onTrue, fields).value, ArmNode(onFalse, fields).value;
    DecisionApplied(h, s, r);
    ExecAlt(h, BranchAlt(s).pred, nodeTrue, nodeFalse, Rec(Restrict(r, fields)), log);
    var d := Decision(h, s, r);
    if d.Some? {
      DecidedFits(s, r, d.value);
      var decided := DecidedRecord(Restrict(r, fields), s, d.value);
      ExecAlt(h, BranchAlt(s).pred, nodeTrue, nodeFalse, Rec(decided), log);
      ArmSound(h, onTrue, fields, decided, r, log);
      ArmSound(h, onFalse, fields, decided, r, log);
    }
  }

  lemma CaseNodesAt(cases: seq<GraphCase>, fields: set<string>, i: nat)
    requires CaseNodes(cases, fields).Ok? && i < |cases|
    ensures ArmNode(cases[i].arm, fields).Ok?
    ensures CaseNodes(cases, fields).value[i] == NodeCase(cases[i].key, ArmNode(cases[i].arm, fields).value)
  {
    if i > 0 {
      CaseNodesAt(cases[1..], fields, i - 1);
    }
  }

  lemma CaseIndexAgrees(cases: seq<GraphCase>, fields: set<string>, key: Value)
    requires CaseNodes(cases, fields).Ok?
    ensures CaseIndex(CaseNodes(cases, fields).value, key) == GraphCaseIndex(cases, key)
  {
    var nodes := CaseNodes(cases, fields).value;
    forall i | 0 <= i < |cases| ensures nodes[i].key == cases[i].key {
      CaseNodesAt(cases, fields, i);
    }
    assert seq(|nodes|, i requires 0 <= i < |nodes| => nodes[i].key) == GraphKeys(cases);
  }

  lemma {:induction false} SwitchSound(h: Host, s: Step, inputName: string, r: Env, log: Log)
    requires s.kind.Switching? && WellFormedStep(s) && HonestStep(h, s) && BranchFromEnv(s).Ok?
    requires BranchFields(s) <= r.Keys && BRANCH !in r
    ensures AltDoes(h, s, BranchAlt(s), RunStep(h, s, inputName, r, log), r, log)
    decreases s, 5, 0
  {
    hide Exec, RunGraph, CompileEnv, SubjectsSurvive, ArmNode;
    var fields, cases, default := BranchFields(s), s.kind.cases, s.kind.default;
    var nodes, fallback := CaseNodes(cases, fields).value, DefaultNode(default, fields).value;
    DecisionApplied(h, s, r);
    ExecSwitch(h, BranchAlt(s).select, nodes, fallback, Rec(Restrict(r, fields)), log);
    var d := Decision(h, s, r);
    if d.Some? {
      DecidedFits(s, r, d.value);
      var decided := DecidedRecord(Restrict(r, fields), s, d.value);
      var key := SwitchKey(h, s, d.value);
      ExecSwitch(h, BranchAlt(s).select, nodes, fallback, Rec(decided), log);
      CaseIndexAgrees(cases, fields, key);
      var i := GraphCaseIndex(cases, key);
      if i < |cases| {
        CaseNodesAt(cases, fields, i);
        CaseSourcesOf(cases, i);
        WellFormedCaseOf(cases, fields, i);
        HonestCaseOf(h, cases, i);
        ArmSound(h, cases[i].arm, fields, decided, r, log);
      } else if default.Some? {
        ArmSound(h, default.value, fields, decided, r, log);
      }
    }
  }

  /** An arm prunes the branch's record to what it reads and runs over that. */
  lemma {:induction false} ArmSound(h: Host, arm: Graph, incoming: set<string>, e: Env, r: Env, log: Log)
    requires WellFormedArm(arm) && Honest(h, arm.steps) && ArmNode(arm, incoming).Ok?
    requires SubjectsSurvive(arm, ArmFields(arm, incoming))
    requires ArmSources(arm) <= incoming && BRANCH !in incoming && incoming <= e.Keys
    requires Agree(e, r, incoming) && BRANCH !in r
    ensures Exec(h, ArmNode(arm, incoming).value, Rec(e), log) == RunGraph(h, arm, r, log)
    decreases arm, 11, 0
  {
    hide Exec, RunGraph, CompileEnv, SubjectsSurvive;
    var fields := ArmFields(arm, incoming);
    var body := CompileEnv(arm, fields).value;
    ExecSeqOf(h, [Prune(fields)] + SeqItems(body), Rec(e), log);
    ExecCons(h, Prune(fields), SeqItems(body), Rec(e), log);
    ExecPrune(h, fields, e, log);
    var pruned := Restrict(e, fields);
    ExecSeqItems(h, body, Rec(pruned), log);
    assert fields == ArmSources(arm);
    GraphSound(h, arm, fields, pruned, r, log);
  }

  // ----- each -----

  /** What one item's record holds, against the scope the reference gives the item. */
  ghost predicate ItemFits(s: Step, p: Env, item: Value, r: Env)
    requires s.kind.Mapping?
  {
    p.Keys == BodyFields(s) && Agree(p, ItemEnv(r, s.kind.body.inputName, item, s.kind.consts), BodyFields(s))
  }

  function UnpackedBody(s: Step): seq<Node>
    requires s.kind.Mapping? && CompileEnv(s.kind.body, BodyFields(s)).Ok?
  {
    UnpackPieces(BodyFields(s), CompileEnv(s.kind.body, BodyFields(s)).value)
  }

  /** The three forms of a compiled body: over packed records, over packed constants, or bare. */
  lemma BodyForms(s: Step)
    requires s.kind.Mapping? && EachBody(s).Ok?
    ensures Captures(s) == {} && s.kind.consts == map[] ==> Compile(s.kind.body) == EachBody(s)
    ensures Captures(s) != {} || s.kind.consts != map[] ==> CompileEnv(s.kind.body, BodyFields(s)).Ok?
    ensures Captures(s) != {} ==> EachBody(s).value == SeqOf(UnpackedBody(s))
    ensures Captures(s) == {} && s.kind.consts != map[] ==>
              EachBody(s).value
              == SeqOf([Arr(StdPack(ItemSelectors(s.kind.body.inputName, s.kind.consts)))] + UnpackedBody(s))
  {
  }

  /** Unpacking the record and running the compiled body is running the body in the item's scope. */
  lemma {:induction false} PackedItemSound(h: Host, s: Step, p: Env, item: Value, r: Env, log: Log)
    requires s.kind.Mapping? && WellFormedEach(s) && HonestStep(h, s) && BRANCH !in r
    requires ItemFits(s, p, item, r) && CompileEnv(s.kind.body, BodyFields(s)).Ok?
    requires BRANCH !in Captures(s) && SubjectsSurvive(s.kind.body, BodyFields(s))
    ensures ExecList(h, UnpackedBody(s), Rec(p), log)
         == RunGraph(h, s.kind.body, ItemEnv(r, s.kind.body.inputName, item, s.kind.consts), log)
    decreases s.kind.body, 12, 0
  {
    hide Exec, RunGraph, CompileEnv, SubjectsSurvive, Captures;
    var body, fields := s.kind.body, BodyFields(s);
    var inner := CompileEnv(body, fields).value;
    assert body.inputName in fields;
    UnpackSound(h, fields, p, SeqItems(inner), log);
    ExecSeqItems(h, inner, Rec(p), log);
    BodyFieldsAreFresh(s);
    GraphSound(h, body, fields, p, ItemEnv(r, body.inputName, item, s.kind.consts), log);
  }

  lemma BodyFieldsAreFresh(s: Step)
    requires s.kind.Mapping? && WellFormed(s.kind.body) && s.kind.consts.Keys !! Outputs(s.kind.body.steps)
    ensures BodyFields(s) !! Outputs(s.kind.body.steps)
  {
  }

  /** The record packed for an item stands for the item, or for the outer value if the item's name is captured. */
  lemma PackedItemFits(s: Step, e: Env, r: Env, item: Value)
    requires s.kind.Mapping? && WellFormedEach(s)
    requires Captures(s) <= e.Keys && Agree(e, r, Captures(s))
    ensures ItemFits(s, PackItem(e, s.kind.body.inputName, item, Identity(Captures(s)), s.kind.consts).fields,
                     SeenItem(s, r, item), r)
  {
    hide Captures, WellFormed, WellFormedEach;
    PackedFieldsFit(e, r, s.kind.body.inputName, item, Captures(s), s.kind.consts);
  }

  lemma PackedFieldsFit(e: Env, r: Env, name: string, item: Value, captures: set<string>, consts: Env)
    requires captures <= e.Keys && Agree(e, r, captures)
    requires forall f | f in Identity(captures) :: Identity(captures)[f] in e
    ensures var p := PackItem(e, name, item, Identity(captures), consts).fields;
            var scope := ItemEnv(r, name, if name in captures && name in r then r[name] else item, consts);
            p.Keys == {name} + captures + consts.Keys && Agree(p, scope, {name} + captures + consts.Keys)
  {
    var captured := map f | f in Identity(captures) :: e[Identity(captures)[f]];
    assert captured.Keys == captures && forall f :: f in captures ==> captured[f] == e[f];
    UnionFits(captured, r, name, item, consts);
  }

  lemma UnionFits(captured: Env, r: Env, name: string, item: Value, consts: Env)
    requires Agree(captured, r, captured.Keys)
    ensures var p, fields := map[name := item] + captured + consts, {name} + captured.Keys + consts.Keys;
            var seen := if name in captured && name in r then r[name] else item;
            p.Keys == fields && Agree(p, ItemEnv(r, name, seen, consts), fields)
  {
  }

  /** What an `each` body finds under its item's name. */
  function SeenItem(s: Step, r: Env, item: Value): Value
    requires s.kind.Mapping?
  {
    var name := s.kind.body.inputName;
    if name in Captures(s) && name in r then r[name] else item
  }

  function SeenItems(s: Step, r: Env, items: seq<Value>): seq<Value>
    requires s.kind.Mapping?
  {
    if items == [] then [] else [SeenItem(s, r, items[0])] + SeenItems(s, r, items[1..])
  }

  function Repeated(v: Value, count: nat): seq<Value> {
    seq(count, i requires 0 <= i < count => v)
  }

  /** The items themselves, or the outer value as many times over. */
  lemma SeenItemsForm(s: Step, r: Env, items: seq<Value>)
    requires s.kind.Mapping?
    ensures s.kind.body.inputName !in Captures(s) ==> SeenItems(s, r, items) == items
    ensures s.kind.body.inputName in Captures(s) && s.kind.body.inputName in r ==>
              SeenItems(s, r, items) == Repeated(r[s.kind.body.inputName], |items|)
  {
    if items != [] {
      SeenItemsForm(s, r, items[1..]);
      assert items == [items[0]] + items[1..];
    }
  }

  /** The records an `each` packs when the env record holds all it captures. */
  function PackedRecords(s: Step, e: Env, elements: seq<Value>): seq<Value>
    requires s.kind.Mapping? && Captures(s) <= e.Keys
  {
    if elements == [] then []
    else
      [PackItem(e, s.kind.body.inputName, elements[0], Identity(Captures(s)), s.kind.consts)]
      + PackedRecords(s, e, elements[1..])
  }

  lemma PackedRecordsForm(s: Step, e: Env, elements: seq<Value>)
    requires s.kind.Mapping? && Captures(s) <= e.Keys
    ensures PackItems(e, elements, s.kind.body.inputName, Identity(Captures(s)), s.kind.consts)
         == Some(PackedRecords(s, e, elements))
  {
    assert forall f | f in Identity(Captures(s)) :: Identity(Captures(s))[f] in e;
  }

  lemma {:induction false} PackedItemsSound(
    h: Host, s: Step, elements: seq<Value>, e: Env, r: Env, log: Log)
    requires s.kind.Mapping? && WellFormedEach(s) && HonestStep(h, s) && EachBody(s).Ok?
    requires Captures(s) != {} && Captures(s) <= e.Keys && Agree(e, r, Captures(s)) && BRANCH !in e && BRANCH !in r
    ensures ExecItems(h, EachBody(s).value, PackedRecords(s, e, elements), log)
         == RunItems(h, s.kind.body, r, s.kind.consts, SeenItems(s, r, elements), log)
    decreases s.kind.body, 13, |elements|
  {
    if elements != [] {
      var seen, rest := SeenItem(s, r, elements[0]), elements[1..];
      var p := PackItem(e, s.kind.body.inputName, elements[0], Identity(Captures(s)), s.kind.consts);
      OnePackedItemSound(h, s, elements[0], e, r, log);
      ExecItemsCons(h, EachBody(s).value, p, PackedRecords(s, e, rest), log);
      RunItemsCons(h, s.kind.body, r, s.kind.consts, seen, SeenItems(s, r, rest), log);
      assert PackedRecords(s, e, elements) == [p] + PackedRecords(s, e, rest);
      var first := Exec(h, EachBody(s).value, p, log);
      if first.Done? {
        PackedItemsSound(h, s, rest, e, r, first.log);
        assert ExecItems(h, EachBody(s).value, PackedRecords(s, e, rest), first.log)
            == RunItems(h, s.kind.body, r, s.kind.consts, SeenItems(s, r, rest), first.log);
      }
    }
  }

  lemma {:induction false} OnePackedItemSound(h: Host, s: Step, element: Value, e: Env, r: Env, log: Log)
    requires s.kind.Mapping? && WellFormedEach(s) && HonestStep(h, s) && EachBody(s).Ok?
    requires Captures(s) != {} && Captures(s) <= e.Keys && Agree(e, r, Captures(s)) && BRANCH !in e && BRANCH !in r
    ensures Exec(h, EachBody(s).value,
                 PackItem(e, s.kind.body.inputName, element, Identity(Captures(s)), s.kind.consts), log)
         == RunGraph(h, s.kind.body, ItemEnv(r, s.kind.body.inputName, SeenItem(s, r, element), s.kind.consts), log)
    decreases s.kind.body, 12, 1
  {
    var p := PackItem(e, s.kind.body.inputName, element, Identity(Captures(s)), s.kind.consts);
    BodyForms(s);
    ExecSeqOf(h, UnpackedBody(s), p, log);
    PackedItemFits(s, e, r, element);
    assert BRANCH !in Captures(s);
    PackedItemSound(h, s, p.fields, SeenItem(s, r, element), r, log);
  }

  /** Without captures the body starts from the raw item: packed with the constants, or compiled bare. */
  lemma {:induction false} RawItemSound(h: Host, s: Step, item: Value, r: Env, log: Log)
    requires s.kind.Mapping? && WellFormedEach(s) && HonestStep(h, s) && EachBody(s).Ok?
    requires Captures(s) == {} && BRANCH !in r
    ensures Exec(h, EachBody(s).value, item, log)
         == RunGraph(h, s.kind.body, ItemEnv(r, s.kind.body.inputName, item, s.kind.consts), log)
    decreases s.kind.body, 13, 0
  {
    var body, consts := s.kind.body, s.kind.consts;
    var scope := ItemEnv(r, body.inputName, item, consts);
    BodyForms(s);
    if consts == map[] {
      assert scope == r[body.inputName := item];
      CompileSound(h, body, item, scope, log);
    } else {
      PackedRawItemSound(h, s, item, r, log);
    }
  }

  lemma {:induction false} PackedRawItemSound(h: Host, s: Step, item: Value, r: Env, log: Log)
    requires s.kind.Mapping? && WellFormedEach(s) && HonestStep(h, s) && EachBody(s).Ok?
    requires Captures(s) == {} && BRANCH !in r && s.kind.consts != map[]
    ensures Exec(h, EachBody(s).value, item, log)
         == RunGraph(h, s.kind.body, ItemEnv(r, s.kind.body.inputName, item, s.kind.consts), log)
    decreases s.kind.body, 12, 1
  {
    hide Exec, RunGraph, CompileEnv, SubjectsSurvive, StepFromEnv;
    var body, consts := s.kind.body, s.kind.consts;
    BodyForms(s);
    var p := map[body.inputName := item] + consts;
    var pack := Arr(StdPack(ItemSelectors(body.inputName, consts)));
    ExecSeqOf(h, [pack] + UnpackedBody(s), item, log);
    PackRawItem(h, body.inputName, consts, item, UnpackedBody(s), log);
    PackedItemSound(h, s, p, item, r, log);
  }

  lemma {:induction false} RawItemsSound(h: Host, s: Step, elements: seq<Value>, r: Env, log: Log)
    requires s.kind.Mapping? && WellFormedEach(s) && HonestStep(h, s) && EachBody(s).Ok?
    requires Captures(s) == {} && BRANCH !in r
    ensures ExecItems(h, EachBody(s).value, elements, log)
         == RunItems(h, s.kind.body, r, s.kind.consts, elements, log)
    decreases s.kind.body, 14, |elements|
  {
    if elements != [] {
      RawItemSound(h, s, elements[0], r, log);
      var first := Exec(h, EachBody(s).value, elements[0], log);
      if first.Done? {
        RawItemsSound(h, s, elements[1..], r, first.log);
      }
    }
  }

  lemma {:induction false} EachSound(h: Host, s: Step, inputName: string, e: Env, r: Env, log: Log)
    requires s.kind.Mapping? && WellFormedStep(s) && HonestStep(h, s) && EachFromEnv(s).Ok?
    requires Fits(s, inputName, e, r)
    ensures Exec(h, EachFromEnv(s).value, Rec(e), log) == RunStep(h, s, inputName, r, log)
    decreases s, 6, 0
  {
    var items, captures, k := s.inputs[0], Captures(s), s.kind;
    assert items in Listed(s) && items in InputSources(s) && captures <= InputSources(s);
    RunEach(h, s, inputName, r, log);
    var body := EachBody(s).value;
    var elements := EachElements(h, s, r[items]);
    if captures != {} {
      EachOverPack(h, items, k.body.inputName, Identity(captures), k.consts, body, k.maxParallel, k.reducer, e, log);
      if elements.Some? {
        PackedRecordsForm(s, e, elements.value);
        PackedItemsSound(h, s, elements.value, e, r, log);
        SeenItemsForm(s, r, elements.value);
      }
    } else {
      EachOverPluck(h, items, body, k.maxParallel, k.reducer, e, log);
      if elements.Some? {
        RawItemsSound(h, s, elements.value, r, log);
      }
    }
  }

  /**
   When the item's name is also captured, the captured value is packed over the item: the program runs
   the body as often as there are items, each time with the item bound to the outer value.
   */
  lemma {:induction false} CapturedItemIsOuter(h: Host, s: Step, inputName: string, e: Env, r: Env, log: Log)
    requires s.kind.Mapping? && WellFormedEach(s) && HonestStep(h, s) && EachFromEnv(s).Ok?
    requires Fits(s, inputName, e, r) && s.kind.body.inputName in Captures(s)
    ensures s.inputs[0] in r && s.kind.body.inputName in r
    ensures var elements, outer := EachElements(h, s, r[s.inputs[0]]), r[s.kind.body.inputName];
            Exec(h, EachFromEnv(s).value, Rec(e), log) ==
            if elements.None? then Fail(log)
            else
              Reduced(h, s.kind.reducer,
                      RunItems(h, s.kind.body, r, s.kind.consts, Repeated(outer, |elements.value|), log))
  {
    var items, captures, k := s.inputs[0], Captures(s), s.kind;
    assert items in Listed(s) && items in InputSources(s) && captures <= InputSources(s);
    var elements := EachElements(h, s, r[items]);
    EachOverPack(h, items, k.body.inputName, Identity(captures), k.consts, EachBody(s).value, k.maxParallel,
                 k.reducer, e, log);
    if elements.Some? {
      PackedRecordsForm(s, e, elements.value);
      PackedItemsSound(h, s, elements.value, e, r, log);
      SeenItemsForm(s, r, elements.value);
    }
  }

  // ----- graphs -----

  lemma {:induction false} StepsSound(h: Host, g: Graph, s: Step)
    requires WellFormed(g) && Honest(h, g.steps) && s in g.steps && StepFromEnv(s, g.inputName).Ok?
    ensures Sound(h, StepRunner(h, g.inputName), s, g.inputName, StepFromEnv(s, g.inputName).value)
    decreases g, 9, 0
  {
    WellFormedOf(g.steps, s);
    HonestOf(h, g.steps, s);
    StepIsNotPar(s, g.inputName);
    forall e: Env, r: Env, log: Log | Fits(s, g.inputName, e, r)
      ensures Exec(h, StepFromEnv(s, g.inputName).value, Rec(e), log) == StepRunner(h, g.inputName)(s, r, log)
    {
      StepSound(h, s, g.inputName, e, r, log);
    }
  }

  /** Steps that are leaves, or compile, are framed. */
  lemma {:induction false} StepsFramed(h: Host, g: Graph)
    requires WellFormed(g) && Honest(h, g.steps)
    requires forall s :: s in g.steps ==> IsLeaf(s) || StepFromEnv(s, g.inputName).Ok?
    ensures forall s :: s in g.steps ==> Framed(StepRunner(h, g.inputName), s, g.inputName)
    decreases g, 9, 1
  {
    forall s | s in g.steps ensures Framed(StepRunner(h, g.inputName), s, g.inputName) {
      if IsLeaf(s) {
        LeafIsFramed(h, s, g.inputName);
      } else {
        WellFormedOf(g.steps, s);
        HonestOf(h, g.steps, s);
        StepIsFramed(h, s, g.inputName);
      }
    }
  }

  /** What a step that compiles does depends on what it reads only: the compiled step has no more to go by. */
  lemma {:induction false} StepIsFramed(h: Host, s: Step, inputName: string)
    requires WellFormedStep(s) && HonestStep(h, s) && StepFromEnv(s, inputName).Ok?
    ensures Framed(StepRunner(h, inputName), s, inputName)
    decreases s, 8, 0
  {
    var run := StepRunner(h, inputName);
    forall r1: Env, r2: Env, log: Log |
      Agree(r1, r2, Reads(s, inputName)) && InputSources(s) <= r1.Keys && BRANCH !in r1 && BRANCH !in r2
      ensures run(s, r1, log) == run(s, r2, log)
    {
      if SubjectSet(s) <= r1.Keys {
        StepSound(h, s, inputName, r1, r1, log);
        StepSound(h, s, inputName, r1, r2, log);
      } else {
        UndecidedFails(h, s, inputName, r1, log);
        UndecidedFails(h, s, inputName, r2, log);
      }
    }
  }

  /** A branch whose subject is not bound fails. */
  lemma UndecidedFails(h: Host, s: Step, inputName: string, r: Env, log: Log)
    requires !(SubjectSet(s) <= r.Keys)
    ensures RunStep(h, s, inputName, r, log) == Fail(log)
  {
    assert IsBranch(s) && Subject(s).Some? && Decision(h, s, r).None?;
  }

  /** What `compile_env` needs of the record it starts from, against the enclosing environment. */
  ghost predicate Enters(g: Graph, initial: set<string>, e: Env, r: Env) {
    && e.Keys == initial && initial !! Outputs(g.steps)
    && Agree(e, r, initial + (if ConsumesInput(g) then {g.inputName} else {}))
    && BRANCH !in initial && BRANCH !in r
  }

  lemma StepsCompile(g: Graph, layers: seq<seq<Step>>, initial: set<string>)
    requires Layers(g.steps, initial) == Ok(layers)
    requires EnvPieces(g.steps, layers, FinalOutput(g), initial, g.inputName).Ok?
    ensures forall s :: s in g.steps ==> StepFromEnv(s, g.inputName).Ok?
  {
    hide StepFromEnv, EnvPieces, Layers;
    LayersPartition(g.steps, initial);
    SameMembers(Flatten(layers), g.steps);
    forall s | s in g.steps ensures StepFromEnv(s, g.inputName).Ok? {
      PiecesCompileAll(g.steps, layers, FinalOutput(g), initial, g.inputName, s);
    }
  }

  /** Running all layers from an env record is running the graph. */
  lemma {:induction false} LayersSound(
    h: Host, g: Graph, layers: seq<seq<Step>>, initial: set<string>, e: Env, r: Env, log: Log)
    requires WellFormed(g) && Honest(h, g.steps) && SourcesInOrder(g, initial)
    requires Layers(g.steps, initial) == Ok(layers)
    requires EnvPieces(g.steps, layers, FinalOutput(g), initial, g.inputName).Ok?
    requires Enters(g, initial, e, r) && FinalOutput(g) in initial + Outputs(g.steps)
    requires SubjectsSurvive(g, initial)
    ensures ExecList(h, EnvPieces(g.steps, layers, FinalOutput(g), initial, g.inputName).value, Rec(e), log)
         == RunGraph(h, g, r, log)
    decreases g, 9, 2
  {
    hide Exec, RunStep, EnvPieces, Layers, SubjectsHeld, StepFromEnv, SourcesInOrder, WellFormedSteps;
    var run, final := StepRunner(h, g.inputName), FinalOutput(g);
    StepsCompile(g, layers, initial);
    StepsFramed(h, g);
    LayersOf(g, initial);
    HeldIsSettled(layers, final, initial, initial, g.inputName);
    Scheduled(h, g, initial, r, log);
    LayersAllSound(h, g, layers);
    if g.inputName in Needed(layers, g.inputName) && g.inputName !in initial {
      NeedingInput(layers, g.inputName, g.steps);
    }
    PiecesSound(h, run, g.steps, layers, final, initial, initial, g.inputName, e, r, log);
  }

  lemma {:induction false} LayersAllSound(h: Host, g: Graph, layers: seq<seq<Step>>)
    requires WellFormed(g) && Honest(h, g.steps) && (forall s :: s in Flatten(layers) ==> s in g.steps)
    ensures AllSound(h, StepRunner(h, g.inputName), layers, g.inputName)
    decreases g, 9, 1
  {
    forall s | s in Flatten(layers) && StepFromEnv(s, g.inputName).Ok?
      ensures Sound(h, StepRunner(h, g.inputName), s, g.inputName, StepFromEnv(s, g.inputName).value)
    {
      StepsSound(h, g, s);
    }
  }

  lemma CompileEnvForm(g: Graph, initial: set<string>)
    requires CompileEnv(g, initial).Ok? && HasResult(g)
    ensures SourcesInOrder(g, initial) && FinalOutput(g) in initial + Outputs(g.steps)
    ensures g.steps == [] ==> CompileEnv(g, initial).value == Arr(StdPluck(FinalOutput(g)))
    ensures g.steps != [] ==>
              && Layers(g.steps, initial).Ok?
              && EnvPieces(g.steps, Layers(g.steps, initial).value, FinalOutput(g), initial, g.inputName).Ok?
              && CompileEnv(g, initial).value
              == SeqOf(EnvPieces(g.steps, Layers(g.steps, initial).value, FinalOutput(g), initial, g.inputName).value)
  {
  }

  lemma {:induction false} GraphSound(h: Host, g: Graph, initial: set<string>, e: Env, r: Env, log: Log)
    requires WellFormed(g) && HasResult(g) && Honest(h, g.steps) && CompileEnv(g, initial).Ok?
    requires Enters(g, initial, e, r) && SubjectsSurvive(g, initial)
    ensures Exec(h, CompileEnv(g, initial).value, Rec(e), log) == RunGraph(h, g, r, log)
    decreases g, 10, 0
  {
    CompileEnvForm(g, initial);
    if g.steps == [] {
      assert RunSteps(h, g.steps, g.inputName, r, log) == EnvDone(r, log);
    } else {
      var layers := Layers(g.steps, initial).value;
      LayersSound(h, g, layers, initial, e, r, log);
      ExecSeqOf(h, EnvPieces(g.steps, layers, FinalOutput(g), initial, g.inputName).value, Rec(e), log);
    }
  }

  // ----- compile -----

  lemma {:induction false} FlowingSound(h: Host, s: Step, inputName: string, x: Value, r: Env, log: Log)
    requires WellFormedStep(s) && HonestStep(h, s) && !IsBranch(s) && FlowingLeaf(s).Ok? && BRANCH !in r
    requires |s.inputs| <= 1
    requires var source := if s.inputs == [] then inputName else s.inputs[0]; source in r && r[source] == x
    ensures Exec(h, FlowingLeaf(s).value, x, log) == RunStep(h, s, inputName, r, log)
    decreases s, 7, 0
  {
    if s.kind.Mapping? {
      FlowingEachSound(h, s, inputName, x, r, log);
    } else {
      LeafExec(h, s, x, log);
    }
  }

  lemma {:induction false} FlowingEachSound(h: Host, s: Step, inputName: string, x: Value, r: Env, log: Log)
    requires s.kind.Mapping? && WellFormedStep(s) && HonestStep(h, s) && FlowingLeaf(s).Ok? && BRANCH !in r
    requires |s.inputs| == 1 && s.inputs[0] in r && r[s.inputs[0]] == x
    ensures Exec(h, FlowingLeaf(s).value, x, log) == RunStep(h, s, inputName, r, log)
    decreases s, 6, 0
  {
    assert FlowingLeaf(s) == EachFromFlowing(s) && Captures(s) == {};
    RunEach(h, s, inputName, r, log);
    if x.List? {
      RawItemsSound(h, s, x.items, r, log);
    }
  }

  /** A linear chain of leaves, each fed the result before it, needs no environment record. */
  lemma {:induction false} ChainSound(
    h: Host, steps: seq<Step>, inputName: string, source: string, x: Value, r: Env, log: Log)
    requires WellFormedSteps(steps) && Honest(h, steps) && FlowingLeaves(steps).Ok?
    requires steps != [] && source in r && r[source] == x && BRANCH !in r && BRANCH !in Outputs(steps)
    requires forall s :: s in steps ==> !IsBranch(s)
    requires steps[0].inputs == [source] || (steps[0].inputs == [] && source == inputName)
    requires forall i | 1 <= i < |steps| :: steps[i].inputs == [steps[i - 1].output]
    ensures ExecList(h, FlowingLeaves(steps).value, x, log)
         == Finish(RunSteps(h, steps, inputName, r, log), steps[|steps| - 1].output)
    decreases steps, 8, 0
  {
    var s, tail := steps[0], steps[1..];
    assert s in steps && s.output in Outputs(steps);
    FlowingSound(h, s, inputName, x, r, log);
    var nodes := FlowingLeaves(steps).value;
    assert nodes[1..] == FlowingLeaves(tail).value;
    var o := RunStep(h, s, inputName, r, log);
    if o.Done? && tail != [] {
      assert tail[0] == steps[1];
      assert forall t :: t in tail ==> t in steps;
      assert Outputs(tail) <= Outputs(steps);
      forall i | 1 <= i < |tail| ensures tail[i].inputs == [tail[i - 1].output] {
        assert tail[i] == steps[i + 1] && tail[i - 1] == steps[i];
      }
      ChainSound(h, tail, inputName, s.output, o.value, r[s.output := o.value], o.log);
    }
  }

  /** `compile` on a raw value does what the graph does in any environment that binds its input to it. */
  lemma {:induction false} CompileSound(h: Host, g: Graph, v: Value, r: Env, log: Log)
    requires WellFormed(g) && Honest(h, g.steps) && CompileGuard(g) && Compile(g).Ok?
    requires g.inputName in r && r[g.inputName] == v && BRANCH !in r
    ensures Exec(h, Compile(g).value, v, log) == RunGraph(h, g, r, log)
    decreases g, 11, 0
  {
    if g.steps == [] {
      assert RunSteps(h, g.steps, g.inputName, r, log) == EnvDone(r, log);
    } else {
      CompileForm(g);
      if IsLinearChain(g) {
        ChainSound(h, g.steps, g.inputName, g.inputName, v, r, log);
        ExecSeqOf(h, FlowingLeaves(g.steps).value, v, log);
      } else {
        var layers := Layers(g.steps, {g.inputName}).value;
        ExecSeqOf(h, LayeredPieces(g, layers).value, v, log);
        LayeredSound(h, g, layers, v, r, log);
      }
    }
  }

  /** What a successful layered compilation has established. */
  ghost predicate Layered(g: Graph, layers: seq<seq<Step>>) {
    && g.steps != [] && layers != [] && AllWithin(layers, g.steps)
    && (forall k | 0 <= k < |layers| :: layers[k] != [])
    && Layers(g.steps, {g.inputName}) == Ok(layers)
    && SourcesInOrder(g, {g.inputName}) && FinalOutput(g) in {g.inputName} + Outputs(g.steps)
    && LayeredPieces(g, layers).Ok?
  }

  lemma CompileForm(g: Graph)
    requires Compile(g).Ok? && g.steps != []
    ensures IsLinearChain(g) ==> FlowingLeaves(g.steps).Ok? && Compile(g).value == SeqOf(FlowingLeaves(g.steps).value)
    ensures !IsLinearChain(g) ==>
              && Layers(g.steps, {g.inputName}).Ok?
              && Layered(g, Layers(g.steps, {g.inputName}).value)
              && Compile(g).value == SeqOf(LayeredPieces(g, Layers(g.steps, {g.inputName}).value).value)
  {
  }

  lemma SoleStep(g: Graph, layers: seq<seq<Step>>)
    requires Layered(g, layers) && IsFinalLayer(layers, FinalOutput(g))
    ensures g.steps == [layers[0][0]] && InputSources(layers[0][0]) <= {g.inputName} + Captures(layers[0][0])
    ensures Listed(layers[0][0]) <= {g.inputName}
  {
    var s := layers[0][0];
    assert Flatten(layers) == layers[0] + Flatten(layers[1..]) && layers[0] == [s];
    LayersPartition(g.steps, {g.inputName});
    assert |multiset(g.steps)| == |g.steps| && |multiset(Flatten(layers))| == 1;
    SameMembers(Flatten(layers), g.steps);
    assert g.steps[0] in Flatten(layers) && g.steps == [s];
    assert SourcedAt(g, {g.inputName}, 0) && g.steps[..0] == [];
  }

  lemma {:induction false} SoleStepSound(h: Host, g: Graph, layers: seq<seq<Step>>, v: Value, r: Env, log: Log)
    requires WellFormed(g) && Honest(h, g.steps) && Layered(g, layers)
    requires g.inputName in r && r[g.inputName] == v && BRANCH !in r
    requires IsFinalLayer(layers, FinalOutput(g)) && !IsBranch(layers[0][0]) && |layers[0][0].inputs| <= 1
    ensures ExecList(h, LayeredPieces(g, layers).value, v, log) == RunGraph(h, g, r, log)
    decreases g, 8, 0
  {
    var s := layers[0][0];
    SoleStep(g, layers);
    if s.inputs != [] {
      assert s.inputs[0] in Listed(s);
    }
    WellFormedOf(g.steps, s);
    HonestOf(h, g.steps, s);
    FlowingSound(h, s, g.inputName, v, r, log);
    ExecOne(h, FlowingLeaf(s).value, v, log);
    RunSole(h, s, g.inputName, r, log);
  }

  lemma RunSole(h: Host, s: Step, inputName: string, r: Env, log: Log)
    ensures Finish(RunSteps(h, [s], inputName, r, log), s.output) == RunStep(h, s, inputName, r, log)
  {
    RunStepsIsRunWith(h, [s], inputName, r, log);
    RunCons(StepRunner(h, inputName), s, [], r, log);
    assert [s] + [] == [s];
  }

  /** The record started from the first step's result lacks nothing the later layers need. */
  lemma FastBoundary(g: Graph, layers: seq<seq<Step>>, r: Env, v: Value)
    requires WellFormed(g) && layers != [] && |layers[0]| == 1 && AllWithin(layers, g.steps)
    requires FastStart(layers, g.inputName) && InputUnusedLater(g, layers) && BRANCH !in r
    ensures var s := layers[0][0];
            Boundary(layers[1..], FinalOutput(g), FastLive(g, layers), {g.inputName, s.output}, g.inputName,
                     Restrict(map[s.output := v], FastLive(g, layers)), r[s.output := v])
  {
    var s, later := layers[0][0], layers[1..];
    assert s in layers[0] && s in g.steps && s.output in Outputs(g.steps);
    forall k, t | 0 <= k < |later| && t in later[k] ensures g.inputName !in LiveSources(t, g.inputName) {
      assert t in layers[k + 1];
    }
    assert g.inputName !in Needed(later, g.inputName);
  }

  lemma FastForm(g: Graph, layers: seq<seq<Step>>)
    requires Layered(g, layers) && !IsFinalLayer(layers, FinalOutput(g)) && FastStart(layers, g.inputName)
    ensures var s := layers[0][0];
            && AllWithin(layers[1..], g.steps) && FlowingLeaf(s).Ok?
            && EnvPieces(g.steps, layers[1..], FinalOutput(g), FastLive(g, layers), g.inputName).Ok?
            && LayeredPieces(g, layers).value
            == [FlowingLeaf(s).value] + ([Arr(StdInit(s.output))]
               + ((if FastLive(g, layers) != {s.output} then [Prune(FastLive(g, layers))] else [])
                  + EnvPieces(g.steps, layers[1..], FinalOutput(g), FastLive(g, layers), g.inputName).value))
  {
    LaterWithin(layers, g.steps);
  }

  /** Once the first step has run, its result starts the record and the later layers follow. */
  lemma {:induction false} AfterFastStart(
    h: Host, g: Graph, layers: seq<seq<Step>>, v: Value, r: Env, log: Log)
    requires WellFormed(g) && Honest(h, g.steps) && Layered(g, layers) && BRANCH !in r
    requires !IsFinalLayer(layers, FinalOutput(g)) && FastStart(layers, g.inputName) && InputUnusedLater(g, layers)
    requires SubjectsHeld(layers[1..], FinalOutput(g), FastLive(g, layers), g.inputName)
    requires AllWithin(layers[1..], g.steps)
    requires EnvPieces(g.steps, layers[1..], FinalOutput(g), FastLive(g, layers), g.inputName).Ok?
    requires Ready(layers, {g.inputName}, g.inputName) && (forall s :: s in Flatten(layers) ==> s in g.steps)
    requires Outputs(Flatten(layers)) == Outputs(g.steps)
    ensures var output, live := layers[0][0].output, FastLive(g, layers);
            var prune := if live != {output} then [Prune(live)] else [];
            var rest := EnvPieces(g.steps, layers[1..], FinalOutput(g), live, g.inputName).value;
            ExecList(h, [Arr(StdInit(output))] + (prune + rest), v, log)
            == Finish(RunWith(StepRunner(h, g.inputName), Flatten(layers[1..]), r[output := v], log), FinalOutput(g))
    decreases g, 9, 2
  {
    hide RunGraph, EnvPieces, LayeredPieces, Layers, SubjectsHeld, RunStep, StepFromEnv, WellFormedSteps, InputSources;
    var s, later, live, final := layers[0][0], layers[1..], FastLive(g, layers), FinalOutput(g);
    var rest := EnvPieces(g.steps, later, final, live, g.inputName).value;
    var started := map[s.output := v];
    ExecCons(h, Arr(StdInit(s.output)), (if live != {s.output} then [Prune(live)] else []) + rest, v, log);
    PruneSound(h, live, {s.output}, rest, started, log);
    assert layers[0] == [s] && Flatten(layers) == [s] + Flatten(later);
    OutputsConcat([s], Flatten(later));
    LayersAllSound(h, g, later);
    FastBoundary(g, layers, r, v);
    assert {g.inputName} + Outputs(layers[0]) == {g.inputName, s.output};
    PiecesSound(h, StepRunner(h, g.inputName), g.steps, later, final, live, {g.inputName, s.output}, g.inputName,
                Restrict(started, live), r[s.output := v], log);
  }

  lemma PruneToNothing(h: Host, rest: seq<Node>, v: Value, log: Log)
    ensures Exec(h, SeqOf([Prune({})] + rest), v, log) == Exec(h, SeqOf([Prune({})] + rest), Rec(map[]), log)
  {
    ExecSeqOf(h, [Prune({})] + rest, v, log);
    ExecSeqOf(h, [Prune({})] + rest, Rec(map[]), log);
    ExecCons(h, Prune({}), rest, v, log);
    ExecCons(h, Prune({}), rest, Rec(map[]), log);
    PackFields(v, map f | f in {} :: Field(f), {});
    PackFields(Rec(map[]), map f | f in {} :: Field(f), {});
  }

  /** The first step of a fast start may run on the raw value. */
  lemma {:induction false} StartSound(h: Host, s: Step, inputName: string, v: Value, r: Env, log: Log)
    requires WellFormedStep(s) && HonestStep(h, s) && FlowingLeaf(s).Ok? && BRANCH !in r
    requires s.inputs == [] && StartsOnRawInput(s) && inputName in r && r[inputName] == v
    ensures Exec(h, FlowingLeaf(s).value, v, log) == RunStep(h, s, inputName, r, log)
    decreases s, 7, 1
  {
    hide Exec, RunStep;
    if IsLeaf(s) {
      FlowingSound(h, s, inputName, v, r, log);
    } else {
      BranchNode(s);
      PruneToNothing(h, DecisionPieces(s) + [BranchAlt(s)], v, log);
      assert [Prune({})] + DecisionPieces(s) + [BranchAlt(s)] == [Prune({})] + (DecisionPieces(s) + [BranchAlt(s)]);
      assert BranchSources(s) <= BranchFields(s) && Captures(s) == {};
      BranchSound(h, s, inputName, map[], r, log);
    }
  }

  lemma {:induction false} FastStartSound(h: Host, g: Graph, layers: seq<seq<Step>>, v: Value, r: Env, log: Log)
    requires WellFormed(g) && Honest(h, g.steps) && Layered(g, layers)
    requires g.inputName in r && r[g.inputName] == v && BRANCH !in r
    requires !IsFinalLayer(layers, FinalOutput(g)) && FastStart(layers, g.inputName) && KeepsInputUnused(g, layers)
    requires SubjectsPrecede(g.steps) && SubjectsHeld(layers[1..], FinalOutput(g), FastLive(g, layers), g.inputName)
    ensures ExecList(h, LayeredPieces(g, layers).value, v, log) == RunGraph(h, g, r, log)
    decreases g, 10, 0
  {
    var s := layers[0][0];
    FastForm(g, layers);
    assert s in layers[0] && s in g.steps;
    WellFormedOf(g.steps, s);
    HonestOf(h, g.steps, s);
    StartSound(h, s, g.inputName, v, r, log);
    FastStartRuns(h, g, layers, v, r, log);
  }

  /** What is left once the first step, on whatever value the program is given, does what it does in `r`. */
  lemma {:induction false} FastStartRuns(h: Host, g: Graph, layers: seq<seq<Step>>, v: Value, r: Env, log: Log)
    requires WellFormed(g) && Honest(h, g.steps) && Layered(g, layers)
    requires g.inputName in r && BRANCH !in r
    requires !IsFinalLayer(layers, FinalOutput(g)) && FastStart(layers, g.inputName) && InputUnusedLater(g, layers)
    requires SubjectSet(layers[0][0]) <= {g.inputName} && FlowingLeaf(layers[0][0]).Ok?
    requires SubjectsPrecede(g.steps) && SubjectsHeld(layers[1..], FinalOutput(g), FastLive(g, layers), g.inputName)
    requires Exec(h, FlowingLeaf(layers[0][0]).value, v, log) == RunStep(h, layers[0][0], g.inputName, r, log)
    ensures ExecList(h, LayeredPieces(g, layers).value, v, log) == RunGraph(h, g, r, log)
    decreases g, 9, 3
  {
    hide Exec, EnvPieces, Layers, RunStep, SubjectsHeld, FlowingLeaf;
    var s, later := layers[0][0], layers[1..];
    FastForm(g, layers);
    FastSchedule(h, g, layers, r, log);
    RunCons(StepRunner(h, g.inputName), s, Flatten(later), r, log);
    assert layers[0] == [s] && Flatten(layers) == [s] + Flatten(later);
    var pieces := LayeredPieces(g, layers).value;
    ExecCons(h, pieces[0], pieces[1..], v, log);
    assert pieces == [pieces[0]] + pieces[1..];
    var o := RunStep(h, s, g.inputName, r, log);
    if o.Done? {
      AfterFastStart(h, g, layers, o.value, r, o.log);
    }
  }

  /** In a quick start every step but the first has been compiled, and that is a leaf or has been compiled too. */
  lemma FastStepsCompile(g: Graph, layers: seq<seq<Step>>)
    requires WellFormed(g) && Layered(g, layers) && FlowingLeaf(layers[0][0]).Ok?
    requires !IsFinalLayer(layers, FinalOutput(g)) && FastStart(layers, g.inputName)
    requires forall s :: s in Flatten(layers) <==> s in g.steps
    ensures forall t :: t in g.steps ==> IsLeaf(t) || StepFromEnv(t, g.inputName).Ok?
  {
    hide EnvPieces, LayeredPieces, Layers, EachBody, BranchFromEnv;
    var s, later := layers[0][0], layers[1..];
    FastForm(g, layers);
    assert s in layers[0] && layers[0] == [s] && Flatten(layers) == [s] + Flatten(later);
    WellFormedOf(g.steps, s);
    assert s.kind.Mapping? ==> WellFormedEach(s);
    forall t | t in g.steps ensures IsLeaf(t) || StepFromEnv(t, g.inputName).Ok? {
      if t != s {
        PiecesCompileAll(g.steps, later, FinalOutput(g), FastLive(g, layers), g.inputName, t);
      }
    }
  }

  lemma {:induction false} FastSchedule(h: Host, g: Graph, layers: seq<seq<Step>>, r: Env, log: Log)
    requires WellFormed(g) && Honest(h, g.steps) && Layered(g, layers)
    requires g.inputName in r && BRANCH !in r
    requires !IsFinalLayer(layers, FinalOutput(g)) && FastStart(layers, g.inputName)
    requires SubjectSet(layers[0][0]) <= {g.inputName} && FlowingLeaf(layers[0][0]).Ok?
    requires SubjectsPrecede(g.steps) && SubjectsHeld(layers[1..], FinalOutput(g), FastLive(g, layers), g.inputName)
    ensures AllWithin(layers[1..], g.steps) && Outputs(Flatten(layers)) == Outputs(g.steps)
    ensures Ready(layers, {g.inputName}, g.inputName) && forall s :: s in Flatten(layers) <==> s in g.steps
    ensures RunSteps(h, g.steps, g.inputName, r, log)
         == RunWith(StepRunner(h, g.inputName), Flatten(layers), r, log)
    decreases g, 9, 2
  {
    hide Exec, RunStep, RunGraph, EnvPieces, LayeredPieces, Layers, SubjectsHeld, StepFromEnv, FlowingLeaf;
    var s, later := layers[0][0], layers[1..];
    FastForm(g, layers);
    LayersOf(g, {g.inputName});
    assert s in layers[0] && layers[0] == [s] && Flatten(layers) == [s] + Flatten(later);
    FastStepsCompile(g, layers);
    StepsFramed(h, g);
    assert {g.inputName} + Outputs(layers[0]) == {g.inputName, s.output};
    HeldIsSettled(later, FinalOutput(g), FastLive(g, layers), {g.inputName, s.output}, g.inputName);
    Scheduled(h, g, {g.inputName}, r, log);
  }

  lemma SoleBranchHeld(g: Graph, layers: seq<seq<Step>>)
    requires Layered(g, layers) && CompileGuard(g) && !IsLinearChain(g)
    requires IsFinalLayer(layers, FinalOutput(g)) ==> IsBranch(layers[0][0])
    requires IsFinalLayer(layers, FinalOutput(g)) || !FastStart(layers, g.inputName)
    ensures SubjectsSurvive(g, {g.inputName})
  {
    if IsFinalLayer(layers, FinalOutput(g)) {
      assert layers[1..] == [];
    }
  }

  /** Without a shortcut the raw value starts the record under the input's name. */
  lemma {:induction false} EnvStartSound(h: Host, g: Graph, layers: seq<seq<Step>>, v: Value, r: Env, log: Log)
    requires WellFormed(g) && Honest(h, g.steps) && Layered(g, layers) && SubjectsSurvive(g, {g.inputName})
    requires g.inputName in r && r[g.inputName] == v && BRANCH !in r
    requires IsFinalLayer(layers, FinalOutput(g)) ==> IsBranch(layers[0][0])
    requires IsFinalLayer(layers, FinalOutput(g)) || !FastStart(layers, g.inputName)
    ensures ExecList(h, LayeredPieces(g, layers).value, v, log) == RunGraph(h, g, r, log)
    decreases g, 10, 0
  {
    hide RunGraph, RunSteps, RunStep, Layers, SubjectsSurvive;
    ExecCons(h, Arr(StdInit(g.inputName)),
             EnvPieces(g.steps, layers, FinalOutput(g), {g.inputName}, g.inputName).value, v, log);
    LayersSound(h, g, layers, {g.inputName}, map[g.inputName := v], r, log);
  }

  lemma {:induction false} LayeredSound(h: Host, g: Graph, layers: seq<seq<Step>>, v: Value, r: Env, log: Log)
    requires WellFormed(g) && Honest(h, g.steps) && Layered(g, layers) && CompileGuard(g) && !IsLinearChain(g)
    requires g.inputName in r && r[g.inputName] == v && BRANCH !in r
    ensures ExecList(h, LayeredPieces(g, layers).value, v, log) == RunGraph(h, g, r, log)
    decreases g, 10, 1
  {
    if IsFinalLayer(layers, FinalOutput(g)) && !IsBranch(layers[0][0]) {
      SoleStepSound(h, g, layers, v, r, log);
    } else if !IsFinalLayer(layers, FinalOutput(g)) && FastStart(layers, g.inputName) {
      FastStartSound(h, g, layers, v, r, log);
    } else {
      SoleBranchHeld(g, layers);
      EnvStartSound(h, g, layers, v, r, log);
    }
  }
}
