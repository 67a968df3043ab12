/** Concrete graphs on which the source's compiler does not do what the graph says. */
module Shortfalls {
  import opened Values
  import opened Ir
  import opened Graph
  import opened Reference
  import opened Layering
  import opened Compiler
  import opened ExecFacts
  import opened Simulation
  import opened Leaves
  import opened WellFormedness
  import opened Soundness
  import opened Theorems
  import opened Exactness

  /**
   A host on which every tool answers with a one-element list and every user pure with its argument,
   nothing writes, and what is no record reads as `coerced`.
   */
  function Obliging(coerced: Option<Env>): Host {
    Host((tool, v, log) => Some(List([Null])), (reasoner, v, log) => Some(Null), (name, args, v) => Some(v),
         tool => false, v => None, v => coerced, v => "")
  }

  const LOOK := Tool("look", Some(Read))

  // ----- a sole step that lists the input twice -----

  /** One step over the initial fields: sorted, and a layer by itself. */
  lemma OneStepLayers(g: Graph, s: Step, initial: set<string>)
    requires g.steps == [s] && InputSources(s) <= initial && s.output !in initial
    ensures Toposort(g, initial) == Ok([s]) && Outputs(g.steps) == {s.output}
    ensures Layers(g.steps, initial) == Ok([[s]])
  {
    assert s in g.steps && g.steps[1..] == [];
    assert SourcedAt(g, initial, 0);
    assert !IsBarrier(s) ==> Scan([s], initial) == Scanned([s], []);
    assert Layers([], initial + Outputs([s])) == Ok([]);
    assert [[s]] + [] == [[s]];
  }

  /** A graph whose one step is the result compiles to that step. */
  lemma OneStepCompiles(g: Graph, s: Step, initial: set<string>)
    requires g.steps == [s] && InputSources(s) <= initial && s.output !in initial && FinalOutput(g) == s.output
    requires StepFromEnv(s, g.inputName).Ok?
    ensures CompileEnv(g, initial) == Ok(SeqOf(SeqItems(StepFromEnv(s, g.inputName).value)))
  {
    OneStepLayers(g, s, initial);
    assert s in g.steps && s.output in Outputs(g.steps);
    assert EnvPieces(g.steps, [[s]], s.output, initial, g.inputName) == Ok(SeqItems(StepFromEnv(s, g.inputName).value));
  }

  /** A graph of one leaf over its input. */
  predicate IsSoleLeaf(g: Graph) {
    && |g.steps| == 1 && FinalOutput(g) == g.steps[0].output && WellFormed(g) && IsLeaf(g.steps[0])
    && forall f | f in g.steps[0].inputs :: f == g.inputName
  }

  lemma SoleLeafForm(g: Graph)
    requires IsSoleLeaf(g)
    ensures Toposort(g, {g.inputName}) == Ok(g.steps) && Layers(g.steps, {g.inputName}) == Ok([g.steps])
    ensures Compile(g) == Ok(SeqOf([Leaf(g.steps[0])])) && CompileGuard(g) == (|g.steps[0].inputs| <= 1)
  {
    var s := g.steps[0];
    assert s in g.steps && g.steps == [s];
    assert s.output in Outputs(g.steps);
    OneStepLayers(g, s, {g.inputName});
    assert LayeredPieces(g, [[s]]) == Ok([Leaf(s)]);
    assert SubjectsPrecede([]) && SubjectSet(s) == {};
    assert FlowingLeaves([]) == Ok([]) && g.steps[1..] == [];
    assert [Leaf(s)] + [] == [Leaf(s)];
  }

  /** The program is the leaf on the raw input. */
  lemma SoleLeafRuns(h: Host, g: Graph, v: Value, log: Log)
    requires IsSoleLeaf(g)
    ensures Compile(g).Ok? && Exec(h, Compile(g).value, v, log) == Exec(h, Leaf(g.steps[0]), v, log)
    ensures RunGraph(h, g, map[g.inputName := v], log)
         == RunStep(h, g.steps[0], g.inputName, map[g.inputName := v], log)
  {
    var s := g.steps[0];
    assert g.steps == [s];
    SoleLeafForm(g);
    ExecSeqOf(h, [Leaf(s)], v, log);
    ExecOne(h, Leaf(s), v, log);
    RunSole(h, s, g.inputName, map[g.inputName := v], log);
  }

  /** One record merged with itself is that record. */
  lemma {:induction false} RepeatedInputMerge(h: Host, x: string, v: Value, names: seq<string>)
    requires names != [] && forall f | f in names :: f == x
    ensures MergeFields(h, map[x := v], names) == AsRecord(h, v)
    decreases |names|
  {
    var front := names[..|names| - 1];
    assert names[|names| - 1] in names;
    if front != [] {
      assert forall f :: f in front ==> f in names;
      RepeatedInputMerge(h, x, v, front);
    }
    if AsRecord(h, v).Some? {
      var record := AsRecord(h, v).value;
      assert map[] + record == record && record + record == record;
    }
  }

  lemma {:induction false} RepeatedInputValues(x: string, v: Value, names: seq<string>)
    requires forall f | f in names :: f == x
    ensures FieldValues(map[x := v], names).Some?
    decreases |names|
  {
    if names != [] {
      var front := names[..|names| - 1];
      assert names[|names| - 1] in names && forall f :: f in front ==> f in names;
      RepeatedInputValues(x, v, front);
    }
  }

  /** What the step is given, where it lists the input several times. */
  lemma RepeatedArgument(h: Host, s: Step, x: string, v: Value)
    requires |s.inputs| > 1 && forall f | f in s.inputs :: f == x
    ensures IsRecord(s) ==> exists values :: LeafArgument(h, s, x, map[x := v]) == Some(List(values))
    ensures !IsRecord(s) && AsRecord(h, v).Some? ==>
              LeafArgument(h, s, x, map[x := v]) == Some(Rec(AsRecord(h, v).value))
    ensures !IsRecord(s) && AsRecord(h, v).None? ==> LeafArgument(h, s, x, map[x := v]).None?
  {
    RepeatedInputMerge(h, x, v, s.inputs);
    RepeatedInputValues(x, v, s.inputs);
  }

  /** A record on which a standard pure has a result, if it has none on a number. */
  function Wanted(fn: PureFn): Env {
    match fn
    case StdPluck(key) => map[key := Null]
    case StdPack(selectors) => map f | f in selectors && selectors[f].Field? :: selectors[f].name := Null
    case StdUnpack(sources) => map f | f in sources :: sources[f] := Null
    case StdEachPack(items, _, _, _) => map[items := List([])]
    case _ => map[BRANCH := Null]
  }

  lemma WantedIsEnough(fn: PureFn)
    requires !fn.StdAssign? && !fn.StdCollect? && !fn.StdPairMerge? && !fn.StdMerge?
    ensures var h := Obliging(Some(Wanted(fn)));
            Apply(h, fn, Num(1)) == Apply(Obliging(None), fn, Num(1)) && Apply(h, fn, Rec(Wanted(fn))).Some?
  {
    match fn {
      case StdPack(selectors) =>
        forall f | f in selectors && selectors[f].Field? ensures selectors[f].name in Wanted(fn) {
        }
      case StdUnpack(sources) =>
        forall f | f in sources ensures sources[f] in Wanted(fn) {
        }
      case _ =>
    }
  }

  /** For every leaf a host and an input on which listing the input twice makes a difference. */
  function TellingHost(kind: StepKind): Host {
    if
      && kind.Pure? && !kind.fn.StdPairMerge? && !kind.fn.StdMerge?
      && Apply(Obliging(None), kind.fn, TellingInput(kind)).None?
    then Obliging(Some(Wanted(kind.fn)))
    else Obliging(None)
  }

  function TellingInput(kind: StepKind): Value {
    if !kind.Pure? then Num(1)
    else
      match kind.fn
      case StdAssign(_) => List([Rec(map[]), Null])
      case StdCollect(names) => List([Rec(map[])] + seq(|names|, _ => Null))
      case StdPairMerge => Rec(map["k" := Null])
      case StdMerge(_) => Rec(map["k" := Null])
      case _ => Num(1)
  }

  lemma MergeOfNullFails(names: seq<string>)
    requires names != []
    ensures MergeFields(Obliging(None), map["k" := Null], names) == None
  {
  }

  /** On that host and input the leaf and the step part ways. */
  lemma RepeatedInputTells(s: Step, x: string)
    requires IsLeaf(s) && |s.inputs| > 1 && forall f | f in s.inputs :: f == x
    ensures var h, v := TellingHost(s.kind), TellingInput(s.kind);
            Exec(h, Leaf(s), v, []) != RunStep(h, s, x, map[x := v], [])
  {
    var h, v := TellingHost(s.kind), TellingInput(s.kind);
    RepeatedArgument(h, s, x, v);
    if s.kind.Pure? {
      RepeatedInputTellsPure(s, x);
    }
  }

  lemma RepeatedInputTellsPure(s: Step, x: string)
    requires s.kind.Pure? && |s.inputs| > 1 && forall f | f in s.inputs :: f == x
    ensures var h, v := TellingHost(s.kind), TellingInput(s.kind);
            Exec(h, Leaf(s), v, []) != RunStep(h, s, x, map[x := v], [])
  {
    var h, v, fn := TellingHost(s.kind), TellingInput(s.kind), s.kind.fn;
    RepeatedArgument(h, s, x, v);
    assert Exec(h, Leaf(s), v, []) == Returned(Apply(h, fn, v), []);
    match fn {
      case StdAssign(_) => assert AsRecord(h, v.items[0]) == Some(map[]);
      case StdCollect(names) => assert AsRecord(h, v.items[0]) == Some(map[]) && |v.items| == |names| + 1;
      case StdPairMerge =>
      case StdMerge(names) =>
        assert "k" in v.fields;
        if names != [] {
          MergeOfNullFails(names);
        }
      case _ => WantedIsEnough(fn);
    }
  }

  lemma RepeatedInputDiffers(g: Graph)
    requires IsSoleLeaf(g) && |g.steps[0].inputs| > 1
    ensures Compile(g).Ok?
    ensures var h, v := TellingHost(g.steps[0].kind), TellingInput(g.steps[0].kind);
            && Honest(h, g.steps)
            && Exec(h, Compile(g).value, v, []) != RunGraph(h, g, map[g.inputName := v], [])
  {
    var s := g.steps[0];
    var h, v := TellingHost(s.kind), TellingInput(s.kind);
    SoleLeafRuns(h, g, v, []);
    RepeatedInputTells(s, g.inputName);
    assert Honest(h, g.steps[1..]) && HonestStep(h, s);
  }

  /** A graph of one leaf over its input, whatever the leaf, compiles right exactly if it lists it at most once. */
  lemma SoleStepExact(g: Graph)
    requires IsSoleLeaf(g)
    ensures Compile(g).Ok?
    ensures |g.steps[0].inputs| <= 1 <==>
            forall h: Host, v: Value, log: Log :: Honest(h, g.steps) ==>
              Exec(h, Compile(g).value, v, log) == RunGraph(h, g, map[g.inputName := v], log)
  {
    SoleLeafForm(g);
    if |g.steps[0].inputs| <= 1 {
      forall h: Host, v: Value, log: Log | Honest(h, g.steps)
        ensures Exec(h, Compile(g).value, v, log) == RunGraph(h, g, map[g.inputName := v], log)
      {
        CompileSound(h, g, v, map[g.inputName := v], log);
      }
    } else {
      RepeatedInputDiffers(g);
    }
  }

  function TwiceListed(): Graph {
    Graph("x", Some("y"), [Step(Passthrough, ["x", "x"], "y")])
  }

  /** The step asks for the merge of its inputs; `compile` hands it the raw input, and never fails. */
  lemma SoleStepListingInputTwice()
    ensures WellFormed(TwiceListed()) && Compile(TwiceListed()).Ok?
    ensures Exec(Obliging(None), Compile(TwiceListed()).value, Num(1), []) == Done(Num(1), [])
    ensures RunGraph(Obliging(None), TwiceListed(), map["x" := Num(1)], []) == Fail([])
  {
    var g := TwiceListed();
    var s := g.steps[0];
    assert g.steps == [s] && Outputs([s]) == {"y"} by { assert s in [s]; }
    SoleLeafRuns(Obliging(None), g, Num(1), []);
    RepeatedArgument(Obliging(None), s, "x", Num(1));
  }

  /** The frontend's `x | x`, on its own. */
  function MergedWithItself(): Graph {
    Graph("x", Some("y"), [Step(Pure(StdPairMerge), ["x", "x"], "y")])
  }

  /** A record merged with itself is that record, on every host; the program takes it for a pair, and fails. */
  lemma SelfMergeFails(h: Host, fields: Env, log: Log)
    ensures IsSoleLeaf(MergedWithItself()) && Compile(MergedWithItself()).Ok?
    ensures Exec(h, Compile(MergedWithItself()).value, Rec(fields), log) == Fail(log)
    ensures RunGraph(h, MergedWithItself(), map["x" := Rec(fields)], log) == Done(Rec(fields), log)
  {
    hide Compile, Layers;
    var g := MergedWithItself();
    var s := g.steps[0];
    assert g.steps == [s] && Outputs([s]) == {"y"} by { assert s in [s]; }
    SoleLeafRuns(h, g, Rec(fields), log);
    RepeatedArgument(h, s, "x", Rec(fields));
  }

  // ----- an each whose body returns its own item, under the same name as an outer field -----

  function Echo(): Graph {
    Graph("x", Some("x"), [])
  }

  function EachEcho(): Graph {
    Graph("x", Some("z"), [Step(Mapping(Echo(), None, None, map[]), ["x"], "z")])
  }

  lemma EchoCaptures()
    ensures var s := EachEcho().steps[0];
            && Captures(s) == {"x"} && BodyFields(s) == {"x"} && WellFormedEach(s) && EachFromEnv(s).Ok?
  {
    assert ExternalSources(Echo()) == {"x"};
    assert SourcesInOrder(Echo(), {"x"}) && Outputs([]) == {};
    assert CompileEnv(Echo(), {"x"}).Ok?;
  }

  lemma EchoCompiles()
    ensures EachFromEnv(EachEcho().steps[0]).Ok?
    ensures CompileEnv(EachEcho(), {"x"}) == Ok(SeqOf(SeqItems(EachFromEnv(EachEcho().steps[0]).value)))
  {
    EchoCaptures();
    OneStepCompiles(EachEcho(), EachEcho().steps[0], {"x"});
  }

  lemma {:induction false} EchoReference(h: Host, elements: seq<Value>, r: Env, log: Log)
    ensures RunItems(h, Echo(), r, map[], elements, log) == Batch(elements, log)
    decreases |elements|
  {
    if elements != [] {
      assert RunSteps(h, [], "x", ItemEnv(r, "x", elements[0], map[]), log).EnvDone?;
      EchoReference(h, elements[1..], r, log);
      assert [elements[0]] + elements[1..] == elements;
    }
  }

  /**
   The result name counts as a capture, so the whole list overwrites every item: on every list the
   graph returns the list, and the program returns as many copies of it as it has elements.
   */
  lemma BodyReturningItsItem(h: Host, elements: seq<Value>, log: Log)
    ensures CompileEnv(EachEcho(), {"x"}).Ok?
    ensures var e := map["x" := List(elements)];
            && Exec(h, CompileEnv(EachEcho(), {"x"}).value, Rec(e), log)
            == Done(List(seq(|elements|, _ => List(elements))), log)
            && RunGraph(h, EachEcho(), e, log) == Done(List(elements), log)
  {
    hide StepFromEnv, EachFromEnv, EachBody, CompileEnv;
    var e, s := map["x" := List(elements)], EachEcho().steps[0];
    var copies := Repeated(List(elements), |elements|);
    EchoCompiles();
    EchoCaptures();
    ExecSeqOf(h, SeqItems(EachFromEnv(s).value), Rec(e), log);
    ExecSeqItems(h, EachFromEnv(s).value, Rec(e), log);
    CapturedItemIsOuter(h, s, "x", e, e, log);
    EchoReference(h, copies, e, log);
    assert copies == seq(|elements|, _ => List(elements));
    EchoReference(h, elements, e, log);
    RunEach(h, s, "x", e, log);
    RunSole(h, s, "x", e, log);
    assert EachEcho().steps == [s];
  }

  // ----- a fast start that drops the input -----

  /** Two steps in a row: the second reads what the first returns. */
  lemma TwoStepLayers(g: Graph, a: Step, b: Step, x: set<string>)
    requires g.steps == [a, b] && !IsBarrier(a) && !IsBarrier(b) && b.inputs != []
    requires InputSources(a) <= x && a.output in InputSources(b) && InputSources(b) <= x + {a.output}
    requires a.output !in x && b.output !in x && a.output != b.output
    ensures Toposort(g, x) == Ok([a, b]) && Outputs(g.steps) == {a.output, b.output}
    ensures Layers(g.steps, x) == Ok([[a], [b]])
  {
    assert a in g.steps && b in g.steps && [a, b][1..] == [b] && [b][1..] == [];
    assert g.steps[..1] == [a] && Outputs([a]) == {a.output} by { assert a in [a]; }
    assert SourcedAt(g, x, 0) && SourcedAt(g, x, 1);
    assert Scan([b], x) == Scanned([], [b]);
    assert Scan([a, b], x) == Scanned([a], [b]);
    assert Scan([b], x + Outputs([a])) == Scanned([b], []);
    assert Layers([], x + Outputs([a]) + Outputs([b])) == Ok([]);
    assert [[b]] + [] == [[b]] && [[a]] + [[b]] == [[a], [b]];
    assert Layers([b], x + Outputs([a])) == Ok([[b]]);
  }

  const INNER := Graph("item", Some("w"), [Step(Passthrough, ["x"], "w")])

  function CapturesInput(): Graph {
    Graph("x", Some("z"), [Step(LOOK, [], "y"), Step(Mapping(INNER, None, None, map[]), ["y"], "z")])
  }

  lemma CapturesInputAnalysis()
    ensures var g := CapturesInput();
            && Captures(g.steps[1]) == {"x"} && InputSources(g.steps[1]) == {"x", "y"}
            && !IsBarrier(g.steps[1]) && !StepConsumes(g.steps[1], "x") && !IsLinearChain(g)
            && InputSources(g.steps[0]) == {}
  {
    var body := INNER;
    assert body.steps[0] in body.steps && Outputs(body.steps) == {"w"};
    assert body.steps[1..] == [];
    assert StepsSources(body.steps) == {"x"};
    assert ExternalSources(body) == {"x"};
    assert CapturesInput().steps[1] in CapturesInput().steps;
  }

  function StartedAtY(): seq<Node> {
    [Prim("", Call("look", None)), Arr(StdInit("y"))]
  }

  lemma NeededOfOne(s: Step, inputName: string)
    ensures Needed([[s]], inputName) == LiveSources(s, inputName)
  {
    forall f | f in LiveSources(s, inputName) ensures f in Needed([[s]], inputName) {
      assert s in [[s]][0] && f in LiveSources([s][0], inputName);
    }
  }

  ghost predicate RunsInARow(g: Graph, a: Step, b: Step) {
    && g.steps == [a, b] && FinalOutput(g) == b.output && b.output != a.output
    && IsLeaf(a) && a.inputs == [] && StepFromEnv(b, g.inputName).Ok?
    && !StepConsumes(b, g.inputName) && a.output in LiveSources(b, g.inputName)
  }

  lemma LastPieces(g: Graph, a: Step, b: Step)
    requires RunsInARow(g, a, b)
    ensures AllWithin([[b]], g.steps) && LiveAfter([[b]], b.output, {a.output}, g.inputName) == {a.output}
    ensures EnvPieces(g.steps, [[b]], b.output, {a.output}, g.inputName)
         == Ok(SeqItems(StepFromEnv(b, g.inputName).value))
  {
    assert b in g.steps;
    NeededOfOne(b, g.inputName);
  }

  lemma RowPieces(g: Graph, a: Step, b: Step)
    requires RunsInARow(g, a, b) && AllWithin([[a], [b]], g.steps)
    ensures LayeredPieces(g, [[a], [b]])
         == Ok([Leaf(a), Arr(StdInit(a.output))] + SeqItems(StepFromEnv(b, g.inputName).value))
  {
    var start, rest := [Leaf(a), Arr(StdInit(a.output))], SeqItems(StepFromEnv(b, g.inputName).value);
    LastPieces(g, a, b);
    assert [[a], [b]][1..] == [[b]] && !LaterConsume([[b]], g.inputName);
    assert FlowingLeaf(a) == Ok(Leaf(a));
    assert start + [] + rest == start + rest;
  }

  /** Two steps in a row, the second the result: the record is started from the first. */
  lemma FastTwoStep(g: Graph, a: Step, b: Step)
    requires RunsInARow(g, a, b) && !IsLinearChain(g)
    requires Toposort(g, {g.inputName}).Ok? && Layers(g.steps, {g.inputName}) == Ok([[a], [b]])
    ensures Compile(g) == Ok(SeqOf([Leaf(a), Arr(StdInit(a.output))] + SeqItems(StepFromEnv(b, g.inputName).value)))
  {
    assert b in g.steps && b.output in Outputs(g.steps);
    RowPieces(g, a, b);
  }

  lemma InnerCompiles()
    ensures CompileEnv(INNER, {"item", "x"}).Ok?
  {
    OneStepCompiles(INNER, INNER.steps[0], {"item", "x"});
  }

  lemma EachInnerCompiles()
    ensures EachFromEnv(CapturesInput().steps[1]).Ok?
  {
    var b := CapturesInput().steps[1];
    CapturesInputAnalysis();
    assert BodyFields(b) == {"item", "x"};
    InnerCompiles();
  }

  lemma CapturesInputForm()
    ensures var b := CapturesInput().steps[1];
            && EachFromEnv(b).Ok?
            && Compile(CapturesInput()) == Ok(SeqOf(StartedAtY() + SeqItems(EachFromEnv(b).value)))
  {
    var g := CapturesInput();
    CapturesInputAnalysis();
    TwoStepLayers(g, g.steps[0], g.steps[1], {"x"});
    EachInnerCompiles();
    assert StepFromEnv(g.steps[1], "x") == EachFromEnv(g.steps[1]);
    FastTwoStep(g, g.steps[0], g.steps[1]);
  }

  lemma StartedRuns(h: Host, rest: seq<Node>, v: Value, result: Value, log: Log)
    requires !h.writes("look") && h.call("look", v, log) == Some(result)
    ensures Exec(h, SeqOf(StartedAtY() + rest), v, log) == ExecList(h, rest, Rec(map["y" := result]), log)
  {
    var call, init := StartedAtY()[0], StartedAtY()[1];
    ExecSeqOf(h, StartedAtY() + rest, v, log);
    assert StartedAtY() + rest == [call] + ([init] + rest);
    ExecCons(h, call, [init] + rest, v, log);
    ExecCons(h, init, rest, result, log);
  }

  lemma {:induction false} InnerItemsRun(h: Host, elements: seq<Value>, r: Env, log: Log)
    requires "x" in r
    ensures RunItems(h, INNER, r, map[], elements, log) == Batch(seq(|elements|, _ => r["x"]), log)
    decreases |elements|
  {
    if elements != [] {
      var scope, s := ItemEnv(r, "item", elements[0], map[]), INNER.steps[0];
      assert INNER.steps == [s];
      RunSole(h, s, "item", scope, log);
      InnerItemsRun(h, elements[1..], r, log);
      assert [r["x"]] + seq(|elements| - 1, _ => r["x"]) == seq(|elements|, _ => r["x"]);
    }
  }

  lemma CapturesInputRuns(h: Host, v: Value, elements: seq<Value>)
    requires !h.writes("look") && h.call("look", v, []) == Some(List(elements))
    ensures RunGraph(h, CapturesInput(), map["x" := v], []) == Done(List(seq(|elements|, _ => v)), [])
  {
    var g, r := CapturesInput(), map["x" := v];
    var a, b, r1 := g.steps[0], g.steps[1], map["x" := v, "y" := List(elements)];
    assert g.steps == [a] + [b];
    RunStepsIsRunWith(h, g.steps, "x", r, []);
    RunStepsIsRunWith(h, [b], "x", r1, []);
    RunCons(StepRunner(h, "x"), a, [b], r, []);
    assert r["y" := List(elements)] == r1;
    CapturesInputAnalysis();
    RunEach(h, b, "x", r1, []);
    InnerItemsRun(h, elements, r1, []);
    RunSole(h, b, "x", r1, []);
  }

  /**
   `compile` starts the record at "y" and drops "x", which the `each` body captures: where the graph
   returns the input once per item, the program fails.
   */
  lemma CapturedInputIsDropped(h: Host, v: Value, elements: seq<Value>)
    requires !h.writes("look") && h.call("look", v, []) == Some(List(elements)) && elements != []
    ensures Compile(CapturesInput()).Ok?
    ensures Exec(h, Compile(CapturesInput()).value, v, []) == Fail([])
    ensures RunGraph(h, CapturesInput(), map["x" := v], []) == Done(List(seq(|elements|, _ => v)), [])
  {
    var b, e := CapturesInput().steps[1], map["y" := List(elements)];
    CapturesInputForm();
    CapturesInputAnalysis();
    StartedRuns(h, SeqItems(EachFromEnv(b).value), v, List(elements), []);
    ExecSeqItems(h, EachFromEnv(b).value, Rec(e), []);
    MissingCaptureFails(h, b, e, "x", []);
    CapturesInputRuns(h, v, elements);
  }

  // ----- an each over what is no list -----

  /** One `each`, whose body passes on what it captures, over a value that is meant to be a list. */
  function WalksAnything(): Graph {
    Graph("y", Some("z"), [CapturesInput().steps[1]])
  }

  lemma WalksAnythingCompiles()
    ensures var s := WalksAnything().steps[0];
            && EachFromEnv(s).Ok?
            && CompileEnv(WalksAnything(), {"x", "y"}) == Ok(SeqOf(SeqItems(EachFromEnv(s).value)))
  {
    var s := WalksAnything().steps[0];
    CapturesInputAnalysis();
    EachInnerCompiles();
    assert StepFromEnv(s, "y") == EachFromEnv(s);
    OneStepCompiles(WalksAnything(), s, {"x", "y"});
  }

  lemma InnerIsWellFormed(h: Host)
    ensures WellFormedStep(WalksAnything().steps[0]) && HonestStep(h, WalksAnything().steps[0])
  {
    hide SubjectsSurvive;
    CapturesInputAnalysis();
    InnerSurvives();
    assert INNER.steps[1..] == [] && BodyFields(WalksAnything().steps[0]) == {"item", "x"};
  }

  lemma InnerSurvives()
    ensures WellFormedArm(INNER) && SubjectsSurvive(INNER, {"item", "x"})
  {
    var inner := INNER.steps[0];
    assert INNER.steps == [inner] && INNER.steps[1..] == [] && SubjectSet(inner) == {};
    OneStepLayers(INNER, inner, {"item", "x"});
  }

  lemma WalkedItems(h: Host, e: Env, elements: seq<Value>, log: Log)
    requires e.Keys == {"x", "y"} && !e["y"].List? && h.iterate(e["y"]) == Some(elements)
    requires EachFromEnv(WalksAnything().steps[0]).Ok?
    ensures Exec(h, EachFromEnv(WalksAnything().steps[0]).value, Rec(e), log)
         == Done(List(seq(|elements|, _ => e["x"])), log)
  {
    var s := WalksAnything().steps[0];
    InnerIsWellFormed(h);
    CapturesInputAnalysis();
    NonListIsWalked(h, s, "y", e, e, log);
    InnerItemsRun(h, elements, e, log);
  }

  lemma WalksAnythingRuns(h: Host, e: Env, elements: seq<Value>, log: Log)
    requires e.Keys == {"x", "y"} && !e["y"].List? && h.iterate(e["y"]) == Some(elements)
    ensures CompileEnv(WalksAnything(), {"x", "y"}).Ok?
    ensures Exec(h, CompileEnv(WalksAnything(), {"x", "y"}).value, Rec(e), log)
         == Done(List(seq(|elements|, _ => e["x"])), log)
  {
    WalksAnythingCompiles();
    var node := EachFromEnv(WalksAnything().steps[0]).value;
    ExecSeqOf(h, SeqItems(node), Rec(e), log);
    ExecSeqItems(h, node, Rec(e), log);
    WalkedItems(h, e, elements, log);
  }

  /** A text is no list, and should be an error: the program takes it letter by letter. */
  lemma TextIsWalked(h: Host, v: Value, log: Log)
    requires h.iterate(Str("ab")) == Some([Str("a"), Str("b")])
    ensures CompileEnv(WalksAnything(), {"x", "y"}).Ok?
    ensures Exec(h, CompileEnv(WalksAnything(), {"x", "y"}).value, Rec(map["x" := v, "y" := Str("ab")]), log)
         == Done(List([v, v]), log)
  {
    WalksAnythingRuns(h, map["x" := v, "y" := Str("ab")], [Str("a"), Str("b")], log);
    assert seq(2, _ => v) == [v, v];
  }

  // ----- a quick start whose result is the input -----

  /** Looks at the input, and returns the input. */
  function ReturnsInput(): Graph {
    Graph("x", Some("x"), [Step(LOOK, [], "y")])
  }

  lemma ReturnsInputForm()
    ensures var g := ReturnsInput();
            && WellFormed(g) && Compile(g).Ok? && !IsLinearChain(g) && Layers(g.steps, {"x"}) == Ok([g.steps])
            && !CompileGuard(g) && FirstMayStart(g, [g.steps])
  {
    var g := ReturnsInput();
    var s := g.steps[0];
    assert g.steps == [s] && s in g.steps && g.steps[1..] == [];
    OneStepLayers(g, s, {g.inputName});
    assert [[s]][1..] == [];
    assert EnvPieces(g.steps, [], "x", LiveAfter([], "x", {"y"}, "x"), "x").Ok?;
    assert LayeredPieces(g, [[s]]).Ok?;
  }

  /** The started record has no place for the input, so the program cannot return it. */
  lemma ReturnedInputIsDropped(h: Host, v: Value, log: Log)
    requires !h.writes("look") && h.call("look", v, log).Some?
    ensures Compile(ReturnsInput()).Ok?
    ensures RunGraph(h, ReturnsInput(), map["x" := v], log) == Done(v, log)
    ensures Exec(h, Compile(ReturnsInput()).value, v, log) != Done(v, log)
  {
    var g, r := ReturnsInput(), map["x" := v];
    var s := g.steps[0];
    ReturnsInputForm();
    assert g.steps == [s] && g.steps[1..] == [];
    var answer := h.call("look", v, log).value;
    assert RunStep(h, s, "x", r, log) == Done(answer, log);
    assert RunSteps(h, g.steps, "x", r, log) == EnvDone(r["y" := answer], log);
    assert HonestStep(h, s) && Honest(h, g.steps[1..]);
    CompileExact(h, g, v, log);
  }

  // ----- a quick start on a branch -----

  const BACK := Graph("x", Some("x"), [])

  /** Whatever it decides, the branch gives its subject back, and the next step passes it on. */
  function LeadingBranch(): Graph {
    Graph("x", Some("z"), [Step(Cond(StdInit("k"), Some("x"), BACK, BACK), [], "y"), Step(Passthrough, ["y"], "z")])
  }

  lemma LeadingBranchAnalysis()
    ensures var a, b := LeadingBranch().steps[0], LeadingBranch().steps[1];
            && InputSources(a) == {"x"} && BranchFields(a) == {"x"} && !IsBarrier(a) && BranchFromEnv(a).Ok?
            && InputSources(b) == {"y"} && !StepConsumes(b, "x") && StepFromEnv(b, "x").Ok?
  {
    assert ExternalSources(BACK) == {"x"} && ArmSources(BACK) == {"x"};
    assert SourcesInOrder(BACK, {"x"}) && Outputs([]) == {};
    assert CompileEnv(BACK, {"x"}).Ok?;
  }

  lemma LeadingBranchLayers()
    ensures var g := LeadingBranch();
            && Toposort(g, {"x"}) == Ok(g.steps) && Outputs(g.steps) == {"y", "z"}
            && Layers(g.steps, {"x"}) == Ok([[g.steps[0]], [g.steps[1]]])
  {
    var g := LeadingBranch();
    LeadingBranchAnalysis();
    TwoStepLayers(g, g.steps[0], g.steps[1], {"x"});
  }

  lemma LeadingBranchForm()
    ensures StartsWithBranch(LeadingBranch())
  {
    hide Exec, RunGraph, BranchFromEnv, InputSources, Scan, SourcesInOrder, IsBarrier;
    var g := LeadingBranch();
    var a, b := g.steps[0], g.steps[1];
    LeadingBranchAnalysis();
    LeadingBranchLayers();
    assert a in g.steps && b in g.steps;
    assert [[a], [b]][1..] == [[b]] && !LaterConsume([[b]], "x");
    assert EnvPieces(g.steps, [[b]], "z", LiveAfter([[b]], "z", {"y"}, "x"), "x").Ok?;
    assert LayeredPieces(g, [[a], [b]]).Ok?;
  }

  lemma BackIsWellFormed(fields: set<string>)
    ensures WellFormedArm(BACK) && SubjectsSurvive(BACK, fields)
  {
    assert Outputs([]) == {};
  }

  lemma LeadingBranchIsWellFormed()
    ensures WellFormed(LeadingBranch())
  {
    hide SubjectsSurvive, Layers, Toposort, SourcesInOrder;
    var g := LeadingBranch();
    LeadingBranchLayers();
    BackIsWellFormed(ArmFields(BACK, BranchFields(g.steps[0])));
    assert g.steps[1..] == [g.steps[1]] && [g.steps[1]][1..] == [];
  }

  lemma LeadingBranchRuns(h: Host, v: Value, log: Log)
    ensures RunGraph(h, LeadingBranch(), map["x" := v], log) == Done(v, log)
  {
    var g, r := LeadingBranch(), map["x" := v];
    var a, b := g.steps[0], g.steps[1];
    var decided := Rec(map["k" := v]);
    assert "k" in decided.fields && Decision(h, a, r) == Some(decided);
    assert RunGraph(h, BACK, r, log) == Done(v, log);
    assert RunStep(h, a, "x", r, log) == Done(v, log);
    assert g.steps[1..] == [b] && [b][1..] == [];
    assert RunStep(h, b, "x", r["y" := v], log) == Done(v, log);
    assert RunSteps(h, [b], "x", r["y" := v], log) == EnvDone(r["y" := v]["z" := v], log);
  }

  /** A graph that gives its input back; compiled, it fails on every input but records with a field "x". */
  lemma LeadingBranchFails(h: Host, v: Value, log: Log)
    requires !(v.Rec? && "x" in v.fields)
    ensures WellFormed(LeadingBranch()) && Compile(LeadingBranch()).Ok?
    ensures Exec(h, Compile(LeadingBranch()).value, v, log) == Fail(log)
    ensures RunGraph(h, LeadingBranch(), map["x" := v], log) == Done(v, log)
  {
    LeadingBranchAnalysis();
    LeadingBranchLayers();
    LeadingBranchForm();
    LeadingBranchIsWellFormed();
    FirstBranchFails(h, LeadingBranch(), v, log);
    LeadingBranchRuns(h, v, log);
  }

  // ----- a branch on a subject that nothing else reads -----

  const SAME := Graph("u", Some("u"), [])

  function UnreadSubject(): Graph {
    Graph("x", Some("r"), [Step(LOOK, ["t"], "u"), Step(Cond(User("p", None), Some("s"), SAME, SAME), ["u"], "r")])
  }

  lemma UnreadSubjectAnalysis()
    ensures var a := UnreadSubject().steps[0];
            InputSources(a) == {"t"} && LiveSources(a, "x") == {"t"} && !IsBarrier(a) && StepFromEnv(a, "x").Ok?
    ensures var b := UnreadSubject().steps[1];
            && InputSources(b) == {"u"} && LiveSources(b, "x") == {"u"} && BranchFields(b) == {"s", "u"}
            && !IsBarrier(b) && BranchFromEnv(b).Ok? && StepFromEnv(b, "x") == BranchFromEnv(b)
  {
    assert ExternalSources(SAME) == {"u"} && ArmSources(SAME) == {"u"};
    assert SourcesInOrder(SAME, {"u"}) && Outputs([]) == {};
    assert CompileEnv(SAME, {"u"}).Ok?;
  }

  lemma OneLayerNode(steps: seq<Step>, s: Step, inputName: string)
    requires s in steps && StepFromEnv(s, inputName).Ok?
    ensures LayerNodes(steps, [s], inputName) == Ok([StepFromEnv(s, inputName).value])
  {
    var node := StepFromEnv(s, inputName).value;
    assert [s][1..] == [] && [node] + [] == [node];
    assert LayerNodes(steps, [s][1..], inputName) == Ok([]);
  }

  lemma UnreadSubjectLive()
    ensures var a, b := UnreadSubject().steps[0], UnreadSubject().steps[1];
            && Outputs([a]) == {"u"} && LiveAfter([[b]], "r", {"s", "t"} + Outputs([a]), "x") == {"u"}
  {
    hide Exec, RunGraph, CompileEnv, BranchFromEnv;
    var a, b := UnreadSubject().steps[0], UnreadSubject().steps[1];
    UnreadSubjectAnalysis();
    NeededOfOne(b, "x");
    assert a in [a];
  }

  lemma UnreadSubjectForm()
    ensures var g := UnreadSubject();
            var look := StepFromEnv(g.steps[0], "x");
            && look.Ok? && BranchFromEnv(g.steps[1]).Ok?
            && CompileEnv(g, {"s", "t"})
            == Ok(SeqOf(LayerPieces([g.steps[0]], [look.value], {"s", "t", "u"}, {"u"})
                        + SeqItems(BranchFromEnv(g.steps[1]).value)))
  {
    hide Exec, RunGraph, StepFromEnv, BranchFromEnv, InputSources, IsBarrier, Scan, LiveSources;
    var g := UnreadSubject();
    var a, b := g.steps[0], g.steps[1];
    UnreadSubjectAnalysis();
    UnreadSubjectLive();
    TwoStepLayers(g, a, b, {"s", "t"});
    assert [[a], [b]][1..] == [[b]];
    assert a in g.steps && b in g.steps;
    OneLayerNode(g.steps, a, "x");
    assert {"s", "t"} + {"u"} == {"s", "t", "u"};
    assert EnvPieces(g.steps, [[b]], "r", {"u"}, "x") == Ok(SeqItems(BranchFromEnv(b).value));
    assert EnvPieces(g.steps, [[a], [b]], "r", {"s", "t"}, "x").Ok?;
    PiecesOfLayer(g.steps, [[a], [b]], "r", {"s", "t"}, "x");
  }

  /** Liveness does not count the subject, prunes it, and the branch then asks for it: every run fails. */
  lemma UnreadSubjectIsPruned(h: Host, s: Value, t: Value, u: Value, d: Value)
    requires !h.writes("look") && h.call("look", t, []) == Some(u) && h.user("p", None, s) == Some(d)
    ensures CompileEnv(UnreadSubject(), {"s", "t"}).Ok?
    ensures Exec(h, CompileEnv(UnreadSubject(), {"s", "t"}).value, Rec(map["s" := s, "t" := t]), []) == Fail([])
    ensures RunGraph(h, UnreadSubject(), map["s" := s, "t" := t], []) == Done(u, [])
  {
    var g, e := UnreadSubject(), map["s" := s, "t" := t];
    UnreadSubjectForm();
    var look, branch := StepFromEnv(g.steps[0], "x").value, BranchFromEnv(g.steps[1]).value;
    ExecSeqOf(h, LayerPieces([g.steps[0]], [look], {"s", "t", "u"}, {"u"}) + SeqItems(branch), Rec(e), []);
    var left := LookLayerRuns(h, e, SeqItems(branch), t, u);
    BranchAsksForSubject(h, left);
    UnreadSubjectRuns(h, s, t, u, d);
  }

  /** The first layer leaves a record of "u" alone. */
  lemma LookLayerRuns(h: Host, e: Env, rest: seq<Node>, t: Value, u: Value) returns (left: Env)
    requires e.Keys == {"s", "t"} && e["t"] == t
    requires !h.writes("look") && h.call("look", t, []) == Some(u)
    requires StepFromEnv(UnreadSubject().steps[0], "x").Ok?
    ensures left.Keys <= {"u"}
    ensures var a := UnreadSubject().steps[0];
            ExecList(h, LayerPieces([a], [StepFromEnv(a, "x").value], {"s", "t", "u"}, {"u"}) + rest, Rec(e), [])
            == ExecList(h, rest, Rec(left), [])
  {
    hide Exec, StepFromEnv, RunWith, InputSources, LiveSources, BranchFromEnv;
    var a, run := UnreadSubject().steps[0], StepRunner(h, "x");
    var look := StepFromEnv(a, "x").value;
    LookIsSound(h, a);
    assert [a][1..] == [] && [look][1..] == [];
    assert Paired(h, run, [], [], "x");
    UnreadSubjectLive();
    UnreadSubjectAnalysis();
    assert LayerFits([a], "x", e, e, Outputs([a]));
    assert e.Keys + Outputs([a]) == {"s", "t", "u"};
    var values := LayerStep(h, run, [a], [look], "x", {"u"}, rest, e, e, []);
    LookRuns(h, a, e, t, u);
    left := Restrict(Assign(e, OutputList([a]), values), {"u"});
  }

  lemma LookRuns(h: Host, a: Step, e: Env, t: Value, u: Value)
    requires a == UnreadSubject().steps[0] && "t" in e && e["t"] == t
    requires !h.writes("look") && h.call("look", t, []) == Some(u)
    ensures RunWith(StepRunner(h, "x"), [a], e, []) == EnvDone(e["u" := u], [])
  {
    RunCons(StepRunner(h, "x"), a, [], e, []);
    assert [a] + [] == [a];
  }

  lemma BranchAsksForSubject(h: Host, left: Env)
    requires left.Keys <= {"u"} && BranchFromEnv(UnreadSubject().steps[1]).Ok?
    ensures ExecList(h, SeqItems(BranchFromEnv(UnreadSubject().steps[1]).value), Rec(left), []) == Fail([])
  {
    var b := UnreadSubject().steps[1];
    UnreadSubjectAnalysis();
    ExecSeqItems(h, BranchFromEnv(b).value, Rec(left), []);
    BranchNode(b);
    assert "s" in BranchFields(b);
    PruneOffRecord(h, b, BranchAlt(b), Rec(left), []);
  }

  lemma LookIsSound(h: Host, a: Step)
    requires a == UnreadSubject().steps[0]
    ensures StepFromEnv(a, "x").Ok? && Sound(h, StepRunner(h, "x"), a, "x", StepFromEnv(a, "x").value)
  {
    StepIsNotPar(a, "x");
    forall e: Env, r: Env, log: Log | Fits(a, "x", e, r)
      ensures Exec(h, StepFromEnv(a, "x").value, Rec(e), log) == StepRunner(h, "x")(a, r, log)
    {
      LeafStepSound(h, a, "x", e, r, log);
    }
  }

  lemma UnreadSubjectRuns(h: Host, s: Value, t: Value, u: Value, d: Value)
    requires !h.writes("look") && h.call("look", t, []) == Some(u) && h.user("p", None, s) == Some(d)
    ensures RunGraph(h, UnreadSubject(), map["s" := s, "t" := t], []) == Done(u, [])
  {
    var g, e := UnreadSubject(), map["s" := s, "t" := t];
    var a, b, r1 := g.steps[0], g.steps[1], map["s" := s, "t" := t]["u" := u];
    assert g.steps == [a] + [b];
    RunStepsIsRunWith(h, g.steps, "x", e, []);
    RunCons(StepRunner(h, "x"), a, [b], e, []);
    RunStepsIsRunWith(h, [b], "x", r1, []);
    assert RunSteps(h, SAME.steps, "u", r1, []) == EnvDone(r1, []);
    assert RunStep(h, b, "x", r1, []) == Done(u, []);
    RunSole(h, b, "x", r1, []);
  }
}
