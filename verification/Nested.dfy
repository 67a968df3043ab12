/**
 When graphs inside graphs are compiled right, exactly: an arm or a body whose branch subjects do not all
 survive makes the step that holds it fail on every run that enters it, and on no other.
 */
module Nested {
  import opened Values
  import opened Ir
  import opened Graph
  import opened Reference
  import opened Layering
  import opened Compiler
  import opened ExecFacts
  import opened Leaves
  import opened WellFormedness
  import opened Simulation
  import opened Soundness
  import opened Exactness

  // ----- branches -----

  /** The arm a branch takes, if it decides and has one for the decision. */
  function TakenArm(h: Host, s: Step, r: Env): Option<Graph>
    requires IsBranch(s)
  {
    match Decision(h, s, r)
    case None => None
    case Some(d) =>
      if s.kind.Cond? then Some(if Truthy(d) then s.kind.ifTrue else s.kind.ifFalse)
      else
        var key := SwitchKey(h, s, d);
        var i := GraphCaseIndex(s.kind.cases, key);
        if !Hashable(key) then None else if i < |s.kind.cases| then Some(s.kind.cases[i].arm) else s.kind.default
  }

  lemma TakenArmRuns(h: Host, s: Step, inputName: string, r: Env, log: Log)
    requires IsBranch(s)
    ensures RunStep(h, s, inputName, r, log)
         == match TakenArm(h, s, r) case None => Fail(log) case Some(arm) => RunGraph(h, arm, r, log)
  {
  }

  /** The compiled branch comes down to the compiled arm, on a record that answers for the branch's fields. */
  lemma TakenArmCompiled(h: Host, s: Step, r: Env, log: Log) returns (e: Env)
    requires IsBranch(s) && BranchFromEnv(s).Ok? && TakenArm(h, s, r).Some?
    requires BranchFields(s) <= r.Keys && BRANCH !in r
    ensures var arm, fields := TakenArm(h, s, r).value, BranchFields(s);
            && ArmNode(arm, fields).Ok? && ArmSources(arm) <= fields
            && fields <= e.Keys && Agree(e, r, fields) && BRANCH !in fields
            && Exec(h, BranchAlt(s), Rec(DecidedRecord(Restrict(r, fields), s, Decision(h, s, r).value)), log)
            == Exec(h, ArmNode(arm, fields).value, Rec(e), log)
  {
    var fields, d := BranchFields(s), Decision(h, s, r).value;
    e := DecidedRecord(Restrict(r, fields), s, d);
    DecidedFits(s, r, d);
    DecisionApplied(h, s, r);
    if s.kind.Cond? {
      ExecAlt(h, BranchAlt(s).pred, BranchAlt(s).ifTrue, BranchAlt(s).ifFalse, Rec(e), log);
    } else {
      var cases, key := s.kind.cases, SwitchKey(h, s, d);
      var i := GraphCaseIndex(cases, key);
      ExecSwitch(h, BranchAlt(s).select, BranchAlt(s).cases, BranchAlt(s).default, Rec(e), log);
      CaseIndexAgrees(cases, fields, key);
      if i < |cases| {
        CaseNodesAt(cases, fields, i);
        CaseSourcesOf(cases, i);
      }
    }
  }

  /** On a run its arm completes, a compiled branch is right if the arm's subjects are held, and fails if not. */
  lemma BranchExact(h: Host, s: Step, inputName: string, e: Env, r: Env, log: Log)
    requires IsBranch(s) && BranchFromEnv(s).Ok? && Fits(s, inputName, e, r) && TakenArm(h, s, r).Some?
    requires var arm := TakenArm(h, s, r).value;
             WellFormedArm(arm) && Honest(h, arm.steps) && SubjectsPrecede(arm.steps)
    requires RunStep(h, s, inputName, r, log).Done?
    ensures Exec(h, BranchFromEnv(s).value, Rec(e), log) == RunStep(h, s, inputName, r, log)
            <==> GraphHeld(TakenArm(h, s, r).value, ArmFields(TakenArm(h, s, r).value, BranchFields(s)))
  {
    assert BranchFields(s) <= InputSources(s) + SubjectSet(s) <= Reads(s, inputName);
    BranchNode(s);
    LoweredBranch(h, s, BranchAlt(s), e, r, log);
    TakenArmRuns(h, s, inputName, r, log);
    var decided := TakenArmCompiled(h, s, r, log);
    ArmExact(h, TakenArm(h, s, r).value, BranchFields(s), decided, r, log);
  }

  lemma ArmExact(h: Host, arm: Graph, incoming: set<string>, e: Env, r: Env, log: Log)
    requires WellFormedArm(arm) && Honest(h, arm.steps) && ArmNode(arm, incoming).Ok? && SubjectsPrecede(arm.steps)
    requires ArmSources(arm) <= incoming && BRANCH !in incoming && incoming <= e.Keys
    requires Agree(e, r, incoming) && BRANCH !in r && RunGraph(h, arm, r, log).Done?
    ensures Exec(h, ArmNode(arm, incoming).value, Rec(e), log) == RunGraph(h, arm, r, log)
            <==> GraphHeld(arm, ArmFields(arm, incoming))
  {
    hide Exec, RunGraph, CompileEnv, GraphHeld, SubjectsPrecede;
    var fields := ArmFields(arm, incoming);
    var body := CompileEnv(arm, fields).value;
    ExecSeqOf(h, [Prune(fields)] + SeqItems(body), Rec(e), log);
    ExecCons(h, Prune(fields), SeqItems(body), Rec(e), log);
    ExecPrune(h, fields, e, log);
    var pruned := Restrict(e, fields);
    ExecSeqItems(h, body, Rec(pruned), log);
    assert fields == ArmSources(arm);
    GraphExact(h, arm, fields, pruned, r, log);
  }

  // ----- each -----

  /** An `each` that captures, all of whose body is in order but that its branch subjects need not survive. */
  predicate Captor(s: Step) {
    && s.kind.Mapping? && |s.inputs| == 1 && Captures(s) != {} && s.kind.body.inputName !in Captures(s)
    && WellFormedArm(s.kind.body) && SubjectsPrecede(s.kind.body.steps)
    && BRANCH !in s.kind.consts.Keys && s.kind.consts.Keys !! Outputs(s.kind.body.steps)
  }

  /** One packed item: right if the body's subjects are held, and a failure if not. */
  lemma PackedItemExact(h: Host, s: Step, item: Value, e: Env, r: Env, log: Log)
    requires Captor(s) && HonestStep(h, s) && EachBody(s).Ok?
    requires Captures(s) <= e.Keys && Agree(e, r, Captures(s)) && BRANCH !in e && BRANCH !in r
    requires RunGraph(h, s.kind.body, ItemEnv(r, s.kind.body.inputName, item, s.kind.consts), log).Done?
    ensures !GraphHeld(s.kind.body, BodyFields(s)) ==>
              !Exec(h, EachBody(s).value,
                    PackItem(e, s.kind.body.inputName, item, Identity(Captures(s)), s.kind.consts), log).Done?
  {
    hide Exec, RunGraph, CompileEnv, GraphHeld, SubjectsPrecede, Captures;
    var body, fields := s.kind.body, BodyFields(s);
    var p := PackItem(e, body.inputName, item, Identity(Captures(s)), s.kind.consts);
    BodyForms(s);
    PackedFieldsFit(e, r, body.inputName, item, Captures(s), s.kind.consts);
    BodyFieldsAreFresh(s);
    UnpackedBodyRuns(h, s, p.fields, log);
    GraphExact(h, body, fields, p.fields, ItemEnv(r, body.inputName, item, s.kind.consts), log);
  }

  /** A packed item's record, unpacked, is what the body starts from. */
  lemma UnpackedBodyRuns(h: Host, s: Step, p: Env, log: Log)
    requires s.kind.Mapping? && CompileEnv(s.kind.body, BodyFields(s)).Ok? && p.Keys == BodyFields(s)
    ensures Exec(h, SeqOf(UnpackedBody(s)), Rec(p), log)
         == Exec(h, CompileEnv(s.kind.body, BodyFields(s)).value, Rec(p), log)
  {
    hide Exec, CompileEnv, Captures;
    var inner := CompileEnv(s.kind.body, BodyFields(s)).value;
    assert s.kind.body.inputName in BodyFields(s);
    ExecSeqOf(h, UnpackedBody(s), Rec(p), log);
    UnpackSound(h, BodyFields(s), p, SeqItems(inner), log);
    ExecSeqItems(h, inner, Rec(p), log);
  }

  lemma UnheldEachFails(h: Host, s: Step, elements: seq<Value>, e: Env, r: Env, log: Log)
    requires Captor(s) && HonestStep(h, s) && EachFromEnv(s).Ok? && elements != []
    requires Captures(s) <= e.Keys && Agree(e, r, Captures(s)) && BRANCH !in e && BRANCH !in r
    requires s.inputs[0] in e && Elements(h, e[s.inputs[0]]) == Some(elements)
    requires RunItems(h, s.kind.body, r, s.kind.consts, elements, log).Batch? && !GraphHeld(s.kind.body, BodyFields(s))
    ensures !Exec(h, EachFromEnv(s).value, Rec(e), log).Done?
  {
    hide Exec, RunGraph, CompileEnv, GraphHeld, Captures;
    var captures, k := Captures(s), s.kind;
    EachOverPack(h, s.inputs[0], k.body.inputName, Identity(captures), k.consts, EachBody(s).value, k.maxParallel,
                 k.reducer, e, log);
    PackedRecordsForm(s, e, elements);
    RunItemsCons(h, k.body, r, k.consts, elements[0], elements[1..], log);
    assert [elements[0]] + elements[1..] == elements;
    PackedItemExact(h, s, elements[0], e, r, log);
    var first := PackItem(e, k.body.inputName, elements[0], Identity(captures), k.consts);
    ExecItemsCons(h, EachBody(s).value, first, PackedRecords(s, e, elements[1..]), log);
  }

  /**
   On a run it completes, an `each` that captures is right if and only if it has no item, or its body's
   subjects are held.
   */
  lemma EachExact(h: Host, s: Step, inputName: string, e: Env, r: Env, log: Log)
    requires Captor(s) && HonestStep(h, s) && EachFromEnv(s).Ok? && Fits(s, inputName, e, r)
    requires s.inputs[0] in r && RunStep(h, s, inputName, r, log).Done?
    ensures Exec(h, EachFromEnv(s).value, Rec(e), log) == RunStep(h, s, inputName, r, log)
            <==> EachElements(h, s, r[s.inputs[0]]) == Some([]) || GraphHeld(s.kind.body, BodyFields(s))
  {
    hide Exec, RunStep, EachFromEnv, RunGraph, RunItems;
    var items, captures, k := s.inputs[0], Captures(s), s.kind;
    assert items in Listed(s) && items in InputSources(s) && captures <= InputSources(s);
    RunEach(h, s, inputName, r, log);
    var elements := EachElements(h, s, r[items]).value;
    if GraphHeld(k.body, BodyFields(s)) {
      EachSound(h, s, inputName, e, r, log);
    } else if elements != [] {
      UnheldEachFails(h, s, elements, e, r, log);
    } else {
      EmptyEachRuns(h, s, e, r, log);
    }
  }

  lemma EmptyEachRuns(h: Host, s: Step, e: Env, r: Env, log: Log)
    requires s.kind.Mapping? && Captures(s) != {} && EachFromEnv(s).Ok? && Captures(s) <= e.Keys
    requires s.inputs[0] in e && Elements(h, e[s.inputs[0]]) == Some([])
    ensures Exec(h, EachFromEnv(s).value, Rec(e), log)
         == Reduced(h, s.kind.reducer, RunItems(h, s.kind.body, r, s.kind.consts, [], log))
  {
    hide Exec, RunGraph, CompileEnv, Captures;
    var captures, k := Captures(s), s.kind;
    EachOverPack(h, s.inputs[0], k.body.inputName, Identity(captures), k.consts, EachBody(s).value, k.maxParallel,
                 k.reducer, e, log);
    PackedRecordsForm(s, e, []);
    assert ExecItems(h, EachBody(s).value, [], log) == Batch([], log);
  }
}
