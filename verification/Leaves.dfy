/** Compiled leaf steps and branch decisions on an env record. */
module Leaves {
  import opened Values
  import opened Ir
  import opened Graph
  import opened Reference
  import opened Layering
  import opened Compiler
  import opened ExecFacts
  import opened Simulation

  lemma {:induction false} MergeAgree(h: Host, e: Env, r: Env, names: seq<string>)
    requires Agree(e, r, set n | n in names)
    ensures MergeFields(h, e, names) == MergeFields(h, r, names)
    decreases |names|
  {
    if names != [] {
      var last := |names| - 1;
      assert forall n :: n in names[..last] ==> n in names;
      MergeAgree(h, e, r, names[..last]);
      assert names[last] in names;
    }
  }

  lemma {:induction false} FieldValuesAgree(e: Env, r: Env, names: seq<string>)
    requires Agree(e, r, set n | n in names)
    ensures FieldValues(e, names) == FieldValues(r, names)
    decreases |names|
  {
    if names != [] {
      var last := |names| - 1;
      assert forall n :: n in names[..last] ==> n in names;
      FieldValuesAgree(e, r, names[..last]);
      assert names[last] in names;
    }
  }

  /** Plucking several fields side by side collects their values, or fails if one is missing. */
  lemma {:induction false} PlucksSound(h: Host, names: seq<string>, e: Env, log: Log)
    ensures ExecBranches(h, Plucks(names), Rec(e), log) ==
            var values := FieldValues(e, names); if values.Some? then Batch(values.value, log) else BatchFail(log)
    decreases |names|
  {
    if names != [] {
      var last := |names| - 1;
      var pluck := Arr(StdPluck(names[last]));
      assert Plucks(names) == Plucks(names[..last]) + [pluck];
      PlucksSound(h, names[..last], e, log);
      ExecBranchesConcat(h, Plucks(names[..last]), [pluck], Rec(e), log);
      BranchAlone(h, pluck, Rec(e), log);
    }
  }

  lemma LeafExec(h: Host, s: Step, arg: Value, log: Log)
    requires IsLeaf(s) && !IsMultiMerge(s)
    ensures Exec(h, Leaf(s), arg, log) == RunLeaf(h, s, arg, log)
  {
  }

  /** The node that puts a leaf's argument together. */
  function Projection(s: Step, inputName: string): Node
    requires IsRecord(s) ==> s.inputs != []
  {
    if IsRecord(s) then RecordProjection(s) else InputProjection(s, inputName)
  }

  lemma ProjectionSound(h: Host, s: Step, inputName: string, e: Env, log: Log)
    requires IsRecord(s) ==> s.inputs != []
    ensures Exec(h, Projection(s, inputName), Rec(e), log) == Returned(LeafArgument(h, s, inputName, e), log)
  {
    if IsRecord(s) && |s.inputs| > 1 {
      PlucksSound(h, s.inputs, e, log);
      ExecParOf(h, Plucks(s.inputs), Rec(e), log);
    } else if IsRecord(s) {
      assert Plucks(s.inputs) == [Arr(StdPluck(s.inputs[0]))];
    }
  }

  lemma ArgumentAgrees(h: Host, s: Step, inputName: string, e: Env, r: Env)
    requires IsLeaf(s) && Agree(e, r, LiveSources(s, inputName))
    ensures LeafArgument(h, s, inputName, e) == LeafArgument(h, s, inputName, r)
  {
    assert Listed(s) == set n | n in s.inputs;
    if s.inputs == [] {
      assert StepConsumes(s, inputName) && inputName in LiveSources(s, inputName);
    } else if |s.inputs| == 1 {
      assert s.inputs[0] in Listed(s);
    } else {
      FieldValuesAgree(e, r, s.inputs);
      MergeAgree(h, e, r, s.inputs);
    }
  }

  lemma LeafIsFramed(h: Host, s: Step, inputName: string)
    requires IsLeaf(s)
    ensures Framed(StepRunner(h, inputName), s, inputName)
  {
    var run := StepRunner(h, inputName);
    forall r1: Env, r2: Env, log: Log | Agree(r1, r2, LiveSources(s, inputName))
      ensures run(s, r1, log) == run(s, r2, log)
    {
      ArgumentAgrees(h, s, inputName, r1, r2);
    }
  }

  lemma LeafStepSound(h: Host, s: Step, inputName: string, e: Env, r: Env, log: Log)
    requires IsLeaf(s) && StepFromEnv(s, inputName).Ok? && Agree(e, r, LiveSources(s, inputName))
    ensures Exec(h, StepFromEnv(s, inputName).value, Rec(e), log) == RunStep(h, s, inputName, r, log)
  {
    ArgumentAgrees(h, s, inputName, e, r);
    ProjectionSound(h, s, inputName, e, log);
    if !IsMultiMerge(s) {
      var projection, leaf := Projection(s, inputName), Leaf(s);
      ExecSeqOf(h, [projection, leaf], Rec(e), log);
      assert [projection, leaf] == [projection] + [leaf];
      ExecCons(h, projection, [leaf], Rec(e), log);
      var arg := LeafArgument(h, s, inputName, e);
      if arg.Some? {
        ExecOne(h, leaf, arg.value, log);
        LeafExec(h, s, arg.value, log);
      }
    }
  }

  lemma StepIsNotPar(s: Step, inputName: string)
    requires StepFromEnv(s, inputName).Ok?
    ensures !StepFromEnv(s, inputName).value.Par?
  {
    if IsBranch(s) {
      SeqOfOfTwoIsNotPar(Prune(BranchFields(s)));
    } else if s.kind.Mapping? {
    } else if IsRecord(s) && |s.inputs| > 1 {
    }
  }

  lemma SeqOfOfTwoIsNotPar(first: Node)
    ensures forall rest: seq<Node> :: !first.Par? ==> !SeqOf([first] + rest).Par?
  {
    forall rest: seq<Node> | !first.Par? ensures !SeqOf([first] + rest).Par? {
      SeqOfIsNotPar([first] + rest);
    }
  }

  // ----- branch decisions -----

  function BranchFn(s: Step): PureFn
    requires IsBranch(s)
  {
    if s.kind.Cond? then s.kind.pred else s.kind.select
  }

  /** The record the lowered branch decides on: the kept fields, and the decision if it has a subject. */
  function DecidedRecord(kept: Env, s: Step, decision: Value): Env
    requires IsBranch(s)
  {
    if Subject(s).Some? then kept[BRANCH := decision] else kept
  }

  /** Beside the record the group holds the branch's decision on its subject. */
  lemma DecisionBesideRecord(h: Host, s: Step, kept: Env, log: Log)
    requires IsBranch(s) && Subject(s).Some? && Subject(s).value in kept
    ensures var d := Apply(h, BranchFn(s), kept[Subject(s).value]);
            Exec(h, ParOf([Ident, SeqOf([Arr(StdPluck(Subject(s).value)), Arr(BranchFn(s))])]), Rec(kept), log)
            == if d.Some? then Done(List([Rec(kept), d.value]), log) else Fail(log)
  {
    var pluck, fn := Arr(StdPluck(Subject(s).value)), Arr(BranchFn(s));
    var decide := SeqOf([pluck, fn]);
    ExecSeqOf(h, [pluck, fn], Rec(kept), log);
    assert [pluck, fn] == [pluck] + [fn];
    ExecCons(h, pluck, [fn], Rec(kept), log);
    ExecOne(h, fn, kept[Subject(s).value], log);
    SeqOfIsNotPar([pluck, fn]);
    ExecParOf(h, [Ident, decide], Rec(kept), log);
    assert [Ident, decide] == [Ident] + [decide];
    BranchesAfterIdent(h, [decide], Rec(kept), log);
    BranchAlone(h, decide, Rec(kept), log);
    var d := Apply(h, BranchFn(s), kept[Subject(s).value]);
    assert d.Some? ==> [Rec(kept)] + [d.value] == [Rec(kept), d.value];
  }

  lemma DecisionSound(h: Host, s: Step, alt: Node, kept: Env, r: Env, log: Log)
    requires IsBranch(s) && kept == Restrict(r, BranchFields(s)) && BranchFields(s) <= r.Keys
    ensures var pieces := DecisionPieces(s) + [alt];
            var d := Decision(h, s, r);
            && (d.None? && Subject(s).Some? ==> ExecList(h, pieces, Rec(kept), log) == Fail(log))
            && (d.Some? || Subject(s).None? ==>
                  ExecList(h, pieces, Rec(kept), log)
                  == Exec(h, alt, Rec(if d.Some? then DecidedRecord(kept, s, d.value) else kept), log))
  {
    if Subject(s).None? {
      assert DecisionPieces(s) + [alt] == [alt];
      ExecOne(h, alt, Rec(kept), log);
    } else {
      var subject, assign := Subject(s).value, Arr(StdAssign(BRANCH));
      var group := DecisionPieces(s)[0];
      assert DecisionPieces(s) + [alt] == [group] + ([assign] + [alt]);
      assert subject in kept && kept[subject] == r[subject];
      DecisionBesideRecord(h, s, kept, log);
      ExecCons(h, group, [assign] + [alt], Rec(kept), log);
      var d := Decision(h, s, r);
      if d.Some? {
        ExecCons(h, assign, [alt], List([Rec(kept), d.value]), log);
        ExecOne(h, alt, Rec(kept[BRANCH := d.value]), log);
      }
    }
  }

  /** The lowered branch on an env record: prune, decide, and hand the decided record to the `alt`. */
  lemma LoweredBranch(h: Host, s: Step, alt: Node, e: Env, r: Env, log: Log)
    requires IsBranch(s) && BranchFields(s) <= e.Keys && Agree(e, r, BranchFields(s))
    ensures var kept := Restrict(r, BranchFields(s));
            var d := Decision(h, s, r);
            Exec(h, SeqOf([Prune(BranchFields(s))] + DecisionPieces(s) + [alt]), Rec(e), log) ==
            if d.Some? then Exec(h, alt, Rec(DecidedRecord(kept, s, d.value)), log)
            else if Subject(s).Some? then Fail(log)
            else Exec(h, alt, Rec(kept), log)
  {
    var fields := BranchFields(s);
    var pieces := DecisionPieces(s) + [alt];
    assert [Prune(fields)] + DecisionPieces(s) + [alt] == [Prune(fields)] + pieces;
    assert Restrict(e, fields) == Restrict(r, fields);
    ExecSeqOf(h, [Prune(fields)] + pieces, Rec(e), log);
    ExecCons(h, Prune(fields), pieces, Rec(e), log);
    ExecPrune(h, fields, e, log);
    DecisionSound(h, s, alt, Restrict(r, fields), r, log);
  }

  /** A lowered branch given something that is not a record of its fields fails at its prune. */
  lemma PruneOffRecord(h: Host, s: Step, alt: Node, v: Value, log: Log)
    requires IsBranch(s) && BranchFields(s) != {} && !(v.Rec? && BranchFields(s) <= v.fields.Keys)
    ensures Exec(h, SeqOf([Prune(BranchFields(s))] + DecisionPieces(s) + [alt]), v, log) == Fail(log)
  {
    var fields, inner := BranchFields(s), DecisionPieces(s) + [alt];
    assert [Prune(fields)] + DecisionPieces(s) + [alt] == [Prune(fields)] + inner;
    PruneFails(h, fields, inner, v, log);
  }

  lemma PruneFails(h: Host, fields: set<string>, rest: seq<Node>, v: Value, log: Log)
    requires fields != {} && !(v.Rec? && fields <= v.fields.Keys)
    ensures Exec(h, SeqOf([Prune(fields)] + rest), v, log) == Fail(log)
  {
    ExecSeqOf(h, [Prune(fields)] + rest, v, log);
    ExecCons(h, Prune(fields), rest, v, log);
    PackFields(v, map f | f in fields :: Field(f), fields);
  }

  /** What the `alt` of a lowered branch reads off the record it is given. */
  lemma DecisionApplied(h: Host, s: Step, r: Env)
    requires IsBranch(s)
    ensures var kept := Restrict(r, BranchFields(s));
            var d := Decision(h, s, r);
            && (Subject(s).None? ==> Apply(h, BranchFn(s), Rec(kept)) == d)
            && (Subject(s).Some? && d.Some? ==>
                  && Apply(h, StdBranchPredicate, Rec(DecidedRecord(kept, s, d.value))) == Some(Bool(Truthy(d.value)))
                  && Apply(h, StdBranchSelector, Rec(DecidedRecord(kept, s, d.value)))
                     == Some(SwitchKey(h, s, d.value)))
  {
  }

  // ----- each bodies on a raw item -----

  /** Packing a raw item with the constants of an `each` body that captures nothing. */
  lemma PackRawItem(h: Host, inputName: string, consts: Env, item: Value, rest: seq<Node>, log: Log)
    ensures ExecList(h, [Arr(StdPack(ItemSelectors(inputName, consts)))] + rest, item, log)
         == ExecList(h, rest, Rec(map[inputName := item] + consts), log)
  {
    var selectors, p := ItemSelectors(inputName, consts), map[inputName := item] + consts;
    forall f | f in selectors ensures Select(item, selectors[f]) == Some(p[f]) {
      assert f in consts || f == inputName;
    }
    assert (map f | f in selectors :: Select(item, selectors[f]).value) == p;
    ExecCons(h, Arr(StdPack(selectors)), rest, item, log);
  }

  lemma UnpackSound(h: Host, fields: set<string>, p: Env, rest: seq<Node>, log: Log)
    requires p.Keys == fields && fields != {}
    ensures ExecList(h, [Arr(StdUnpack(Identity(fields)))] + rest, Rec(p), log) == ExecList(h, rest, Rec(p), log)
  {
    var sources := Identity(fields);
    var selectors := map f | f in sources :: Field(sources[f]);
    assert selectors == map f | f in fields :: Field(f);
    PackFields(Rec(p), selectors, fields);
    assert Restrict(p, fields) == p;
    ExecCons(h, Arr(StdUnpack(sources)), rest, Rec(p), log);
  }
}
