/**
 Race groups and their admission: chains of `par` nodes of one merge kind are one flat group, and
 whatever may be cancelled mid-flight must be harmless.
 */
module Races {
  import opened Values
  import opened Ir
  import opened Manifests
  import opened Gates

  // ----- groups -----

  /** Descend through `par` nodes of one merge kind; anything else is one opaque branch. */
  function Branches(n: Node, kind: MergeKind): (r: seq<Node>)
    ensures r != []
  {
    if InGroup(n, kind) then Branches(n.left, kind) + Branches(n.right, kind) else [n]
  }

  function FlattenRaceGroup(root: Node): seq<Node> {
    if root.Par? && root.merge.Some? then Branches(root, root.merge.value.kind) else [root]
  }

  /** A right-leaning chain whose every node carries the same merge. */
  function ParGroup(flows: seq<Node>, merge: Merge): Node
    requires flows != []
  {
    if |flows| == 1 then flows[0] else Par(Some(merge), flows[0], ParGroup(flows[1..], merge))
  }

  /** The lowering behind race, hedge, quorum and the fan-out helpers. A group needs a branch. */
  method BuildGroup(flows: seq<Node>, merge: Merge) returns (r: Result<Node>)
    ensures r == if flows == [] then Err else Ok(ParGroup(flows, merge))
  {
    if flows == [] {
      return Err;
    }
    var i := |flows| - 1;
    var acc := flows[i];
    assert flows[i..] == [flows[i]];
    while i > 0
      invariant 0 <= i < |flows| && acc == ParGroup(flows[i..], merge)
    {
      i := i - 1;
      assert flows[i..][1..] == flows[i + 1..];
      acc := Par(Some(merge), flows[i], acc);
    }
    assert flows[0..] == flows;
    return Ok(acc);
  }

  /** The recursive walk that appends each branch it finds. */
  method CollectBranches(n: Node, kind: MergeKind, found: seq<Node>) returns (out: seq<Node>)
    ensures out == found + Branches(n, kind)
  {
    if InGroup(n, kind) {
      var half := CollectBranches(n.left, kind, found);
      out := CollectBranches(n.right, kind, half);
      assert found + Branches(n.left, kind) + Branches(n.right, kind)
          == found + (Branches(n.left, kind) + Branches(n.right, kind));
    } else {
      out := found + [n];
    }
  }

  lemma {:induction false} GroupBranches(flows: seq<Node>, merge: Merge)
    requires flows != [] && forall f :: f in flows ==> !InGroup(f, merge.kind)
    ensures Branches(ParGroup(flows, merge), merge.kind) == flows
    decreases |flows|
  {
    if |flows| > 1 {
      GroupBranches(flows[1..], merge);
      assert [flows[0]] + flows[1..] == flows;
    }
  }

  lemma {:induction false} NestedBranches(flows: seq<Node>, merge: Merge)
    requires flows != []
    ensures |Branches(ParGroup(flows, merge), merge.kind)| >= |flows|
    ensures (exists f :: f in flows && InGroup(f, merge.kind)) ==>
              |Branches(ParGroup(flows, merge), merge.kind)| > |flows|
    decreases |flows|
  {
    if |flows| > 1 {
      NestedBranches(flows[1..], merge);
      if InGroup(flows[0], merge.kind) {
        assert |Branches(flows[0], merge.kind)| >= 2;
      }
      assert forall f :: f in flows <==> f == flows[0] || f in flows[1..];
    }
  }

  /** Flattening recovers exactly the branches a group was built from, unless one of them is such a group itself. */
  lemma FlattenRecoversGroup(flows: seq<Node>, merge: Merge)
    requires |flows| >= 2
    ensures FlattenRaceGroup(ParGroup(flows, merge)) == flows <==> forall f :: f in flows ==> !InGroup(f, merge.kind)
  {
    if forall f :: f in flows ==> !InGroup(f, merge.kind) {
      GroupBranches(flows, merge);
    } else {
      NestedBranches(flows, merge);
    }
  }

  /** How a same-kind group was associated does not matter. */
  lemma AssociationIsIrrelevant(a: Node, b: Node, c: Node, outer: Merge, inner: Merge)
    requires outer.kind == inner.kind
    ensures FlattenRaceGroup(Par(Some(outer), Par(Some(inner), a, b), c))
         == FlattenRaceGroup(Par(Some(outer), a, Par(Some(inner), b, c)))
  {
    var kind := outer.kind;
    assert Branches(a, kind) + Branches(b, kind) + Branches(c, kind)
        == Branches(a, kind) + (Branches(b, kind) + Branches(c, kind));
    assert Branches(Par(Some(inner), a, b), kind) == Branches(a, kind) + Branches(b, kind);
    assert Branches(Par(Some(inner), b, c), kind) == Branches(b, kind) + Branches(c, kind);
  }

  // ----- admission -----

  datatype Refusal = SubInRace | Unfrozen | NotInManifest | Unasserted | Unsafe

  datatype Diagnostic = Diagnostic(refusal: Refusal, event: Event)

  predicate RaceSafe(tool: FrozenTool) {
    tool.effect == ReadOnly || tool.idempotency == Native || tool.idempotency == Idempotency.Required
  }

  /** Why a step may not run in a race branch, if there is a reason. */
  function Refused(manifest: Manifest, e: Event): Option<Refusal> {
    match e.step
    case Sub(_) => Some(SubInRace)
    case Think(_) => None
    case Call(_, hash) =>
      if hash.None? then Some(Unfrozen)
      else
        match Lookup(manifest, hash)
        case None => Some(NotInManifest)
        case Some(tool) => if !tool.asserted then Some(Unasserted) else if !RaceSafe(tool) then Some(Unsafe) else None
  }

  function Refusals(manifest: Manifest, events: seq<Event>): seq<Diagnostic> {
    if events == [] then []
    else
      var last := |events| - 1;
      var why := Refused(manifest, events[last]);
      Refusals(manifest, events[..last]) + (if why.Some? then [Diagnostic(why.value, events[last])] else [])
  }

  predicate IsRacing(n: Node) {
    n.Par? && n.merge.Some? && n.merge.value.kind != All
  }

  /** The diagnostics of a tree; `chain` is the kind of race chain being walked down, if any. */
  function Admission(manifest: Manifest, n: Node, chain: Option<MergeKind>): seq<Diagnostic>
    decreases n, 0
  {
    match n
    case Par(merge, left, right) =>
      if IsRacing(n) && Some(merge.value.kind) != chain then
        GroupAdmission(manifest, left, merge.value.kind) + GroupAdmission(manifest, right, merge.value.kind)
      else
        var next := if IsRacing(n) then Some(merge.value.kind) else None;
        Admission(manifest, left, next) + Admission(manifest, right, next)
    case Seq(left, right) => Admission(manifest, left, None) + Admission(manifest, right, None)
    case Alt(_, ifTrue, ifFalse) => Admission(manifest, ifTrue, None) + Admission(manifest, ifFalse, None)
    case Switch(_, cases, default) =>
      CaseAdmission(manifest, cases) + (if default.Some? then Admission(manifest, default.value, None) else [])
    case Each(body, _, _) => Admission(manifest, body, None)
    case IterUpTo(_, body, _) => Admission(manifest, body, None)
    case EvalPlan(_, plan) => if plan.Some? then Admission(manifest, plan.value, None) else []
    case Loop(body) => Admission(manifest, body, None)
    case _ => []
  }

  function CaseAdmission(manifest: Manifest, cases: seq<NodeCase>): seq<Diagnostic>
    decreases cases, 0
  {
    if cases == [] then [] else Admission(manifest, cases[0].node, None) + CaseAdmission(manifest, cases[1..])
  }

  /** Each branch of a group: its own calls, and the race groups nested inside it. */
  function GroupAdmission(manifest: Manifest, n: Node, kind: MergeKind): seq<Diagnostic>
    decreases n, 1
  {
    if InGroup(n, kind) then GroupAdmission(manifest, n.left, kind) + GroupAdmission(manifest, n.right, kind)
    else Refusals(manifest, Prims(n)) + Admission(manifest, n, None)
  }

  function CheckRaceAdmission(manifest: Manifest, flow: Node): seq<Diagnostic> {
    Admission(manifest, flow, None)
  }

  /** The calls of a tree that have a race, hedge or quorum above them. */
  function Raced(n: Node, under: bool): seq<Event>
    decreases n, 0
  {
    match n
    case Prim(id, step) => if under then [Event(id, step)] else []
    case Par(_, left, right) => Raced(left, under || IsRacing(n)) + Raced(right, under || IsRacing(n))
    case Seq(left, right) => Raced(left, under) + Raced(right, under)
    case Alt(_, ifTrue, ifFalse) => Raced(ifTrue, under) + Raced(ifFalse, under)
    case Switch(_, cases, default) =>
      RacedCases(cases, under) + (if default.Some? then Raced(default.value, under) else [])
    case Each(body, _, _) => Raced(body, under)
    case IterUpTo(_, body, _) => Raced(body, under)
    case EvalPlan(_, plan) => if plan.Some? then Raced(plan.value, under) else []
    case Loop(body) => Raced(body, under)
    case _ => []
  }

  function RacedCases(cases: seq<NodeCase>, under: bool): seq<Event>
    decreases cases, 0
  {
    if cases == [] then [] else Raced(cases[0].node, under) + RacedCases(cases[1..], under)
  }

  lemma {:induction false} RacedUnderIsAll(n: Node)
    ensures Raced(n, true) == Prims(n)
    decreases n, 0
  {
    match n {
      case Par(_, left, right) => RacedUnderIsAll(left); RacedUnderIsAll(right);
      case Seq(left, right) => RacedUnderIsAll(left); RacedUnderIsAll(right);
      case Alt(_, ifTrue, ifFalse) => RacedUnderIsAll(ifTrue); RacedUnderIsAll(ifFalse);
      case Switch(_, cases, default) =>
        RacedCasesUnderIsAll(cases);
        if default.Some? {
          RacedUnderIsAll(default.value);
        }
      case Each(body, _, _) => RacedUnderIsAll(body);
      case IterUpTo(_, body, _) => RacedUnderIsAll(body);
      case EvalPlan(_, plan) =>
        if plan.Some? {
          RacedUnderIsAll(plan.value);
        }
      case Loop(body) => RacedUnderIsAll(body);
      case _ =>
    }
  }

  lemma {:induction false} RacedCasesUnderIsAll(cases: seq<NodeCase>)
    ensures RacedCases(cases, true) == CasePrims(cases)
    decreases cases, 0
  {
    if cases != [] {
      RacedUnderIsAll(cases[0].node);
      RacedCasesUnderIsAll(cases[1..]);
    }
  }

  predicate NoneRefused(manifest: Manifest, events: seq<Event>) {
    forall e | e in events :: Refused(manifest, e).None?
  }

  lemma NoneRefusedConcat(manifest: Manifest, a: seq<Event>, b: seq<Event>)
    ensures NoneRefused(manifest, a + b) <==> NoneRefused(manifest, a) && NoneRefused(manifest, b)
  {
    assert forall e :: e in a + b <==> e in a || e in b;
  }

  lemma RefusalsAreExact(manifest: Manifest, events: seq<Event>)
    ensures Refusals(manifest, events) == [] <==> NoneRefused(manifest, events)
  {
    if events != [] {
      var last := |events| - 1;
      RefusalsAreExact(manifest, events[..last]);
      assert events == events[..last] + [events[last]];
      NoneRefusedConcat(manifest, events[..last], [events[last]]);
      assert NoneRefused(manifest, [events[last]]) <==> Refused(manifest, events[last]).None? by {
        assert events[last] in [events[last]];
      }
    }
  }

  /** What is raced at all is raced under more. */
  lemma {:induction false} RacedIsWithin(n: Node)
    ensures forall e :: e in Raced(n, false) ==> e in Prims(n)
    decreases n, 0
  {
    match n {
      case Par(_, left, right) =>
        RacedIsWithin(left); RacedIsWithin(right);
        RacedUnderIsAll(left); RacedUnderIsAll(right);
      case Seq(left, right) => RacedIsWithin(left); RacedIsWithin(right);
      case Alt(_, ifTrue, ifFalse) => RacedIsWithin(ifTrue); RacedIsWithin(ifFalse);
      case Switch(_, cases, default) =>
        RacedCasesAreWithin(cases);
        if default.Some? {
          RacedIsWithin(default.value);
        }
      case Each(body, _, _) => RacedIsWithin(body);
      case IterUpTo(_, body, _) => RacedIsWithin(body);
      case EvalPlan(_, plan) =>
        if plan.Some? {
          RacedIsWithin(plan.value);
        }
      case Loop(body) => RacedIsWithin(body);
      case _ =>
    }
  }

  lemma {:induction false} RacedCasesAreWithin(cases: seq<NodeCase>)
    ensures forall e :: e in RacedCases(cases, false) ==> e in CasePrims(cases)
    decreases cases, 0
  {
    if cases != [] {
      RacedIsWithin(cases[0].node);
      RacedCasesAreWithin(cases[1..]);
    }
  }

  lemma {:induction false} AdmissionMeans(manifest: Manifest, n: Node)
    ensures Admission(manifest, n, None) == [] <==> NoneRefused(manifest, Raced(n, false))
    decreases n, 0
  {
    match n {
      case Par(merge, left, right) =>
        NoneRefusedConcat(manifest, Raced(left, IsRacing(n)), Raced(right, IsRacing(n)));
        if IsRacing(n) {
          GroupAdmissionMeans(manifest, left, merge.value.kind);
          GroupAdmissionMeans(manifest, right, merge.value.kind);
          RacedUnderIsAll(left);
          RacedUnderIsAll(right);
        } else {
          AdmissionMeans(manifest, left);
          AdmissionMeans(manifest, right);
        }
      case Seq(left, right) =>
        NoneRefusedConcat(manifest, Raced(left, false), Raced(right, false));
        AdmissionMeans(manifest, left);
        AdmissionMeans(manifest, right);
      case Alt(_, ifTrue, ifFalse) =>
        NoneRefusedConcat(manifest, Raced(ifTrue, false), Raced(ifFalse, false));
        AdmissionMeans(manifest, ifTrue);
        AdmissionMeans(manifest, ifFalse);
      case Switch(_, cases, default) =>
        CaseAdmissionMeans(manifest, cases);
        var later := if default.Some? then Raced(default.value, false) else [];
        NoneRefusedConcat(manifest, RacedCases(cases, false), later);
        if default.Some? {
          AdmissionMeans(manifest, default.value);
        }
      case Each(body, _, _) => AdmissionMeans(manifest, body);
      case IterUpTo(_, body, _) => AdmissionMeans(manifest, body);
      case EvalPlan(_, plan) =>
        if plan.Some? {
          AdmissionMeans(manifest, plan.value);
        }
      case Loop(body) => AdmissionMeans(manifest, body);
      case _ =>
    }
  }

  lemma {:induction false} CaseAdmissionMeans(manifest: Manifest, cases: seq<NodeCase>)
    ensures CaseAdmission(manifest, cases) == [] <==> NoneRefused(manifest, RacedCases(cases, false))
    decreases cases, 0
  {
    if cases != [] {
      AdmissionMeans(manifest, cases[0].node);
      CaseAdmissionMeans(manifest, cases[1..]);
      NoneRefusedConcat(manifest, Raced(cases[0].node, false), RacedCases(cases[1..], false));
    }
  }

  lemma {:induction false} GroupAdmissionMeans(manifest: Manifest, n: Node, kind: MergeKind)
    ensures GroupAdmission(manifest, n, kind) == [] <==> NoneRefused(manifest, Prims(n))
    decreases n, 1
  {
    if InGroup(n, kind) {
      GroupAdmissionMeans(manifest, n.left, kind);
      GroupAdmissionMeans(manifest, n.right, kind);
      NoneRefusedConcat(manifest, Prims(n.left), Prims(n.right));
    } else {
      RefusalsAreExact(manifest, Prims(n));
      AdmissionMeans(manifest, n);
      RacedIsWithin(n);
    }
  }

  /**
   Race admission is exact: it reports nothing if and only if every call with a race, hedge or quorum
   above it, at any depth, is frozen, in the manifest, asserted, and read-only or safely repeatable,
   and no sub-flow has one above it.
   */
  lemma RaceAdmissionIsExact(manifest: Manifest, flow: Node)
    ensures CheckRaceAdmission(manifest, flow) == [] <==>
              forall e :: e in Raced(flow, false) ==>
                && !e.step.Sub?
                && (e.step.Call? ==>
                      var tool := Lookup(manifest, e.step.frozenHash);
                      tool.Some? && tool.value.asserted && RaceSafe(tool.value))
  {
    AdmissionMeans(manifest, flow);
    forall e: Event
      ensures Refused(manifest, e).None? <==>
                && !e.step.Sub?
                && (e.step.Call? ==>
                      var tool := Lookup(manifest, e.step.frozenHash);
                      tool.Some? && tool.value.asserted && RaceSafe(tool.value))
    {
    }
  }

  // ----- the check as it runs -----

  function OverBranches(manifest: Manifest, branches: seq<Node>): seq<Diagnostic> {
    if branches == [] then []
    else Refusals(manifest, Prims(branches[0])) + Admission(manifest, branches[0], None)
         + OverBranches(manifest, branches[1..])
  }

  lemma OverBranchesConcat(manifest: Manifest, a: seq<Node>, b: seq<Node>)
    ensures OverBranches(manifest, a + b) == OverBranches(manifest, a) + OverBranches(manifest, b)
  {
    if a == [] {
      assert a + b == b;
    } else {
      assert (a + b)[1..] == a[1..] + b;
      OverBranchesConcat(manifest, a[1..], b);
    }
  }

  lemma {:induction false} GroupIsOverBranches(manifest: Manifest, n: Node, kind: MergeKind)
    ensures GroupAdmission(manifest, n, kind) == OverBranches(manifest, Branches(n, kind))
    ensures forall b :: b in Branches(n, kind) ==> b == n || b < n
    decreases n
  {
    if InGroup(n, kind) {
      GroupIsOverBranches(manifest, n.left, kind);
      GroupIsOverBranches(manifest, n.right, kind);
      OverBranchesConcat(manifest, Branches(n.left, kind), Branches(n.right, kind));
    } else {
      assert [n][1..] == [];
    }
  }

  /**
   The nested `scan`, appending diagnostics as it goes. In a tree no group is met twice, so nothing is
   skipped as seen.
   */
  class RaceScan {
    const manifest: Manifest
    var out: seq<Diagnostic>

    constructor (manifest: Manifest)
      ensures this.manifest == manifest && out == []
    {
      this.manifest, out := manifest, [];
    }

    method Scan(n: Node, chain: Option<MergeKind>)
      modifies this
      ensures out == old(out) + Admission(manifest, n, chain)
      decreases n, 2
    {
      if IsRacing(n) && Some(n.merge.value.kind) != chain {
        ScanGroup(n);
      } else {
        ScanChildren(n, if IsRacing(n) then Some(n.merge.value.kind) else None);
      }
    }

    /** A group root: admit each flat branch, and scan it for groups of its own. */
    method ScanGroup(n: Node)
      requires IsRacing(n)
      modifies this
      ensures out == old(out) + (GroupAdmission(manifest, n.left, n.merge.value.kind)
                                 + GroupAdmission(manifest, n.right, n.merge.value.kind))
      decreases n, 1
    {
      var kind, branches := n.merge.value.kind, FlattenRaceGroup(n);
      RootBranches(manifest, n);
      for i := 0 to |branches|
        invariant out == old(out) + OverBranches(manifest, branches[..i])
      {
        var branch := branches[i];
        assert branch in branches;
        out := out + Refusals(manifest, Prims(branch));
        Scan(branch, None);
        OverTake(manifest, branches, i);
        Associate(old(out), OverBranches(manifest, branches[..i]), Refusals(manifest, Prims(branch)),
                  Admission(manifest, branch, None));
      }
      assert branches[..|branches|] == branches;
    }

    method ScanChildren(n: Node, next: Option<MergeKind>)
      modifies this
      requires !n.Par? ==> next == None
      ensures n.Par? ==> out == old(out) + (Admission(manifest, n.left, next) + Admission(manifest, n.right, next))
      ensures !n.Par? ==> out == old(out) + Admission(manifest, n, None)
      decreases n, 0
    {
      match n {
        case Par(merge, left, right) =>
          Scan(left, next);
          Scan(right, next);
          Associate(old(out), [], Admission(manifest, left, next), Admission(manifest, right, next));
        case Seq(left, right) =>
          Scan(left, None);
          Scan(right, None);
          Associate(old(out), [], Admission(manifest, left, None), Admission(manifest, right, None));
        case Alt(_, ifTrue, ifFalse) =>
          Scan(ifTrue, None);
          Scan(ifFalse, None);
          Associate(old(out), [], Admission(manifest, ifTrue, None), Admission(manifest, ifFalse, None));
        case Switch(_, cases, default) =>
          ghost var later := if default.Some? then Admission(manifest, default.value, None) else [];
          ScanCases(cases);
          if default.Some? {
            Scan(default.value, None);
          }
          Associate(old(out), [], CaseAdmission(manifest, cases), later);
        case Each(body, _, _) => Scan(body, None);
        case IterUpTo(_, body, _) => Scan(body, None);
        case EvalPlan(_, plan) =>
          if plan.Some? {
            Scan(plan.value, None);
          }
        case Loop(body) => Scan(body, None);
        case _ =>
      }
    }

    method ScanCases(cases: seq<NodeCase>)
      modifies this
      ensures out == old(out) + CaseAdmission(manifest, cases)
      decreases cases, 0
    {
      if cases != [] {
        Scan(cases[0].node, None);
        ScanCases(cases[1..]);
        Associate(old(out), [], Admission(manifest, cases[0].node, None), CaseAdmission(manifest, cases[1..]));
      }
    }
  }

  lemma Associate(was: seq<Diagnostic>, a: seq<Diagnostic>, b: seq<Diagnostic>, c: seq<Diagnostic>)
    ensures was + a + b + c == was + (a + (b + c))
    ensures was + b + c == was + (b + c) && was + [] == was
  {
  }

  lemma OverTake(manifest: Manifest, branches: seq<Node>, i: nat)
    requires i < |branches|
    ensures OverBranches(manifest, branches[..i + 1])
         == OverBranches(manifest, branches[..i])
            + (Refusals(manifest, Prims(branches[i])) + Admission(manifest, branches[i], None))
  {
    assert branches[..i + 1] == branches[..i] + [branches[i]];
    OverBranchesConcat(manifest, branches[..i], [branches[i]]);
    assert [branches[i]][1..] == [];
  }

  lemma RootBranches(manifest: Manifest, n: Node)
    requires IsRacing(n)
    ensures OverBranches(manifest, FlattenRaceGroup(n))
         == GroupAdmission(manifest, n.left, n.merge.value.kind) + GroupAdmission(manifest, n.right, n.merge.value.kind)
    ensures forall b :: b in FlattenRaceGroup(n) ==> b < n
  {
    var kind := n.merge.value.kind;
    GroupIsOverBranches(manifest, n.left, kind);
    GroupIsOverBranches(manifest, n.right, kind);
    OverBranchesConcat(manifest, Branches(n.left, kind), Branches(n.right, kind));
  }

  // ----- the two checks together -----

  predicate SwitchesHaveCases(n: Node)
    decreases n, 0
  {
    match n
    case Par(_, left, right) => SwitchesHaveCases(left) && SwitchesHaveCases(right)
    case Seq(left, right) => SwitchesHaveCases(left) && SwitchesHaveCases(right)
    case Alt(_, ifTrue, ifFalse) => SwitchesHaveCases(ifTrue) && SwitchesHaveCases(ifFalse)
    case Switch(_, cases, default) =>
      cases != [] && CaseSwitchesHaveCases(cases) && (default.Some? ==> SwitchesHaveCases(default.value))
    case Each(body, _, _) => SwitchesHaveCases(body)
    case IterUpTo(_, body, _) => SwitchesHaveCases(body)
    case EvalPlan(_, plan) => plan.Some? ==> SwitchesHaveCases(plan.value)
    case Loop(body) => SwitchesHaveCases(body)
    case _ => true
  }

  predicate CaseSwitchesHaveCases(cases: seq<NodeCase>)
    decreases cases, 0
  {
    cases != [] ==> SwitchesHaveCases(cases[0].node) && CaseSwitchesHaveCases(cases[1..])
  }

  predicate Gateless(events: seq<Event>) {
    forall e | e in events :: !IsGate(e)
  }

  lemma {:induction false} GatelessNeverGates(n: Node)
    requires Gateless(Prims(n)) && SwitchesHaveCases(n)
    ensures !AlwaysGates(n)
    decreases n, 0
  {
    match n {
      case Prim(id, step) => assert Event(id, step) in Prims(n);
      case Seq(left, right) =>
        assert forall e :: e in Prims(left) || e in Prims(right) ==> e in Prims(n);
        GatelessNeverGates(left);
        GatelessNeverGates(right);
      case Par(_, left, right) =>
        assert forall e :: e in Prims(left) || e in Prims(right) ==> e in Prims(n);
        GatelessNeverGates(left);
        GatelessNeverGates(right);
      case Alt(_, ifTrue, ifFalse) =>
        assert forall e :: e in Prims(ifTrue) ==> e in Prims(n);
        GatelessNeverGates(ifTrue);
      case Switch(_, cases, default) =>
        CasePrimsOf(cases, 0);
        assert forall e :: e in CasePrims(cases) ==> e in Prims(n);
        GatelessNeverGates(cases[0].node);
      case _ =>
    }
  }

  /** Freezing gives the gate a contract that may not race, so admission refuses it in a race. */
  predicate GatesMayNotRace(manifest: Manifest, events: seq<Event>) {
    forall e | e in events && IsGate(e) :: Refused(manifest, e).Some?
  }

  /** In a flow that passes admission no race holds a gate, so each node counted on for a gate is sure to have one. */
  lemma {:induction false} AdmittedGatesAreSure(manifest: Manifest, n: Node)
    requires NoneRefused(manifest, Raced(n, false)) && GatesMayNotRace(manifest, Prims(n)) && SwitchesHaveCases(n)
    ensures (AlwaysGates(n) ==> SureGates(n)) && CountedGatesAreSure(n)
    decreases n, 0
  {
    match n {
      case Par(_, left, right) =>
        assert forall e :: e in Prims(left) || e in Prims(right) ==> e in Prims(n);
        NoneRefusedConcat(manifest, Raced(left, IsRacing(n)), Raced(right, IsRacing(n)));
        RacedUnderIsAll(left);
        RacedUnderIsAll(right);
        RacedIsWithin(left);
        RacedIsWithin(right);
        AdmittedGatesAreSure(manifest, left);
        AdmittedGatesAreSure(manifest, right);
        if IsRacing(n) {
          GatelessNeverGates(n);
        }
      case Seq(left, right) =>
        NoneRefusedConcat(manifest, Raced(left, false), Raced(right, false));
        assert forall e :: e in Prims(left) || e in Prims(right) ==> e in Prims(n);
        AdmittedGatesAreSure(manifest, left);
        AdmittedGatesAreSure(manifest, right);
      case Alt(_, ifTrue, ifFalse) =>
        NoneRefusedConcat(manifest, Raced(ifTrue, false), Raced(ifFalse, false));
        assert forall e :: e in Prims(ifTrue) || e in Prims(ifFalse) ==> e in Prims(n);
        AdmittedGatesAreSure(manifest, ifTrue);
        AdmittedGatesAreSure(manifest, ifFalse);
      case Switch(_, cases, default) =>
        var later := if default.Some? then Raced(default.value, false) else [];
        NoneRefusedConcat(manifest, RacedCases(cases, false), later);
        assert forall e :: e in CasePrims(cases) ==> e in Prims(n);
        AdmittedCaseGatesAreSure(manifest, cases);
        if default.Some? {
          assert forall e :: e in Prims(default.value) ==> e in Prims(n);
          AdmittedGatesAreSure(manifest, default.value);
        }
      case Each(body, _, _) => AdmittedGatesAreSure(manifest, body);
      case IterUpTo(_, body, _) => AdmittedGatesAreSure(manifest, body);
      case EvalPlan(_, plan) =>
        if plan.Some? {
          AdmittedGatesAreSure(manifest, plan.value);
        }
      case _ =>
    }
  }

  lemma {:induction false} AdmittedCaseGatesAreSure(manifest: Manifest, cases: seq<NodeCase>)
    requires NoneRefused(manifest, RacedCases(cases, false)) && GatesMayNotRace(manifest, CasePrims(cases))
    requires CaseSwitchesHaveCases(cases)
    ensures CasesAlwaysGate(cases) ==> CasesSureGate(cases)
    ensures CaseCountsAgree(cases, AlwaysGates, SureGates)
    decreases cases, 0
  {
    if cases != [] {
      NoneRefusedConcat(manifest, Raced(cases[0].node, false), RacedCases(cases[1..], false));
      assert forall e :: e in Prims(cases[0].node) || e in CasePrims(cases[1..]) ==> e in CasePrims(cases);
      AdmittedGatesAreSure(manifest, cases[0].node);
      AdmittedCaseGatesAreSure(manifest, cases[1..]);
    }
  }

  /**
   Each check covers the other's gap: with the gate frozen to a contract that may not race, a flow
   that passes both has a human gate before every approval-required call on every run, races with
   cancelled losers included.
   */
  lemma ChecksTogetherAreSafe(policy: Policy, flow: Node, whole: bool, t: Trace, i: nat)
    requires NoLoopEscapes(policy, flow) && SwitchesHaveCases(flow) && GatesMayNotRace(policy.manifest, Prims(flow))
    requires CheckRaceAdmission(policy.manifest, flow) == [] && Ungated(policy, flow, false) == []
    requires Runs(flow, whole, t) && i < |t| && NeedsApproval(policy, t[i])
    ensures HasGate(t[..i])
  {
    AdmissionMeans(policy.manifest, flow);
    AdmittedGatesAreSure(policy.manifest, flow);
    ApprovalSafety(policy, flow, whole, t, i);
  }

  /** The fixed contract of the gate, external and unrepeatable, is one that may not race. */
  lemma FixedGateMayNotRace(manifest: Manifest, events: seq<Event>)
    requires forall e :: e in events && IsGate(e) ==>
               && e.step.frozenHash.Some?
               && Lookup(manifest, e.step.frozenHash) == Some(FrozenTool(External, NoGuarantee, true))
    ensures GatesMayNotRace(manifest, events)
  {
  }
}
