/**
 The approval-gate check, and what it guarantees: on every run of a flow that draws no diagnostic, a
 human gate comes before each call that needs approval.
 */
module Gates {
  import opened Values
  import opened Ir
  import opened Manifests

  type Trace = seq<Event>

  /** What the deployment says about tools: frozen contracts, and which tools were granted with approval. */
  datatype Policy = Policy(manifest: Manifest, approvals: set<string>)

  predicate IsGate(e: Event) {
    e.step.Call? && e.step.tool == HUMAN_GATE
  }

  predicate NeedsApproval(policy: Policy, e: Event) {
    && e.step.Call? && e.step.tool != HUMAN_GATE
    && (e.step.tool in policy.approvals ||
        (var tool := Lookup(policy.manifest, e.step.frozenHash); tool.Some? && tool.value.effect == Dangerous))
  }

  // ----- the check -----

  /** Whether every run of a node passes a gate, as the check decides it. */
  predicate AlwaysGates(n: Node)
    decreases n, 0
  {
    match n
    case Prim(id, step) => IsGate(Event(id, step))
    case Seq(left, right) => AlwaysGates(left) || AlwaysGates(right)
    case Par(_, left, right) => AlwaysGates(left) || AlwaysGates(right)
    case Alt(_, ifTrue, ifFalse) => AlwaysGates(ifTrue) && AlwaysGates(ifFalse)
    case Switch(_, cases, default) => CasesAlwaysGate(cases) && (default.None? || AlwaysGates(default.value))
    case _ => false
  }

  predicate CasesAlwaysGate(cases: seq<NodeCase>)
    decreases cases, 0
  {
    cases == [] || (AlwaysGates(cases[0].node) && CasesAlwaysGate(cases[1..]))
  }

  /**
   The calls a walk reports as reachable without a preceding gate, in its order, when it counts on
   `gates` to say which nodes gate, and looks into session loops or passes them over.
   */
  function Walked(policy: Policy, gates: Node -> bool, loops: bool, n: Node, gated: bool): seq<Event>
    decreases n, 0
  {
    match n
    case Prim(id, step) => if NeedsApproval(policy, Event(id, step)) && !gated then [Event(id, step)] else []
    case Seq(left, right) =>
      Walked(policy, gates, loops, left, gated) + Walked(policy, gates, loops, right, gated || gates(left))
    case Par(_, left, right) =>
      Walked(policy, gates, loops, left, gated) + Walked(policy, gates, loops, right, gated)
    case Alt(_, ifTrue, ifFalse) =>
      Walked(policy, gates, loops, ifTrue, gated) + Walked(policy, gates, loops, ifFalse, gated)
    case Switch(_, cases, default) =>
      WalkedCases(policy, gates, loops, cases, gated)
      + (if default.Some? then Walked(policy, gates, loops, default.value, gated) else [])
    case Each(body, _, _) => Walked(policy, gates, loops, body, gated)
    case IterUpTo(_, body, _) => Walked(policy, gates, loops, body, gated)
    case EvalPlan(_, plan) => if plan.Some? then Walked(policy, gates, loops, plan.value, gated) else []
    case Loop(body) => if loops then Walked(policy, gates, loops, body, gated) else []
    case _ => []
  }

  function WalkedCases(policy: Policy, gates: Node -> bool, loops: bool, cases: seq<NodeCase>, gated: bool): seq<Event>
    decreases cases, 0
  {
    if cases == [] then []
    else Walked(policy, gates, loops, cases[0].node, gated) + WalkedCases(policy, gates, loops, cases[1..], gated)
  }

  /** The calls the check reports: it passes session loops over. */
  function Ungated(policy: Policy, n: Node, gated: bool): seq<Event> {
    Walked(policy, AlwaysGates, false, n, gated)
  }

  function UngatedCases(policy: Policy, cases: seq<NodeCase>, gated: bool): seq<Event> {
    WalkedCases(policy, AlwaysGates, false, cases, gated)
  }

  /** The check as it runs: a walk that appends to its findings and remembers which nodes always gate. */
  class GateCheck {
    const policy: Policy
    var findings: seq<Event>
    var gateCache: map<Node, bool>

    ghost predicate Valid()
      reads this
    {
      forall n | n in gateCache :: gateCache[n] == AlwaysGates(n)
    }

    constructor (policy: Policy)
      ensures Valid() && this.policy == policy && findings == []
    {
      this.policy, findings, gateCache := policy, [], map[];
    }

    method CheckAlwaysGates(n: Node) returns (result: bool)
      requires Valid()
      modifies this`gateCache
      ensures Valid() && result == AlwaysGates(n)
      decreases n, 0
    {
      if n in gateCache {
        return gateCache[n];
      }
      match n {
        case Prim(id, step) =>
          result := IsGate(Event(id, step));
        case Seq(left, right) =>
          result := CheckAlwaysGates(left);
          if !result {
            result := CheckAlwaysGates(right);
          }
        case Par(_, left, right) =>
          result := CheckAlwaysGates(left);
          if !result {
            result := CheckAlwaysGates(right);
          }
        case Alt(_, ifTrue, ifFalse) =>
          result := CheckAlwaysGates(ifTrue);
          if result {
            result := CheckAlwaysGates(ifFalse);
          }
        case Switch(_, cases, default) =>
          result := CheckCases(cases);
          if result && default.Some? {
            result := CheckAlwaysGates(default.value);
          }
        case _ =>
          result := false;
      }
      gateCache := gateCache[n := result];
    }

    method CheckCases(cases: seq<NodeCase>) returns (result: bool)
      requires Valid()
      modifies this`gateCache
      ensures Valid() && result == CasesAlwaysGate(cases)
      decreases cases, 0
    {
      if cases == [] {
        return true;
      }
      result := CheckAlwaysGates(cases[0].node);
      if result {
        result := CheckCases(cases[1..]);
      }
    }

    method Walk(n: Node, gated: bool)
      requires Valid()
      modifies this
      ensures Valid() && findings == old(findings) + Ungated(policy, n, gated)
      decreases n, 0
    {
      match n {
        case Prim(id, step) =>
          if NeedsApproval(policy, Event(id, step)) && !gated {
            findings := findings + [Event(id, step)];
          }
        case Seq(left, right) =>
          Walk(left, gated);
          ghost var first := Ungated(policy, left, gated);
          var after := gated;
          if !after {
            after := CheckAlwaysGates(left);
          }
          Walk(right, after);
          Appended(old(findings), first, Ungated(policy, right, after));
        case Par(_, left, right) =>
          Walk(left, gated);
          Walk(right, gated);
          Appended(old(findings), Ungated(policy, left, gated), Ungated(policy, right, gated));
        case Alt(_, ifTrue, ifFalse) =>
          Walk(ifTrue, gated);
          Walk(ifFalse, gated);
          Appended(old(findings), Ungated(policy, ifTrue, gated), Ungated(policy, ifFalse, gated));
        case Switch(_, cases, default) =>
          WalkCases(cases, gated);
          ghost var later := if default.Some? then Ungated(policy, default.value, gated) else [];
          if default.Some? {
            Walk(default.value, gated);
          }
          Appended(old(findings), UngatedCases(policy, cases, gated), later);
        case Each(body, _, _) =>
          Walk(body, gated);
        case IterUpTo(_, body, _) =>
          Walk(body, gated);
        case EvalPlan(_, plan) =>
          if plan.Some? {
            Walk(plan.value, gated);
          }
        case _ =>
      }
    }

    method WalkCases(cases: seq<NodeCase>, gated: bool)
      requires Valid()
      modifies this
      ensures Valid() && findings == old(findings) + UngatedCases(policy, cases, gated)
      decreases cases, 0
    {
      if cases != [] {
        Walk(cases[0].node, gated);
        WalkCases(cases[1..], gated);
      }
    }
  }

  lemma Appended(was: seq<Event>, a: seq<Event>, b: seq<Event>)
    ensures was + a + b == was + (a + b) && was + [] == was
  {
  }

  method CheckApprovalGates(flow: Node, policy: Policy) returns (findings: seq<Event>)
    ensures findings == Ungated(policy, flow, false)
  {
    var check := new GateCheck(policy);
    check.Walk(flow, false);
    return check.findings;
  }

  // ----- runs -----

  /** `t` is some interleaving of `a` and `b`. */
  predicate Interleaves(a: Trace, b: Trace, t: Trace)
    decreases |t|
  {
    if t == [] then a == [] && b == []
    else
      || (a != [] && a[0] == t[0] && Interleaves(a[1..], b, t[1..]))
      || (b != [] && b[0] == t[0] && Interleaves(a, b[1..], t[1..]))
  }

  /** `t` interleaves runs of a body, one per item, each complete if `whole` and cut anywhere otherwise. */
  ghost predicate RunsOfItems(body: Node, whole: bool, count: nat, t: Trace)
    decreases body, 2, count
  {
    if count == 0 then t == []
    else exists a: Trace, b: Trace ::
           Runs(body, whole, a) && RunsOfItems(body, whole, count - 1, b) && Interleaves(a, b, t)
  }

  /** `t` is up to `rounds` runs of a body one after another, the last cut anywhere unless `whole`. */
  ghost predicate RunsOfRounds(body: Node, whole: bool, rounds: nat, t: Trace)
    decreases body, 2, rounds
  {
    || t == []
    || (rounds > 0 && !whole && Runs(body, false, t))
    || (rounds > 0 && exists a: Trace, b: Trace ::
          t == a + b && Runs(body, true, a) && RunsOfRounds(body, whole, rounds - 1, b))
  }

  /** How many branches of a race, hedge or quorum must succeed before it settles. */
  function Needed(merge: Merge): (m: nat)
    ensures m > 0
  {
    if merge.kind == Quorum && merge.quorumM.Some? && merge.quorumM.value > 0 then merge.quorumM.value else 1
  }

  /** `t` interleaves runs of the branches of a group, `need` of them complete and the rest left anywhere. */
  ghost predicate RunsOfGroup(n: Node, kind: MergeKind, need: nat, t: Trace)
    decreases n, 2, 0
  {
    if InGroup(n, kind) then
      exists i: nat, a: Trace, b: Trace ::
        i <= need && RunsOfGroup(n.left, kind, i, a) && RunsOfGroup(n.right, kind, need - i, b) && Interleaves(a, b, t)
    else need <= 1 && Runs(n, need == 1, t)
  }

  /**
   `t` is what happens in some run of `n`: to its end if `whole`, and up to any point otherwise. An
   `all` join waits for every branch. A race, hedge or quorum is over when as many of its branches as
   it needs have succeeded; the others are cancelled wherever they are.
   */
  ghost predicate Runs(n: Node, whole: bool, t: Trace)
    decreases n, 1, 0
  {
    match n
    case Prim(id, step) => t == [Event(id, step)] || (!whole && t == [])
    case Seq(left, right) =>
      || (!whole && Runs(left, false, t))
      || (exists a: Trace, b: Trace :: t == a + b && Runs(left, true, a) && Runs(right, whole, b))
    case Par(merge, left, right) =>
      if whole && !IsAllPar(n) then
        exists i: nat, a: Trace, b: Trace ::
          && i <= Needed(merge.value) && RunsOfGroup(left, merge.value.kind, i, a)
          && RunsOfGroup(right, merge.value.kind, Needed(merge.value) - i, b) && Interleaves(a, b, t)
      else exists a: Trace, b: Trace :: Runs(left, whole, a) && Runs(right, whole, b) && Interleaves(a, b, t)
    case Alt(_, ifTrue, ifFalse) => (!whole && t == []) || Runs(ifTrue, whole, t) || Runs(ifFalse, whole, t)
    case Switch(_, cases, default) =>
      || (!whole && t == [])
      || (exists i :: 0 <= i < |cases| && Runs(cases[i].node, whole, t))
      || (default.Some? && Runs(default.value, whole, t))
    case Each(body, _, _) => exists count: nat :: RunsOfItems(body, whole, count, t)
    case IterUpTo(rounds, body, _) => RunsOfRounds(body, whole, rounds, t)
    case EvalPlan(_, plan) => if plan.Some? then (!whole && t == []) || Runs(plan.value, whole, t) else t == []
    case Loop(body) => exists rounds: nat :: RunsOfRounds(body, false, rounds, t)
    case _ => t == []
  }

  // ----- traces -----

  predicate HasGate(t: Trace) {
    exists e :: e in t && IsGate(e)
  }

  /**
   Every call in `t` that needs approval, other than those in `known`, has a gate before it, in `t` or
   before `t` began.
   */
  predicate Guarded(policy: Policy, known: set<Event>, gated: bool, t: Trace)
    decreases |t|
  {
    t != [] ==>
      && (NeedsApproval(policy, t[0]) && t[0] !in known ==> gated)
      && Guarded(policy, known, gated || IsGate(t[0]), t[1..])
  }

  lemma {:induction false} GuardedMeans(policy: Policy, known: set<Event>, gated: bool, t: Trace, i: nat)
    requires Guarded(policy, known, gated, t) && i < |t| && NeedsApproval(policy, t[i]) && t[i] !in known
    ensures gated || HasGate(t[..i])
    decreases |t|
  {
    if i > 0 {
      GuardedMeans(policy, known, gated || IsGate(t[0]), t[1..], i - 1);
      assert t[..i] == [t[0]] + t[1..][..i - 1];
      if HasGate(t[1..][..i - 1]) {
        var e :| e in t[1..][..i - 1] && IsGate(e);
        assert e in t[..i];
      } else if IsGate(t[0]) {
        assert t[0] in t[..i];
      }
    }
  }

  lemma {:induction false} GuardedWeakens(
    policy: Policy, fewer: set<Event>, more: set<Event>, before: bool, after: bool, t: Trace)
    requires Guarded(policy, fewer, before, t) && fewer <= more && (before ==> after)
    ensures Guarded(policy, more, after, t)
    decreases |t|
  {
    if t != [] {
      GuardedWeakens(policy, fewer, more, before || IsGate(t[0]), after || IsGate(t[0]), t[1..]);
    }
  }

  lemma {:induction false} GuardedConcat(policy: Policy, known: set<Event>, gated: bool, a: Trace, b: Trace)
    requires Guarded(policy, known, gated, a) && Guarded(policy, known, gated || HasGate(a), b)
    ensures Guarded(policy, known, gated, a + b)
    decreases |a|
  {
    if a == [] {
      assert a + b == b;
    } else {
      assert (a + b)[1..] == a[1..] + b && a == [a[0]] + a[1..];
      assert HasGate(a) ==> IsGate(a[0]) || HasGate(a[1..]);
      GuardedWeakens(policy, known, known, gated || HasGate(a), gated || IsGate(a[0]) || HasGate(a[1..]), b);
      GuardedConcat(policy, known, gated || IsGate(a[0]), a[1..], b);
    }
  }

  lemma {:induction false} GuardedInterleaves(
    policy: Policy, known: set<Event>, ga: bool, gb: bool, a: Trace, b: Trace, t: Trace)
    requires Guarded(policy, known, ga, a) && Guarded(policy, known, gb, b) && Interleaves(a, b, t)
    ensures Guarded(policy, known, ga || gb, t)
    decreases |t|
  {
    if t != [] {
      var gate := IsGate(t[0]);
      if a != [] && a[0] == t[0] && Interleaves(a[1..], b, t[1..]) {
        GuardedInterleaves(policy, known, ga || gate, gb, a[1..], b, t[1..]);
      } else {
        GuardedInterleaves(policy, known, ga, gb || gate, a, b[1..], t[1..]);
      }
    }
  }

  lemma {:induction false} GateInterleaves(a: Trace, b: Trace, t: Trace)
    requires Interleaves(a, b, t)
    ensures HasGate(t) <==> HasGate(a) || HasGate(b)
    decreases |t|
  {
    if t != [] {
      assert t == [t[0]] + t[1..];
      if a != [] && a[0] == t[0] && Interleaves(a[1..], b, t[1..]) {
        assert a == [a[0]] + a[1..];
        GateInterleaves(a[1..], b, t[1..]);
      } else {
        assert b == [b[0]] + b[1..];
        GateInterleaves(a, b[1..], t[1..]);
      }
    }
  }

  // ----- which nodes gate on every complete run -----

  /**
   The check's verdict put right for races: a race, hedge or quorum is sure to gate only if fewer of its
   branches can do without a gate than it needs to settle. For a race and a hedge, that is if all gate.
   */
  predicate SureGates(n: Node)
    decreases n, 0
  {
    match n
    case Prim(id, step) => IsGate(Event(id, step))
    case Seq(left, right) => SureGates(left) || SureGates(right)
    case Par(merge, left, right) =>
      if IsAllPar(n) then SureGates(left) || SureGates(right)
      else GatelessBranches(left, merge.value.kind) + GatelessBranches(right, merge.value.kind) < Needed(merge.value)
    case Alt(_, ifTrue, ifFalse) => SureGates(ifTrue) && SureGates(ifFalse)
    case Switch(_, cases, default) => CasesSureGate(cases) && (default.None? || SureGates(default.value))
    case _ => false
  }

  predicate CasesSureGate(cases: seq<NodeCase>)
    decreases cases, 0
  {
    cases == [] || (SureGates(cases[0].node) && CasesSureGate(cases[1..]))
  }

  /** How many branches of a group are not sure to gate. */
  function GatelessBranches(n: Node, kind: MergeKind): nat
    decreases n, 1
  {
    if InGroup(n, kind) then GatelessBranches(n.left, kind) + GatelessBranches(n.right, kind)
    else if SureGates(n) then 0
    else 1
  }

  /** The calls that can be reached past no gate: what the walk finds with the right verdict, in session loops too. */
  function Escaping(policy: Policy, n: Node, gated: bool): seq<Event> {
    Walked(policy, SureGates, true, n, gated)
  }

  lemma CaseOf(cases: seq<NodeCase>, i: nat)
    requires i < |cases|
    ensures CasesSureGate(cases) ==> SureGates(cases[i].node)
  {
    if i > 0 {
      CaseOf(cases[1..], i - 1);
    }
  }

  /** A node that is sure to gate has a gate on every complete run. */
  lemma {:induction false} SureGatesHappen(n: Node, t: Trace)
    requires SureGates(n) && Runs(n, true, t)
    ensures HasGate(t)
    decreases n, 0
  {
    match n {
      case Prim(id, step) => assert t[0] in t;
      case Seq(left, right) =>
        var a: Trace, b: Trace :| t == a + b && Runs(left, true, a) && Runs(right, true, b);
        if SureGates(left) {
          SureGatesHappen(left, a);
        } else {
          SureGatesHappen(right, b);
        }
      case Par(_, _, _) => SureParGates(n, t);
      case Alt(_, ifTrue, ifFalse) =>
        if Runs(ifTrue, true, t) {
          SureGatesHappen(ifTrue, t);
        } else {
          SureGatesHappen(ifFalse, t);
        }
      case Switch(_, cases, default) =>
        if default.Some? && Runs(default.value, true, t) {
          SureGatesHappen(default.value, t);
        } else {
          var i :| 0 <= i < |cases| && Runs(cases[i].node, true, t);
          CaseOf(cases, i);
          SureGatesHappen(cases[i].node, t);
        }
      case _ =>
    }
  }

  lemma {:induction false} SureParGates(n: Node, t: Trace)
    requires n.Par? && SureGates(n) && Runs(n, true, t)
    ensures HasGate(t)
    decreases n, -1
  {
    if IsAllPar(n) {
      var a: Trace, b: Trace :| Runs(n.left, true, a) && Runs(n.right, true, b) && Interleaves(a, b, t);
      if SureGates(n.left) {
        SureGatesHappen(n.left, a);
      } else {
        SureGatesHappen(n.right, b);
      }
      GateInterleaves(a, b, t);
    } else {
      var kind, need := n.merge.value.kind, Needed(n.merge.value);
      var i: nat, a: Trace, b: Trace :|
        i <= need && RunsOfGroup(n.left, kind, i, a) && RunsOfGroup(n.right, kind, need - i, b) && Interleaves(a, b, t);
      if i > GatelessBranches(n.left, kind) {
        GroupGates(n.left, kind, i, a);
      } else {
        GroupGates(n.right, kind, need - i, b);
      }
      GateInterleaves(a, b, t);
    }
  }

  /** A group's run is an interleaving of runs of its two sides, which share out the branches that ran whole. */
  lemma SplitGroupRun(n: Node, kind: MergeKind, need: nat, t: Trace) returns (i: nat, a: Trace, b: Trace)
    requires RunsOfGroup(n, kind, need, t) && InGroup(n, kind)
    ensures i <= need && RunsOfGroup(n.left, kind, i, a) && RunsOfGroup(n.right, kind, need - i, b)
    ensures Interleaves(a, b, t)
  {
    i, a, b :|
      i <= need && RunsOfGroup(n.left, kind, i, a) && RunsOfGroup(n.right, kind, need - i, b) && Interleaves(a, b, t);
  }

  lemma WholeBranchRun(n: Node, kind: MergeKind, need: nat, t: Trace)
    requires RunsOfGroup(n, kind, need, t) && !InGroup(n, kind) && need > 0
    ensures Runs(n, true, t) && need == 1
  {
  }

  lemma GatelessInGroup(n: Node, kind: MergeKind)
    ensures InGroup(n, kind) ==>
              GatelessBranches(n, kind) == GatelessBranches(n.left, kind) + GatelessBranches(n.right, kind)
    ensures !InGroup(n, kind) ==> GatelessBranches(n, kind) == if SureGates(n) then 0 else 1
  {
  }

  /** More branches ran to their end than can do without a gate. */
  lemma {:induction false} GroupGates(n: Node, kind: MergeKind, need: nat, t: Trace)
    requires RunsOfGroup(n, kind, need, t) && need > GatelessBranches(n, kind)
    ensures HasGate(t)
    decreases n, 1
  {
    GatelessInGroup(n, kind);
    if InGroup(n, kind) {
      var i, a, b := SplitGroupRun(n, kind, need, t);
      if i > GatelessBranches(n.left, kind) {
        GroupGates(n.left, kind, i, a);
      } else {
        GroupGates(n.right, kind, need - i, b);
      }
      GateInterleaves(a, b, t);
    } else {
      WholeBranchRun(n, kind, need, t);
      SureGatesHappen(n, t);
    }
  }

  // ----- safety -----

  function Found(events: seq<Event>): set<Event> {
    set e | e in events
  }

  lemma FoundConcat()
    ensures forall a, b :: Found(a + b) == Found(a) + Found(b)
  {
  }

  lemma WalkedCaseOf(policy: Policy, gates: Node -> bool, loops: bool, cases: seq<NodeCase>, gated: bool, i: nat)
    requires i < |cases|
    ensures Found(Walked(policy, gates, loops, cases[i].node, gated))
         <= Found(WalkedCases(policy, gates, loops, cases, gated))
  {
    if i > 0 {
      WalkedCaseOf(policy, gates, loops, cases[1..], gated, i - 1);
    }
  }

  /** On any run, cut anywhere, every call that needs approval and was not reported has a gate before it. */
  lemma {:induction false} RunsAreGuarded(
    policy: Policy, n: Node, known: set<Event>, gated: bool, whole: bool, t: Trace)
    requires Runs(n, whole, t)
    requires Found(Escaping(policy, n, gated)) <= known
    ensures Guarded(policy, known, gated, t)
    decreases n, 1, 0
  {
    match n {
      case Prim(id, step) =>
      case Seq(left, right) =>
        SeqIsGuarded(policy, n, known, gated, whole, t);
      case Par(_, left, right) =>
        ParIsGuarded(policy, n, known, gated, whole, t);
      case Alt(_, ifTrue, ifFalse) =>
        if Runs(ifTrue, whole, t) {
          RunsAreGuarded(policy, ifTrue, known, gated, whole, t);
        } else if Runs(ifFalse, whole, t) {
          RunsAreGuarded(policy, ifFalse, known, gated, whole, t);
        }
      case Switch(_, cases, default) =>
        if default.Some? && Runs(default.value, whole, t) {
          RunsAreGuarded(policy, default.value, known, gated, whole, t);
        } else if exists i :: 0 <= i < |cases| && Runs(cases[i].node, whole, t) {
          var i :| 0 <= i < |cases| && Runs(cases[i].node, whole, t);
          CaseOf(cases, i);
          WalkedCaseOf(policy, SureGates, true, cases, gated, i);
          RunsAreGuarded(policy, cases[i].node, known, gated, whole, t);
        }
      case Each(body, _, _) =>
        var count: nat :| RunsOfItems(body, whole, count, t);
        ItemsAreGuarded(policy, body, known, gated, whole, count, t);
      case IterUpTo(rounds, body, _) =>
        RoundsAreGuarded(policy, body, known, gated, whole, rounds, t);
      case EvalPlan(_, plan) =>
        if plan.Some? && Runs(plan.value, whole, t) {
          RunsAreGuarded(policy, plan.value, known, gated, whole, t);
        }
      case Loop(body) =>
        var rounds: nat :| RunsOfRounds(body, false, rounds, t);
        RoundsAreGuarded(policy, body, known, gated, false, rounds, t);
      case _ =>
    }
  }

  lemma {:induction false} SeqIsGuarded(
    policy: Policy, n: Node, known: set<Event>, gated: bool, whole: bool, t: Trace)
    requires n.Seq? && Runs(n, whole, t)
    requires Found(Escaping(policy, n, gated)) <= known
    ensures Guarded(policy, known, gated, t)
    decreases n, 0, 0
  {
    if !whole && Runs(n.left, false, t) {
      RunsAreGuarded(policy, n.left, known, gated, false, t);
    } else {
      var a: Trace, b: Trace :| t == a + b && Runs(n.left, true, a) && Runs(n.right, whole, b);
      var after := gated || SureGates(n.left);
      if SureGates(n.left) {
        SureGatesHappen(n.left, a);
      }
      RunsAreGuarded(policy, n.left, known, gated, true, a);
      RunsAreGuarded(policy, n.right, known, after, whole, b);
      GuardedWeakens(policy, known, known, after, gated || HasGate(a), b);
      GuardedConcat(policy, known, gated, a, b);
    }
  }

  lemma {:induction false} ParIsGuarded(
    policy: Policy, n: Node, known: set<Event>, gated: bool, whole: bool, t: Trace)
    requires n.Par? && Runs(n, whole, t)
    requires Found(Escaping(policy, n, gated)) <= known
    ensures Guarded(policy, known, gated, t)
    decreases n, 0, 0
  {
    if whole && !IsAllPar(n) {
      var kind, need := n.merge.value.kind, Needed(n.merge.value);
      var i: nat, a: Trace, b: Trace :|
        i <= need && RunsOfGroup(n.left, kind, i, a) && RunsOfGroup(n.right, kind, need - i, b) && Interleaves(a, b, t);
      GroupIsGuarded(policy, n.left, kind, i, known, gated, a);
      GroupIsGuarded(policy, n.right, kind, need - i, known, gated, b);
      GuardedInterleaves(policy, known, gated, gated, a, b, t);
    } else {
      var a: Trace, b: Trace :| Runs(n.left, whole, a) && Runs(n.right, whole, b) && Interleaves(a, b, t);
      RunsAreGuarded(policy, n.left, known, gated, whole, a);
      RunsAreGuarded(policy, n.right, known, gated, whole, b);
      GuardedInterleaves(policy, known, gated, gated, a, b, t);
    }
  }

  lemma {:induction false} GroupIsGuarded(
    policy: Policy, n: Node, kind: MergeKind, need: nat, known: set<Event>, gated: bool, t: Trace)
    requires RunsOfGroup(n, kind, need, t)
    requires Found(Escaping(policy, n, gated)) <= known
    ensures Guarded(policy, known, gated, t)
    decreases n, 2, 0
  {
    if InGroup(n, kind) {
      var i, a, b := SplitGroupRun(n, kind, need, t);
      GroupIsGuarded(policy, n.left, kind, i, known, gated, a);
      GroupIsGuarded(policy, n.right, kind, need - i, known, gated, b);
      GuardedInterleaves(policy, known, gated, gated, a, b, t);
    } else {
      RunsAreGuarded(policy, n, known, gated, need == 1, t);
    }
  }

  lemma {:induction false} ItemsAreGuarded(
    policy: Policy, body: Node, known: set<Event>, gated: bool, whole: bool, count: nat, t: Trace)
    requires RunsOfItems(body, whole, count, t)
    requires Found(Escaping(policy, body, gated)) <= known
    ensures Guarded(policy, known, gated, t)
    decreases body, 2, count
  {
    if count > 0 {
      var a: Trace, b: Trace :|
        Runs(body, whole, a) && RunsOfItems(body, whole, count - 1, b) && Interleaves(a, b, t);
      RunsAreGuarded(policy, body, known, gated, whole, a);
      ItemsAreGuarded(policy, body, known, gated, whole, count - 1, b);
      GuardedInterleaves(policy, known, gated, gated, a, b, t);
    }
  }

  lemma {:induction false} RoundsAreGuarded(
    policy: Policy, body: Node, known: set<Event>, gated: bool, whole: bool, rounds: nat, t: Trace)
    requires RunsOfRounds(body, whole, rounds, t)
    requires Found(Escaping(policy, body, gated)) <= known
    ensures Guarded(policy, known, gated, t)
    decreases body, 2, rounds
  {
    if rounds > 0 && !whole && Runs(body, false, t) {
      RunsAreGuarded(policy, body, known, gated, false, t);
    } else if t != [] {
      var a: Trace, b: Trace :| t == a + b && Runs(body, true, a) && RunsOfRounds(body, whole, rounds - 1, b);
      RunsAreGuarded(policy, body, known, gated, true, a);
      RoundsAreGuarded(policy, body, known, gated, whole, rounds - 1, b);
      GuardedWeakens(policy, known, known, gated, gated || HasGate(a), b);
      GuardedConcat(policy, known, gated, a, b);
    }
  }

  /**
   With no call escaping, every run, complete or cut at any point, under any interleaving, branch
   choice, winner, item count and number of rounds of a loop, has a human gate before each call that needs approval.
   */
  lemma NothingEscapesUngated(policy: Policy, flow: Node, whole: bool, t: Trace, i: nat)
    requires Escaping(policy, flow, false) == []
    requires Runs(flow, whole, t) && i < |t| && NeedsApproval(policy, t[i])
    ensures HasGate(t[..i])
  {
    RunsAreGuarded(policy, flow, {}, false, whole, t);
    GuardedMeans(policy, {}, false, t, i);
  }

  // ----- where the check's verdict is the right one -----

  /** Wherever the walk counts on a node for a gate by `p`, `q` agrees. */
  predicate CountsAgree(n: Node, p: Node -> bool, q: Node -> bool)
    decreases n, 0
  {
    match n
    case Seq(left, right) => (p(left) ==> q(left)) && CountsAgree(left, p, q) && CountsAgree(right, p, q)
    case Par(_, left, right) => CountsAgree(left, p, q) && CountsAgree(right, p, q)
    case Alt(_, ifTrue, ifFalse) => CountsAgree(ifTrue, p, q) && CountsAgree(ifFalse, p, q)
    case Switch(_, cases, default) =>
      CaseCountsAgree(cases, p, q) && (default.Some? ==> CountsAgree(default.value, p, q))
    case Each(body, _, _) => CountsAgree(body, p, q)
    case IterUpTo(_, body, _) => CountsAgree(body, p, q)
    case EvalPlan(_, plan) => plan.Some? ==> CountsAgree(plan.value, p, q)
    case _ => true
  }

  predicate CaseCountsAgree(cases: seq<NodeCase>, p: Node -> bool, q: Node -> bool)
    decreases cases, 0
  {
    cases != [] ==> CountsAgree(cases[0].node, p, q) && CaseCountsAgree(cases[1..], p, q)
  }

  /** Every node the check counts on for a gate is sure to have one. */
  predicate CountedGatesAreSure(n: Node) {
    CountsAgree(n, AlwaysGates, SureGates)
  }

  /** Whatever a walk finds in the session loops of a node, it finds past a gate. */
  predicate LoopsGated(policy: Policy, gates: Node -> bool, n: Node, gated: bool)
    decreases n, 0
  {
    match n
    case Seq(left, right) =>
      LoopsGated(policy, gates, left, gated) && LoopsGated(policy, gates, right, gated || gates(left))
    case Par(_, left, right) => LoopsGated(policy, gates, left, gated) && LoopsGated(policy, gates, right, gated)
    case Alt(_, ifTrue, ifFalse) =>
      LoopsGated(policy, gates, ifTrue, gated) && LoopsGated(policy, gates, ifFalse, gated)
    case Switch(_, cases, default) =>
      CaseLoopsGated(policy, gates, cases, gated) && (default.Some? ==> LoopsGated(policy, gates, default.value, gated))
    case Each(body, _, _) => LoopsGated(policy, gates, body, gated)
    case IterUpTo(_, body, _) => LoopsGated(policy, gates, body, gated)
    case EvalPlan(_, plan) => plan.Some? ==> LoopsGated(policy, gates, plan.value, gated)
    case Loop(body) => Walked(policy, gates, true, body, gated) == []
    case _ => true
  }

  predicate CaseLoopsGated(policy: Policy, gates: Node -> bool, cases: seq<NodeCase>, gated: bool)
    decreases cases, 0
  {
    cases != [] ==> LoopsGated(policy, gates, cases[0].node, gated) && CaseLoopsGated(policy, gates, cases[1..], gated)
  }

  /** No call escapes from a session loop. */
  predicate NoLoopEscapes(policy: Policy, flow: Node) {
    LoopsGated(policy, SureGates, flow, false)
  }

  /** A walk finds no more than another that counts on fewer nodes for a gate, loops aside. */
  lemma {:induction false} MoreGatesReportLess(
    policy: Policy, n: Node, p: Node -> bool, q: Node -> bool, looksIn: bool, looks: bool, before: bool, after: bool)
    requires CountsAgree(n, p, q) && (before ==> after) && (looks ==> LoopsGated(policy, q, n, after))
    ensures Found(Walked(policy, q, looks, n, after)) <= Found(Walked(policy, p, looksIn, n, before))
    decreases n, 0
  {
    FoundConcat();
    match n {
      case Seq(left, right) =>
        MoreGatesReportLess(policy, left, p, q, looksIn, looks, before, after);
        MoreGatesReportLess(policy, right, p, q, looksIn, looks, before || p(left), after || q(left));
      case Par(_, left, right) =>
        MoreGatesReportLess(policy, left, p, q, looksIn, looks, before, after);
        MoreGatesReportLess(policy, right, p, q, looksIn, looks, before, after);
      case Alt(_, ifTrue, ifFalse) =>
        MoreGatesReportLess(policy, ifTrue, p, q, looksIn, looks, before, after);
        MoreGatesReportLess(policy, ifFalse, p, q, looksIn, looks, before, after);
      case Switch(_, cases, default) =>
        MoreCaseGatesReportLess(policy, cases, p, q, looksIn, looks, before, after);
        if default.Some? {
          MoreGatesReportLess(policy, default.value, p, q, looksIn, looks, before, after);
        }
      case Each(body, _, _) => MoreGatesReportLess(policy, body, p, q, looksIn, looks, before, after);
      case IterUpTo(_, body, _) => MoreGatesReportLess(policy, body, p, q, looksIn, looks, before, after);
      case EvalPlan(_, plan) =>
        if plan.Some? {
          MoreGatesReportLess(policy, plan.value, p, q, looksIn, looks, before, after);
        }
      case _ =>
    }
  }

  lemma {:induction false} MoreCaseGatesReportLess(
    policy: Policy, cases: seq<NodeCase>, p: Node -> bool, q: Node -> bool, looksIn: bool, looks: bool,
    before: bool, after: bool)
    requires CaseCountsAgree(cases, p, q) && (before ==> after) && (looks ==> CaseLoopsGated(policy, q, cases, after))
    ensures Found(WalkedCases(policy, q, looks, cases, after)) <= Found(WalkedCases(policy, p, looksIn, cases, before))
    decreases cases, 0
  {
    if cases != [] {
      MoreGatesReportLess(policy, cases[0].node, p, q, looksIn, looks, before, after);
      MoreCaseGatesReportLess(policy, cases[1..], p, q, looksIn, looks, before, after);
      FoundConcat();
    }
  }

  /**
   Approval safety: a flow the check passes is safe on every run if each node it counts on for a gate is
   sure to have one, that is, if every race counted on gates whichever of its branches win, and nothing
   escapes from the loops it does not look into.
   */
  lemma ApprovalSafety(policy: Policy, flow: Node, whole: bool, t: Trace, i: nat)
    requires CountedGatesAreSure(flow) && NoLoopEscapes(policy, flow) && Ungated(policy, flow, false) == []
    requires Runs(flow, whole, t) && i < |t| && NeedsApproval(policy, t[i])
    ensures HasGate(t[..i])
  {
    MoreGatesReportLess(policy, flow, AlwaysGates, SureGates, false, true, false, false);
    NothingFound(Escaping(policy, flow, false), Ungated(policy, flow, false));
    NothingEscapesUngated(policy, flow, whole, t, i);
  }

  lemma NothingFound(some: seq<Event>, all: seq<Event>)
    requires Found(some) <= Found(all)
    ensures some != [] ==> all != []
  {
    if some != [] {
      assert some[0] in Found(some);
    }
  }

  // ----- exactness -----

  /**
   Everything but plans made at run time and whole applications: calls, pures, sequences, joins and races of
   any kind, branches that have a case to take, items, loops, and iterations that may run at all.
   */
  predicate Exact(n: Node)
    decreases n, 0
  {
    match n
    case Prim(_, _) => true
    case Ident => true
    case Arr(_) => true
    case Seq(left, right) => Exact(left) && Exact(right)
    case Par(_, left, right) => Exact(left) && Exact(right)
    case Alt(_, ifTrue, ifFalse) => Exact(ifTrue) && Exact(ifFalse)
    case Switch(_, cases, default) => cases != [] && ExactCases(cases) && (default.Some? ==> Exact(default.value))
    case Each(body, _, _) => Exact(body)
    case IterUpTo(rounds, body, _) => rounds > 0 && Exact(body)
    case Loop(body) => Exact(body)
    case _ => false
  }

  predicate ExactCases(cases: seq<NodeCase>)
    decreases cases, 0
  {
    cases != [] ==> Exact(cases[0].node) && ExactCases(cases[1..])
  }

  lemma OneAfterTheOther(a: Trace, b: Trace)
    ensures Interleaves(a, b, a + b)
    decreases |a| + |b|
  {
    if a != [] {
      assert (a + b)[1..] == a[1..] + b;
      OneAfterTheOther(a[1..], b);
    } else if b != [] {
      assert a + b == b && a + b[1..] == b[1..];
      OneAfterTheOther(a, b[1..]);
    }
  }

  lemma GateConcat(a: Trace, b: Trace)
    ensures HasGate(a + b) <==> HasGate(a) || HasGate(b)
  {
    if HasGate(a) || HasGate(b) {
      var e :| (e in a || e in b) && IsGate(e);
      assert e in a + b;
    }
  }

  lemma {:induction false} RunsMayNotStart(n: Node)
    ensures Runs(n, false, [])
    decreases n, 0
  {
    match n {
      case Seq(left, right) => RunsMayNotStart(left);
      case Par(_, left, right) =>
        RunsMayNotStart(left);
        RunsMayNotStart(right);
        assert Interleaves([], [], []);
      case Each(body, _, _) => assert RunsOfItems(body, false, 0, []);
      case Loop(body) => assert RunsOfRounds(body, false, 0, []);
      case _ =>
    }
  }

  /** A node that is not sure to gate has a complete run with no gate. */
  lemma {:induction false} GatelessRun(n: Node) returns (t: Trace)
    requires Exact(n) && !SureGates(n)
    ensures Runs(n, true, t) && !HasGate(t)
    decreases n, 0
  {
    match n {
      case Prim(id, step) => t := [Event(id, step)];
      case Seq(left, right) =>
        var a := GatelessRun(left);
        var b := GatelessRun(right);
        t := a + b;
        GateConcat(a, b);
      case Par(merge, left, right) =>
        if IsAllPar(n) {
          var a := GatelessRun(left);
          var b := GatelessRun(right);
          t := a + b;
          OneAfterTheOther(a, b);
          GateConcat(a, b);
        } else {
          t := GatelessRaceRun(n);
        }
      case Alt(_, ifTrue, ifFalse) =>
        if SureGates(ifTrue) {
          t := GatelessRun(ifFalse);
        } else {
          t := GatelessRun(ifTrue);
        }
      case Switch(_, cases, default) =>
        if CasesSureGate(cases) {
          t := GatelessRun(default.value);
        } else {
          var i;
          i, t := GatelessCase(cases);
        }
      case Each(body, _, _) =>
        t := [];
        assert RunsOfItems(body, true, 0, []);
      case Loop(body) =>
        t := [];
        assert RunsOfRounds(body, false, 0, []);
      case _ => t := [];
    }
  }

  lemma {:induction false} GatelessRaceRun(n: Node) returns (t: Trace)
    requires Exact(n) && n.Par? && !IsAllPar(n) && !SureGates(n)
    ensures Runs(n, true, t) && !HasGate(t)
    decreases n, -1
  {
    var kind, need := n.merge.value.kind, Needed(n.merge.value);
    var i := if need < GatelessBranches(n.left, kind) then need else GatelessBranches(n.left, kind);
    var a := GatelessGroupRun(n.left, kind, i);
    var b := GatelessGroupRun(n.right, kind, need - i);
    t := a + b;
    OneAfterTheOther(a, b);
    GateConcat(a, b);
    RaceRuns(n, i, a, b, t);
  }

  /** As many branches of a group as can do without a gate may be the ones that succeed. */
  lemma {:induction false} GatelessGroupRun(n: Node, kind: MergeKind, need: nat) returns (t: Trace)
    requires Exact(n) && need <= GatelessBranches(n, kind)
    ensures RunsOfGroup(n, kind, need, t) && !HasGate(t)
    decreases n, 2
  {
    if InGroup(n, kind) {
      var i := if need < GatelessBranches(n.left, kind) then need else GatelessBranches(n.left, kind);
      var a := GatelessGroupRun(n.left, kind, i);
      var b := GatelessGroupRun(n.right, kind, need - i);
      t := a + b;
      OneAfterTheOther(a, b);
      GateConcat(a, b);
      GroupRuns(n, kind, need, i, a, b, t);
    } else {
      t := GatelessBranchRun(n, kind, need);
    }
  }

  lemma {:induction false} GatelessBranchRun(n: Node, kind: MergeKind, need: nat) returns (t: Trace)
    requires Exact(n) && !InGroup(n, kind) && need <= (if SureGates(n) then 0 else 1)
    ensures RunsOfGroup(n, kind, need, t) && !HasGate(t)
    decreases n, 1
  {
    if need == 1 {
      t := GatelessRun(n);
    } else {
      RunsMayNotStart(n);
      t := [];
    }
  }

  lemma RaceRuns(n: Node, i: nat, a: Trace, b: Trace, t: Trace)
    requires n.Par? && !IsAllPar(n) && i <= Needed(n.merge.value) && Interleaves(a, b, t)
    requires RunsOfGroup(n.left, n.merge.value.kind, i, a)
    requires RunsOfGroup(n.right, n.merge.value.kind, Needed(n.merge.value) - i, b)
    ensures Runs(n, true, t)
  {
  }

  lemma GroupRuns(n: Node, kind: MergeKind, need: nat, i: nat, a: Trace, b: Trace, t: Trace)
    requires InGroup(n, kind) && i <= need && Interleaves(a, b, t)
    requires RunsOfGroup(n.left, kind, i, a) && RunsOfGroup(n.right, kind, need - i, b)
    ensures RunsOfGroup(n, kind, need, t)
  {
  }

  lemma {:induction false} GatelessCase(cases: seq<NodeCase>) returns (i: nat, t: Trace)
    requires ExactCases(cases) && !CasesSureGate(cases)
    ensures i < |cases| && Runs(cases[i].node, true, t) && !HasGate(t)
    decreases cases, 0
  {
    if SureGates(cases[0].node) {
      i, t := GatelessCase(cases[1..]);
      i := i + 1;
    } else {
      t := GatelessRun(cases[0].node);
      i := 0;
    }
  }

  /** The corrected verdict is exact: a node is sure to gate if and only if each of its complete runs has a gate. */
  lemma SureGatesIsExact(n: Node)
    requires Exact(n)
    ensures SureGates(n) <==> forall t: Trace :: Runs(n, true, t) ==> HasGate(t)
  {
    if SureGates(n) {
      forall t: Trace | Runs(n, true, t) ensures HasGate(t) {
        SureGatesHappen(n, t);
      }
    } else {
      var t := GatelessRun(n);
    }
  }

  lemma {:induction false} NothingFoundPastAGate(policy: Policy, gates: Node -> bool, loops: bool, n: Node)
    ensures Walked(policy, gates, loops, n, true) == []
    decreases n, 0
  {
    match n {
      case Seq(left, right) =>
        NothingFoundPastAGate(policy, gates, loops, left);
        NothingFoundPastAGate(policy, gates, loops, right);
      case Par(_, left, right) =>
        NothingFoundPastAGate(policy, gates, loops, left);
        NothingFoundPastAGate(policy, gates, loops, right);
      case Alt(_, ifTrue, ifFalse) =>
        NothingFoundPastAGate(policy, gates, loops, ifTrue);
        NothingFoundPastAGate(policy, gates, loops, ifFalse);
      case Switch(_, cases, default) =>
        NoCaseFoundPastAGate(policy, gates, loops, cases);
        if default.Some? {
          NothingFoundPastAGate(policy, gates, loops, default.value);
        }
      case Each(body, _, _) => NothingFoundPastAGate(policy, gates, loops, body);
      case IterUpTo(_, body, _) => NothingFoundPastAGate(policy, gates, loops, body);
      case EvalPlan(_, plan) =>
        if plan.Some? {
          NothingFoundPastAGate(policy, gates, loops, plan.value);
        }
      case Loop(body) => NothingFoundPastAGate(policy, gates, loops, body);
      case _ =>
    }
  }

  lemma {:induction false} NoCaseFoundPastAGate(policy: Policy, gates: Node -> bool, loops: bool, cases: seq<NodeCase>)
    ensures WalkedCases(policy, gates, loops, cases, true) == []
    decreases cases, 0
  {
    if cases != [] {
      NothingFoundPastAGate(policy, gates, loops, cases[0].node);
      NoCaseFoundPastAGate(policy, gates, loops, cases[1..]);
    }
  }

  lemma RightRuns(n: Node, a: Trace, b: Trace)
    requires n.Seq? && Runs(n.left, true, a) && Runs(n.right, false, b)
    ensures Runs(n, false, a + b)
  {
  }

  /** One branch may run while the other has yet to start. */
  lemma OneSideRuns(n: Node, t: Trace)
    requires n.Par? && (Runs(n.left, false, t) || Runs(n.right, false, t))
    ensures Runs(n, false, t)
  {
    if Runs(n.left, false, t) {
      RunsMayNotStart(n.right);
      OneAfterTheOther(t, []);
      assert t + [] == t;
    } else {
      RunsMayNotStart(n.left);
      OneAfterTheOther([], t);
      assert [] + t == t;
    }
  }

  lemma OneRoundRuns(body: Node, rounds: nat, t: Trace)
    requires Runs(body, false, t) && rounds > 0
    ensures RunsOfRounds(body, false, rounds, t)
  {
  }

  lemma OneItemRuns(body: Node, t: Trace)
    requires Runs(body, false, t)
    ensures RunsOfItems(body, false, 1, t)
  {
    OneAfterTheOther(t, []);
    assert t + [] == t;
    assert RunsOfItems(body, false, 1 - 1, []);
  }

  /** A call that escapes is reached by some run that has passed no gate. */
  lemma {:induction false} EscapingIsReached(policy: Policy, n: Node, e: Event) returns (t: Trace)
    requires Exact(n) && e in Escaping(policy, n, false)
    ensures Runs(n, false, t + [e]) && !HasGate(t) && NeedsApproval(policy, e)
    decreases n, 0
  {
    match n {
      case Prim(id, step) => t := []; assert t + [e] == [e];
      case Seq(left, right) =>
        if e in Escaping(policy, left, false) {
          t := EscapingIsReached(policy, left, e);
        } else {
          NothingFoundPastAGate(policy, SureGates, true, right);
          var a := GatelessRun(left);
          var b := EscapingIsReached(policy, right, e);
          t := a + b;
          GateConcat(a, b);
          RightRuns(n, a, b + [e]);
          assert t + [e] == a + (b + [e]);
        }
      case Par(_, left, right) =>
        if e in Escaping(policy, left, false) {
          t := EscapingIsReached(policy, left, e);
        } else {
          t := EscapingIsReached(policy, right, e);
        }
        OneSideRuns(n, t + [e]);
      case Alt(_, ifTrue, ifFalse) =>
        if e in Escaping(policy, ifTrue, false) {
          t := EscapingIsReached(policy, ifTrue, e);
        } else {
          t := EscapingIsReached(policy, ifFalse, e);
        }
      case Switch(_, cases, default) =>
        if e in WalkedCases(policy, SureGates, true, cases, false) {
          var i;
          i, t := EscapingCase(policy, cases, e);
        } else {
          t := EscapingIsReached(policy, default.value, e);
        }
      case Each(body, _, _) =>
        t := EscapingIsReached(policy, body, e);
        OneItemRuns(body, t + [e]);
      case IterUpTo(rounds, body, _) =>
        t := EscapingIsReached(policy, body, e);
        OneRoundRuns(body, rounds, t + [e]);
      case Loop(body) =>
        t := EscapingIsReached(policy, body, e);
        OneRoundRuns(body, 1, t + [e]);
    }
  }

  lemma {:induction false} EscapingCase(policy: Policy, cases: seq<NodeCase>, e: Event) returns (i: nat, t: Trace)
    requires ExactCases(cases) && e in WalkedCases(policy, SureGates, true, cases, false)
    ensures i < |cases| && Runs(cases[i].node, false, t + [e]) && !HasGate(t) && NeedsApproval(policy, e)
    decreases cases, 0
  {
    if e in Escaping(policy, cases[0].node, false) {
      t := EscapingIsReached(policy, cases[0].node, e);
      i := 0;
    } else {
      i, t := EscapingCase(policy, cases[1..], e);
      i := i + 1;
    }
  }

  /** Some run reaches the call, which needs approval, past no gate. */
  ghost predicate ReachedUngated(policy: Policy, flow: Node, e: Event) {
    NeedsApproval(policy, e) && exists t: Trace :: Runs(flow, false, t + [e]) && !HasGate(t)
  }

  /** The corrected walk is exact: a call escapes if and only if some run reaches it ungated. */
  lemma EscapingIsExact(policy: Policy, flow: Node, e: Event)
    requires Exact(flow)
    ensures e in Escaping(policy, flow, false) <==> ReachedUngated(policy, flow, e)
  {
    if e in Escaping(policy, flow, false) {
      var t := EscapingIsReached(policy, flow, e);
    }
    if ReachedUngated(policy, flow, e) {
      var t: Trace :| Runs(flow, false, t + [e]) && !HasGate(t);
      var known := Found(Escaping(policy, flow, false));
      RunsAreGuarded(policy, flow, known, false, false, t + [e]);
      if e !in known {
        assert (t + [e])[|t|] == e && (t + [e])[..|t|] == t;
        GuardedMeans(policy, known, false, t + [e], |t|);
      }
    }
  }

  // ----- the check against the corrected walk -----

  /** No quorum asks for more branches than it has, as its constructor sees to. */
  predicate QuorumsCanSettle(n: Node)
    decreases n, 0
  {
    match n
    case Seq(left, right) => QuorumsCanSettle(left) && QuorumsCanSettle(right)
    case Par(merge, left, right) =>
      if IsAllPar(n) then QuorumsCanSettle(left) && QuorumsCanSettle(right)
      else
        && GroupCanSettle(left, merge.value.kind) && GroupCanSettle(right, merge.value.kind)
        && Needed(merge.value) <= BranchCount(left, merge.value.kind) + BranchCount(right, merge.value.kind)
    case Alt(_, ifTrue, ifFalse) => QuorumsCanSettle(ifTrue) && QuorumsCanSettle(ifFalse)
    case Switch(_, cases, default) =>
      CaseQuorumsCanSettle(cases) && (default.Some? ==> QuorumsCanSettle(default.value))
    case Each(body, _, _) => QuorumsCanSettle(body)
    case IterUpTo(_, body, _) => QuorumsCanSettle(body)
    case EvalPlan(_, plan) => plan.Some? ==> QuorumsCanSettle(plan.value)
    case _ => true
  }

  predicate GroupCanSettle(n: Node, kind: MergeKind)
    decreases n, 1
  {
    if InGroup(n, kind) then GroupCanSettle(n.left, kind) && GroupCanSettle(n.right, kind) else QuorumsCanSettle(n)
  }

  predicate CaseQuorumsCanSettle(cases: seq<NodeCase>)
    decreases cases, 0
  {
    cases != [] ==> QuorumsCanSettle(cases[0].node) && CaseQuorumsCanSettle(cases[1..])
  }

  function BranchCount(n: Node, kind: MergeKind): (count: nat)
    ensures count > 0
  {
    if InGroup(n, kind) then BranchCount(n.left, kind) + BranchCount(n.right, kind) else 1
  }

  /** What is sure to gate the check takes to gate. */
  lemma {:induction false} SureGatesAreCounted(n: Node)
    requires QuorumsCanSettle(n) && SureGates(n)
    ensures AlwaysGates(n)
    decreases n, 0
  {
    match n {
      case Seq(left, right) =>
        if SureGates(left) {
          SureGatesAreCounted(left);
        } else {
          SureGatesAreCounted(right);
        }
      case Par(merge, left, right) =>
        if IsAllPar(n) {
          if SureGates(left) {
            SureGatesAreCounted(left);
          } else {
            SureGatesAreCounted(right);
          }
        } else if GatelessBranches(left, merge.value.kind) < BranchCount(left, merge.value.kind) {
          SureBranchIsCounted(left, merge.value.kind);
        } else {
          SureBranchIsCounted(right, merge.value.kind);
        }
      case Alt(_, ifTrue, ifFalse) => SureGatesAreCounted(ifTrue); SureGatesAreCounted(ifFalse);
      case Switch(_, cases, default) =>
        SureCasesAreCounted(cases);
        if default.Some? {
          SureGatesAreCounted(default.value);
        }
      case _ =>
    }
  }

  lemma {:induction false} SureCasesAreCounted(cases: seq<NodeCase>)
    requires CaseQuorumsCanSettle(cases) && CasesSureGate(cases)
    ensures CasesAlwaysGate(cases)
    decreases cases, 0
  {
    if cases != [] {
      SureGatesAreCounted(cases[0].node);
      SureCasesAreCounted(cases[1..]);
    }
  }
  lemma {:induction false} SureBranchIsCounted(n: Node, kind: MergeKind)
    requires GroupCanSettle(n, kind) && GatelessBranches(n, kind) < BranchCount(n, kind)
    ensures AlwaysGates(n)
    decreases n, 1
  {
    if !InGroup(n, kind) {
      SureGatesAreCounted(n);
    } else if GatelessBranches(n.left, kind) < BranchCount(n.left, kind) {
      SureBranchIsCounted(n.left, kind);
    } else {
      SureBranchIsCounted(n.right, kind);
    }
  }

  lemma {:induction false} SureCountsAgree(n: Node)
    requires QuorumsCanSettle(n)
    ensures CountsAgree(n, SureGates, AlwaysGates)
    decreases n, 0
  {
    match n {
      case Seq(left, right) =>
        SureCountsAgree(left);
        SureCountsAgree(right);
        if SureGates(left) {
          SureGatesAreCounted(left);
        }
      case Par(merge, left, right) =>
        if IsAllPar(n) {
          SureCountsAgree(left);
          SureCountsAgree(right);
        } else {
          SureGroupCountsAgree(left, merge.value.kind);
          SureGroupCountsAgree(right, merge.value.kind);
        }
      case Alt(_, ifTrue, ifFalse) => SureCountsAgree(ifTrue); SureCountsAgree(ifFalse);
      case Switch(_, cases, default) =>
        SureCaseCountsAgree(cases);
        if default.Some? {
          SureCountsAgree(default.value);
        }
      case Each(body, _, _) => SureCountsAgree(body);
      case IterUpTo(_, body, _) => SureCountsAgree(body);
      case EvalPlan(_, plan) =>
        if plan.Some? {
          SureCountsAgree(plan.value);
        }
      case _ =>
    }
  }

  lemma {:induction false} SureGroupCountsAgree(n: Node, kind: MergeKind)
    requires GroupCanSettle(n, kind)
    ensures CountsAgree(n, SureGates, AlwaysGates)
    decreases n, 1
  {
    if InGroup(n, kind) {
      SureGroupCountsAgree(n.left, kind);
      SureGroupCountsAgree(n.right, kind);
    } else {
      SureCountsAgree(n);
    }
  }

  lemma {:induction false} SureCaseCountsAgree(cases: seq<NodeCase>)
    requires CaseQuorumsCanSettle(cases)
    ensures CaseCountsAgree(cases, SureGates, AlwaysGates)
    decreases cases, 0
  {
    if cases != [] {
      SureCountsAgree(cases[0].node);
      SureCaseCountsAgree(cases[1..]);
    }
  }

  /**
   What the check gets wrong, exactly: what it reports is always real, and the calls it misses, reached
   ungated by some run, are those the corrected walk reports and the check does not.
   */
  lemma MissedCallsAreExact(policy: Policy, flow: Node, e: Event)
    requires Exact(flow) && QuorumsCanSettle(flow)
    ensures e in Ungated(policy, flow, false) ==> ReachedUngated(policy, flow, e)
    ensures ReachedUngated(policy, flow, e) && e !in Ungated(policy, flow, false) <==>
            e in Escaping(policy, flow, false) && e !in Ungated(policy, flow, false)
  {
    EscapingIsExact(policy, flow, e);
    SureCountsAgree(flow);
    MoreGatesReportLess(policy, flow, SureGates, AlwaysGates, true, false, false, false);
    assert e in Ungated(policy, flow, false) ==> e in Found(Ungated(policy, flow, false));
  }

  /**
   Where each node the check counts on for a gate is sure to have one, and no call escapes from a loop, its
   reports are exact.
   */
  lemma CheckIsExact(policy: Policy, flow: Node, e: Event)
    requires Exact(flow) && QuorumsCanSettle(flow) && CountedGatesAreSure(flow) && NoLoopEscapes(policy, flow)
    ensures e in Ungated(policy, flow, false) <==> ReachedUngated(policy, flow, e)
  {
    MissedCallsAreExact(policy, flow, e);
    MoreGatesReportLess(policy, flow, AlwaysGates, SureGates, false, true, false, false);
    if e in Escaping(policy, flow, false) {
      assert e in Found(Escaping(policy, flow, false));
    }
  }

  /** Every `par` waits for all its branches. */
  predicate RaceFree(n: Node)
    decreases n, 0
  {
    match n
    case Seq(left, right) => RaceFree(left) && RaceFree(right)
    case Par(_, left, right) => IsAllPar(n) && RaceFree(left) && RaceFree(right)
    case Alt(_, ifTrue, ifFalse) => RaceFree(ifTrue) && RaceFree(ifFalse)
    case Switch(_, cases, default) => CasesRaceFree(cases) && (default.Some? ==> RaceFree(default.value))
    case Each(body, _, _) => RaceFree(body)
    case IterUpTo(_, body, _) => RaceFree(body)
    case EvalPlan(_, plan) => plan.Some? ==> RaceFree(plan.value)
    case _ => true
  }

  predicate CasesRaceFree(cases: seq<NodeCase>)
    decreases cases, 0
  {
    cases != [] ==> RaceFree(cases[0].node) && CasesRaceFree(cases[1..])
  }

  /** Without races the check's verdict needs no correction, and so neither do its reports. */
  lemma {:induction false} RaceFreeNeedsNoCorrection(n: Node)
    requires RaceFree(n)
    ensures (AlwaysGates(n) <==> SureGates(n)) && CountedGatesAreSure(n) && QuorumsCanSettle(n)
    decreases n, 0
  {
    match n {
      case Seq(left, right) => RaceFreeNeedsNoCorrection(left); RaceFreeNeedsNoCorrection(right);
      case Par(_, left, right) => RaceFreeNeedsNoCorrection(left); RaceFreeNeedsNoCorrection(right);
      case Alt(_, ifTrue, ifFalse) => RaceFreeNeedsNoCorrection(ifTrue); RaceFreeNeedsNoCorrection(ifFalse);
      case Switch(_, cases, default) =>
        RaceFreeCasesNeedNoCorrection(cases);
        if default.Some? {
          RaceFreeNeedsNoCorrection(default.value);
        }
      case Each(body, _, _) => RaceFreeNeedsNoCorrection(body);
      case IterUpTo(_, body, _) => RaceFreeNeedsNoCorrection(body);
      case EvalPlan(_, plan) =>
        if plan.Some? {
          RaceFreeNeedsNoCorrection(plan.value);
        }
      case _ =>
    }
  }

  lemma {:induction false} RaceFreeCasesNeedNoCorrection(cases: seq<NodeCase>)
    requires CasesRaceFree(cases)
    ensures CasesAlwaysGate(cases) <==> CasesSureGate(cases)
    ensures CaseCountsAgree(cases, AlwaysGates, SureGates) && CaseQuorumsCanSettle(cases)
    decreases cases, 0
  {
    if cases != [] {
      RaceFreeNeedsNoCorrection(cases[0].node);
      RaceFreeCasesNeedNoCorrection(cases[1..]);
    }
  }

  /** Without races the check's own verdict is exact. */
  lemma AlwaysGatesIsExact(n: Node)
    requires Exact(n) && RaceFree(n)
    ensures AlwaysGates(n) <==> forall t: Trace :: Runs(n, true, t) ==> HasGate(t)
  {
    RaceFreeNeedsNoCorrection(n);
    SureGatesIsExact(n);
  }

  // ----- where the check falls short -----

  function AsNode(e: Event): Node {
    Prim(e.id, e.step)
  }

  function RaceOf(a: Node, b: Node): Node {
    Par(Some(Merge(Race, None, None, None)), a, b)
  }

  /** A race that includes a gate is counted as gating, yet another branch may win it. */
  lemma RacesDefeatTheCheck(policy: Policy, gate: Event, fast: Event, danger: Event)
    requires IsGate(gate) && !IsGate(fast) && NeedsApproval(policy, danger) && !NeedsApproval(policy, fast)
    ensures var flow := Seq(RaceOf(AsNode(gate), AsNode(fast)), AsNode(danger));
            && Ungated(policy, flow, false) == []
            && Runs(flow, true, [fast, danger]) && !HasGate([fast])
  {
    var race := RaceOf(AsNode(gate), AsNode(fast));
    assert AlwaysGates(AsNode(gate)) && AlwaysGates(race);
    assert Ungated(policy, AsNode(gate), false) == [] && Ungated(policy, AsNode(fast), false) == [];
    assert Ungated(policy, AsNode(danger), true) == [] && Ungated(policy, race, false) == [];
    assert RunsOfGroup(AsNode(gate), Race, 0, []) && RunsOfGroup(AsNode(fast), Race, 1 - 0, [fast]);
    assert Runs(AsNode(danger), true, [danger]);
    OneAfterTheOther([], [fast]);
    assert [] + [fast] == [fast];
    assert Runs(race, true, [fast]);
    assert [fast, danger] == [fast] + [danger];
  }

  lemma {:induction false} LoopsPastAGate(policy: Policy, gates: Node -> bool, n: Node)
    ensures LoopsGated(policy, gates, n, true)
    decreases n, 0
  {
    match n {
      case Seq(left, right) => LoopsPastAGate(policy, gates, left); LoopsPastAGate(policy, gates, right);
      case Par(_, left, right) => LoopsPastAGate(policy, gates, left); LoopsPastAGate(policy, gates, right);
      case Alt(_, ifTrue, ifFalse) => LoopsPastAGate(policy, gates, ifTrue); LoopsPastAGate(policy, gates, ifFalse);
      case Switch(_, cases, default) =>
        CaseLoopsPastAGate(policy, gates, cases);
        if default.Some? {
          LoopsPastAGate(policy, gates, default.value);
        }
      case Each(body, _, _) => LoopsPastAGate(policy, gates, body);
      case IterUpTo(_, body, _) => LoopsPastAGate(policy, gates, body);
      case EvalPlan(_, plan) =>
        if plan.Some? {
          LoopsPastAGate(policy, gates, plan.value);
        }
      case Loop(body) => NothingFoundPastAGate(policy, gates, true, body);
      case _ =>
    }
  }

  lemma {:induction false} CaseLoopsPastAGate(policy: Policy, gates: Node -> bool, cases: seq<NodeCase>)
    ensures CaseLoopsGated(policy, gates, cases, true)
    decreases cases, 0
  {
    if cases != [] {
      LoopsPastAGate(policy, gates, cases[0].node);
      CaseLoopsPastAGate(policy, gates, cases[1..]);
    }
  }

  /** A race each of whose branches gates is rightly counted on: whichever wins has passed a gate. */
  lemma RacesOfGatesAreSound(policy: Policy, gate: Event, a: Node, b: Node, danger: Event)
    requires IsGate(gate) && NeedsApproval(policy, danger)
    requires CountedGatesAreSure(a) && CountedGatesAreSure(b)
    ensures var flow := Seq(RaceOf(Seq(AsNode(gate), a), Seq(AsNode(gate), b)), AsNode(danger));
            Ungated(policy, flow, false) == [] && CountedGatesAreSure(flow) && NoLoopEscapes(policy, flow)
  {
    var left, right := Seq(AsNode(gate), a), Seq(AsNode(gate), b);
    NothingFoundPastAGate(policy, AlwaysGates, false, a);
    NothingFoundPastAGate(policy, AlwaysGates, false, b);
    assert AlwaysGates(AsNode(gate)) && SureGates(AsNode(gate)) && SureGates(left) && SureGates(right);
    assert GatelessBranches(left, Race) == 0 && GatelessBranches(right, Race) == 0;
    assert SureGates(RaceOf(left, right)) && AlwaysGates(left) && AlwaysGates(RaceOf(left, right));
    assert Ungated(policy, AsNode(gate), false) == [] && Ungated(policy, AsNode(danger), true) == [];
    assert Ungated(policy, left, false) == [] && Ungated(policy, right, false) == [];
    assert Ungated(policy, RaceOf(left, right), false) == [];
    assert CountsAgree(AsNode(gate), AlwaysGates, SureGates) && CountsAgree(AsNode(danger), AlwaysGates, SureGates);
    assert CountsAgree(left, AlwaysGates, SureGates) && CountsAgree(right, AlwaysGates, SureGates);
    assert CountsAgree(RaceOf(left, right), AlwaysGates, SureGates);
    LoopsPastAGate(policy, SureGates, a);
    LoopsPastAGate(policy, SureGates, b);
    assert LoopsGated(policy, SureGates, AsNode(gate), false) && LoopsGated(policy, SureGates, AsNode(danger), true);
    assert LoopsGated(policy, SureGates, left, false) && LoopsGated(policy, SureGates, right, false);
    assert LoopsGated(policy, SureGates, RaceOf(left, right), false);
  }

  /**
   A session loop's body is not walked: the check reports nothing in it, yet a run of the loop reaches
   ungated exactly the calls a run of its body does.
   */
  lemma LoopsAreNotChecked(policy: Policy, body: Node, e: Event)
    requires Exact(body)
    ensures Ungated(policy, Loop(body), false) == []
    ensures ReachedUngated(policy, Loop(body), e) <==> ReachedUngated(policy, body, e)
    ensures ReachedUngated(policy, Loop(body), e) <==> e in Escaping(policy, body, false)
  {
    assert Escaping(policy, Loop(body), false) == Escaping(policy, body, false);
    EscapingIsExact(policy, Loop(body), e);
    EscapingIsExact(policy, body, e);
  }

  /** The plainest such flow: a call that needs approval, in a loop. */
  lemma LoopHidesACall(policy: Policy, danger: Event)
    requires NeedsApproval(policy, danger)
    ensures Ungated(policy, Loop(AsNode(danger)), false) == [] && ReachedUngated(policy, Loop(AsNode(danger)), danger)
  {
    assert Escaping(policy, AsNode(danger), false) == [danger];
    LoopsAreNotChecked(policy, AsNode(danger), danger);
  }
}
