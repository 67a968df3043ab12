/** Frozen tool contracts, which the static analyses consult. */
module Manifests {
  import opened Values
  import opened Ir

  datatype ToolEffect = ReadOnly | Writes | External | Dangerous

  datatype Idempotency = Required | Native | BestEffort | NoGuarantee

  /** A tool as freezing bound it: its contract, and whether the contract was asserted or only hinted. */
  datatype FrozenTool = FrozenTool(effect: ToolEffect, idempotency: Idempotency, asserted: bool)

  type Manifest = map<string, FrozenTool>

  const HUMAN_GATE := "__human_gate__"

  function Lookup(manifest: Manifest, hash: Option<string>): Option<FrozenTool> {
    if hash.Some? && hash.value in manifest then Some(manifest[hash.value]) else None
  }

  /** One call, reasoner or sub-flow of a flow. */
  datatype Event = Event(id: string, step: PrimStep)

  /** Every call, reasoner and sub-flow in a tree, in pre-order. */
  function Prims(n: Node): seq<Event>
    decreases n, 0
  {
    match n
    case Prim(id, step) => [Event(id, step)]
    case Seq(left, right) => Prims(left) + Prims(right)
    case Par(_, left, right) => Prims(left) + Prims(right)
    case Alt(_, ifTrue, ifFalse) => Prims(ifTrue) + Prims(ifFalse)
    case Switch(_, cases, default) => CasePrims(cases) + (if default.Some? then Prims(default.value) else [])
    case Each(body, _, _) => Prims(body)
    case IterUpTo(_, body, _) => Prims(body)
    case EvalPlan(_, plan) => if plan.Some? then Prims(plan.value) else []
    case Loop(body) => Prims(body)
    case _ => []
  }

  function CasePrims(cases: seq<NodeCase>): seq<Event>
    decreases cases, 0
  {
    if cases == [] then [] else Prims(cases[0].node) + CasePrims(cases[1..])
  }

  lemma CasePrimsOf(cases: seq<NodeCase>, i: nat)
    requires i < |cases|
    ensures forall e :: e in Prims(cases[i].node) ==> e in CasePrims(cases)
  {
    if i > 0 {
      CasePrimsOf(cases[1..], i - 1);
    }
  }
}
