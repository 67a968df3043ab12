/** How the node constructors evaluate: chains run as lists, groups of branches as batches. */
module ExecFacts {
  import opened Values
  import opened Ir

  function ExecList(h: Host, nodes: seq<Node>, v: Value, log: Log): Outcome {
    if nodes == [] then Done(v, log)
    else
      var first := Exec(h, nodes[0], v, log);
      if first.Done? then ExecList(h, nodes[1..], first.value, first.log) else first
  }

  function ExecBranches(h: Host, nodes: seq<Node>, v: Value, log: Log): Batch {
    if nodes == [] then Batch([], log)
    else
      var first := Single(Exec(h, nodes[0], v, log));
      if first.Batch? then Joined(first, ExecBranches(h, nodes[1..], v, first.log)) else first
  }

  lemma ExecListConcat(h: Host, a: seq<Node>, b: seq<Node>, v: Value, log: Log)
    ensures ExecList(h, a + b, v, log) ==
            var first := ExecList(h, a, v, log); if first.Done? then ExecList(h, b, first.value, first.log) else first
  {
    if a == [] {
      assert a + b == b;
    } else {
      assert (a + b)[1..] == a[1..] + b;
    }
  }

  lemma ExecBranchesConcat(h: Host, a: seq<Node>, b: seq<Node>, v: Value, log: Log)
    ensures ExecBranches(h, a + b, v, log) ==
            var first := ExecBranches(h, a, v, log);
            if first.Batch? then Joined(first, ExecBranches(h, b, v, first.log)) else first
  {
    if a == [] {
      assert a + b == b;
      var rest := ExecBranches(h, b, v, log);
      if rest.Batch? {
        assert [] + rest.values == rest.values;
      }
    } else {
      assert (a + b)[1..] == a[1..] + b;
      var first := Single(Exec(h, a[0], v, log));
      if first.Batch? {
        ExecBranchesConcat(h, a[1..], b, v, first.log);
        var middle := ExecBranches(h, a[1..], v, first.log);
        if middle.Batch? {
          var rest := ExecBranches(h, b, v, middle.log);
          if rest.Batch? {
            assert first.values + (middle.values + rest.values) == (first.values + middle.values) + rest.values;
          }
        }
      }
    }
  }

  lemma ExecOne(h: Host, n: Node, v: Value, log: Log)
    ensures ExecList(h, [n], v, log) == Exec(h, n, v, log)
  {
  }

  lemma ExecCons(h: Host, n: Node, rest: seq<Node>, v: Value, log: Log)
    ensures ExecList(h, [n] + rest, v, log) ==
            var first := Exec(h, n, v, log); if first.Done? then ExecList(h, rest, first.value, first.log) else first
  {
    assert ([n] + rest)[1..] == rest;
  }

  lemma {:induction false} ExecChain(h: Host, nodes: seq<Node>, v: Value, log: Log)
    requires nodes != []
    ensures Exec(h, Chain(nodes), v, log) == ExecList(h, nodes, v, log)
    decreases |nodes|
  {
    var last := |nodes| - 1;
    if last == 0 {
      assert nodes == [nodes[0]];
      ExecOne(h, nodes[0], v, log);
    } else {
      assert nodes == nodes[..last] + [nodes[last]];
      ExecChain(h, nodes[..last], v, log);
      ExecListConcat(h, nodes[..last], [nodes[last]], v, log);
      var first := ExecList(h, nodes[..last], v, log);
      if first.Done? {
        ExecOne(h, nodes[last], first.value, first.log);
      }
    }
  }

  lemma {:induction false} ExecSeqItems(h: Host, n: Node, v: Value, log: Log)
    ensures ExecList(h, SeqItems(n), v, log) == Exec(h, n, v, log)
    decreases n
  {
    if n.Seq? {
      ExecSeqItems(h, n.left, v, log);
      ExecListConcat(h, SeqItems(n.left), SeqItems(n.right), v, log);
      var first := Exec(h, n.left, v, log);
      if first.Done? {
        ExecSeqItems(h, n.right, first.value, first.log);
      }
    } else {
      ExecOne(h, n, v, log);
    }
  }

  /** A pack of single fields copies them; it fails when one is absent. */
  lemma PackFields(v: Value, selectors: map<string, Selector>, fields: set<string>)
    requires selectors == map f | f in fields :: Field(f)
    ensures Pack(v, selectors) ==
            if fields == {} then Some(Rec(map[]))
            else if v.Rec? && fields <= v.fields.Keys then Some(Rec(Restrict(v.fields, fields)))
            else None
  {
    if fields == {} {
      assert selectors.Keys == {};
      assert Pack(v, selectors).Some? && Pack(v, selectors).value.fields.Keys == {};
    } else if v.Rec? && fields <= v.fields.Keys {
      forall f | f in selectors ensures Select(v, selectors[f]) == Some(v.fields[f]) {
        assert selectors[f] == Field(f);
      }
      assert (map f | f in selectors :: Select(v, selectors[f]).value) == Restrict(v.fields, fields);
    } else {
      var f :| f in fields && !(v.Rec? && f in v.fields);
      assert f in selectors && selectors[f] == Field(f);
      assert Select(v, selectors[f]).None?;
    }
  }

  lemma ExecPrune(h: Host, fields: set<string>, env: Env, log: Log)
    requires fields <= env.Keys
    ensures Exec(h, Prune(fields), Rec(env), log) == Done(Rec(Restrict(env, fields)), log)
  {
    PackFields(Rec(env), map f | f in fields :: Field(f), fields);
    if fields == {} {
      assert Restrict(env, fields) == map[];
    }
  }

  lemma ExecCollapsible(h: Host, first: Node, second: Node, v: Value, log: Log)
    requires Collapsible(first, second)
    ensures ExecList(h, [first, second], v, log) == Exec(h, second, v, log)
  {
    var key := second.fn.key;
    var selectors := map[key := Field(key)];
    assert selectors == map f | f in {key} :: Field(f);
    PackFields(v, selectors, {key});
    ExecCons(h, first, [second], v, log);
    var packed := Exec(h, first, v, log);
    if packed.Done? {
      ExecOne(h, second, packed.value, packed.log);
    }
    assert [first] + [second] == [first, second];
  }

  lemma {:induction false} ExecCollapse(h: Host, nodes: seq<Node>, v: Value, log: Log)
    ensures ExecList(h, Collapse(nodes), v, log) == ExecList(h, nodes, v, log)
    decreases |nodes|
  {
    if |nodes| >= 2 {
      if Collapsible(nodes[0], nodes[1]) {
        assert nodes == [nodes[0], nodes[1]] + nodes[2..];
        ExecListConcat(h, [nodes[0], nodes[1]], nodes[2..], v, log);
        ExecCollapsible(h, nodes[0], nodes[1], v, log);
        ExecCons(h, nodes[1], Collapse(nodes[2..]), v, log);
        var first := Exec(h, nodes[1], v, log);
        if first.Done? {
          ExecCollapse(h, nodes[2..], first.value, first.log);
        }
      } else {
        assert nodes == [nodes[0]] + nodes[1..];
        ExecCons(h, nodes[0], nodes[1..], v, log);
        ExecCons(h, nodes[0], Collapse(nodes[1..]), v, log);
        var first := Exec(h, nodes[0], v, log);
        if first.Done? {
          ExecCollapse(h, nodes[1..], first.value, first.log);
        }
      }
    }
  }

  /** The peephole and the left-leaning chain change nothing: a sequence runs as the list of its pieces. */
  lemma ExecSeqOf(h: Host, nodes: seq<Node>, v: Value, log: Log)
    requires nodes != []
    ensures Exec(h, SeqOf(nodes), v, log) == ExecList(h, nodes, v, log)
  {
    ExecCollapse(h, nodes, v, log);
    ExecChain(h, Collapse(nodes), v, log);
  }

  lemma ParOfIsAll(nodes: seq<Node>)
    requires |nodes| >= 2
    ensures IsAllPar(ParOf(nodes)) && ParOf(nodes).merge == None
  {
  }

  /** A `par` group gives every branch the same input and collects the results in branch order. */
  lemma {:induction false} GatherParOf(h: Host, nodes: seq<Node>, v: Value, log: Log)
    requires |nodes| >= 2 && forall n :: n in nodes ==> !n.Par?
    ensures IsAllPar(ParOf(nodes))
    ensures Gather(h, ParOf(nodes), v, log) == ExecBranches(h, nodes, v, log)
    decreases |nodes|
  {
    ParOfIsAll(nodes);
    var last := |nodes| - 1;
    var front, back := nodes[..last], [nodes[last]];
    assert nodes == front + back;
    ExecBranchesConcat(h, front, back, v, log);
    var left := ExecBranches(h, front, v, log);
    if last == 1 {
      assert front == [nodes[0]];
      assert !nodes[0].Par?;
      BranchAlone(h, nodes[0], v, log);
    } else {
      assert forall n :: n in front ==> n in nodes;
      GatherParOf(h, front, v, log);
    }
    assert !nodes[last].Par?;
    if left.Batch? {
      BranchAlone(h, nodes[last], v, left.log);
    }
  }

  lemma BranchAlone(h: Host, n: Node, v: Value, log: Log)
    ensures ExecBranches(h, [n], v, log) == Single(Exec(h, n, v, log))
  {
    var only := Single(Exec(h, n, v, log));
    if only.Batch? {
      assert only.values + [] == only.values;
    }
  }

  lemma ExecParOf(h: Host, nodes: seq<Node>, v: Value, log: Log)
    requires |nodes| >= 2 && forall n :: n in nodes ==> !n.Par?
    ensures Exec(h, ParOf(nodes), v, log) == Reduced(h, None, ExecBranches(h, nodes, v, log))
  {
    ParOfIsAll(nodes);
    GatherParOf(h, nodes, v, log);
  }

  lemma ChainIsNotPar(nodes: seq<Node>)
    requires nodes != [] && !nodes[0].Par?
    ensures !Chain(nodes).Par?
  {
  }

  /** A sequence is never itself a `par` branch that would be flattened, unless it is one `par` alone. */
  lemma SeqOfIsNotPar(nodes: seq<Node>)
    requires nodes != [] && !nodes[0].Par?
    ensures !SeqOf(nodes).Par?
  {
    ChainIsNotPar(Collapse(nodes));
  }

  // ----- single operators -----

  lemma ExecAlt(h: Host, pred: PureFn, ifTrue: Node, ifFalse: Node, v: Value, log: Log)
    ensures var d := Apply(h, pred, v);
            Exec(h, Alt(pred, ifTrue, ifFalse), v, log) ==
            if d.None? then Fail(log)
            else if Truthy(d.value) then Exec(h, ifTrue, v, log)
            else Exec(h, ifFalse, v, log)
  {
  }

  lemma ExecSwitch(h: Host, select: PureFn, cases: seq<NodeCase>, default: Option<Node>, v: Value, log: Log)
    ensures var key := Apply(h, select, v);
            Exec(h, Switch(select, cases, default), v, log) ==
            if key.None? then Fail(log)
            else
              var i := CaseIndex(cases, key.value);
              if !Hashable(key.value) then Fail(log)
              else if i < |cases| then Exec(h, cases[i].node, v, log)
              else if default.Some? then Exec(h, default.value, v, log)
              else Fail(log)
  {
  }

  /** An `each` fed by a pluck of its items. */
  lemma EachOverPluck(h: Host, items: string, body: Node, bound: Option<nat>, reducer: Option<PureFn>, e: Env, log: Log)
    requires items in e
    ensures Exec(h, SeqOf([Arr(StdPluck(items)), Each(body, bound, reducer)]), Rec(e), log) ==
            if e[items].List? then Reduced(h, reducer, ExecItems(h, body, e[items].items, log)) else Fail(log)
  {
    var pluck, mapped := Arr(StdPluck(items)), Each(body, bound, reducer);
    ExecSeqOf(h, [pluck, mapped], Rec(e), log);
    assert [pluck, mapped] == [pluck] + [mapped];
    ExecCons(h, pluck, [mapped], Rec(e), log);
    ExecOne(h, mapped, e[items], log);
  }

  lemma ExecItemsCons(h: Host, body: Node, first: Value, rest: seq<Value>, log: Log)
    ensures ExecItems(h, body, [first] + rest, log) ==
            var o := Single(Exec(h, body, first, log));
            if o.Batch? then Joined(o, ExecItems(h, body, rest, o.log)) else o
  {
    assert ([first] + rest)[1..] == rest;
  }

  /** An `each` fed by records that close over captured fields and constants. */
  lemma EachOverPack(
    h: Host, items: string, item: string, captures: map<string, string>, consts: Env,
    body: Node, bound: Option<nat>, reducer: Option<PureFn>, e: Env, log: Log)
    requires items in e
    ensures var elements := Elements(h, e[items]);
            var pack := Arr(StdEachPack(items, item, captures, consts));
            var o := Exec(h, SeqOf([pack, Each(body, bound, reducer)]), Rec(e), log);
            if elements.None? then o == Fail(log)
            else
              var packed := PackItems(e, elements.value, item, captures, consts);
              o == if packed.None? then Fail(log) else Reduced(h, reducer, ExecItems(h, body, packed.value, log))
  {
    var pack, mapped := Arr(StdEachPack(items, item, captures, consts)), Each(body, bound, reducer);
    ExecSeqOf(h, [pack, mapped], Rec(e), log);
    assert [pack, mapped] == [pack] + [mapped];
    ExecCons(h, pack, [mapped], Rec(e), log);
    var packed := Apply(h, pack.fn, Rec(e));
    if packed.Some? {
      ExecOne(h, mapped, packed.value, log);
    }
  }
}
