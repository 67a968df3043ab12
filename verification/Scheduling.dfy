/**
 The scheduling algorithms as the compiler runs them, a depth-first topological sort and a scan that
 peels layers off the front, each proved to compute its specification; and what the schedule promises.
 */
module Scheduling {
  import opened Values
  import opened Ir
  import opened Graph
  import opened Layering

  // ----- topological sort -----

  /** The nested `visit` of the sort, with the sets and the list it grows. */
  class TopologicalSort {
    const g: Graph
    const external: set<string>
    const byOutput: map<string, nat>
    var visiting: set<string>
    var visited: set<string>
    var out: seq<Step>

    ghost predicate Indexed() {
      && DistinctOutputs(g.steps)
      && (forall j | 0 <= j < |g.steps| :: g.steps[j].output in byOutput && byOutput[g.steps[j].output] == j)
      && (forall f | f in byOutput :: byOutput[f] < |g.steps| && g.steps[byOutput[f]].output == f)
    }

    /** The first `i` steps have been visited, in order. */
    ghost predicate VisitedUpTo(i: nat)
      reads this
      requires i <= |g.steps|
    {
      visited == Outputs(g.steps[..i]) && out == g.steps[..i]
    }

    constructor (g: Graph, external: set<string>)
      requires DistinctOutputs(g.steps)
      ensures this.g == g && this.external == external && Indexed()
      ensures visiting == {} && VisitedUpTo(0)
    {
      this.g := g;
      this.external := external;
      byOutput := map j | 0 <= j < |g.steps| :: g.steps[j].output := j;
      visiting, visited, out := {}, {}, [];
    }

    method Visit(i: nat) returns (ok: bool)
      requires Indexed() && i < |g.steps| && visiting <= Outputs(g.steps)
      modifies this
      ensures ok ==> visiting == old(visiting)
      ensures old(g.steps[i].output in visited) ==> ok && visited == old(visited) && out == old(out)
      ensures old(g.steps[i].output !in visited && g.steps[i].output in visiting) ==> !ok
      ensures old(VisitedUpTo(i) && g.steps[i].output !in visiting) ==>
                && (ok <==> SourcedAt(g, external, i))
                && (ok ==> VisitedUpTo(i + 1))
      decreases Outputs(g.steps) - visiting, 0
    {
      var step := g.steps[i];
      NotYetVisited(g.steps, i);
      if step.output in visited {
        return true;
      }
      if step.output in visiting {
        return false;
      }
      ghost var prefix, was := VisitedUpTo(i), visiting;
      StepOutput(g.steps, i);
      visiting := visiting + {step.output};
      var pending := InputSources(step);
      while pending != {}
        invariant visiting == was + {step.output} && pending <= InputSources(step)
        invariant prefix ==> VisitedUpTo(i)
        invariant prefix ==> forall f | f in InputSources(step) && f !in pending :: SourceKnown(g, external, i, f)
        decreases |pending|
      {
        var source :| source in pending;
        pending := pending - {source};
        var known := VisitSource(i, source);
        if !known {
          return false;
        }
      }
      visiting := visiting - {step.output};
      visited := visited + {step.output};
      out := out + [step];
      ok := true;
      OutputsUpTo(g.steps, i);
    }

    /** Look one source up: visit its producer and check that it comes earlier, or find it supplied. */
    method VisitSource(i: nat, source: string) returns (ok: bool)
      requires Indexed() && i < |g.steps| && visiting <= Outputs(g.steps)
      requires g.steps[i].output in visiting
      modifies this
      ensures ok ==> visiting == old(visiting)
      ensures old(VisitedUpTo(i)) ==> (ok <==> SourceKnown(g, external, i, source)) && (ok ==> VisitedUpTo(i))
      decreases Outputs(g.steps) - visiting, 1
    {
      if source in byOutput {
        var j := byOutput[source];
        ProducedBy(g.steps, i, j);
        NotYetVisited(g.steps, i);
        var found := Visit(j);
        return found && j <= i;
      }
      NotProduced(source);
      return source == g.inputName || source in external;
    }

    lemma NotProduced(source: string)
      requires Indexed() && source !in byOutput
      ensures source !in Outputs(g.steps)
    {
    }
  }

  lemma StepOutput(steps: seq<Step>, i: nat)
    requires i < |steps|
    ensures steps[i].output in Outputs(steps)
  {
    assert steps[i] in steps;
  }

  lemma OutputsUpTo(steps: seq<Step>, i: nat)
    requires i < |steps|
    ensures steps[..i + 1] == steps[..i] + [steps[i]]
    ensures Outputs(steps[..i + 1]) == Outputs(steps[..i]) + {steps[i].output}
  {
    assert steps[..i + 1] == steps[..i] + [steps[i]];
    OutputsConcat(steps[..i], [steps[i]]);
  }

  lemma NotYetVisited(steps: seq<Step>, i: nat)
    requires DistinctOutputs(steps) && i < |steps|
    ensures steps[i].output !in Outputs(steps[..i])
  {
  }

  lemma ProducedBy(steps: seq<Step>, i: nat, j: nat)
    requires DistinctOutputs(steps) && i < |steps| && j < |steps|
    ensures steps[j].output in Outputs(steps)
    ensures steps[j].output in Outputs(steps[..i]) <==> j < i
  {
    assert steps[j] in steps;
    if j < i {
      assert steps[..i][j] == steps[j];
    }
  }

  method DepthFirstSort(g: Graph, external: set<string>) returns (r: Result<seq<Step>>)
    requires DistinctOutputs(g.steps)
    ensures r == Toposort(g, external)
  {
    var sort := new TopologicalSort(g, external);
    for i := 0 to |g.steps|
      invariant sort.g == g && sort.external == external && sort.Indexed()
      invariant sort.visiting == {} && sort.VisitedUpTo(i)
      invariant forall j | 0 <= j < i :: SourcedAt(g, external, j)
    {
      var ok := sort.Visit(i);
      if !ok {
        return Err;
      }
    }
    assert g.steps[..|g.steps|] == g.steps;
    return Ok(sort.out);
  }

  // ----- effect-fenced layers -----

  /** What the scan does at a step: stop there, take it, or pass it over. */
  datatype Verdict = Stop | Take | Pass

  type Judge = Step -> Verdict

  function Verdicts(done: set<string>): Judge {
    s => if IsBarrier(s) then Stop
         else if DepsDone(s, done) then Take
         else if s.inputs != [] then Stop
         else Pass
  }

  /** The scan, given what to do at each step. */
  function ScanWith(judge: Judge, steps: seq<Step>): Scanned {
    if steps == [] then Scanned([], [])
    else
      match judge(steps[0])
      case Stop => Scanned([], steps)
      case Take => var more := ScanWith(judge, steps[1..]); Scanned([steps[0]] + more.group, more.rest)
      case Pass => var more := ScanWith(judge, steps[1..]); Scanned(more.group, [steps[0]] + more.rest)
  }

  lemma ScanIsScanWith(remaining: seq<Step>, done: set<string>)
    ensures Scan(remaining, done) == ScanWith(Verdicts(done), remaining)
  {
  }

  /** The steps of a prefix with one verdict, in order. */
  function Having(judge: Judge, verdict: Verdict, front: seq<Step>): seq<Step> {
    if front == [] then []
    else Having(judge, verdict, front[..|front| - 1])
         + (if judge(front[|front| - 1]) == verdict then [front[|front| - 1]] else [])
  }

  lemma HavingExtends(judge: Judge, verdict: Verdict, front: seq<Step>, s: Step)
    ensures Having(judge, verdict, front + [s])
         == Having(judge, verdict, front) + (if judge(s) == verdict then [s] else [])
  {
    assert (front + [s])[..|front|] == front;
  }

  lemma HavingMembers(judge: Judge, verdict: Verdict, front: seq<Step>)
    ensures forall s :: s in Having(judge, verdict, front) <==> s in front && judge(s) == verdict
  {
    if front != [] {
      HavingMembers(judge, verdict, front[..|front| - 1]);
      assert front == front[..|front| - 1] + [front[|front| - 1]];
    }
  }

  /** A prefix the scan goes through contributes its taken and its passed steps. */
  lemma {:induction false} ScanSplit(judge: Judge, front: seq<Step>, tail: seq<Step>)
    requires forall s :: s in front ==> judge(s) != Stop
    ensures var more := ScanWith(judge, tail);
            ScanWith(judge, front + tail)
            == Scanned(Having(judge, Take, front) + more.group, Having(judge, Pass, front) + more.rest)
    decreases |front|
  {
    var more := ScanWith(judge, tail);
    if front == [] {
      assert front + tail == tail && [] + more.group == more.group && [] + more.rest == more.rest;
    } else {
      var s, front' := front[|front| - 1], front[..|front| - 1];
      assert s in front && front == front' + [s];
      assert front + tail == front' + ([s] + tail);
      ScanSplit(judge, front', [s] + tail);
      ScanHead(judge, s, tail);
      HavingExtends(judge, Take, front', s);
      HavingExtends(judge, Pass, front', s);
      Regroup(Having(judge, Take, front'), s, more.group);
      Regroup(Having(judge, Pass, front'), s, more.rest);
    }
  }

  lemma ScanHead(judge: Judge, s: Step, tail: seq<Step>)
    requires judge(s) != Stop
    ensures var more := ScanWith(judge, tail);
            ScanWith(judge, [s] + tail) ==
            if judge(s) == Take then Scanned([s] + more.group, more.rest) else Scanned(more.group, [s] + more.rest)
  {
    assert ([s] + tail)[1..] == tail;
  }

  lemma Regroup(a: seq<Step>, s: Step, b: seq<Step>)
    ensures a + ([s] + b) == a + [s] + b
    ensures a + [] + b == a + b
  {
  }

  lemma SelectedAreTaken(judge: Judge, remaining: seq<Step>, k: nat, i: nat)
    requires DistinctOutputs(remaining) && i < |remaining| && k <= |remaining|
    ensures remaining[i].output in Outputs(Having(judge, Take, remaining[..k]))
            <==> i < k && judge(remaining[i]) == Take
  {
    HavingMembers(judge, Take, remaining[..k]);
    if i < k {
      assert remaining[i] in remaining[..k];
    }
  }

  /** What is kept of the first `i` steps: the passed ones up to `k`, and everything after. */
  function KeptUpTo(judge: Judge, remaining: seq<Step>, k: nat, i: nat): seq<Step>
    requires k <= |remaining| && i <= |remaining|
  {
    if i <= k then Having(judge, Pass, remaining[..i]) else Having(judge, Pass, remaining[..k]) + remaining[k..i]
  }

  lemma KeptExtends(judge: Judge, remaining: seq<Step>, k: nat, i: nat)
    requires k <= |remaining| && i < |remaining|
    ensures KeptUpTo(judge, remaining, k, i + 1) == KeptUpTo(judge, remaining, k, i)
            + (if i >= k || judge(remaining[i]) == Pass then [remaining[i]] else [])
  {
    if i < k {
      assert remaining[..i + 1] == remaining[..i] + [remaining[i]];
      HavingExtends(judge, Pass, remaining[..i], remaining[i]);
    } else {
      assert remaining[k..i + 1] == remaining[k..i] + [remaining[i]];
    }
  }

  /** A scan that stops at `k`. */
  lemma ScanStopsAt(judge: Judge, remaining: seq<Step>, k: nat)
    requires k <= |remaining| && (forall i | 0 <= i < k :: judge(remaining[i]) != Stop)
    requires k < |remaining| ==> judge(remaining[k]) == Stop
    ensures ScanWith(judge, remaining)
         == Scanned(Having(judge, Take, remaining[..k]), KeptUpTo(judge, remaining, k, |remaining|))
  {
    var front, tail := remaining[..k], remaining[k..];
    assert remaining == front + tail;
    ScanSplit(judge, front, tail);
    assert ScanWith(judge, tail) == Scanned([], tail);
    assert Having(judge, Take, front) + [] == Having(judge, Take, front);
    if k == |remaining| {
      assert tail == [] && Having(judge, Pass, front) + [] == Having(judge, Pass, front);
    }
  }

  /** Dropping the selected outputs from the scanned prefix leaves the steps that were passed over. */
  method DropSelected(ghost judge: Judge, remaining: seq<Step>, ghost k: nat, stop: nat, selected: set<string>)
    returns (kept: seq<Step>)
    requires DistinctOutputs(remaining) && stop <= k <= |remaining|
    requires selected == Outputs(Having(judge, Take, remaining[..k]))
    requires forall i | 0 <= i < k :: judge(remaining[i]) != Stop && (i >= stop ==> judge(remaining[i]) == Pass)
    ensures kept == KeptUpTo(judge, remaining, k, |remaining|)
  {
    kept := [];
    for i := 0 to |remaining|
      invariant kept == KeptUpTo(judge, remaining, k, i)
    {
      SelectedAreTaken(judge, remaining, k, i);
      KeptExtends(judge, remaining, k, i);
      if i >= stop || remaining[i].output !in selected {
        kept := kept + [remaining[i]];
      }
    }
  }

  /** One pass over the remaining steps: the group to run next, and the steps left after it. */
  method NextGroup(remaining: seq<Step>, done: set<string>) returns (group: seq<Step>, kept: seq<Step>)
    requires DistinctOutputs(remaining)
    ensures Scan(remaining, done) == Scanned(group, kept)
  {
    hide InputSources, DepsDone, IsBarrier;
    ghost var judge := Verdicts(done);
    var stop, idx := 0, 0;
    group := [];
    while idx < |remaining|
      invariant stop <= idx <= |remaining|
      invariant group == Having(judge, Take, remaining[..idx])
      invariant forall i | 0 <= i < idx :: judge(remaining[i]) != Stop && (i >= stop ==> judge(remaining[i]) == Pass)
    {
      var step := remaining[idx];
      assert remaining[..idx + 1] == remaining[..idx] + [step];
      HavingExtends(judge, Take, remaining[..idx], step);
      if IsBarrier(step) {
        break;
      }
      if DepsDone(step, done) {
        group, stop := group + [step], idx + 1;
      } else if step.inputs != [] {
        break;
      }
      idx := idx + 1;
    }
    ScanStopsAt(judge, remaining, idx);
    ScanIsScanWith(remaining, done);
    kept := DropSelected(judge, remaining, idx, stop, Outputs(group));
  }

  function Prepended(layers: seq<seq<Step>>, rest: Result<seq<seq<Step>>>): Result<seq<seq<Step>>> {
    match rest
    case Err => Err
    case Ok(more) => Ok(layers + more)
  }

  lemma PrependedNone(rest: Result<seq<seq<Step>>>)
    ensures Prepended([], rest) == rest
  {
    if rest.Ok? {
      assert [] + rest.value == rest.value;
    }
  }

  method EffectFencedLayers(steps: seq<Step>, external: set<string>) returns (r: Result<seq<seq<Step>>>)
    requires DistinctOutputs(steps)
    ensures r == Layers(steps, external)
  {
    var remaining, done := steps, external;
    var layers: seq<seq<Step>> := [];
    PrependedNone(Layers(steps, external));
    while remaining != []
      invariant DistinctOutputs(remaining)
      invariant Layers(steps, external) == Prepended(layers, Layers(remaining, done))
      decreases |remaining|
    {
      var first := remaining[0];
      if !DepsDone(first, done) {
        return Err;
      }
      if IsBarrier(first) {
        ghost var rest := Layers(remaining[1..], done + {first.output});
        if rest.Ok? {
          assert layers + ([[first]] + rest.value) == (layers + [[first]]) + rest.value;
        }
        layers, done, remaining := layers + [[first]], done + {first.output}, remaining[1..];
      } else {
        var group, kept := NextGroup(remaining, done);
        if group == [] {
          return Err;
        }
        ScanKeepsDistinct(remaining, done);
        ghost var rest := Layers(kept, done + Outputs(group));
        if rest.Ok? {
          assert layers + ([group] + rest.value) == (layers + [group]) + rest.value;
        }
        layers, done, remaining := layers + [group], done + Outputs(group), kept;
      }
    }
    assert layers + [] == layers;
    return Ok(layers);
  }

  /** The scan keeps the relative order of what it leaves. */
  lemma ScanKeepsDistinct(remaining: seq<Step>, done: set<string>)
    requires DistinctOutputs(remaining)
    ensures DistinctOutputs(Scan(remaining, done).rest)
    ensures Outputs(Scan(remaining, done).rest) <= Outputs(remaining)
  {
    if remaining != [] {
      var t := remaining[1..];
      ScanKeepsDistinct(t, done);
      assert remaining == [remaining[0]] + t;
      OutputsConcat([remaining[0]], t);
      forall i | 0 <= i < |t| ensures t[i].output != remaining[0].output {
        assert t[i] == remaining[i + 1];
      }
      var more := Scan(t, done);
      forall i | 0 <= i < |more.rest| ensures more.rest[i].output != remaining[0].output {
        assert more.rest[i] in more.rest && more.rest[i] in t;
      }
    }
  }

  // ----- what the schedule promises -----

  lemma LayersSucceed(remaining: seq<Step>, done: set<string>, inputName: string)
    requires Declared(remaining, done + {inputName})
    requires forall s :: s in remaining && inputName in InputSources(s) ==> inputName in done
    ensures Layers(remaining, done).Ok?
    decreases |remaining|
  {
    if remaining != [] {
      var s, known := remaining[0], done + {inputName};
      if IsBarrier(s) {
        assert known + {s.output} == done + {s.output} + {inputName};
        LayersSucceed(remaining[1..], done + {s.output}, inputName);
      } else {
        var scanned := Scan(remaining, done);
        ScanKeepsOrder(remaining, done, known);
        assert known + Outputs(scanned.group) == done + Outputs(scanned.group) + {inputName};
        assert scanned.group != [];
        LayersSucceed(scanned.rest, done + Outputs(scanned.group), inputName);
      }
    }
  }

  /** On sorted steps the layering's cycle error means one thing only: the input is read but not supplied. */
  lemma CycleErrorIsMissingInput(g: Graph, initial: set<string>)
    requires DistinctOutputs(g.steps) && Outputs(g.steps) !! initial + {g.inputName}
    requires Toposort(g, initial).Ok?
    ensures Layers(g.steps, initial).Ok? <==>
              g.inputName in initial || forall s :: s in g.steps ==> g.inputName !in InputSources(s)
  {
    DeclaredFrom(g, initial, 0);
    assert g.steps[0..] == g.steps && g.steps[..0] == [];
    assert Outputs([]) == {} && initial + {g.inputName} + {} == initial + {g.inputName};
    if g.inputName in initial || forall s :: s in g.steps ==> g.inputName !in InputSources(s) {
      LayersSucceed(g.steps, initial, g.inputName);
    }
    if Layers(g.steps, initial).Ok? && g.inputName !in initial {
      var layers := Layers(g.steps, initial).value;
      LayersAreReady(g.steps, initial, g.inputName);
      LayersPartition(g.steps, initial);
      LayeredSources(layers, initial, g.inputName);
      forall s | s in g.steps ensures g.inputName !in InputSources(s) {
        assert s in multiset(g.steps) && s in multiset(Flatten(layers)) && s in Flatten(layers);
        forall t | t in Flatten(layers) ensures t.output in Outputs(g.steps) {
          assert t in multiset(Flatten(layers)) && t in multiset(g.steps);
        }
      }
    }
  }

  /** The outputs bound before a given step. */
  function BoundBefore(steps: seq<Step>, s: Step): set<string> {
    if steps == [] || steps[0] == s then {} else {steps[0].output} + BoundBefore(steps[1..], s)
  }

  lemma BoundBeforeConcat(a: seq<Step>, b: seq<Step>, s: Step)
    requires s !in a
    ensures BoundBefore(a + b, s) == Outputs(a) + BoundBefore(b, s)
  {
    if a == [] {
      assert a + b == b;
    } else {
      assert (a + b)[1..] == a[1..] + b && a == [a[0]] + a[1..];
      BoundBeforeConcat(a[1..], b, s);
      OutputsConcat([a[0]], a[1..]);
    }
  }

  lemma ScanKeepsFence(remaining: seq<Step>, done: set<string>, b: Step)
    requires IsBarrier(b) && b in remaining
    ensures var scanned := Scan(remaining, done);
            && b !in scanned.group && b in scanned.rest
            && BoundBefore(remaining, b) == Outputs(scanned.group) + BoundBefore(scanned.rest, b)
  {
    var k := remaining[0];
    if !IsBarrier(k) && (DepsDone(k, done) || k.inputs == []) {
      ScanKeepsFence(remaining[1..], done, b);
      var more := Scan(remaining[1..], done);
      OutputsConcat([k], more.group);
      assert ([k] + more.rest)[1..] == more.rest;
    }
  }

  /** A barrier runs after exactly the steps declared before it: nothing moves across it in either direction. */
  lemma FencesHold(steps: seq<Step>, done: set<string>, b: Step)
    requires Layers(steps, done).Ok? && IsBarrier(b) && b in steps
    ensures BoundBefore(Flatten(Layers(steps, done).value), b) == BoundBefore(steps, b)
    decreases |steps|
  {
    var k := steps[0];
    if IsBarrier(k) {
      var layers := Layers(steps[1..], done + {k.output}).value;
      assert ([[k]] + layers)[1..] == layers;
      assert ([k] + Flatten(layers))[1..] == Flatten(layers);
      if b != k {
        FencesHold(steps[1..], done + {k.output}, b);
      }
    } else {
      var scanned := Scan(steps, done);
      var layers := Layers(scanned.rest, done + Outputs(scanned.group)).value;
      assert ([scanned.group] + layers)[1..] == layers;
      ScanKeepsFence(steps, done, b);
      FencesHold(scanned.rest, done + Outputs(scanned.group), b);
      BoundBeforeConcat(scanned.group, Flatten(layers), b);
    }
  }

  /** A layer with a barrier in it is that barrier alone. */
  lemma {:induction false} BarriersAreAlone(steps: seq<Step>, done: set<string>, k: nat, b: Step)
    requires Layers(steps, done).Ok? && k < |Layers(steps, done).value|
    requires b in Layers(steps, done).value[k] && IsBarrier(b)
    ensures Layers(steps, done).value[k] == [b]
    decreases |steps|
  {
    if IsBarrier(steps[0]) {
      if k > 0 {
        BarriersAreAlone(steps[1..], done + {steps[0].output}, k - 1, b);
      }
    } else {
      var scanned := Scan(steps, done);
      if k > 0 {
        BarriersAreAlone(scanned.rest, done + Outputs(scanned.group), k - 1, b);
      } else {
        GroupHasNoBarrier(steps, done, b);
      }
    }
  }

  lemma GroupHasNoBarrier(steps: seq<Step>, done: set<string>, s: Step)
    requires s in Scan(steps, done).group
    ensures !IsBarrier(s)
  {
    if steps != [] && s != steps[0] {
      GroupHasNoBarrier(steps[1..], done, s);
    }
  }
}
