/**
 Scheduling: the topological sort and the effect-fenced layers, with the proof that running the
 layers in order is the same as running the steps as declared.
 */
module Layering {
  import opened Values
  import opened Ir
  import opened Graph

  /** Every source is produced by a strictly earlier step, or by no step and supplied from outside. */
  predicate SourcesInOrder(g: Graph, external: set<string>) {
    forall i | 0 <= i < |g.steps| :: SourcedAt(g, external, i)
  }

  predicate SourcedAt(g: Graph, external: set<string>, i: nat)
    requires i < |g.steps|
  {
    forall f | f in InputSources(g.steps[i]) :: SourceKnown(g, external, i, f)
  }

  predicate SourceKnown(g: Graph, external: set<string>, i: nat, f: string)
    requires i < |g.steps|
  {
    f in Outputs(g.steps[..i]) || (f !in Outputs(g.steps) && (f == g.inputName || f in external))
  }

  function Toposort(g: Graph, external: set<string>): Result<seq<Step>> {
    if SourcesInOrder(g, external) then Ok(g.steps) else Err
  }

  predicate DistinctOutputs(steps: seq<Step>) {
    forall i, j | 0 <= i < j < |steps| :: steps[i].output != steps[j].output
  }

  // ----- layers -----

  /** Membership facts for a list of layers with one more layer in front. */
  lemma WithinCons(layer: seq<Step>, layers: seq<seq<Step>>, inner: seq<Step>, steps: seq<Step>)
    requires AllWithin(layers, inner) && (forall s :: s in layer || s in inner ==> s in steps)
    ensures AllWithin([layer] + layers, steps)
  {
    forall k, s | 0 <= k < |[layer] + layers| && s in ([layer] + layers)[k] ensures s in steps {
      if k > 0 {
        assert s in layers[k - 1] && s in inner;
      }
    }
  }

  predicate DepsDone(s: Step, done: set<string>) {
    InputSources(s) <= done
  }

  datatype Scanned = Scanned(group: seq<Step>, rest: seq<Step>)

  /**
   The ready steps ahead of the first barrier. A step that is not ready ends the scan if it lists
   inputs, and is passed over if it does not.
   */
  function Scan(remaining: seq<Step>, done: set<string>): (r: Scanned)
    ensures |r.group| + |r.rest| == |remaining|
    ensures forall s :: s in r.group || s in r.rest ==> s in remaining
  {
    if remaining == [] || IsBarrier(remaining[0]) then Scanned([], remaining)
    else if DepsDone(remaining[0], done) then
      var more := Scan(remaining[1..], done);
      Scanned([remaining[0]] + more.group, more.rest)
    else if remaining[0].inputs != [] then Scanned([], remaining)
    else
      var more := Scan(remaining[1..], done);
      Scanned(more.group, [remaining[0]] + more.rest)
  }

  predicate AllWithin(layers: seq<seq<Step>>, steps: seq<Step>) {
    forall k, s | 0 <= k < |layers| && s in layers[k] :: s in steps
  }

  function Layers(remaining: seq<Step>, done: set<string>): (r: Result<seq<seq<Step>>>)
    ensures r.Ok? ==> AllWithin(r.value, remaining)
    ensures r.Ok? && remaining != [] ==> r.value != []
    ensures r.Ok? ==> forall k | 0 <= k < |r.value| :: r.value[k] != []
    decreases |remaining|
  {
    if remaining == [] then Ok([])
    else if !DepsDone(remaining[0], done) then Err
    else if IsBarrier(remaining[0]) then
      match Layers(remaining[1..], done + {remaining[0].output})
      case Err => Err
      case Ok(rest) =>
        WithinCons([remaining[0]], rest, remaining[1..], remaining);
        Ok([[remaining[0]]] + rest)
    else
      var scanned := Scan(remaining, done);
      match Layers(scanned.rest, done + Outputs(scanned.group))
      case Err => Err
      case Ok(rest) =>
        WithinCons(scanned.group, rest, scanned.rest, remaining);
        Ok([scanned.group] + rest)
  }

  function Flatten(layers: seq<seq<Step>>): seq<Step> {
    if layers == [] then [] else layers[0] + Flatten(layers[1..])
  }

  // ----- declared order -----

  /** Steps in an order that runs: each reads known names only and binds a new one. */
  ghost predicate Declared(steps: seq<Step>, known: set<string>)
  {
    steps != [] ==>
      && InputSources(steps[0]) <= known
      && steps[0].output !in known
      && Declared(steps[1..], known + {steps[0].output})
  }

  lemma DeclaredIsFresh(steps: seq<Step>, known: set<string>)
    requires Declared(steps, known)
    ensures Outputs(steps) !! known
  {
    if steps != [] {
      DeclaredIsFresh(steps[1..], known + {steps[0].output});
      assert steps == [steps[0]] + steps[1..];
      OutputsConcat([steps[0]], steps[1..]);
    }
  }

  lemma DeclaredFrom(g: Graph, external: set<string>, i: nat)
    requires SourcesInOrder(g, external) && DistinctOutputs(g.steps) && i <= |g.steps|
    requires Outputs(g.steps) !! external + {g.inputName}
    ensures Declared(g.steps[i..], external + {g.inputName} + Outputs(g.steps[..i]))
    decreases |g.steps| - i
  {
    if i < |g.steps| {
      var s := g.steps[i];
      assert SourcedAt(g, external, i);
      assert g.steps[i..][0] == s && g.steps[i..][1..] == g.steps[i + 1..];
      assert g.steps[..i + 1] == g.steps[..i] + [s];
      OutputsConcat(g.steps[..i], [s]);
      assert s.output in Outputs(g.steps);
      DeclaredFrom(g, external, i + 1);
      assert external + {g.inputName} + Outputs(g.steps[..i + 1])
          == external + {g.inputName} + Outputs(g.steps[..i]) + {s.output};
    }
  }

  lemma ScanKeepsOrder(remaining: seq<Step>, done: set<string>, known: set<string>)
    requires Declared(remaining, known)
    ensures var scanned := Scan(remaining, done);
            && Declared(scanned.rest, known + Outputs(scanned.group))
            && Outputs(scanned.group) !! known
            && (forall s :: s in scanned.group ==> DepsDone(s, done) && !IsBarrier(s))
  {
    if remaining != [] && !IsBarrier(remaining[0]) {
      var k := remaining[0];
      var more := Scan(remaining[1..], done);
      if DepsDone(k, done) {
        ScanKeepsOrder(remaining[1..], done, known + {k.output});
        OutputsConcat([k], more.group);
        assert known + {k.output} + Outputs(more.group) == known + Outputs([k] + more.group);
      } else if k.inputs == [] {
        ScanKeepsOrder(remaining[1..], done, known + {k.output});
        assert known + {k.output} + Outputs(more.group) == known + Outputs(more.group) + {k.output};
        assert ([k] + more.rest)[1..] == more.rest;
      }
    }
    assert Outputs([]) == {};
    assert known + {} == known;
  }

  // ----- reads commute -----

  /** Any way of running one step; the scheduling argument does not look inside it. */
  type Runner = (Step, Env, Log) -> Outcome

  datatype EnvOutcome = EnvDone(env: Env, log: Log) | EnvFail(log: Log)

  function RunWith(run: Runner, steps: seq<Step>, env: Env, log: Log): EnvOutcome {
    if steps == [] then EnvDone(env, log)
    else
      match run(steps[0], env, log)
      case Done(v, log') => RunWith(run, steps[1..], env[steps[0].output := v], log')
      case Fail(log') => EnvFail(log')
      case Unmodelled => EnvFail(log)
  }

  /** What a step does depends on what it reads only. */
  ghost predicate Framed(run: Runner, s: Step, inputName: string) {
    forall r1: Env, r2: Env, log: Log {:trigger run(s, r1, log), run(s, r2, log)} ::
      Agree(r1, r2, Reads(s, inputName)) && InputSources(s) <= r1.Keys && BRANCH !in r1 && BRANCH !in r2
      ==> run(s, r1, log) == run(s, r2, log)
  }

  ghost predicate KeepsTheWorld(run: Runner, s: Step) {
    forall r: Env, log: Log :: !run(s, r, log).Unmodelled? && run(s, r, log).log == log
  }

  /** The two facts the schedule relies on: steps are framed, and steps that are not barriers only read. */
  ghost predicate Schedulable(run: Runner, steps: seq<Step>, inputName: string) {
    forall s :: s in steps ==> Framed(run, s, inputName) && (!IsBarrier(s) ==> KeepsTheWorld(run, s))
  }

  lemma RunWithConcat(run: Runner, a: seq<Step>, b: seq<Step>, env: Env, log: Log)
    ensures RunWith(run, a + b, env, log) ==
            match RunWith(run, a, env, log)
            case EnvFail(l) => EnvFail(l)
            case EnvDone(e, l) => RunWith(run, b, e, l)
  {
    if a == [] {
      assert a + b == b;
    } else {
      assert (a + b)[1..] == a[1..] + b;
    }
  }

  lemma RunWithKeys(run: Runner, steps: seq<Step>, env: Env, log: Log)
    ensures var ran := RunWith(run, steps, env, log); ran.EnvDone? ==> ran.env.Keys == env.Keys + Outputs(steps)
  {
    if steps != [] {
      assert steps == [steps[0]] + steps[1..];
      OutputsConcat([steps[0]], steps[1..]);
    }
  }

  lemma RunCons(run: Runner, s: Step, tail: seq<Step>, env: Env, log: Log)
    ensures RunWith(run, [s] + tail, env, log) ==
            match run(s, env, log)
            case Done(v, log') => RunWith(run, tail, env[s.output := v], log')
            case Fail(log') => EnvFail(log')
            case Unmodelled => EnvFail(log)
  {
    assert ([s] + tail)[1..] == tail;
  }

  // ----- subjects -----

  /** No step decides on what it or a later step produces. */
  predicate SubjectsPrecede(steps: seq<Step>) {
    steps != [] ==> SubjectSet(steps[0]) !! Outputs(steps) && SubjectsPrecede(steps[1..])
  }

  /** None of the steps decides on what one of the others produces. */
  ghost predicate Undecided(group: seq<Step>, outputs: set<string>) {
    forall s :: s in group ==> SubjectSet(s) !! outputs
  }

  /** In the order of the layers too, no step decides on what its layer or a later one produces. */
  ghost predicate Settled(layers: seq<seq<Step>>) {
    layers != [] ==> Undecided(layers[0], Outputs(Flatten(layers))) && Settled(layers[1..])
  }

  lemma ScanKeepsSubjects(remaining: seq<Step>, done: set<string>)
    requires SubjectsPrecede(remaining)
    ensures SubjectsPrecede(Scan(remaining, done).rest)
    ensures Outputs(Scan(remaining, done).rest) <= Outputs(remaining)
  {
    if remaining != [] && !IsBarrier(remaining[0]) {
      var k, more := remaining[0], Scan(remaining[1..], done);
      ScanKeepsSubjects(remaining[1..], done);
      assert remaining == [k] + remaining[1..];
      OutputsConcat([k], remaining[1..]);
      OutputsConcat([k], more.rest);
      assert ([k] + more.rest)[1..] == more.rest;
    }
  }

  // ----- swapping -----

  lemma SwapReads(run: Runner, a: Step, b: Step, tail: seq<Step>, inputName: string, r: Env, log: Log)
    requires Framed(run, a, inputName) && Framed(run, b, inputName)
    requires KeepsTheWorld(run, a) && KeepsTheWorld(run, b)
    requires InputSources(a) <= r.Keys && InputSources(b) <= r.Keys && BRANCH !in r
    requires a.output !in Reads(b, inputName) && b.output !in Reads(a, inputName)
    requires a.output != b.output && a.output != BRANCH && b.output != BRANCH
    ensures RunWith(run, [a] + ([b] + tail), r, log) == RunWith(run, [b] + ([a] + tail), r, log)
  {
    hide RunWith, Reads, InputSources;
    var ra, rb := run(a, r, log), run(b, r, log);
    RunCons(run, a, [b] + tail, r, log);
    RunCons(run, b, [a] + tail, r, log);
    if ra.Done? {
      var r1 := r[a.output := ra.value];
      RunCons(run, b, tail, r1, log);
      assert Agree(r, r1, Reads(b, inputName));
      assert run(b, r1, log) == rb;
    }
    if rb.Done? {
      var r2 := r[b.output := rb.value];
      RunCons(run, a, tail, r2, log);
      assert Agree(r, r2, Reads(a, inputName));
      assert run(a, r2, log) == ra;
    }
    if ra.Done? && rb.Done? {
      assert r[a.output := ra.value][b.output := rb.value] == r[b.output := rb.value][a.output := ra.value];
    }
  }

  /** The group members may all go ahead of a read `k` they do not depend on. */
  ghost predicate Overtakes(group: seq<Step>, k: Step, known: set<string>, inputName: string) {
    && inputName in known && InputSources(k) <= known && k.output !in known && !IsBarrier(k)
    && Outputs(group) !! known + {k.output}
    && (forall s :: s in group ==> !IsBarrier(s) && InputSources(s) <= known)
    && Outputs(group) !! SubjectSet(k) && (forall s :: s in group ==> k.output !in SubjectSet(s))
  }

  lemma {:induction false} BubbleRead(
    run: Runner, k: Step, group: seq<Step>, tail: seq<Step>, inputName: string, known: set<string>, r: Env, log: Log)
    requires Schedulable(run, [k] + group, inputName) && Overtakes(group, k, known, inputName)
    requires BRANCH !in r && BRANCH !in Outputs(group) && k.output != BRANCH
    requires InputSources(k) <= r.Keys && (forall s :: s in group ==> InputSources(s) <= r.Keys)
    ensures RunWith(run, [k] + (group + tail), r, log) == RunWith(run, group + ([k] + tail), r, log)
    decreases |group|
  {
    if group == [] {
      assert group + tail == tail && group + ([k] + tail) == [k] + tail;
    } else {
      var s, group', after := group[0], group[1..], group[1..] + tail;
      assert s in group && s.output in Outputs(group);
      assert k in [k] + group && s in [k] + group;
      assert group + tail == [s] + after && group + ([k] + tail) == [s] + (group' + ([k] + tail));
      SwapReads(run, k, s, after, inputName, r, log);
      RunCons(run, s, [k] + after, r, log);
      RunCons(run, s, group' + ([k] + tail), r, log);
      var rs := run(s, r, log);
      if rs.Done? {
        assert forall t :: t in [k] + group' ==> t in [k] + group;
        assert Outputs(group') <= Outputs(group);
        BubbleRead(run, k, group', tail, inputName, known, r[s.output := rs.value], log);
      }
    }
  }

  /** A step that is passed over may as well run after the group that overtakes it. */
  lemma PassedOver(
    run: Runner, k: Step, t: seq<Step>, done: set<string>, inputName: string, known: set<string>, r: Env, log: Log)
    requires Schedulable(run, [k] + t, inputName) && Declared([k] + t, known) && !IsBarrier(k)
    requires inputName in known && known <= r.Keys + {inputName} && done <= known && done <= r.Keys
    requires BRANCH !in r && BRANCH !in Outputs([k] + t)
    requires forall s :: s in [k] + t && inputName in InputSources(s) ==> inputName in r
    requires SubjectsPrecede([k] + t) && Undecided(Scan(t, done).group, {k.output})
    ensures var more := Scan(t, done);
            RunWith(run, [k] + (more.group + more.rest), r, log) == RunWith(run, more.group + ([k] + more.rest), r, log)
  {
    var more := Scan(t, done);
    assert ([k] + t)[1..] == t && k in [k] + t;
    ScanKeepsOrder(t, done, known + {k.output});
    OutputsConcat([k], t);
    assert k.output in Outputs([k] + t);
    assert forall s :: s in [k] + more.group ==> s in [k] + t;
    assert Outputs(more.group) <= Outputs(t);
    BubbleRead(run, k, more.group, more.rest, inputName, known, r, log);
  }

  /** What it takes for a scan of the remaining steps to be a harmless reordering. */
  ghost predicate Reorderable(
    run: Runner, remaining: seq<Step>, done: set<string>, inputName: string, known: set<string>, r: Env)
  {
    && Schedulable(run, remaining, inputName) && Declared(remaining, known)
    && inputName in known && known <= r.Keys + {inputName} && done <= known && done <= r.Keys
    && BRANCH !in r && BRANCH !in Outputs(remaining)
    && (forall s :: s in remaining && inputName in InputSources(s) ==> inputName in r)
    && SubjectsPrecede(remaining) && Undecided(Scan(remaining, done).group, Outputs(Scan(remaining, done).rest))
  }

  lemma ReorderableTail(
    run: Runner, k: Step, t: seq<Step>, done: set<string>, inputName: string, known: set<string>, r: Env, v: Value)
    requires Reorderable(run, [k] + t, done, inputName, known, r) && !IsBarrier(k)
    requires DepsDone(k, done) || k.inputs == []
    ensures Reorderable(run, t, done, inputName, known + {k.output}, r[k.output := v])
  {
    var remaining, more := [k] + t, Scan(t, done);
    assert remaining[1..] == t && remaining[0] == k && k in remaining && forall s :: s in t ==> s in remaining;
    OutputsConcat([k], t);
    assert k.output in Outputs([k]);
    var scanned := Scan(remaining, done);
    assert Outputs(more.rest) <= Outputs(scanned.rest) && forall s :: s in more.group ==> s in scanned.group;
  }

  lemma {:induction false} ScanReorders(
    run: Runner, remaining: seq<Step>, done: set<string>, inputName: string, known: set<string>, r: Env, log: Log)
    requires Reorderable(run, remaining, done, inputName, known, r)
    ensures var scanned := Scan(remaining, done);
            RunWith(run, remaining, r, log) == RunWith(run, scanned.group + scanned.rest, r, log)
    decreases |remaining|, 0
  {
    hide Declared, Reads, RunWith, SubjectsPrecede;
    var scanned := Scan(remaining, done);
    if remaining == [] || IsBarrier(remaining[0]) || (!DepsDone(remaining[0], done) && remaining[0].inputs != []) {
      assert scanned.group + scanned.rest == remaining;
    } else {
      var k, t := remaining[0], remaining[1..];
      var more := Scan(t, done);
      assert remaining == [k] + t;
      TailReorders(run, k, t, done, inputName, known, r, log);
      if DepsDone(k, done) {
        assert scanned.group + scanned.rest == [k] + (more.group + more.rest);
      } else {
        DelayedReorders(run, k, t, done, inputName, known, r, log);
      }
    }
  }

  /** A step that must wait is overtaken by the group that is taken after it. */
  lemma DelayedReorders(
    run: Runner, k: Step, t: seq<Step>, done: set<string>, inputName: string, known: set<string>, r: Env, log: Log)
    requires Reorderable(run, [k] + t, done, inputName, known, r)
    requires !IsBarrier(k) && !DepsDone(k, done) && k.inputs == []
    ensures var scanned, more := Scan([k] + t, done), Scan(t, done);
            RunWith(run, [k] + (more.group + more.rest), r, log) == RunWith(run, scanned.group + scanned.rest, r, log)
  {
    hide Declared, Reads, RunWith, SubjectsPrecede, Schedulable;
    var scanned, more := Scan([k] + t, done), Scan(t, done);
    assert ([k] + t)[1..] == t;
    assert scanned.group + scanned.rest == more.group + ([k] + more.rest);
    assert k in scanned.rest && k.output in Outputs(scanned.rest);
    PassedOver(run, k, t, done, inputName, known, r, log);
  }

  lemma {:induction false} TailReorders(
    run: Runner, k: Step, t: seq<Step>, done: set<string>, inputName: string, known: set<string>, r: Env, log: Log)
    requires Reorderable(run, [k] + t, done, inputName, known, r) && !IsBarrier(k)
    requires DepsDone(k, done) || k.inputs == []
    ensures RunWith(run, [k] + t, r, log) == RunWith(run, [k] + (Scan(t, done).group + Scan(t, done).rest), r, log)
    decreases |t|, 1
  {
    RunCons(run, k, t, r, log);
    RunCons(run, k, Scan(t, done).group + Scan(t, done).rest, r, log);
    assert k in [k] + t && KeepsTheWorld(run, k);
    var rk := run(k, r, log);
    if rk.Done? {
      ReorderableTail(run, k, t, done, inputName, known, r, rk.value);
      ScanReorders(run, t, done, inputName, known + {k.output}, r[k.output := rk.value], log);
    }
  }

  /** What it takes for the layers to be as good as the declared order. */
  ghost predicate Layerable(run: Runner, remaining: seq<Step>, done: set<string>, inputName: string, r: Env) {
    && Schedulable(run, remaining, inputName) && Declared(remaining, done + {inputName})
    && done <= r.Keys && BRANCH !in r && BRANCH !in Outputs(remaining)
    && (forall s :: s in remaining && inputName in InputSources(s) ==> inputName in r)
    && Layers(remaining, done).Ok? && SubjectsPrecede(remaining) && Settled(Layers(remaining, done).value)
  }

  /** Taking a group of reads out leaves steps whose order and subjects are as good. */
  lemma GroupLeavesOrder(remaining: seq<Step>, done: set<string>, inputName: string)
    requires Declared(remaining, done + {inputName}) && SubjectsPrecede(remaining)
    requires remaining != [] && !IsBarrier(remaining[0])
    requires Layers(remaining, done).Ok? && Settled(Layers(remaining, done).value)
    ensures var scanned, done' := Scan(remaining, done), done + Outputs(Scan(remaining, done).group);
            && Declared(scanned.rest, done' + {inputName}) && SubjectsPrecede(scanned.rest)
            && Layers(scanned.rest, done').Ok? && Settled(Layers(scanned.rest, done').value)
            && Undecided(scanned.group, Outputs(scanned.rest))
            && Outputs(scanned.group) <= Outputs(remaining) && Outputs(scanned.rest) <= Outputs(remaining)
            && (forall s :: s in scanned.group || s in scanned.rest ==> s in remaining)
  {
    var scanned := Scan(remaining, done);
    var done' := done + Outputs(scanned.group);
    var layers := Layers(scanned.rest, done').value;
    assert ([scanned.group] + layers)[1..] == layers;
    ScanKeepsOrder(remaining, done, done + {inputName});
    ScanKeepsSubjects(remaining, done);
    LayersPartition(scanned.rest, done');
    SameMembers(Flatten(layers), scanned.rest);
    OutputsConcat(scanned.group, Flatten(layers));
    assert done + {inputName} + Outputs(scanned.group) == done' + {inputName};
  }

  /** A group of reads goes ahead of the rest, which is in turn fit to be layered. */
  lemma GroupGoesFirst(run: Runner, remaining: seq<Step>, done: set<string>, inputName: string, r: Env, log: Log)
    requires Layerable(run, remaining, done, inputName, r) && remaining != [] && !IsBarrier(remaining[0])
    ensures var scanned := Scan(remaining, done);
            && RunWith(run, remaining, r, log) == RunWith(run, scanned.group + scanned.rest, r, log)
            && (RunWith(run, scanned.group, r, log).EnvDone? ==>
                  Layerable(run, scanned.rest, done + Outputs(scanned.group), inputName,
                            RunWith(run, scanned.group, r, log).env))
  {
    hide RunWith, Declared, SubjectsPrecede, Settled, Scan, Layers, Undecided, Framed, KeepsTheWorld;
    var scanned := Scan(remaining, done);
    GroupLeavesOrder(remaining, done, inputName);
    ScanReorders(run, remaining, done, inputName, done + {inputName}, r, log);
    RunWithKeys(run, scanned.group, r, log);
  }

  /** A barrier runs where it stands, and what follows is in turn fit to be layered. */
  lemma BarrierGoesFirst(run: Runner, s: Step, t: seq<Step>, done: set<string>, inputName: string, r: Env, v: Value)
    requires Layerable(run, [s] + t, done, inputName, r) && IsBarrier(s)
    ensures Layerable(run, t, done + {s.output}, inputName, r[s.output := v])
  {
    hide RunWith, Reads, InputSources;
    var remaining := [s] + t;
    assert remaining[1..] == t && s in remaining && s.output in Outputs(remaining) && Outputs(t) <= Outputs(remaining);
    var layers := Layers(t, done + {s.output}).value;
    assert ([[s]] + layers)[1..] == layers;
    assert done + {inputName} + {s.output} == done + {s.output} + {inputName};
  }

  /** Running the layers one after another is running the steps as declared. */
  lemma {:induction false} LayersReorder(
    run: Runner, remaining: seq<Step>, done: set<string>, inputName: string, r: Env, log: Log)
    requires Layerable(run, remaining, done, inputName, r)
    ensures RunWith(run, remaining, r, log) == RunWith(run, Flatten(Layers(remaining, done).value), r, log)
    decreases |remaining|
  {
    hide Schedulable, Declared, SubjectsPrecede, Settled, InputSources, IsBarrier, RunWith;
    if remaining == [] {
      assert Flatten(Layers(remaining, done).value) == [];
    } else if IsBarrier(remaining[0]) {
      var s, t := remaining[0], remaining[1..];
      var layers := Layers(t, done + {s.output}).value;
      assert ([[s]] + layers)[1..] == layers && remaining == [s] + t;
      RunCons(run, s, t, r, log);
      RunCons(run, s, Flatten(layers), r, log);
      var rs := run(s, r, log);
      if rs.Done? {
        BarrierGoesFirst(run, s, t, done, inputName, r, rs.value);
        LayersReorder(run, t, done + {s.output}, inputName, r[s.output := rs.value], rs.log);
      }
    } else {
      var scanned := Scan(remaining, done);
      var done' := done + Outputs(scanned.group);
      var layers := Layers(scanned.rest, done').value;
      assert ([scanned.group] + layers)[1..] == layers;
      GroupGoesFirst(run, remaining, done, inputName, r, log);
      RunWithConcat(run, scanned.group, scanned.rest, r, log);
      RunWithConcat(run, scanned.group, Flatten(layers), r, log);
      var ran := RunWith(run, scanned.group, r, log);
      if ran.EnvDone? {
        LayersReorder(run, scanned.rest, done', inputName, ran.env, ran.log);
      }
    }
  }

  // ----- what the layers guarantee -----

  /** Each layer's steps read what is bound before the layer, never each other's results. */
  ghost predicate Ready(layers: seq<seq<Step>>, done: set<string>, inputName: string)
  {
    layers != [] ==>
      && (forall s :: s in layers[0] ==> InputSources(s) <= done)
      && Outputs(layers[0]) !! done + {inputName}
      && Ready(layers[1..], done + Outputs(layers[0]), inputName)
  }

  lemma LayersAreReady(remaining: seq<Step>, done: set<string>, inputName: string)
    requires Declared(remaining, done + {inputName}) && Layers(remaining, done).Ok?
    ensures Ready(Layers(remaining, done).value, done, inputName)
    decreases |remaining|
  {
    if remaining != [] {
      var s, known := remaining[0], done + {inputName};
      if IsBarrier(s) {
        var layers := Layers(remaining[1..], done + {s.output}).value;
        assert ([[s]] + layers)[1..] == layers;
        assert known + {s.output} == done + {s.output} + {inputName};
        LayersAreReady(remaining[1..], done + {s.output}, inputName);
        assert Outputs([s]) == {s.output};
      } else {
        var scanned := Scan(remaining, done);
        var done' := done + Outputs(scanned.group);
        var layers := Layers(scanned.rest, done').value;
        assert ([scanned.group] + layers)[1..] == layers;
        ScanKeepsOrder(remaining, done, known);
        assert known + Outputs(scanned.group) == done' + {inputName};
        LayersAreReady(scanned.rest, done', inputName);
      }
    }
  }

  lemma CountCons(k: Step, s: seq<Step>)
    ensures multiset([k] + s) == multiset{k} + multiset(s)
  {
  }

  lemma {:induction false} ScanPartitions(remaining: seq<Step>, done: set<string>)
    ensures multiset(Scan(remaining, done).group) + multiset(Scan(remaining, done).rest) == multiset(remaining)
  {
    hide InputSources, IsBarrier, DepsDone;
    if remaining != [] && !IsBarrier(remaining[0]) && (DepsDone(remaining[0], done) || remaining[0].inputs == []) {
      var k, t := remaining[0], remaining[1..];
      var more := Scan(t, done);
      ScanPartitions(t, done);
      assert remaining == [k] + t;
      CountCons(k, t);
      CountCons(k, more.group);
      CountCons(k, more.rest);
    }
  }

  lemma ReadyStepIsTaken(remaining: seq<Step>, done: set<string>)
    requires remaining != [] && DepsDone(remaining[0], done) && !IsBarrier(remaining[0])
    ensures Scan(remaining, done).group != []
  {
  }

  /** The layers hold every step exactly once. */
  lemma LayersPartition(remaining: seq<Step>, done: set<string>)
    requires Layers(remaining, done).Ok?
    ensures multiset(Flatten(Layers(remaining, done).value)) == multiset(remaining)
    decreases |remaining|
  {
    hide InputSources, IsBarrier, DepsDone, Scan;
    if remaining != [] {
      var s := remaining[0];
      if IsBarrier(s) {
        var layers := Layers(remaining[1..], done + {s.output}).value;
        assert ([[s]] + layers)[1..] == layers;
        LayersPartition(remaining[1..], done + {s.output});
        assert remaining == [s] + remaining[1..];
      } else {
        var scanned := Scan(remaining, done);
        var done' := done + Outputs(scanned.group);
        var layers := Layers(scanned.rest, done').value;
        ScanPartitions(remaining, done);
        ReadyStepIsTaken(remaining, done);
        LayersPartition(scanned.rest, done');
        assert Layers(remaining, done).value == [scanned.group] + layers;
        assert ([scanned.group] + layers)[1..] == layers;
      }
    }
  }

  lemma LayeredSources(layers: seq<seq<Step>>, done: set<string>, inputName: string)
    requires Ready(layers, done, inputName)
    ensures forall s :: s in Flatten(layers) ==> InputSources(s) <= done + Outputs(Flatten(layers))
  {
    if layers != [] {
      LayeredSources(layers[1..], done + Outputs(layers[0]), inputName);
      OutputsConcat(layers[0], Flatten(layers[1..]));
    }
  }

  lemma LaterWithin(layers: seq<seq<Step>>, steps: seq<Step>)
    requires layers != [] && AllWithin(layers, steps)
    ensures AllWithin(layers[1..], steps)
  {
    forall k, s | 0 <= k < |layers[1..]| && s in layers[1..][k] ensures s in steps {
      assert s in layers[k + 1];
    }
  }

  lemma SameMembers(a: seq<Step>, b: seq<Step>)
    requires multiset(a) == multiset(b)
    ensures forall s :: s in a <==> s in b
    ensures Outputs(a) == Outputs(b)
  {
    forall s ensures s in a <==> s in b {
      assert s in a <==> s in multiset(a);
      assert s in b <==> s in multiset(b);
    }
  }
}
