/**
 The content-addressed store and its lease-backed mark-sweep. A lease keeps a bundle's closure: its
 manifest, its signature, and every blob the manifest names.
 */
module Collector {
  import opened Values

  type Bytes = seq<bv8>

  /** A lease on a bundle, with the digest of its detached signature if there is one. */
  datatype Lease = Lease(bundle: string, signature: Option<string>)

  /** The hash and the JSON reader the store is used with. Nothing is assumed of either. */
  datatype Codec = Codec(hash: Bytes -> string, json: Bytes -> Option<Value>)

  /** A full lowercase sha256 hex digest. */
  predicate IsDigest(s: string) {
    |s| == 64 && forall c | c in s :: '0' <= c <= '9' || 'a' <= c <= 'f'
  }

  predicate IsLease(lease: Lease) {
    IsDigest(lease.bundle) && (lease.signature.Some? ==> IsDigest(lease.signature.value))
  }

  type Objects = map<string, Bytes>

  // ----- reading -----

  function Stored(codec: Codec, objects: Objects, digest: string): Result<Bytes> {
    if IsDigest(digest) && digest in objects && codec.hash(objects[digest]) == digest then Ok(objects[digest]) else Err
  }

  function Entry(record: Env, key: string): Value {
    if key in record then record[key] else Null
  }

  function DigestOf(v: Value): Result<string> {
    if v.Str? && IsDigest(v.s) then Ok(v.s) else Err
  }

  /** The digests one pure of a manifest names: its source, and its environment if it has one. */
  function PureDigests(pure: Value): Result<set<string>> {
    if !pure.Rec? then Err
    else
      var source :- DigestOf(Entry(pure.fields, "source"));
      var envHash, component := Entry(pure.fields, "envHash"), Entry(pure.fields, "envComponent");
      if envHash != Null then
        var _ :- DigestOf(envHash);
        var environment :- DigestOf(component);
        Ok({source, environment})
      else if component != Null then
        var environment :- DigestOf(component);
        Ok({source, environment})
      else Ok({source})
  }

  function PuresDigests(pures: seq<Value>): Result<set<string>> {
    if pures == [] then Ok({})
    else
      var before :- PuresDigests(pures[..|pures| - 1]);
      var last :- PureDigests(pures[|pures| - 1]);
      Ok(before + last)
  }

  function ManifestDigests(manifest: Value): Result<set<string>> {
    if !manifest.Rec? then Err
    else
      var components :- DigestOf(Entry(manifest.fields, "artifactComponents"));
      var flow :- DigestOf(Entry(manifest.fields, "flow"));
      var pures := Entry(manifest.fields, "pures");
      if !pures.List? then Err
      else
        var named :- PuresDigests(pures.items);
        Ok({components, flow} + named)
  }

  /** Every digest a lease keeps, or an error if the manifest cannot be read to the end. */
  function Closure(codec: Codec, objects: Objects, lease: Lease): Result<set<string>> {
    var bytes :- Stored(codec, objects, lease.bundle);
    match codec.json(bytes)
    case None => Err
    case Some(manifest) =>
      var named :- ManifestDigests(manifest);
      Ok({lease.bundle} + (if lease.signature.Some? then {lease.signature.value} else {}) + named)
  }

  ghost function Closures(codec: Codec, objects: Objects, leases: map<string, Lease>)
    : map<string, Result<set<string>>>
  {
    map b | b in leases :: Closure(codec, objects, leases[b])
  }

  /** The union of the closures, refused as a whole if any one of them is incomputable. */
  ghost function Union(closures: map<string, Result<set<string>>>): Result<set<string>> {
    if exists b :: b in closures && closures[b].Err? then Err
    else Ok(set b, d | b in closures && d in closures[b].value :: d)
  }

  ghost function Reachable(codec: Codec, objects: Objects, leases: map<string, Lease>): Result<set<string>> {
    Union(Closures(codec, objects, leases))
  }

  ghost predicate Holds(codec: Codec, objects: Objects, lease: Lease, d: string) {
    Closure(codec, objects, lease).Ok? && d in Closure(codec, objects, lease).value
  }

  lemma ReachableMeans(codec: Codec, objects: Objects, leases: map<string, Lease>)
    ensures Reachable(codec, objects, leases).Ok?
            <==> forall b :: b in leases ==> Closure(codec, objects, leases[b]).Ok?
    ensures Reachable(codec, objects, leases).Ok? ==>
              forall d :: d in Reachable(codec, objects, leases).value <==>
                          exists b :: b in leases && Holds(codec, objects, leases[b], d)
  {
    var closures := Closures(codec, objects, leases);
    assert forall b :: b in leases ==> closures[b] == Closure(codec, objects, leases[b]);
    if Union(closures).Ok? {
      forall d
        ensures d in Union(closures).value <==> exists b :: b in leases && Holds(codec, objects, leases[b], d)
      {
        if d in Union(closures).value {
          var b :| b in closures && d in closures[b].value;
          assert Holds(codec, objects, leases[b], d);
        }
      }
    } else {
      var b :| b in closures && closures[b].Err?;
      assert Closure(codec, objects, leases[b]).Err?;
    }
  }

  function Keep(objects: Objects, digests: set<string>): Objects {
    map d | d in objects && d in digests :: objects[d]
  }

  /** Every object's name is a digest, so the enumeration sees it. */
  ghost predicate Filed(objects: Objects) {
    forall d :: d in objects ==> IsDigest(d)
  }

  /** Every object sits under its own hash. */
  ghost predicate WellStored(codec: Codec, objects: Objects) {
    forall d :: d in objects ==> codec.hash(objects[d]) == d
  }

  ghost predicate WellLeased(leases: map<string, Lease>) {
    forall b :: b in leases ==> leases[b].bundle == b && IsLease(leases[b])
  }

  // ----- one operation at a time -----

  datatype State = State(objects: Objects, leases: map<string, Lease>)

  datatype Op = Put(data: Bytes) | Acquire(lease: Lease) | Release(bundle: string) | Gc(dryRun: bool, collectAll: bool)

  /** A write never replaces an object: a different one under the same hash is an integrity error. */
  function PutResult(codec: Codec, objects: Objects, data: Bytes): (r: Result<string>)
  {
    var digest := codec.hash(data);
    if !IsDigest(digest) || (digest in objects && objects[digest] != data) then Err else Ok(digest)
  }

  function Written(codec: Codec, objects: Objects, data: Bytes): Objects {
    if PutResult(codec, objects, data).Ok? then objects[codec.hash(data) := data] else objects
  }

  datatype Swept = Swept(reachable: set<string>, collectable: set<string>, deleted: set<string>)

  /** What a collection reports: nothing to delete unless every lease's closure is known. */
  ghost function Report(codec: Codec, s: State, dryRun: bool, collectAll: bool): Result<Swept> {
    if s.leases == map[] && !collectAll then Err
    else ReportOn(Reachable(codec, s.objects, s.leases), s.objects.Keys, dryRun)
  }

  function ReportOn(marks: Result<set<string>>, stored: set<string>, dryRun: bool): Result<Swept> {
    var reachable :- marks;
    Ok(Swept(reachable, stored - reachable, if dryRun then {} else stored - reachable))
  }

  ghost function Remaining(objects: Objects, report: Result<Swept>): Objects {
    if report.Ok? then Keep(objects, objects.Keys - report.value.deleted) else objects
  }

  ghost function Step(codec: Codec, s: State, op: Op): State {
    match op
    case Put(data) => s.(objects := Written(codec, s.objects, data))
    case Acquire(lease) => if IsLease(lease) then s.(leases := s.leases[lease.bundle := lease]) else s
    case Release(bundle) => if IsDigest(bundle) then s.(leases := s.leases - {bundle}) else s
    case Gc(dryRun, collectAll) => s.(objects := Remaining(s.objects, Report(codec, s, dryRun, collectAll)))
  }

  ghost function Run(codec: Codec, s: State, ops: seq<Op>): State
    decreases |ops|
  {
    if ops == [] then s else Run(codec, Step(codec, s, ops[0]), ops[1..])
  }

  // ----- what every run keeps -----

  ghost predicate Sane(codec: Codec, s: State) {
    Filed(s.objects) && WellStored(codec, s.objects) && WellLeased(s.leases)
  }

  lemma {:induction false} RunsStaySane(codec: Codec, s: State, ops: seq<Op>)
    requires Sane(codec, s)
    ensures Sane(codec, Run(codec, s, ops))
    decreases |ops|
  {
    if ops != [] {
      RunsStaySane(codec, Step(codec, s, ops[0]), ops[1..]);
    }
  }

  /** A write fails exactly when its hash is no digest or already names a different object. */
  lemma WritesFailOnlyOnCollision(codec: Codec, objects: Objects, data: Bytes)
    requires WellStored(codec, objects)
    ensures PutResult(codec, objects, data).Ok? <==>
            && IsDigest(codec.hash(data))
            && forall d :: d in objects && codec.hash(objects[d]) == codec.hash(data) ==> objects[d] == data
    ensures PutResult(codec, objects, data).Ok? ==>
            Stored(codec, Written(codec, objects, data), PutResult(codec, objects, data).value) == Ok(data)
    ensures forall d :: Stored(codec, objects, d).Ok? ==>
              Stored(codec, Written(codec, objects, data), d) == Stored(codec, objects, d)
  {
  }

  /** The whole of a lease's closure is known and can be read back. */
  ghost predicate Complete(codec: Codec, objects: Objects, lease: Lease) {
    && Closure(codec, objects, lease).Ok?
    && forall d :: d in Closure(codec, objects, lease).value ==> Stored(codec, objects, d).Ok?
  }

  ghost predicate Active(s: State, lease: Lease) {
    lease.bundle in s.leases && s.leases[lease.bundle] == lease
  }

  /** The lease is active before and after every operation of the run. */
  ghost predicate ActiveThroughout(codec: Codec, s: State, ops: seq<Op>, lease: Lease)
    decreases |ops|
  {
    Active(s, lease) && (ops != [] ==> ActiveThroughout(codec, Step(codec, s, ops[0]), ops[1..], lease))
  }

  lemma LeasedBytesSurviveStep(codec: Codec, s: State, op: Op, lease: Lease)
    requires Active(s, lease) && Closure(codec, s.objects, lease).Ok?
    ensures Closure(codec, Step(codec, s, op).objects, lease) == Closure(codec, s.objects, lease)
    ensures forall d :: d in Closure(codec, s.objects, lease).value && Stored(codec, s.objects, d).Ok? ==>
              Stored(codec, Step(codec, s, op).objects, d) == Stored(codec, s.objects, d)
  {
    var after := Step(codec, s, op).objects;
    var closure := Closure(codec, s.objects, lease).value;
    assert lease.bundle in closure;
    forall d | d in closure && Stored(codec, s.objects, d).Ok?
      ensures Stored(codec, after, d) == Stored(codec, s.objects, d)
    {
      if op.Gc? {
        var report := Report(codec, s, op.dryRun, op.collectAll);
        if report.Ok? {
          ReachableMeans(codec, s.objects, s.leases);
          assert Holds(codec, s.objects, s.leases[lease.bundle], d);
        }
      }
    }
  }

  /**
   Safety over every run: whatever else is put, leased, released or swept in between, a complete
   closure stays complete and byte for byte the same for as long as its lease is active.
   */
  lemma {:induction false} LeasedBytesSurvive(codec: Codec, s: State, ops: seq<Op>, lease: Lease)
    requires ActiveThroughout(codec, s, ops, lease) && Complete(codec, s.objects, lease)
    ensures Closure(codec, Run(codec, s, ops).objects, lease) == Closure(codec, s.objects, lease)
    ensures Complete(codec, Run(codec, s, ops).objects, lease)
    ensures forall d :: d in Closure(codec, s.objects, lease).value ==>
              Stored(codec, Run(codec, s, ops).objects, d) == Stored(codec, s.objects, d)
    decreases |ops|
  {
    if ops != [] {
      LeasedBytesSurviveStep(codec, s, ops[0], lease);
      LeasedBytesSurvive(codec, Step(codec, s, ops[0]), ops[1..], lease);
    }
  }

  // ----- what a sweep removes -----

  /** A real sweep leaves an object exactly if some lease's closure holds it. */
  lemma SweepIsExact(codec: Codec, s: State, collectAll: bool, d: string)
    requires Report(codec, s, false, collectAll).Ok?
    ensures d in Step(codec, s, Gc(false, collectAll)).objects <==>
            d in s.objects && exists b :: b in s.leases && Holds(codec, s.objects, s.leases[b], d)
  {
    ReachableMeans(codec, s.objects, s.leases);
  }

  /** A sweep that cannot know every closure, has no lease to go by, or is a dry run changes nothing. */
  lemma FailClosed(codec: Codec, s: State, dryRun: bool, collectAll: bool)
    ensures Report(codec, s, dryRun, collectAll).Ok? <==>
            && (s.leases != map[] || collectAll)
            && forall b :: b in s.leases ==> Closure(codec, s.objects, s.leases[b]).Ok?
    ensures dryRun || Report(codec, s, dryRun, collectAll).Err? ==> Step(codec, s, Gc(dryRun, collectAll)) == s
  {
    ReachableMeans(codec, s.objects, s.leases);
    assert Keep(s.objects, s.objects.Keys - {}) == s.objects;
  }

  lemma SweepKeepsReachable(codec: Codec, s: State, collectAll: bool)
    requires Report(codec, s, false, collectAll).Ok?
    ensures Reachable(codec, Step(codec, s, Gc(false, collectAll)).objects, s.leases)
            == Reachable(codec, s.objects, s.leases)
  {
    var after := Step(codec, s, Gc(false, collectAll)).objects;
    assert Closures(codec, after, s.leases) == Closures(codec, s.objects, s.leases) by {
      forall b | b in s.leases
        ensures Closure(codec, after, s.leases[b]) == Closure(codec, s.objects, s.leases[b])
      {
        ClosureSurvivesSweep(codec, s, collectAll, b);
      }
    }
  }

  lemma ClosureSurvivesSweep(codec: Codec, s: State, collectAll: bool, b: string)
    requires Report(codec, s, false, collectAll).Ok? && b in s.leases
    ensures Closure(codec, Step(codec, s, Gc(false, collectAll)).objects, s.leases[b])
            == Closure(codec, s.objects, s.leases[b])
  {
    ReachableMeans(codec, s.objects, s.leases);
    assert Holds(codec, s.objects, s.leases[b], s.leases[b].bundle);
  }

  /** A second sweep goes through and finds nothing. */
  lemma SecondSweepFindsNothing(codec: Codec, s: State, collectAll: bool)
    requires Report(codec, s, false, collectAll).Ok?
    ensures var after := Step(codec, s, Gc(false, collectAll));
            && Report(codec, after, false, collectAll)
               == Ok(Swept(Report(codec, s, false, collectAll).value.reachable, {}, {}))
            && Step(codec, after, Gc(false, collectAll)) == after
  {
    var after := Step(codec, s, Gc(false, collectAll));
    var marks := Reachable(codec, s.objects, s.leases);
    SweepKeepsReachable(codec, s, collectAll);
    NothingLeft(s.objects, marks);
    assert Report(codec, after, false, collectAll) == ReportOn(marks, after.objects.Keys, false);
  }

  lemma NothingLeft(objects: Objects, marks: Result<set<string>>)
    requires marks.Ok?
    ensures var after := Remaining(objects, ReportOn(marks, objects.Keys, false));
            && ReportOn(marks, after.Keys, false) == Ok(Swept(marks.value, {}, {}))
            && Remaining(after, Ok(Swept(marks.value, {}, {}))) == after
  {
    var after := Remaining(objects, ReportOn(marks, objects.Keys, false));
    assert after.Keys - marks.value == {};
  }

  // ----- the stores -----

  class LocalStore {
    const codec: Codec
    var objects: Objects

    constructor (codec: Codec)
      ensures this.codec == codec && objects == map[]
    {
      this.codec, objects := codec, map[];
    }

    method Put(data: Bytes) returns (r: Result<string>)
      modifies this
      ensures r == PutResult(codec, old(objects), data)
      ensures objects == Written(codec, old(objects), data)
    {
      var digest := codec.hash(data);
      if !IsDigest(digest) {
        return Err;
      }
      if digest in objects {
        var stored := objects[digest];
        if codec.hash(stored) != digest || stored != data {
          return Err;
        }
        assert objects[digest := data] == objects;
        return Ok(digest);
      }
      objects := objects[digest := data];
      return Ok(digest);
    }

    method Get(digest: string) returns (r: Result<Bytes>)
      ensures r == Stored(codec, objects, digest)
    {
      if !IsDigest(digest) || digest !in objects {
        return Err;
      }
      var data := objects[digest];
      return if codec.hash(data) != digest then Err else Ok(data);
    }

    /**
     What an answer is worth: without an object a read fails, with one it succeeds unless the bytes have
     changed, and a write of the bytes in question changes the store exactly if the object was not there.
     */
    method Has(digest: string) returns (r: Result<bool>)
      ensures r == if IsDigest(digest) then Ok(digest in objects) else Err
      ensures Stored(codec, objects, digest).Ok? ==> r == Ok(true)
      ensures r == Ok(true) && WellStored(codec, objects) ==> Stored(codec, objects, digest).Ok?
      ensures forall data :: PutResult(codec, objects, data) == Ok(digest) ==>
                (r == Ok(false) <==> Written(codec, objects, data) != objects)
    {
      return if IsDigest(digest) then Ok(digest in objects) else Err;
    }

    method Delete(digest: string)
      modifies this
      ensures objects == if IsDigest(digest) then old(objects) - {digest} else old(objects)
    {
      if IsDigest(digest) {
        objects := objects - {digest};
      }
    }
  }

  class LeaseStore {
    var leases: map<string, Lease>

    constructor ()
      ensures leases == map[]
    {
      leases := map[];
    }

    method Acquire(lease: Lease) returns (ok: bool)
      modifies this
      ensures ok == IsLease(lease)
      ensures leases == if ok then old(leases)[lease.bundle := lease] else old(leases)
    {
      ok := IsLease(lease);
      if ok {
        leases := leases[lease.bundle := lease];
      }
    }

    method Release(bundle: string) returns (ok: bool)
      modifies this
      ensures ok == IsDigest(bundle)
      ensures leases == if ok then old(leases) - {bundle} else old(leases)
    {
      ok := IsDigest(bundle);
      if ok {
        leases := leases - {bundle};
      }
    }
  }

  // ----- mark and sweep -----

  lemma {:induction false} BadPureSpoilsAll(pures: seq<Value>, i: nat)
    requires i < |pures| && PureDigests(pures[i]).Err?
    ensures PuresDigests(pures).Err?
  {
    if i < |pures| - 1 {
      BadPureSpoilsAll(pures[..|pures| - 1], i);
    }
  }

  method MarkPures(pures: seq<Value>, start: set<string>) returns (r: Result<set<string>>)
    ensures r == if PuresDigests(pures).Ok? then Ok(start + PuresDigests(pures).value) else Err
  {
    var reachable := start;
    for i := 0 to |pures|
      invariant PuresDigests(pures[..i]).Ok?
      invariant reachable == start + PuresDigests(pures[..i]).value
    {
      assert pures[..i + 1][..i] == pures[..i];
      var named := PureDigests(pures[i]);
      if named.Err? {
        BadPureSpoilsAll(pures, i);
        return Err;
      }
      reachable := reachable + named.value;
    }
    assert pures[..|pures|] == pures;
    return Ok(reachable);
  }

  method ReachableClosure(store: LocalStore, lease: Lease) returns (r: Result<set<string>>)
    ensures r == Closure(store.codec, store.objects, lease)
  {
    var reachable := {lease.bundle} + (if lease.signature.Some? then {lease.signature.value} else {});
    var bytes := store.Get(lease.bundle);
    if bytes.Err? {
      return Err;
    }
    var raw := store.codec.json(bytes.value);
    if raw.None? || !raw.value.Rec? {
      return Err;
    }
    var manifest := raw.value.fields;
    var components, flow, pures :=
      DigestOf(Entry(manifest, "artifactComponents")), DigestOf(Entry(manifest, "flow")), Entry(manifest, "pures");
    if components.Err? || flow.Err? || !pures.List? {
      return Err;
    }
    ghost var named := PuresDigests(pures.items);
    r := MarkPures(pures.items, reachable + {components.value, flow.value});
    if r.Ok? {
      assert reachable + {components.value, flow.value} + named.value
          == reachable + ({components.value, flow.value} + named.value);
    }
  }

  /** The marks of the leases under `done`. */
  ghost predicate Marked(closures: map<string, Result<set<string>>>, done: set<string>, marks: set<string>) {
    && (forall b :: b in done ==> b in closures && closures[b].Ok? && closures[b].value <= marks)
    && (forall d :: d in marks ==> exists b :: b in done && b in closures && closures[b].Ok? && d in closures[b].value)
  }

  lemma AllMarked(closures: map<string, Result<set<string>>>, marks: set<string>)
    requires Marked(closures, closures.Keys, marks)
    ensures Union(closures) == Ok(marks)
  {
    assert Union(closures).value == marks;
  }

  lemma OneMoreMarked(closures: map<string, Result<set<string>>>, done: set<string>, marks: set<string>, b: string)
    requires Marked(closures, done, marks) && b in closures && closures[b].Ok?
    ensures Marked(closures, done + {b}, marks + closures[b].value)
  {
    var more := marks + closures[b].value;
    forall d | d in more
      ensures exists c :: c in done + {b} && c in closures && closures[c].Ok? && d in closures[c].value
    {
      if d in marks {
        var c :| c in done && c in closures && closures[c].Ok? && d in closures[c].value;
        assert c in done + {b};
      } else {
        assert b in done + {b};
      }
    }
  }

  method MarkAll(store: LocalStore, leaseStore: LeaseStore) returns (r: Result<set<string>>)
    ensures r == Reachable(store.codec, store.objects, leaseStore.leases)
  {
    var leases := leaseStore.leases;
    ghost var closures := Closures(store.codec, store.objects, leases);
    var reachable: set<string>, pending := {}, leases.Keys;
    ghost var done: set<string> := {};
    while pending != {}
      invariant done + pending == leases.Keys && closures == Closures(store.codec, store.objects, leases)
      invariant Marked(closures, done, reachable)
      decreases |pending|
    {
      var bundle :| bundle in pending;
      var closure := ReachableClosure(store, leases[bundle]);
      if closure.Err? {
        assert closures[bundle].Err?;
        return Err;
      }
      OneMoreMarked(closures, done, reachable, bundle);
      done := done + {bundle};
      reachable, pending := reachable + closure.value, pending - {bundle};
    }
    AllMarked(closures, reachable);
    return Ok(reachable);
  }

  method Sweep(store: LocalStore, collectable: set<string>)
    requires Filed(store.objects) && collectable <= store.objects.Keys
    modifies store
    ensures store.objects == Keep(old(store.objects), old(store.objects).Keys - collectable)
  {
    var doomed := collectable;
    ghost var before := store.objects;
    while doomed != {}
      invariant doomed <= collectable
      invariant store.objects == Keep(before, before.Keys - (collectable - doomed))
      decreases |doomed|
    {
      var digest :| digest in doomed;
      store.Delete(digest);
      doomed := doomed - {digest};
    }
  }

  method Collect(store: LocalStore, leaseStore: LeaseStore, dryRun: bool, collectAll: bool) returns (r: Result<Swept>)
    requires Filed(store.objects)
    modifies store
    ensures r == Report(store.codec, State(old(store.objects), leaseStore.leases), dryRun, collectAll)
    ensures store.objects
         == Step(store.codec, State(old(store.objects), leaseStore.leases), Gc(dryRun, collectAll)).objects
  {
    if leaseStore.leases == map[] && !collectAll {
      return Err;
    }
    var marks := MarkAll(store, leaseStore);
    if marks.Err? {
      return Err;
    }
    var reachable := marks.value;
    var collectable := store.objects.Keys - reachable;
    if dryRun {
      FailClosed(store.codec, State(store.objects, leaseStore.leases), dryRun, collectAll);
      return Ok(Swept(reachable, collectable, {}));
    }
    Sweep(store, collectable);
    return Ok(Swept(reachable, collectable, collectable));
  }
}
