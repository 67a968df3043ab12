/**
 The comparison of an authored schema with a served one. A served schema may close objects the author
 had no syntax to close, and may differ in nothing else.
 */
module Schemas {
  import opened Values

  const CLOSED := "additionalProperties"

  predicate IsMapKeyword(k: string) {
    k in {"$defs", "definitions", "dependencies", "dependentSchemas", "patternProperties", "properties"}
  }

  predicate IsSequenceKeyword(k: string) {
    k in {"allOf", "anyOf", "oneOf", "prefixItems"}
  }

  predicate IsSubschemaKeyword(k: string) {
    k in {"additionalItems", CLOSED, "contains", "contentSchema", "else", "if", "items", "not", "propertyNames",
          "then", "unevaluatedItems", "unevaluatedProperties"}
  }

  // ----- the normalizer -----

  function Normalize(expected: Value, served: Value): Value
    decreases served, 2
  {
    if !expected.Rec? || !served.Rec? then served
    else
      Rec(map k | k in served.fields && !(k == CLOSED && served.fields[k] == Bool(false) && k !in expected.fields) ::
        if k in expected.fields then NormalizeUnder(k, expected.fields[k], served.fields[k]) else served.fields[k])
  }

  function NormalizeUnder(k: string, expected: Value, served: Value): Value
    decreases served, 3
  {
    if IsMapKeyword(k) then
      if expected.Rec? && served.Rec? then
        Rec(map name | name in served.fields ::
          if name in expected.fields then Normalize(expected.fields[name], served.fields[name])
          else served.fields[name])
      else served
    else if IsSequenceKeyword(k) then
      if expected.List? && served.List? then List(NormalizeItems(expected.items, served.items)) else served
    else if IsSubschemaKeyword(k) then
      if expected.List? && served.List? then List(NormalizeItems(expected.items, served.items))
      else Normalize(expected, served)
    else served
  }

  function NormalizeItems(expected: seq<Value>, served: seq<Value>): (r: seq<Value>)
    ensures |r| == |served|
    ensures forall i :: 0 <= i < |served| ==>
              r[i] == if i < |expected| then Normalize(expected[i], served[i]) else served[i]
    decreases served, 0
  {
    seq(|served|, i requires 0 <= i < |served| =>
      if i < |expected| then Normalize(expected[i], served[i]) else served[i])
  }

  predicate Match(expected: Value, served: Value) {
    expected == served || expected == Normalize(expected, served)
  }

  // ----- closing one object -----

  /** What a value is to a reader of schemas: an object of keywords, a map or list of schemas, or data. */
  datatype Shape = Keywords | Names | Items | Opaque

  datatype Hop = Key(name: string) | Item(index: nat)

  function SchemaShape(v: Value): Shape {
    if v.Rec? then Keywords else Opaque
  }

  function ShapeUnder(k: string, v: Value): Shape {
    if IsMapKeyword(k) then (if v.Rec? then Names else Opaque)
    else if IsSequenceKeyword(k) then (if v.List? then Shape.Items else Opaque)
    else if IsSubschemaKeyword(k) then (if v.List? then Shape.Items else SchemaShape(v))
    else Opaque
  }

  predicate Has(v: Value, hop: Hop) {
    match hop
    case Key(name) => v.Rec? && name in v.fields
    case Item(i) => v.List? && i < |v.items|
  }

  function At(v: Value, hop: Hop): (r: Value)
    requires Has(v, hop)
    ensures r < v
  {
    if hop.Key? then v.fields[hop.name] else v.items[hop.index]
  }

  function Put(v: Value, hop: Hop, w: Value): Value
    requires Has(v, hop)
  {
    if hop.Key? then Rec(v.fields[hop.name := w]) else List(v.items[hop.index := w])
  }

  /** The shape of the part of `v` one hop in. */
  function Inner(shape: Shape, v: Value, hop: Hop): Shape
    requires Has(v, hop)
  {
    match shape
    case Keywords => if hop.Key? then ShapeUnder(hop.name, At(v, hop)) else Opaque
    case Names => if hop.Key? then SchemaShape(At(v, hop)) else Opaque
    case Items => if hop.Item? then SchemaShape(At(v, hop)) else Opaque
    case Opaque => Opaque
  }

  /** Insert `additionalProperties: false` into the schema at the end of the path, if it has no such key. */
  function Close(shape: Shape, v: Value, path: seq<Hop>): Option<Value>
    decreases |path|
  {
    if path == [] then
      if shape.Keywords? && v.Rec? && CLOSED !in v.fields then Some(Rec(v.fields[CLOSED := Bool(false)])) else None
    else if !Has(v, path[0]) then None
    else
      var inner := Close(Inner(shape, v, path[0]), At(v, path[0]), path[1..]);
      if inner.None? then None else Some(Put(v, path[0], inner.value))
  }

  function CloseAll(shape: Shape, v: Value, paths: seq<seq<Hop>>): Option<Value>
    decreases |paths|
  {
    if paths == [] then Some(v)
    else
      var first := Close(shape, v, paths[0]);
      if first.None? then None else CloseAll(shape, first.value, paths[1..])
  }

  /** `w` is `v` with some of its open schemas closed. */
  ghost predicate Closing(shape: Shape, v: Value, w: Value) {
    exists paths :: CloseAll(shape, v, paths) == Some(w)
  }

  // ----- the same, by structure -----

  ghost predicate Below(shape: Shape, e: Value, s: Value)
    decreases e
  {
    if shape.Opaque? then e == s
    else if shape.Items? then
      && e.List? && s.List? && |e.items| == |s.items|
      && forall i :: 0 <= i < |e.items| ==> Below(SchemaShape(e.items[i]), e.items[i], s.items[i])
    else
      && e.Rec? && s.Rec? && e.fields.Keys <= s.fields.Keys
      && (forall k :: k in s.fields && k !in e.fields ==> shape.Keywords? && k == CLOSED && s.fields[k] == Bool(false))
      && forall k :: k in e.fields ==> Below(Inner(shape, e, Key(k)), e.fields[k], s.fields[k])
  }

  // ----- the order -----

  predicate SameKind(v: Value, w: Value) {
    (v.Rec? <==> w.Rec?) && (v.List? <==> w.List?)
  }

  lemma {:induction false} BelowReflexive(shape: Shape, v: Value)
    requires FitsShape(shape, v)
    ensures Below(shape, v, v)
    decreases v
  {
    if shape.Items? {
      forall i | 0 <= i < |v.items| ensures Below(SchemaShape(v.items[i]), v.items[i], v.items[i]) {
        BelowReflexive(SchemaShape(v.items[i]), v.items[i]);
      }
    } else if !shape.Opaque? {
      forall k | k in v.fields ensures Below(Inner(shape, v, Key(k)), v.fields[k], v.fields[k]) {
        BelowReflexive(Inner(shape, v, Key(k)), v.fields[k]);
      }
    }
  }

  predicate FitsShape(shape: Shape, v: Value) {
    match shape
    case Opaque => true
    case Items => v.List?
    case Keywords => v.Rec?
    case Names => v.Rec?
  }

  lemma {:induction false} BelowAntisymmetric(shape: Shape, v: Value, w: Value)
    requires Below(shape, v, w) && Below(shape, w, v)
    ensures v == w
    decreases v
  {
    if shape.Items? {
      forall i | 0 <= i < |v.items| ensures v.items[i] == w.items[i] {
        BelowAntisymmetric(SchemaShape(v.items[i]), v.items[i], w.items[i]);
      }
    } else if !shape.Opaque? {
      forall k | k in v.fields ensures v.fields[k] == w.fields[k] {
        BelowAntisymmetric(Inner(shape, v, Key(k)), v.fields[k], w.fields[k]);
      }
      assert v.fields == w.fields;
    }
  }

  lemma {:induction false} BelowTransitive(shape: Shape, u: Value, v: Value, w: Value)
    requires Below(shape, u, v) && Below(shape, v, w)
    ensures Below(shape, u, w)
    decreases u, 1
  {
    if shape.Items? {
      forall i | 0 <= i < |u.items| ensures Below(SchemaShape(u.items[i]), u.items[i], w.items[i]) {
        assert Below(SchemaShape(u.items[i]), u.items[i], v.items[i]);
        BelowTransitive(SchemaShape(u.items[i]), u.items[i], v.items[i], w.items[i]);
      }
    } else if !shape.Opaque? {
      FieldsTransitive(shape, u, v, w);
    }
  }

  /** A field that stands below another has the same shape in both, and stands below it there. */
  lemma FieldBelow(shape: Shape, e: Value, s: Value, k: string)
    requires Below(shape, e, s) && (shape.Keywords? || shape.Names?) && k in e.fields
    ensures k in s.fields && Inner(shape, e, Key(k)) == Inner(shape, s, Key(k))
    ensures Below(Inner(shape, e, Key(k)), e.fields[k], s.fields[k])
  {
    assert Below(Inner(shape, e, Key(k)), e.fields[k], s.fields[k]);
  }

  lemma {:induction false} FieldsTransitive(shape: Shape, u: Value, v: Value, w: Value)
    requires Below(shape, u, v) && Below(shape, v, w) && (shape.Keywords? || shape.Names?)
    ensures Below(shape, u, w)
    decreases u, 0
  {
    hide Inner, SchemaShape;
    forall k | k in u.fields ensures Below(Inner(shape, u, Key(k)), u.fields[k], w.fields[k]) {
      FieldBelow(shape, u, v, k);
      FieldBelow(shape, v, w, k);
      BelowTransitive(Inner(shape, u, Key(k)), u.fields[k], v.fields[k], w.fields[k]);
    }
  }

  // ----- normalizing decides the order -----

  lemma {:induction false} NormalizeDecides(e: Value, s: Value)
    ensures Normalize(e, s) == e <==> Below(SchemaShape(e), e, s)
    decreases s, 2
  {
    if e.Rec? && s.Rec? {
      var n := Normalize(e, s);
      forall k | k in e.fields && k in s.fields
        ensures n.fields[k] == e.fields[k] <==> Below(Inner(Keywords, e, Key(k)), e.fields[k], s.fields[k])
      {
        NormalizeUnderDecides(k, e.fields[k], s.fields[k]);
      }
      if Below(Keywords, e, s) {
        assert n.fields == e.fields;
      }
    }
  }

  lemma {:induction false} NormalizeUnderDecides(k: string, e: Value, s: Value)
    ensures NormalizeUnder(k, e, s) == e <==> Below(ShapeUnder(k, e), e, s)
    decreases s, 3
  {
    var n := NormalizeUnder(k, e, s);
    if IsMapKeyword(k) && e.Rec? && s.Rec? {
      forall name | name in e.fields && name in s.fields
        ensures n.fields[name] == e.fields[name] <==> Below(Inner(Names, e, Key(name)), e.fields[name], s.fields[name])
      {
        NormalizeDecides(e.fields[name], s.fields[name]);
      }
      if Below(Names, e, s) {
        assert n.fields == e.fields;
      }
    } else if !IsMapKeyword(k) && (IsSequenceKeyword(k) || IsSubschemaKeyword(k)) && e.List? && s.List? {
      forall i | 0 <= i < |e.items| && i < |s.items|
        ensures n.items[i] == e.items[i] <==> Below(SchemaShape(e.items[i]), e.items[i], s.items[i])
      {
        NormalizeDecides(e.items[i], s.items[i]);
      }
      if Below(Shape.Items, e, s) {
        assert n.items == e.items;
      }
    } else if !IsMapKeyword(k) && !IsSequenceKeyword(k) && IsSubschemaKeyword(k) {
      NormalizeDecides(e, s);
    }
  }

  // ----- normalizing only ever opens -----

  lemma {:induction false} NormalizeOpens(e: Value, s: Value)
    ensures Below(SchemaShape(s), Normalize(e, s), s)
    decreases s, 2
  {
    if e.Rec? && s.Rec? {
      var n := Normalize(e, s);
      forall k | k in n.fields ensures Below(Inner(Keywords, n, Key(k)), n.fields[k], s.fields[k]) {
        if k in e.fields {
          NormalizeUnderOpens(k, e.fields[k], s.fields[k]);
        } else {
          BelowReflexive(ShapeUnder(k, s.fields[k]), s.fields[k]);
        }
      }
    } else {
      BelowReflexive(SchemaShape(s), s);
    }
  }

  lemma {:induction false} NormalizeUnderOpens(k: string, e: Value, s: Value)
    ensures Below(ShapeUnder(k, s), NormalizeUnder(k, e, s), s)
    ensures SameKind(NormalizeUnder(k, e, s), s)
    decreases s, 3
  {
    var n := NormalizeUnder(k, e, s);
    if IsMapKeyword(k) && e.Rec? && s.Rec? {
      forall name | name in s.fields ensures Below(Inner(Names, n, Key(name)), n.fields[name], s.fields[name]) {
        if name in e.fields {
          NormalizeOpens(e.fields[name], s.fields[name]);
        } else {
          BelowReflexive(SchemaShape(s.fields[name]), s.fields[name]);
        }
      }
    } else if !IsMapKeyword(k) && (IsSequenceKeyword(k) || IsSubschemaKeyword(k)) && e.List? && s.List? {
      forall i | 0 <= i < |s.items| ensures Below(SchemaShape(n.items[i]), n.items[i], s.items[i]) {
        if i < |e.items| {
          NormalizeOpens(e.items[i], s.items[i]);
        } else {
          BelowReflexive(SchemaShape(s.items[i]), s.items[i]);
        }
      }
    } else if !IsMapKeyword(k) && !IsSequenceKeyword(k) && IsSubschemaKeyword(k) && !s.List? {
      NormalizeOpens(e, s);
    } else {
      BelowReflexive(ShapeUnder(k, s), s);
    }
  }

  lemma {:induction false} NormalizeIdempotent(e: Value, s: Value)
    ensures Normalize(e, Normalize(e, s)) == Normalize(e, s)
    decreases s, 2
  {
    if e.Rec? && s.Rec? {
      var n := Normalize(e, s);
      var again := Normalize(e, n);
      forall k | k in n.fields ensures k in again.fields && again.fields[k] == n.fields[k] {
        if k in e.fields {
          NormalizeUnderIdempotent(k, e.fields[k], s.fields[k]);
        }
      }
      assert again.fields == n.fields;
    }
  }

  lemma {:induction false} NormalizeUnderIdempotent(k: string, e: Value, s: Value)
    ensures NormalizeUnder(k, e, NormalizeUnder(k, e, s)) == NormalizeUnder(k, e, s)
    decreases s, 3
  {
    var n := NormalizeUnder(k, e, s);
    var again := NormalizeUnder(k, e, n);
    if IsMapKeyword(k) && e.Rec? && s.Rec? {
      forall name | name in n.fields ensures again.fields[name] == n.fields[name] {
        if name in e.fields {
          NormalizeIdempotent(e.fields[name], s.fields[name]);
        }
      }
      assert again.fields == n.fields;
    } else if !IsMapKeyword(k) && (IsSequenceKeyword(k) || IsSubschemaKeyword(k)) && e.List? && s.List? {
      forall i | 0 <= i < |n.items| ensures again.items[i] == n.items[i] {
        if i < |e.items| {
          NormalizeIdempotent(e.items[i], s.items[i]);
        }
      }
      assert again.items == n.items;
    } else if !IsMapKeyword(k) && !IsSequenceKeyword(k) && IsSubschemaKeyword(k) {
      NormalizeIdempotent(e, s);
      NormalizeOpens(e, s);
    }
  }

  // ----- the order is closing -----

  lemma {:induction false} OpaqueStaysOpen(v: Value, path: seq<Hop>)
    ensures Close(Opaque, v, path) == None
    decreases |path|
  {
    if path != [] && Has(v, path[0]) {
      OpaqueStaysOpen(At(v, path[0]), path[1..]);
    }
  }

  lemma {:induction false} CloseGoesUp(shape: Shape, v: Value, path: seq<Hop>)
    requires Close(shape, v, path).Some?
    ensures Below(shape, v, Close(shape, v, path).value)
    decreases |path|
  {
    var w := Close(shape, v, path).value;
    if path == [] {
      forall k | k in v.fields ensures Below(Inner(shape, v, Key(k)), v.fields[k], w.fields[k]) {
        BelowReflexive(Inner(shape, v, Key(k)), v.fields[k]);
      }
    } else {
      var hop := path[0];
      var inner := Inner(shape, v, hop);
      if inner.Opaque? {
        OpaqueStaysOpen(At(v, hop), path[1..]);
      }
      CloseGoesUp(inner, At(v, hop), path[1..]);
      if hop.Key? {
        forall k | k in v.fields ensures Below(Inner(shape, v, Key(k)), v.fields[k], w.fields[k]) {
          if k != hop.name {
            BelowReflexive(Inner(shape, v, Key(k)), v.fields[k]);
          }
        }
      } else {
        forall i | 0 <= i < |v.items| ensures Below(SchemaShape(v.items[i]), v.items[i], w.items[i]) {
          if i != hop.index {
            BelowReflexive(SchemaShape(v.items[i]), v.items[i]);
          }
        }
      }
    }
  }

  lemma {:induction false} CloseAllGoesUp(shape: Shape, v: Value, paths: seq<seq<Hop>>)
    requires FitsShape(shape, v) && CloseAll(shape, v, paths).Some?
    ensures Below(shape, v, CloseAll(shape, v, paths).value)
    decreases |paths|
  {
    if paths == [] {
      BelowReflexive(shape, v);
    } else {
      var first := Close(shape, v, paths[0]).value;
      CloseGoesUp(shape, v, paths[0]);
      CloseAllGoesUp(shape, first, paths[1..]);
      BelowTransitive(shape, v, first, CloseAll(shape, v, paths).value);
    }
  }

  lemma {:induction false} CloseAllConcat(shape: Shape, v: Value, first: seq<seq<Hop>>, second: seq<seq<Hop>>)
    requires CloseAll(shape, v, first).Some?
    ensures CloseAll(shape, v, first + second) == CloseAll(shape, CloseAll(shape, v, first).value, second)
    decreases |first|
  {
    if first == [] {
      assert first + second == second;
    } else {
      assert (first + second)[1..] == first[1..] + second;
      CloseAllConcat(shape, Close(shape, v, first[0]).value, first[1..], second);
    }
  }

  lemma ClosingTransitive(shape: Shape, u: Value, v: Value, w: Value)
    requires Closing(shape, u, v) && Closing(shape, v, w)
    ensures Closing(shape, u, w)
  {
    var first :| CloseAll(shape, u, first) == Some(v);
    var second :| CloseAll(shape, v, second) == Some(w);
    CloseAllConcat(shape, u, first, second);
    assert CloseAll(shape, u, first + second) == Some(w);
  }

  function Inside(hop: Hop, paths: seq<seq<Hop>>): seq<seq<Hop>>
    decreases |paths|
  {
    if paths == [] then [] else [[hop] + paths[0]] + Inside(hop, paths[1..])
  }

  lemma {:induction false} CloseInside(shape: Shape, v: Value, hop: Hop, paths: seq<seq<Hop>>)
    requires Has(v, hop) && CloseAll(Inner(shape, v, hop), At(v, hop), paths).Some?
    ensures CloseAll(shape, v, Inside(hop, paths))
         == Some(Put(v, hop, CloseAll(Inner(shape, v, hop), At(v, hop), paths).value))
    decreases |paths|
  {
    var inner := Inner(shape, v, hop);
    if paths == [] {
      assert Put(v, hop, At(v, hop)) == v by {
        if hop.Key? {
          assert v.fields[hop.name := v.fields[hop.name]] == v.fields;
        } else {
          assert v.items[hop.index := v.items[hop.index]] == v.items;
        }
      }
    } else {
      var w := Close(inner, At(v, hop), paths[0]).value;
      CloseGoesUp(inner, At(v, hop), paths[0]);
      assert ([hop] + paths[0])[1..] == paths[0];
      var next := Put(v, hop, w);
      assert Close(shape, v, [hop] + paths[0]) == Some(next);
      assert At(next, hop) == w && Inner(shape, next, hop) == inner;
      CloseInside(shape, next, hop, paths[1..]);
      PutTwice(v, hop, w, CloseAll(inner, w, paths[1..]).value);
    }
  }

  lemma PutTwice(v: Value, hop: Hop, first: Value, second: Value)
    requires Has(v, hop)
    ensures Put(Put(v, hop, first), hop, second) == Put(v, hop, second)
  {
    if hop.Key? {
      assert v.fields[hop.name := first][hop.name := second] == v.fields[hop.name := second];
    } else {
      assert v.items[hop.index := first][hop.index := second] == v.items[hop.index := second];
    }
  }

  lemma ClosingInside(shape: Shape, v: Value, hop: Hop, w: Value)
    requires Has(v, hop) && Closing(Inner(shape, v, hop), At(v, hop), w)
    ensures Closing(shape, v, Put(v, hop, w))
  {
    var paths :| CloseAll(Inner(shape, v, hop), At(v, hop), paths) == Some(w);
    CloseInside(shape, v, hop, paths);
  }

  function Mixed(e: Env, s: Env, from: set<string>): Env
    requires from <= e.Keys <= s.Keys
  {
    map k | k in e :: if k in from then s[k] else e[k]
  }

  lemma {:induction false} BelowIsClosing(shape: Shape, e: Value, s: Value)
    requires Below(shape, e, s)
    ensures Closing(shape, e, s)
    decreases e, 1, 0
  {
    if shape.Opaque? {
      assert CloseAll(shape, e, []) == Some(s);
    } else if shape.Items? {
      ItemsClosing(shape, e, s, |e.items|);
      assert s.items[..|e.items|] + e.items[|e.items|..] == s.items;
    } else {
      FieldsClosing(shape, e, s, e.fields.Keys);
      var mixed := Rec(Mixed(e.fields, s.fields, e.fields.Keys));
      if CLOSED in s.fields && CLOSED !in e.fields {
        assert mixed.fields[CLOSED := Bool(false)] == s.fields;
        assert CloseAll(shape, mixed, [[]]) == Some(s);
        ClosingTransitive(shape, e, mixed, s);
      } else {
        assert mixed.fields == s.fields;
      }
    }
  }

  lemma {:induction false} FieldsClosing(shape: Shape, e: Value, s: Value, from: set<string>)
    requires e.Rec? && (shape.Keywords? || shape.Names?) && Below(shape, e, s) && from <= e.fields.Keys
    ensures Closing(shape, e, Rec(Mixed(e.fields, s.fields, from)))
    decreases e, 0, |from|
  {
    if from == {} {
      assert Mixed(e.fields, s.fields, from) == e.fields;
      assert CloseAll(shape, e, []) == Some(e);
    } else {
      var k :| k in from;
      FieldsClosing(shape, e, s, from - {k});
      var before := Rec(Mixed(e.fields, s.fields, from - {k}));
      BelowIsClosing(Inner(shape, e, Key(k)), e.fields[k], s.fields[k]);
      ClosingInside(shape, before, Key(k), s.fields[k]);
      assert before.fields[k := s.fields[k]] == Mixed(e.fields, s.fields, from);
      ClosingTransitive(shape, e, before, Rec(Mixed(e.fields, s.fields, from)));
    }
  }

  lemma {:induction false} ItemsClosing(shape: Shape, e: Value, s: Value, n: nat)
    requires e.List? && shape.Items? && Below(shape, e, s) && n <= |e.items|
    ensures Closing(shape, e, List(s.items[..n] + e.items[n..]))
    decreases e, 0, n
  {
    hide ShapeUnder;
    if n == 0 {
      assert s.items[..n] + e.items[n..] == e.items;
      assert CloseAll(shape, e, []) == Some(e);
    } else {
      ItemsClosing(shape, e, s, n - 1);
      var before := List(s.items[..n - 1] + e.items[n - 1..]);
      BelowIsClosing(SchemaShape(e.items[n - 1]), e.items[n - 1], s.items[n - 1]);
      ClosingInside(shape, before, Item(n - 1), s.items[n - 1]);
      assert before.items[n - 1 := s.items[n - 1]] == s.items[..n] + e.items[n..];
      ClosingTransitive(shape, e, before, List(s.items[..n] + e.items[n..]));
    }
  }

  // ----- the match -----

  /** A served schema matches exactly if it is the authored one with some open schemas closed. */
  lemma MatchIsClosing(expected: Value, served: Value)
    ensures Match(expected, served) <==> Closing(SchemaShape(expected), expected, served)
  {
    var shape := SchemaShape(expected);
    NormalizeDecides(expected, served);
    if expected == served {
      BelowReflexive(shape, expected);
    }
    if Match(expected, served) {
      BelowIsClosing(shape, expected, served);
    }
    if Closing(shape, expected, served) {
      var paths :| CloseAll(shape, expected, paths) == Some(served);
      CloseAllGoesUp(shape, expected, paths);
    }
  }

  lemma MatchIsBelow(expected: Value, served: Value)
    ensures Match(expected, served) <==> Below(SchemaShape(expected), expected, served)
  {
    NormalizeDecides(expected, served);
    if expected == served {
      BelowReflexive(SchemaShape(expected), expected);
    }
  }

  lemma MatchIsPartialOrder(u: Value, v: Value, w: Value)
    ensures Match(u, u)
    ensures Match(u, v) && Match(v, u) ==> u == v
    ensures Match(u, v) && Match(v, w) ==> Match(u, w)
  {
    MatchIsBelow(u, v);
    MatchIsBelow(v, u);
    MatchIsBelow(v, w);
    MatchIsBelow(u, w);
    if Match(u, v) && Match(v, u) {
      BelowAntisymmetric(SchemaShape(u), u, v);
    }
    if Match(u, v) && Match(v, w) {
      BelowTransitive(SchemaShape(u), u, v, w);
    }
  }

  /** Whatever the author wrote, normalizing forgives only markers: it yields something the served schema closes. */
  lemma NormalizedServedIsMatched(expected: Value, served: Value)
    ensures Match(Normalize(expected, served), served)
  {
    NormalizeOpens(expected, served);
    MatchIsBelow(Normalize(expected, served), served);
  }
}
