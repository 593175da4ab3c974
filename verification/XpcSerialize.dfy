/** The serializer on the runtime's objects: it builds exactly the encoded tree
    (src/pal/apple/xpc.rs). */
module XpcSerialize {
  import opened Wrappers
  import opened XpcTypes
  import opened XpcCodec
  import opened XpcHeap
  import opened XpcOwnership

  /** to_xpc. On success one reference is owned more than before, that of the root, and everything
      created is held once, by its container or by that reference. On an error nothing is left
      behind exactly when no container was open. */
  method ToXpc(h: Runtime, v: Value) returns (r: Result<Ref>)
    requires h.Valid() && Typed(v)
    modifies h
    ensures h.Valid() && h.next >= old(h.next)
    ensures r.Ok? <==> Encode(v).Ok?
    ensures r.Ok? ==>
              && h.owned == old(h.owned) + multiset{r.value}
              && Built(old(h.nodes), old(h.rc), h.nodes, h.rc, old(h.next), r.value, Encode(v).value)
    ensures r.Err? ==> Failed(old(h.nodes), old(h.rc), old(h.owned), old(h.next), h.nodes, h.rc, h.owned, Bare(v))
    decreases v, 2
  {
    TypedParts(v);
    match v
    case Char(c) => r := MakeString(h, [c]);
    case Str(t) => r := MakeString(h, t);
    case Just(u) => r := ToXpc(h, u);
    case Newtype(u) => r := ToXpc(h, u);
    case Seq(vs) => r := FillArray(h, vs);
    case Tuple(vs) => r := FillArray(h, vs);
    case Map(_) => r := FillMap(h, v);
    case Struct(fields) => r := FillStruct(h, fields);
    case Variant(_, _) => r := FillVariant(h, v);
    case _ => r := MakeLeaf(h, ScalarXpc(v));
  }

  predicate IsScalar(v: Value) {
    v.Bool? || v.Int? || v.Uint? || v.Double? || v.Bytes? || v.Unit? || v.Nothing?
  }

  function ScalarXpc(v: Value): (x: Xpc)
    requires IsScalar(v)
    ensures Encode(v) == Ok(x) && !x.XArray? && !x.XDict?
  {
    match v
    case Bool(b) => XBool(b)
    case Int(i) => XInt64(i)
    case Uint(u) => XUint64(u)
    case Double(d) => XDouble(d)
    case Bytes(bytes) => XData(bytes)
    case _ => XNull
  }

  method MakeLeaf(h: Runtime, x: Xpc) returns (r: Result<Ref>)
    requires h.Valid() && !x.XArray? && !x.XDict?
    modifies h
    ensures h.Valid() && h.next >= old(h.next) && r.Ok? && h.owned == old(h.owned) + multiset{r.value}
    ensures Built(old(h.nodes), old(h.rc), h.nodes, h.rc, old(h.next), r.value, x)
  {
    var n := h.Create(Leaf(x));
    r := Ok(n);
  }

  method MakeString(h: Runtime, t: string) returns (r: Result<Ref>)
    requires h.Valid()
    modifies h
    ensures h.Valid() && h.next >= old(h.next) && (r.Ok? <==> !HasNul(t))
    ensures r.Ok? ==> h.owned == old(h.owned) + multiset{r.value}
                      && Built(old(h.nodes), old(h.rc), h.nodes, h.rc, old(h.next), r.value, XString(t))
    ensures r.Err? ==> h.nodes == old(h.nodes) && h.rc == old(h.rc) && h.owned == old(h.owned)
  {
    if HasNul(t) {
      r := Err;
    } else {
      r := MakeLeaf(h, XString(t));
    }
  }

  ghost function Prepend(xs: seq<Xpc>, rest: Result<seq<Xpc>>): Result<seq<Xpc>> {
    if rest.Err? then Err else Ok(xs + rest.value)
  }

  lemma {:induction false} EncodeNext(vs: seq<Value>, i: nat, xs: seq<Xpc>)
    requires i < |vs|
    ensures Prepend(xs, EncodeAll(vs[i..])) ==
            if Encode(vs[i]).Err? then Err else Prepend(xs + [Encode(vs[i]).value], EncodeAll(vs[i + 1..]))
  {
    assert vs[i..][0] == vs[i] && vs[i..][1..] == vs[i + 1..];
    if Encode(vs[i]).Ok? && EncodeAll(vs[i + 1..]).Ok? {
      var x, rest := Encode(vs[i]).value, EncodeAll(vs[i + 1..]).value;
      assert xs + ([x] + rest) == (xs + [x]) + rest;
    }
  }

  /** Nothing that does not exist yet is owned. */
  lemma {:induction false} UnownedNext(nodes: map<Ref, Node>, rc: map<Ref, nat>, owned: multiset<Ref>, next: nat)
    requires Balanced(nodes, rc, owned, next)
    ensures forall n: Ref | n >= next :: owned[n] == 0
    ensures (forall n | n in nodes :: n < next) && forall n | n in rc :: n < next
  {
    forall n: Ref | n >= next ensures owned[n] == 0 {
      assert Slots(nodes, n, next) + owned[n] == 0;
    }
  }

  /** SeqSerializer. */
  method FillArray(h: Runtime, vs: seq<Value>) returns (r: Result<Ref>)
    requires h.Valid() && AllTyped(vs)
    modifies h
    ensures h.Valid() && h.next >= old(h.next)
    ensures r.Ok? <==> EncodeArray(vs).Ok?
    ensures r.Ok? ==>
              && h.owned == old(h.owned) + multiset{r.value}
              && Built(old(h.nodes), old(h.rc), h.nodes, h.rc, old(h.next), r.value, EncodeArray(vs).value)
    ensures r.Err? ==> Failed(old(h.nodes), old(h.rc), old(h.owned), old(h.next), h.nodes, h.rc, h.owned, false)
    decreases vs, 0
  {
    UnownedNext(h.nodes, h.rc, h.owned, h.next);
    var a := h.Create(Array([]));
    FillStart(old(h.nodes), old(h.rc), a, Array([]));
    ghost var rs, xs := [], [];
    assert vs[0..] == vs && Prepend([], EncodeAll(vs)) == EncodeAll(vs) by {
      assert EncodeAll(vs).Ok? ==> [] + EncodeAll(vs).value == EncodeAll(vs).value;
    }
    var i := 0;
    while i < |vs|
      invariant 0 <= i <= |vs| && h.Valid() && h.next > a && h.owned == old(h.owned) + multiset{a}
      invariant Filling(old(h.nodes), old(h.rc), h.nodes, h.rc, a, rs, xs) && h.nodes[a] == Array(rs)
      invariant EncodeAll(vs) == Prepend(xs, EncodeAll(vs[i..]))
    {
      EncodeNext(vs, i, xs);
      ghost var c;
      var ok;
      ok, c := AddElement(h, a, vs[i], old(h.nodes), old(h.rc), rs, xs);
      if !ok {
        assert h.owned[a] > 0;
        return Err;
      }
      rs, xs := rs + [c], xs + [Encode(vs[i]).value];
      i := i + 1;
    }
    FillDone(old(h.nodes), old(h.rc), h.nodes, h.rc, a, rs, xs, XArray(xs));
    assert vs[i..] == [] && xs + [] == xs;
    r := Ok(a);
  }

  /** serialize_element: one value is built and appended. */
  method AddElement(h: Runtime, a: Ref, v: Value, ghost n0: map<Ref, Node>, ghost rc0: map<Ref, nat>,
                    ghost rs: seq<Ref>, ghost xs: seq<Xpc>)
    returns (ok: bool, ghost c: Ref)
    requires h.Valid() && Typed(v)
    requires Filling(n0, rc0, h.nodes, h.rc, a, rs, xs) && h.nodes[a] == Array(rs)
    modifies h
    ensures h.Valid() && h.next >= old(h.next)
    ensures ok <==> Encode(v).Ok?
    ensures ok ==>
              && h.owned == old(h.owned)
              && Filling(n0, rc0, h.nodes, h.rc, a, rs + [c], xs + [Encode(v).value]) && h.nodes[a] == Array(rs + [c])
    ensures !ok ==> SameBelow(a, n0, rc0, h.nodes, h.rc)
    ensures !ok ==> forall n: Ref | n < old(h.next) :: h.owned[n] == old(h.owned)[n]
    decreases v, 3
  {
    UnownedNext(h.nodes, h.rc, h.owned, h.next);
    c := 0;
    var e := ToXpc(h, v);
    if e.Err? {
      assert SameBelow(old(h.next), old(h.nodes), old(h.rc), h.nodes, h.rc);
      return false, c;
    }
    ghost var n2, rc2 := h.nodes, h.rc;
    c := e.value;
    assert c in From(n2, old(h.next));
    AppendOwned(h, a, e.value);
    FillStep(n0, rc0, old(h.nodes), old(h.rc), n2, rc2, h.nodes, a, rs, xs, old(h.next), c, Encode(v).value);
    ok := true;
  }

  /** MapSerializer, for the fields of a struct. */
  method FillStruct(h: Runtime, fields: seq<Field>) returns (r: Result<Ref>)
    requires h.Valid() && TypedFields(fields)
    modifies h
    ensures h.Valid() && h.next >= old(h.next)
    ensures r.Ok? <==> EncodeFields(fields).Ok?
    ensures r.Ok? ==>
              && h.owned == old(h.owned) + multiset{r.value}
              && Built(old(h.nodes), old(h.rc), h.nodes, h.rc, old(h.next), r.value, EncodeFields(fields).value)
    ensures r.Err? ==> Failed(old(h.nodes), old(h.rc), old(h.owned), old(h.next), h.nodes, h.rc, h.owned, false)
    decreases fields, 1
  {
    var a := StartDict(h);
    ghost var es, xs, dict;
    var ok;
    ok, es, xs, dict := AddFields(h, a, fields, old(h.nodes), old(h.rc));
    if !ok {
      assert h.owned[a] > 0;
      return Err;
    }
    FillDone(old(h.nodes), old(h.rc), h.nodes, h.rc, a, Values(es), xs, XDict(dict));
    r := Ok(a);
  }

  method AddFields(h: Runtime, a: Ref, fields: seq<Field>, ghost n0: map<Ref, Node>, ghost rc0: map<Ref, nat>)
    returns (ok: bool, ghost es: seq<Entry>, ghost xs: seq<Xpc>, ghost dict: map<string, Xpc>)
    requires h.Valid() && TypedFields(fields)
    requires FillingDict(n0, rc0, h.nodes, h.rc, a, [], [], map[]) && a < h.next
    modifies h
    ensures h.Valid() && h.next >= old(h.next)
    ensures ok ==> EncodeEntries(fields, map[]) == Ok(dict)
    ensures ok ==> h.owned == old(h.owned) && FillingDict(n0, rc0, h.nodes, h.rc, a, es, xs, dict)
    ensures !ok ==> EncodeEntries(fields, map[]).Err? && SameBelow(a, n0, rc0, h.nodes, h.rc)
    ensures !ok ==> forall n: Ref | n < old(h.next) :: h.owned[n] == old(h.owned)[n]
    decreases fields, 0, 1
  {
    es, xs, dict := [], [], map[];
    assert fields[0..] == fields;
    var i := 0;
    ok := true;
    while i < |fields| && ok
      invariant 0 <= i <= |fields| && h.Valid() && h.next >= old(h.next)
      invariant ok ==> h.owned == old(h.owned) && FieldsDone(n0, rc0, h.nodes, h.rc, a, fields, i, es, xs, dict)
      invariant !ok ==> EncodeEntries(fields, map[]).Err? && SameBelow(a, n0, rc0, h.nodes, h.rc)
      invariant !ok ==> forall n: Ref | n < old(h.next) :: h.owned[n] == old(h.owned)[n]
    {
      ok, es, xs, dict := AddField(h, a, fields, i, n0, rc0, es, xs, dict);
      i := i + 1;
    }
  }

  /** The first i fields have been set. */
  ghost predicate FieldsDone(n0: map<Ref, Node>, rc0: map<Ref, nat>, n1: map<Ref, Node>, rc1: map<Ref, nat>, a: Ref,
                             fields: seq<Field>, i: nat, es: seq<Entry>, xs: seq<Xpc>, dict: map<string, Xpc>)
  {
    && i <= |fields| && |es| == i
    && FillingDict(n0, rc0, n1, rc1, a, es, xs, dict)
    && (forall j | 0 <= j < i :: es[j].key == fields[j].name)
    && EncodeEntries(fields, map[]) == EncodeEntries(fields[i..], dict)
  }

  method AddField(h: Runtime, a: Ref, fields: seq<Field>, i: nat, ghost n0: map<Ref, Node>, ghost rc0: map<Ref, nat>,
                  ghost es: seq<Entry>, ghost xs: seq<Xpc>, ghost dict: map<string, Xpc>)
    returns (ok: bool, ghost es': seq<Entry>, ghost xs': seq<Xpc>, ghost dict': map<string, Xpc>)
    requires h.Valid() && TypedFields(fields) && i < |fields|
    requires FieldsDone(n0, rc0, h.nodes, h.rc, a, fields, i, es, xs, dict)
    modifies h
    ensures h.Valid() && h.next >= old(h.next)
    ensures ok ==> h.owned == old(h.owned) && FieldsDone(n0, rc0, h.nodes, h.rc, a, fields, i + 1, es', xs', dict')
    ensures !ok ==> EncodeEntries(fields, map[]).Err? && SameBelow(a, n0, rc0, h.nodes, h.rc)
    ensures !ok ==> forall n: Ref | n < old(h.next) :: h.owned[n] == old(h.owned)[n]
    decreases fields, 0, 0
  {
    assert fields[i..][0] == fields[i] && fields[i..][1..] == fields[i + 1..];
    NewKey(es, xs, dict, fields, i);
    ghost var e;
    ok, e := AddEntry(h, a, fields[i].name, fields[i].value, n0, rc0, es, xs, dict);
    es', xs', dict' := es, xs, dict;
    if ok {
      es', xs' := es + [e], xs + [Encode(fields[i].value).value];
      dict' := dict[fields[i].name := Encode(fields[i].value).value];
    }
  }

  /** An element that code holds: the array retains it, the code gives it back. */
  method AppendOwned(h: Runtime, a: Ref, r: Ref)
    requires h.Valid() && a in h.nodes && h.nodes[a].Array? && r in h.nodes && h.owned[r] > 0
    modifies h
    ensures h.Valid() && h.next == old(h.next) && h.owned == old(h.owned) - multiset{r}
    ensures h.nodes == old(h.nodes)[a := Array(old(h.nodes[a].items) + [r])] && h.rc == old(h.rc)
  {
    h.Append(a, r);
    h.Release(r);
  }

  method StartDict(h: Runtime) returns (a: Ref)
    requires h.Valid()
    modifies h
    ensures h.Valid() && a == old(h.next) && h.next > a
    ensures h.owned == old(h.owned) + multiset{a} && old(h.owned)[a] == 0
    ensures FillingDict(old(h.nodes), old(h.rc), h.nodes, h.rc, a, [], [], map[])
  {
    UnownedNext(h.nodes, h.rc, h.owned, h.next);
    a := h.Create(Dict([]));
    FillStart(old(h.nodes), old(h.rc), a, Dict([]));
    assert Values([]) == [];
  }

  ghost predicate FillingDict(n0: map<Ref, Node>, rc0: map<Ref, nat>, n1: map<Ref, Node>, rc1: map<Ref, nat>,
                              a: Ref, es: seq<Entry>, xs: seq<Xpc>, dict: map<string, Xpc>)
  {
    && Filling(n0, rc0, n1, rc1, a, Values(es), xs)
    && n1[a] == Dict(es)
    && Collects(es, xs, dict)
  }

  lemma {:induction false} NewKey(es: seq<Entry>, xs: seq<Xpc>, dict: map<string, Xpc>, fields: seq<Field>, i: nat)
    requires Collects(es, xs, dict) && |es| == i < |fields| && TypedFields(fields)
    requires forall j | 0 <= j < i :: es[j].key == fields[j].name
    ensures fields[i].name !in dict
  {
  }

  /** serialize_field, serialize_value: one value is built and set under its key. */
  method AddEntry(h: Runtime, a: Ref, name: string, v: Value,
                  ghost n0: map<Ref, Node>, ghost rc0: map<Ref, nat>,
                  ghost es: seq<Entry>, ghost xs: seq<Xpc>, ghost dict: map<string, Xpc>)
    returns (ok: bool, ghost e: Entry)
    requires h.Valid() && Typed(v)
    requires FillingDict(n0, rc0, h.nodes, h.rc, a, es, xs, dict) && name !in dict
    modifies h
    ensures h.Valid() && h.next >= old(h.next)
    ensures ok <==> Encode(v).Ok? && !HasNul(name)
    ensures ok ==>
              && var x := Encode(v).value;
              && e.key == name && h.owned == old(h.owned)
              && FillingDict(n0, rc0, h.nodes, h.rc, a, es + [e], xs + [x], dict[name := x])
    ensures !ok ==> SameBelow(a, n0, rc0, h.nodes, h.rc)
    ensures !ok ==> forall n: Ref | n < old(h.next) :: h.owned[n] == old(h.owned)[n]
    decreases v, 3
  {
    UnownedNext(h.nodes, h.rc, h.owned, h.next);
    var c := ToXpc(h, v);
    if c.Err? {
      assert SameBelow(old(h.next), old(h.nodes), old(h.rc), h.nodes, h.rc);
      return false, Entry(name, 0);
    }
    e := Entry(name, c.value);
    if HasNul(name) {
      LoseValue(h, old(h.nodes), old(h.rc), old(h.next), c.value, Encode(v).value);
      return false, e;
    }
    PutEntry(h, a, name, c.value, n0, rc0, old(h.nodes), old(h.rc), es, xs, dict, old(h.next), Encode(v).value);
    ok := true;
  }

  /** A value that was just built is given back. */
  method LoseValue(h: Runtime, ghost n1: map<Ref, Node>, ghost rc1: map<Ref, nat>, ghost lo: nat, r: Ref, ghost x: Xpc)
    requires h.Valid() && Built(n1, rc1, h.nodes, h.rc, lo, r, x) && h.owned[r] > 0
    modifies h
    ensures h.Valid() && h.next == old(h.next) && h.owned == old(h.owned) - multiset{r} && r >= lo
    ensures SameBelow(lo, n1, rc1, h.nodes, h.rc)
  {
    assert r in From(h.nodes, lo);
    ghost var n2, rc2 := h.nodes, h.rc;
    h.Release(r);
    SparedBelow(n1, rc1, n2, rc2, h.nodes, h.rc, lo, r, x);
  }

  /** A value that was just built, from the state n1 on, becomes the last entry of the dictionary. */
  method PutEntry(h: Runtime, a: Ref, name: string, r: Ref,
                  ghost n0: map<Ref, Node>, ghost rc0: map<Ref, nat>, ghost n1: map<Ref, Node>,
                  ghost rc1: map<Ref, nat>,
                  ghost es: seq<Entry>, ghost xs: seq<Xpc>, ghost dict: map<string, Xpc>, ghost lo: nat, ghost x: Xpc)
    requires h.Valid() && FillingDict(n0, rc0, n1, rc1, a, es, xs, dict) && name !in dict
    requires Built(n1, rc1, h.nodes, h.rc, lo, r, x) && h.owned[r] > 0 && forall n | n in n1 :: n < lo
    modifies h
    ensures h.Valid() && h.next == old(h.next) && h.owned == old(h.owned) - multiset{r}
    ensures FillingDict(n0, rc0, h.nodes, h.rc, a, es + [Entry(name, r)], xs + [x], dict[name := x])
  {
    ghost var n2, rc2 := h.nodes, h.rc;
    assert r in From(n2, lo);
    CollectsMore(es, xs, dict, Entry(name, r), x);
    SetOwned(h, a, name, r, es);
    FillStep(n0, rc0, n1, rc1, n2, rc2, h.nodes, a, Values(es), xs, lo, r, x);
  }

  /** A new entry for an object that code holds: the dictionary retains it, the code gives it back. */
  method SetOwned(h: Runtime, a: Ref, name: string, r: Ref, ghost es: seq<Entry>)
    requires h.Valid() && a in h.nodes && h.nodes[a] == Dict(es) && KeyIndex(es, name) == |es|
    requires r in h.nodes && h.owned[r] > 0
    modifies h
    ensures h.Valid() && h.next == old(h.next) && h.owned == old(h.owned) - multiset{r}
    ensures h.nodes == old(h.nodes)[a := Dict(es + [Entry(name, r)])] && h.rc == old(h.rc)
  {
    h.Set(a, name, r);
    h.Release(r);
  }

  /** Giving back what was just built touches nothing older. */
  lemma {:induction false} SparedBelow(n1: map<Ref, Node>, rc1: map<Ref, nat>, n2: map<Ref, Node>, rc2: map<Ref, nat>,
                    n3: map<Ref, Node>, rc3: map<Ref, nat>, lo: nat, r: Ref, x: Xpc)
    requires Built(n1, rc1, n2, rc2, lo, r, x) && Spares([r], n2, rc2, n3, rc3)
    ensures SameBelow(lo, n1, rc1, n3, rc3)
  {
    assert r in From(n2, lo);
    assert AllFrom(lo, [r]) && Above(lo, n2);
    assert SameBelow(lo, n2, rc2, n3, rc3);
  }

  /** MapSerializer, for a map: a key is turned into an object of its own and read back first. */
  method FillMap(h: Runtime, v: Value) returns (r: Result<Ref>)
    requires h.Valid() && Typed(v) && v.Map?
    modifies h
    ensures h.Valid() && h.next >= old(h.next)
    ensures r.Ok? <==> Encode(v).Ok?
    ensures r.Ok? ==>
              && h.owned == old(h.owned) + multiset{r.value}
              && Built(old(h.nodes), old(h.rc), h.nodes, h.rc, old(h.next), r.value, Encode(v).value)
    ensures r.Err? ==> Failed(old(h.nodes), old(h.rc), old(h.owned), old(h.next), h.nodes, h.rc, h.owned, false)
    decreases v, 1
  {
    var a := StartDict(h);
    ghost var es, xs, dict;
    var ok;
    ok, es, xs, dict := AddEntries(h, a, v, old(h.nodes), old(h.rc));
    if !ok {
      assert h.owned[a] > 0;
      return Err;
    }
    MapEncoded(v.m, dict);
    FillDone(old(h.nodes), old(h.rc), h.nodes, h.rc, a, Values(es), xs, XDict(dict));
    r := Ok(a);
  }

  method AddEntries(h: Runtime, a: Ref, v: Value, ghost n0: map<Ref, Node>, ghost rc0: map<Ref, nat>)
    returns (ok: bool, ghost es: seq<Entry>, ghost xs: seq<Xpc>, ghost dict: map<string, Xpc>)
    requires h.Valid() && Typed(v) && v.Map?
    requires FillingDict(n0, rc0, h.nodes, h.rc, a, [], [], map[]) && a < h.next
    modifies h
    ensures h.Valid() && h.next >= old(h.next)
    ensures ok ==> dict.Keys == v.m.Keys && Encoded(v.m, dict)
    ensures ok ==> h.owned == old(h.owned) && FillingDict(n0, rc0, h.nodes, h.rc, a, es, xs, dict)
    ensures !ok ==> EntriesFailed(n0, rc0, h.nodes, h.rc, a, v.m, old(h.owned), h.owned, old(h.next))
    decreases v, 0, 1
  {
    TypedParts(v);
    var m := v.m;
    es, xs, dict := [], [], map[];
    var rest := m.Keys;
    ok := true;
    while rest != {} && ok
      invariant h.Valid() && h.next >= old(h.next)
      invariant ok ==> h.owned == old(h.owned) && EntriesDone(n0, rc0, h.nodes, h.rc, a, m, rest, es, xs, dict)
      invariant !ok ==> EntriesFailed(n0, rc0, h.nodes, h.rc, a, m, old(h.owned), h.owned, old(h.next))
      decreases |rest|
    {
      var k :| k in rest;
      ok, es, xs, dict := AddMapEntry(h, a, v, k, n0, rc0, rest, es, xs, dict);
      rest := rest - {k};
    }
  }

  /** Some entry cannot be encoded, and nothing older was touched. */
  ghost predicate EntriesFailed(n0: map<Ref, Node>, rc0: map<Ref, nat>, n1: map<Ref, Node>, rc1: map<Ref, nat>, a: Ref,
                                m: map<string, Value>, o0: multiset<Ref>, o1: multiset<Ref>, lo: nat)
  {
    && (exists k | k in m :: NotEncoded(m, k)) && SameBelow(a, n0, rc0, n1, rc1)
    && forall n: Ref | n < lo :: o1[n] == o0[n]
  }

  /** All entries but those of `rest` have been set. */
  ghost predicate EntriesDone(n0: map<Ref, Node>, rc0: map<Ref, nat>, n1: map<Ref, Node>, rc1: map<Ref, nat>, a: Ref,
                              m: map<string, Value>, rest: set<string>, es: seq<Entry>, xs: seq<Xpc>,
                              dict: map<string, Xpc>)
  {
    && rest <= m.Keys && dict.Keys == m.Keys - rest && Encoded(m, dict)
    && FillingDict(n0, rc0, n1, rc1, a, es, xs, dict)
  }

  /** serialize_entry: the key is made into an object and read back, then the value is set under it. */
  method AddMapEntry(h: Runtime, a: Ref, v: Value, k: string, ghost n0: map<Ref, Node>, ghost rc0: map<Ref, nat>,
                     ghost rest: set<string>, ghost es: seq<Entry>, ghost xs: seq<Xpc>, ghost dict: map<string, Xpc>)
    returns (ok: bool, ghost es': seq<Entry>, ghost xs': seq<Xpc>, ghost dict': map<string, Xpc>)
    requires h.Valid() && v.Map? && k in v.m && Typed(v.m[k]) && k in rest
    requires EntriesDone(n0, rc0, h.nodes, h.rc, a, v.m, rest, es, xs, dict)
    modifies h
    ensures h.Valid() && h.next >= old(h.next)
    ensures ok ==> h.owned == old(h.owned) && EntriesDone(n0, rc0, h.nodes, h.rc, a, v.m, rest - {k}, es', xs', dict')
    ensures !ok ==> EntriesFailed(n0, rc0, h.nodes, h.rc, a, v.m, old(h.owned), h.owned, old(h.next))
    decreases v, 0, 0
  {
    es', xs', dict' := es, xs, dict;
    if HasNul(k) {
      assert NotEncoded(v.m, k);
      return false, es, xs, dict;
    }
    TouchKey(h, k);
    ghost var e;
    ok, e := AddEntry(h, a, k, v.m[k], n0, rc0, es, xs, dict);
    if ok {
      es', xs', dict' := es + [e], xs + [Encode(v.m[k]).value], dict[k := Encode(v.m[k]).value];
    } else {
      assert NotEncoded(v.m, k);
    }
  }

  ghost predicate NotEncoded(m: map<string, Value>, k: string) {
    k in m && (HasNul(k) || Encode(m[k]).Err?)
  }

  ghost predicate Encoded(m: map<string, Value>, dict: map<string, Xpc>) {
    forall k | k in dict :: k in m && !HasNul(k) && Encode(m[k]) == Ok(dict[k])
  }

  lemma {:induction false} MapEncoded(m: map<string, Value>, dict: map<string, Xpc>)
    requires dict.Keys == m.Keys && Encoded(m, dict)
    ensures Encode(Map(m)) == Ok(XDict(dict))
  {
    var r := Encode(Map(m));
    assert r.Ok? && r.value.dict.Keys == dict.Keys;
    assert r.value.dict == dict;
  }

  method FillVariant(h: Runtime, v: Value) returns (r: Result<Ref>)
    requires h.Valid() && Typed(v) && v.Variant?
    modifies h
    ensures h.Valid() && h.next >= old(h.next)
    ensures r.Ok? <==> Encode(v).Ok?
    ensures r.Ok? ==>
              && h.owned == old(h.owned) + multiset{r.value}
              && Built(old(h.nodes), old(h.rc), h.nodes, h.rc, old(h.next), r.value, Encode(v).value)
    ensures r.Err? ==> Failed(old(h.nodes), old(h.rc), old(h.owned), old(h.next), h.nodes, h.rc, h.owned, Bare(v))
    decreases v, 0
  {
    TypedParts(v);
    if v.payload.NoPayload? {
      r := MakeString(h, v.name);
      return;
    }
    UnownedNext(h.nodes, h.rc, h.owned, h.next);
    r := FillPayload(h, v.payload);
    if r.Ok? {
      r := EndVariant(h, v.name, r.value, EncodePayload(v.payload).value, v.payload.NewtypePayload?,
                      old(h.nodes), old(h.rc), old(h.owned), old(h.next));
    }
  }

  method FillPayload(h: Runtime, p: Payload) returns (r: Result<Ref>)
    requires h.Valid() && TypedPayload(p) && !p.NoPayload?
    modifies h
    ensures h.Valid() && h.next >= old(h.next)
    ensures r.Ok? <==> EncodePayload(p).Ok?
    ensures r.Ok? ==>
              && h.owned == old(h.owned) + multiset{r.value}
              && Built(old(h.nodes), old(h.rc), h.nodes, h.rc, old(h.next), r.value, EncodePayload(p).value)
    ensures r.Err? ==> Failed(old(h.nodes), old(h.rc), old(h.owned), old(h.next), h.nodes, h.rc, h.owned,
                              p.NewtypePayload? && Bare(p.v))
    decreases p, 3
  {
    match p
    case NewtypePayload(u) => r := ToXpc(h, u);
    case TuplePayload(vs) => r := FillArray(h, vs);
    case StructPayload(fields) => r := FillStruct(h, fields);
  }

  /** The end of a variant: the payload under the name. When the name has a NUL the dictionary is
      lost, and so is the payload unless it is a newtype's, which gives itself back. */
  method EndVariant(h: Runtime, name: string, inner: Ref, ghost x: Xpc, dropped: bool,
                    ghost n0: map<Ref, Node>, ghost rc0: map<Ref, nat>, ghost o0: multiset<Ref>, ghost lo: nat)
    returns (r: Result<Ref>)
    requires h.Valid() && Built(n0, rc0, h.nodes, h.rc, lo, inner, x) && h.owned == o0 + multiset{inner}
    requires lo <= h.next && inner >= lo && o0[h.next] == 0
    modifies h
    ensures h.Valid() && h.next >= old(h.next) && (r.Ok? <==> !HasNul(name))
    ensures r.Ok? ==>
              && h.owned == o0 + multiset{r.value}
              && Built(n0, rc0, h.nodes, h.rc, lo, r.value, XDict(map[name := x]))
    ensures r.Err? ==> Failed(n0, rc0, o0, lo, h.nodes, h.rc, h.owned, false)
  {
    UnownedNext(h.nodes, h.rc, h.owned, h.next);
    ghost var n1, rc1 := h.nodes, h.rc;
    assert inner in From(h.nodes, lo);
    if HasNul(name) {
      LoseDict(h, inner, dropped, n0, rc0, o0, lo);
      r := Err;
    } else {
      var d := h.Create(Dict([]));
      PutUnder(h, d, name, inner, n1, rc1);
      Wrapped(n0, rc0, n1, rc1, lo, inner, x, d, name);
      r := Ok(d);
    }
  }

  /** The dictionary is made before the name is found to be no C string. */
  method LoseDict(h: Runtime, inner: Ref, dropped: bool,
                  ghost n0: map<Ref, Node>, ghost rc0: map<Ref, nat>, ghost o0: multiset<Ref>, ghost lo: nat)
    requires h.Valid() && SameBelow(lo, n0, rc0, h.nodes, h.rc) && Above(lo, h.nodes)
    requires h.owned == o0 + multiset{inner} && lo <= h.next && inner >= lo && o0[h.next] == 0
    modifies h
    ensures h.Valid() && h.next >= old(h.next)
    ensures Failed(n0, rc0, o0, lo, h.nodes, h.rc, h.owned, false)
  {
    var d := h.Create(Dict([]));
    LostBelow(n0, rc0, old(h.nodes), old(h.rc), d, lo);
    LostOwned(o0, inner, d, dropped, lo);
    if dropped {
      ghost var n2, rc2 := h.nodes, h.rc;
      GiveBack(h, inner, lo);
      SameBelowTwice(lo, n0, rc0, n2, rc2, h.nodes, h.rc);
    }
  }

  lemma {:induction false} SameBelowTwice(lo: nat, n0: map<Ref, Node>, rc0: map<Ref, nat>, n1: map<Ref, Node>,
                                          rc1: map<Ref, nat>, n2: map<Ref, Node>, rc2: map<Ref, nat>)
    requires SameBelow(lo, n0, rc0, n1, rc1) && SameBelow(lo, n1, rc1, n2, rc2)
    ensures SameBelow(lo, n0, rc0, n2, rc2)
  {
  }

  lemma {:induction false} LostBelow(n0: map<Ref, Node>, rc0: map<Ref, nat>, n1: map<Ref, Node>, rc1: map<Ref, nat>,
                                     d: Ref, lo: nat)
    requires SameBelow(lo, n0, rc0, n1, rc1) && Above(lo, n1) && d >= lo
    ensures SameBelow(lo, n0, rc0, n1[d := Dict([])], rc1[d := 1]) && Above(lo, n1[d := Dict([])])
  {
  }

  lemma {:induction false} LostOwned(o0: multiset<Ref>, inner: Ref, d: Ref, dropped: bool, lo: nat)
    requires inner >= lo && d >= lo && o0[d] == 0
    ensures
      var o1 := o0 + multiset{inner} + multiset{d} - if dropped then multiset{inner} else multiset{};
      o1 != o0 && forall n: Ref | n < lo :: o0[n] == o1[n]
  {
    var o1 := o0 + multiset{inner} + multiset{d} - if dropped then multiset{inner} else multiset{};
    assert o1[d] > 0;
  }

  method PutUnder(h: Runtime, d: Ref, name: string, inner: Ref, ghost n1: map<Ref, Node>, ghost rc1: map<Ref, nat>)
    requires h.Valid() && d !in n1 && inner in n1 && h.owned[inner] > 0
    requires h.nodes == n1[d := Dict([])] && h.rc == rc1[d := 1]
    modifies h
    ensures h.Valid() && h.next == old(h.next) && h.owned == old(h.owned) - multiset{inner}
    ensures h.nodes == n1[d := Dict([Entry(name, inner)])] && h.rc == rc1[d := 1]
  {
    SetOwned(h, d, name, inner, []);
    assert [] + [Entry(name, inner)] == [Entry(name, inner)];
  }

  method GiveBack(h: Runtime, r: Ref, ghost lo: nat)
    requires h.Valid() && h.owned[r] > 0 && lo <= r && Above(lo, h.nodes)
    modifies h
    ensures h.Valid() && h.next == old(h.next) && h.owned == old(h.owned) - multiset{r}
    ensures SameBelow(lo, old(h.nodes), old(h.rc), h.nodes, h.rc)
  {
    h.Release(r);
    assert AllFrom(lo, [r]);
  }
}
