/** The deserializer on the runtime's objects: it reads the denoted value and gives back every
    reference it takes, also on an error (src/pal/apple/xpc.rs). */
module XpcDeserialize {
  import opened Wrappers
  import opened XpcTypes
  import opened XpcCodec
  import opened XpcHeap
  import opened XpcOwnership
  import XpcRoundTrip

  /** from_xpc. */
  method FromXpc(h: Runtime, s: Schema, r: Ref, ghost x: Xpc, ghost order: Order) returns (v: Result<Value>)
    requires h.Valid() && Denotes(h.nodes, r, x) && ValidOrder(order)
    modifies h
    ensures h.Valid() && h.nodes == old(h.nodes) && h.rc == old(h.rc) && h.owned == old(h.owned)
    ensures h.next >= old(h.next)
    ensures v == Decode(s, x, order)
    decreases s, 2
  {
    h.Retain(r);
    v := Deserialize(h, s, r, x, order);
    h.Release(r);
  }

  function ReadScalar(s: Schema, n: Node): Result<Value> {
    match n
    case Leaf(x) => (
      match s
      case SBool => if x.XBool? then Ok(Bool(x.b)) else Err
      case SInt(bits) => if x.XInt64? && FitsInt(x.i, bits) then Ok(Int(x.i)) else Err
      case SUint(bits) => if x.XUint64? && FitsUint(x.u, bits) then Ok(Uint(x.u)) else Err
      case SDouble => if x.XDouble? then Ok(Double(x.d)) else Err
      case SChar => if x.XString? && |x.s| == 1 then Ok(Char(x.s[0])) else Err
      case SStr => if x.XString? then Ok(Str(x.s)) else Err
      case SBytes => if x.XData? then Ok(Bytes(x.bytes)) else Err
      case SUnit => Ok(Unit)
      case _ => Err)
    case _ => if s.SUnit? then Ok(Unit) else Err
  }

  predicate Scalar(s: Schema) {
    s.SBool? || s.SInt? || s.SUint? || s.SDouble? || s.SChar? || s.SStr? || s.SBytes? || s.SUnit?
  }

  lemma {:induction false} ScalarRead(nodes: map<Ref, Node>, s: Schema, r: Ref, x: Xpc, order: Order)
    requires Denotes(nodes, r, x) && ValidOrder(order) && Scalar(s)
    ensures ReadScalar(s, nodes[r]) == Decode(s, x, order)
  {
  }

  function MapResult<A, B>(r: Result<A>, f: A -> B): Result<B> {
    match r
    case Err => Err
    case Ok(a) => Ok(f(a))
  }

  method Deserialize(h: Runtime, s: Schema, r: Ref, ghost x: Xpc, ghost order: Order) returns (v: Result<Value>)
    requires h.Valid() && Denotes(h.nodes, r, x) && ValidOrder(order)
    modifies h
    ensures h.Valid() && h.nodes == old(h.nodes) && h.rc == old(h.rc) && h.owned == old(h.owned)
    ensures h.next >= old(h.next)
    ensures v == Decode(s, x, order)
    decreases s, 1
  {
    var n := h.nodes[r];
    match s
    case SOption(t) =>
      if n == Leaf(XNull) {
        v := Ok(Nothing);
      } else {
        v := Deserialize(h, t, r, x, order);
        v := MapResult(v, u => Just(u));
      }
    case SNewtype(t) =>
      v := Deserialize(h, t, r, x, order);
      v := MapResult(v, u => Newtype(u));
    case SSeq(t) =>
      if !n.Array? {
        return Err;
      }
      var vs := FromElements(h, t, r, x.xs, order);
      v := MapResult(vs, us => Seq(us));
    case STuple(ts, named) =>
      var vs: Result<seq<Value>> := Err;
      if n.Leaf? && n.x.XData? && !named {
        vs := DecodeBytes(ts, n.x.bytes);
      } else if n.Array? {
        vs := FromTuple(h, ts, r, x.xs, order);
      }
      v := MapResult(vs, us => Tuple(us));
    case SMap(t) =>
      if !n.Dict? {
        return Err;
      }
      var m := FromEntries(h, t, r, x.dict, order);
      v := MapResult(m, d => Map(d));
    case SStruct(fs) =>
      if !n.Dict? {
        return Err;
      }
      var vs := FromFields(h, fs, r, x.dict, order);
      v := MapResult(vs, us => Struct(us));
    case SEnum(vs) => v := FromEnum(h, vs, r, x, order);
    case _ =>
      ScalarRead(h.nodes, s, r, x, order);
      v := ReadScalar(s, n);
  }

  // ---------- Sequences and tuples ----------

  ghost function Prepend(us: seq<Value>, rest: Result<seq<Value>>): Result<seq<Value>> {
    if rest.Err? then Err else Ok(us + rest.value)
  }

  lemma {:induction false} PrependNone(rest: Result<seq<Value>>)
    ensures Prepend([], rest) == rest
  {
    assert rest.Ok? ==> [] + rest.value == rest.value;
  }

  lemma {:induction false} ElementsNext(t: Schema, xs: seq<Xpc>, i: nat, us: seq<Value>, order: Order)
    requires ValidOrder(order) && i < |xs|
    ensures Prepend(us, DecodeElements(t, xs[i..], order)) ==
            if Decode(t, xs[i], order).Err? then Err
            else Prepend(us + [Decode(t, xs[i], order).value], DecodeElements(t, xs[i + 1..], order))
  {
    assert xs[i..][0] == xs[i] && xs[i..][1..] == xs[i + 1..];
    var rest := DecodeElements(t, xs[i + 1..], order);
    if Decode(t, xs[i], order).Ok? && rest.Ok? {
      assert us + ([Decode(t, xs[i], order).value] + rest.value) == us + [Decode(t, xs[i], order).value] + rest.value;
    }
  }

  /** XpcSeqAccess, read to the end: each element is retained while it is read. */
  method FromElements(h: Runtime, t: Schema, r: Ref, ghost xs: seq<Xpc>, ghost order: Order)
    returns (vs: Result<seq<Value>>)
    requires h.Valid() && Denotes(h.nodes, r, XArray(xs)) && ValidOrder(order)
    modifies h
    ensures h.Valid() && h.nodes == old(h.nodes) && h.rc == old(h.rc) && h.owned == old(h.owned)
    ensures h.next >= old(h.next)
    ensures vs == DecodeElements(t, xs, order)
    decreases t, 3
  {
    var items := h.nodes[r].items;
    var us, i := [], 0;
    PrependNone(DecodeElements(t, xs, order));
    assert xs[0..] == xs;
    while i < |items|
      invariant 0 <= i <= |items| && h.Valid() && h.next >= old(h.next)
      invariant h.nodes == old(h.nodes) && h.rc == old(h.rc) && h.owned == old(h.owned)
      invariant DecodeElements(t, xs, order) == Prepend(us, DecodeElements(t, xs[i..], order))
    {
      ElementsNext(t, xs, i, us, order);
      var u := FromXpc(h, t, items[i], xs[i], order);
      i := i + 1;
      if u.Err? {
        return Err;
      }
      us := us + [u.value];
    }
    assert xs[i..] == [] && us + [] == us;
    vs := Ok(us);
  }

  lemma {:induction false} TupleNext(ts: seq<Schema>, xs: seq<Xpc>, i: nat, us: seq<Value>, order: Order)
    requires ValidOrder(order) && i < |ts| && i <= |xs|
    ensures Prepend(us, DecodeTuple(ts[i..], xs[i..], order)) ==
            if i == |xs| || Decode(ts[i], xs[i], order).Err? then Err
            else Prepend(us + [Decode(ts[i], xs[i], order).value], DecodeTuple(ts[i + 1..], xs[i + 1..], order))
  {
    assert ts[i..][0] == ts[i] && ts[i..][1..] == ts[i + 1..];
    if i < |xs| {
      assert xs[i..][0] == xs[i] && xs[i..][1..] == xs[i + 1..];
      var rest := DecodeTuple(ts[i + 1..], xs[i + 1..], order);
      if Decode(ts[i], xs[i], order).Ok? && rest.Ok? {
        assert us + ([Decode(ts[i], xs[i], order).value] + rest.value)
            == us + [Decode(ts[i], xs[i], order).value] + rest.value;
      }
    }
  }

  /** XpcSeqAccess, asked for as many elements as the tuple has. */
  method FromTuple(h: Runtime, ts: seq<Schema>, r: Ref, ghost xs: seq<Xpc>, ghost order: Order)
    returns (vs: Result<seq<Value>>)
    requires h.Valid() && Denotes(h.nodes, r, XArray(xs)) && ValidOrder(order)
    modifies h
    ensures h.Valid() && h.nodes == old(h.nodes) && h.rc == old(h.rc) && h.owned == old(h.owned)
    ensures h.next >= old(h.next)
    ensures vs == DecodeTuple(ts, xs, order)
    decreases ts, 0
  {
    var items := h.nodes[r].items;
    var us, i := [], 0;
    PrependNone(DecodeTuple(ts, xs, order));
    assert xs[0..] == xs && ts[0..] == ts;
    while i < |ts|
      invariant 0 <= i <= |ts| && i <= |items| && h.Valid() && h.next >= old(h.next)
      invariant h.nodes == old(h.nodes) && h.rc == old(h.rc) && h.owned == old(h.owned)
      invariant DecodeTuple(ts, xs, order) == Prepend(us, DecodeTuple(ts[i..], xs[i..], order))
    {
      TupleNext(ts, xs, i, us, order);
      if i == |items| {
        return Err;
      }
      var u := FromXpc(h, ts[i], items[i], xs[i], order);
      if u.Err? {
        return Err;
      }
      us := us + [u.value];
      i := i + 1;
    }
    assert ts[i..] == [] && us + [] == us;
    vs := Ok(us);
  }

  // ---------- Dictionaries ----------

  /** Looking a key up finds the entry the key came from. */
  lemma {:induction false} Lookup(nodes: map<Ref, Node>, r: Ref, d: map<string, Xpc>, i: nat)
    requires Denotes(nodes, r, XDict(d)) && i < |nodes[r].entries|
    ensures var es := nodes[r].entries;
            KeyIndex(es, es[i].key) == i && es[i].key in d && Denotes(nodes, es[i].value, d[es[i].key])
  {
    var es := nodes[r].entries;
    assert Keys(es)[i] in Keys(es);
  }

  /** XpcMapAccess for a map: the keys are collected first; each is made into an object and read
      back, then its value is looked up and retained while it is read. */
  method FromEntries(h: Runtime, t: Schema, r: Ref, ghost d: map<string, Xpc>, ghost order: Order)
    returns (m: Result<map<string, Value>>)
    requires h.Valid() && Denotes(h.nodes, r, XDict(d)) && ValidOrder(order)
    modifies h
    ensures h.Valid() && h.nodes == old(h.nodes) && h.rc == old(h.rc) && h.owned == old(h.owned)
    ensures h.next >= old(h.next)
    ensures m == DecodeEntries(t, d, order(d.Keys), map[], order)
    decreases t, 3
  {
    var es := h.nodes[r].entries;
    var keys := Keys(es);
    KeysOrder(t, [], d, keys, order);
    var acc, i := map[], 0;
    assert keys[0..] == keys;
    while i < |keys|
      invariant 0 <= i <= |keys| && h.Valid() && h.next >= old(h.next)
      invariant h.nodes == old(h.nodes) && h.rc == old(h.rc) && h.owned == old(h.owned)
      invariant DecodeEntries(t, d, keys, map[], order) == DecodeEntries(t, d, keys[i..], acc, order)
    {
      Lookup(h.nodes, r, d, i);
      TouchKey(h, keys[i]);
      assert keys[i..][0] == keys[i] && keys[i..][1..] == keys[i + 1..];
      var u := FromXpc(h, t, es[KeyIndex(es, keys[i])].value, d[keys[i]], order);
      if u.Err? {
        return Err;
      }
      acc := acc[keys[i] := u.value];
      i := i + 1;
    }
    m := Ok(acc);
  }

  /** The order in which the runtime keeps the keys is as good as any. */
  lemma {:induction false} KeysOrder(t: Schema, fs: seq<SField>, d: map<string, Xpc>, keys: seq<string>, order: Order)
    requires ValidOrder(order) && forall k :: k in keys <==> k in d
    ensures Enumerates(order(d.Keys), d.Keys)
    ensures DecodeEntries(t, d, keys, map[], order) == DecodeEntries(t, d, order(d.Keys), map[], order)
    ensures DecodeFields(fs, d, keys, map[], order) == DecodeFields(fs, d, order(d.Keys), map[], order)
  {
    var ks := order(d.Keys);
    assert Enumerates(ks, d.Keys);
    XpcRoundTrip.SameEntries(t, d, keys, ks, order, order);
    XpcRoundTrip.SameFieldValues(fs, d, keys, ks, order, order);
  }

  /** XpcMapAccess for a struct; what is not a field is read and forgotten. */
  method FromFields(h: Runtime, fs: seq<SField>, r: Ref, ghost d: map<string, Xpc>, ghost order: Order)
    returns (vs: Result<seq<Field>>)
    requires h.Valid() && Denotes(h.nodes, r, XDict(d)) && ValidOrder(order)
    modifies h
    ensures h.Valid() && h.nodes == old(h.nodes) && h.rc == old(h.rc) && h.owned == old(h.owned)
    ensures h.next >= old(h.next)
    ensures vs == DecodeStruct(fs, d, order)
    decreases fs, 4
  {
    KeysOrder(SUnit, fs, d, Keys(h.nodes[r].entries), order);
    var found := FindFields(h, fs, r, d, order);
    vs := if found.Err? then Err else Complete(fs, found.value);
  }

  method FindFields(h: Runtime, fs: seq<SField>, r: Ref, ghost d: map<string, Xpc>, ghost order: Order)
    returns (all: Result<map<string, Value>>)
    requires h.Valid() && Denotes(h.nodes, r, XDict(d)) && ValidOrder(order)
    requires forall k | k in Keys(h.nodes[r].entries) :: k in d
    modifies h
    ensures h.Valid() && h.nodes == old(h.nodes) && h.rc == old(h.rc) && h.owned == old(h.owned)
    ensures h.next >= old(h.next)
    ensures all == DecodeFields(fs, d, Keys(h.nodes[r].entries), map[], order)
    decreases fs, 3
  {
    var es := h.nodes[r].entries;
    var keys := Keys(es);
    var found, i := map[], 0;
    assert keys[0..] == keys;
    while i < |keys|
      invariant 0 <= i <= |keys| && h.Valid() && h.next >= old(h.next)
      invariant h.nodes == old(h.nodes) && h.rc == old(h.rc) && h.owned == old(h.owned)
      invariant DecodeFields(fs, d, keys, map[], order) == DecodeFields(fs, d, keys[i..], found, order)
    {
      Lookup(h.nodes, r, d, i);
      TouchKey(h, keys[i]);
      FieldsNext(fs, d, keys, i, found, order);
      var next := TakeField(h, fs, keys[i], es[KeyIndex(es, keys[i])].value, d[keys[i]], found, order);
      if next.Err? {
        return Err;
      }
      found := next.value;
      i := i + 1;
    }
    all := Ok(found);
  }

  lemma {:induction false} FieldsNext(fs: seq<SField>, d: map<string, Xpc>, keys: seq<string>, i: nat,
                                      found: map<string, Value>, order: Order)
    requires ValidOrder(order) && i < |keys| && forall k | k in keys :: k in d
    ensures DecodeFields(fs, d, keys[i..], found, order) ==
            var next := Taken(fs, keys[i], d[keys[i]], found, order);
            if next.Err? then Err else DecodeFields(fs, d, keys[i + 1..], next.value, order)
  {
    assert keys[i..][0] == keys[i] && keys[i..][1..] == keys[i + 1..];
  }

  ghost function Taken(fs: seq<SField>, k: string, x: Xpc, found: map<string, Value>, order: Order)
    : Result<map<string, Value>>
    requires ValidOrder(order)
  {
    if IndexOf(fs, k) == |fs| then Ok(found)
    else
      var v := Decode(fs[IndexOf(fs, k)].schema, x, order);
      if v.Err? then Err else Ok(found[k := v.value])
  }

  method TakeField(h: Runtime, fs: seq<SField>, k: string, r: Ref, ghost x: Xpc, found: map<string, Value>,
                   ghost order: Order)
    returns (next: Result<map<string, Value>>)
    requires h.Valid() && Denotes(h.nodes, r, x) && ValidOrder(order)
    modifies h
    ensures h.Valid() && h.nodes == old(h.nodes) && h.rc == old(h.rc) && h.owned == old(h.owned)
    ensures h.next >= old(h.next)
    ensures next == Taken(fs, k, x, found, order)
    decreases fs, 2
  {
    var f := IndexOf(fs, k);
    if f == |fs| {
      Ignore(h, r, x);
      next := Ok(found);
    } else {
      var u := FromXpc(h, fs[f].schema, r, x, order);
      next := if u.Err? then Err else Ok(found[k := u.value]);
    }
  }

  /** Reading a value only to skip it: arrays and dictionaries are walked through. */
  method Ignore(h: Runtime, r: Ref, ghost x: Xpc)
    requires h.Valid() && Denotes(h.nodes, r, x)
    modifies h
    ensures h.Valid() && h.nodes == old(h.nodes) && h.rc == old(h.rc) && h.owned == old(h.owned)
    ensures h.next >= old(h.next)
    decreases x
  {
    h.Retain(r);
    ghost var rc1, o1 := h.rc, h.owned;
    match h.nodes[r] {
      case Leaf(_) =>
      case Array(items) =>
        for i := 0 to |items|
          invariant h.Valid() && h.next >= old(h.next) && h.nodes == old(h.nodes) && h.rc == rc1 && h.owned == o1
        {
          Ignore(h, items[i], x.xs[i]);
        }
      case Dict(es) =>
        for i := 0 to |es|
          invariant h.Valid() && h.next >= old(h.next) && h.nodes == old(h.nodes) && h.rc == rc1 && h.owned == o1
        {
          Lookup(h.nodes, r, x.dict, i);
          TouchKey(h, es[i].key);
          Ignore(h, es[KeyIndex(es, es[i].key)].value, x.dict[es[i].key]);
        }
    }
    h.Release(r);
  }

  // ---------- Enums ----------

  method FromEnum(h: Runtime, vs: seq<SVariant>, r: Ref, ghost x: Xpc, ghost order: Order) returns (v: Result<Value>)
    requires h.Valid() && Denotes(h.nodes, r, x) && ValidOrder(order)
    modifies h
    ensures h.Valid() && h.nodes == old(h.nodes) && h.rc == old(h.rc) && h.owned == old(h.owned)
    ensures h.next >= old(h.next)
    ensures v == DecodeEnum(vs, x, order)
    decreases vs, 3
  {
    match h.nodes[r]
    case Leaf(y) =>
      if !y.XString? {
        return Err;
      }
      var i := VariantIndex(vs, y.s);
      v := if i < |vs| && vs[i].shape.UnitShape? then Ok(Variant(y.s, NoPayload)) else Err;
    case Dict(es) =>
      OneEntryOrder(es, x.dict, order);
      if |es| != 1 {
        return Err;
      }
      Lookup(h.nodes, r, x.dict, 0);
      var i := VariantIndex(vs, es[0].key);
      if i == |vs| {
        return Err;
      }
      var p := FromPayload(h, vs[i].shape, es[0].value, x.dict[es[0].key], order);
      v := if p.Err? then Err else Ok(Variant(es[0].key, p.value));
    case _ => v := Err;
  }

  lemma {:induction false} OneEntryOrder(es: seq<Entry>, d: map<string, Xpc>, order: Order)
    requires ValidOrder(order) && DistinctKeys(es) && forall k :: k in d <==> k in Keys(es)
    ensures |order(d.Keys)| == 1 <==> |es| == 1
    ensures |es| == 1 ==> order(d.Keys) == [es[0].key]
  {
    var ks := order(d.Keys);
    assert Enumerates(ks, d.Keys) && Enumerates(Keys(es), d.Keys);
    XpcRoundTrip.SameSingle(ks, Keys(es), d.Keys);
  }

  /** XpcVariantAccess. */
  method FromPayload(h: Runtime, shape: Shape, r: Ref, ghost x: Xpc, ghost order: Order) returns (p: Result<Payload>)
    requires h.Valid() && Denotes(h.nodes, r, x) && ValidOrder(order)
    modifies h
    ensures h.Valid() && h.nodes == old(h.nodes) && h.rc == old(h.rc) && h.owned == old(h.owned)
    ensures h.next >= old(h.next)
    ensures p == DecodePayload(shape, x, order)
    decreases shape, 0
  {
    match shape
    case UnitShape => p := Ok(NoPayload);
    case NewtypeShape(t) =>
      var v := FromXpc(h, t, r, x, order);
      p := MapResult(v, u => NewtypePayload(u));
    case TupleShape(ts) =>
      if !h.nodes[r].Array? {
        return Err;
      }
      var vs := FromTuple(h, ts, r, x.xs, order);
      p := MapResult(vs, us => TuplePayload(us));
    case StructShape(fs) =>
      if !h.nodes[r].Dict? {
        return Err;
      }
      var vs := FromFields(h, fs, r, x.dict, order);
      p := MapResult(vs, us => StructPayload(us));
  }
}
