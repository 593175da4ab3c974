/** What decoding an encoded value gives back, for every value and every dictionary order. */
module XpcRoundTrip {
  import opened Wrappers
  import opened XpcTypes
  import opened XpcCodec

  // ---------- When encoding succeeds ----------

  /** No NUL in any string, key or name. */
  ghost predicate NulFree(v: Value) {
    match v
    case Char(c) => c != '\0'
    case Str(s) => !HasNul(s)
    case Just(u) => NulFree(u)
    case Newtype(u) => NulFree(u)
    case Seq(vs) => forall i | 0 <= i < |vs| :: NulFree(vs[i])
    case Tuple(vs) => forall i | 0 <= i < |vs| :: NulFree(vs[i])
    case Map(m) => forall k | k in m :: !HasNul(k) && NulFree(m[k])
    case Struct(fs) => forall i | 0 <= i < |fs| :: !HasNul(fs[i].name) && NulFree(fs[i].value)
    case Variant(name, p) => !HasNul(name) && NulFreePayload(p)
    case _ => true
  }

  ghost predicate NulFreePayload(p: Payload) {
    match p
    case NoPayload => true
    case NewtypePayload(v) => NulFree(v)
    case TuplePayload(vs) => forall i | 0 <= i < |vs| :: NulFree(vs[i])
    case StructPayload(fs) => forall i | 0 <= i < |fs| :: !HasNul(fs[i].name) && NulFree(fs[i].value)
  }

  /** Encoding fails exactly on a NUL. */
  lemma {:induction false} EncodeSucceeds(v: Value)
    ensures Encode(v).Ok? <==> NulFree(v)
    decreases v, 1
  {
    match v
    case Just(u) => EncodeSucceeds(u);
    case Newtype(u) => EncodeSucceeds(u);
    case Seq(vs) => AllSucceed(vs);
    case Tuple(vs) => AllSucceed(vs);
    case Map(m) =>
      forall k | k in m ensures Encode(m[k]).Ok? <==> NulFree(m[k]) {
        EncodeSucceeds(m[k]);
      }
    case Struct(fs) => EntriesSucceed(fs, map[]);
    case Variant(_, p) => PayloadSucceeds(p);
    case _ =>
  }

  lemma {:induction false} PayloadSucceeds(p: Payload)
    ensures EncodePayload(p).Ok? <==> NulFreePayload(p)
    decreases p, 1
  {
    match p
    case NewtypePayload(u) => EncodeSucceeds(u);
    case TuplePayload(vs) => AllSucceed(vs);
    case StructPayload(fs) => EntriesSucceed(fs, map[]);
    case NoPayload =>
  }

  lemma {:induction false} AllSucceed(vs: seq<Value>)
    ensures EncodeAll(vs).Ok? <==> forall i | 0 <= i < |vs| :: NulFree(vs[i])
    decreases vs, 0
  {
    if vs != [] {
      EncodeSucceeds(vs[0]);
      AllSucceed(vs[1..]);
      assert forall i | 0 < i < |vs| :: vs[i] == vs[1..][i - 1];
    }
  }

  lemma {:induction false} EntriesSucceed(fs: seq<Field>, dict: map<string, Xpc>)
    ensures EncodeEntries(fs, dict).Ok? <==> forall i | 0 <= i < |fs| :: !HasNul(fs[i].name) && NulFree(fs[i].value)
    decreases fs, 0
  {
    if fs != [] {
      EncodeSucceeds(fs[0].value);
      if Encode(fs[0].value).Ok? {
        EntriesSucceed(fs[1..], dict[fs[0].name := Encode(fs[0].value).value]);
      }
      assert forall i | 0 < i < |fs| :: fs[i] == fs[1..][i - 1];
    }
  }

  // ---------- Shape of what is encoded ----------

  /** The dictionary of a struct has the field values under their names. */
  lemma {:induction false} EncodedFields(fs: seq<Field>, dict: map<string, Xpc>)
    requires EncodeEntries(fs, dict).Ok?
    requires forall i, j | 0 <= i < j < |fs| :: fs[i].name != fs[j].name
    ensures
      var d := EncodeEntries(fs, dict).value;
      && (forall i | 0 <= i < |fs| :: fs[i].name in d && Encode(fs[i].value) == Ok(d[fs[i].name]))
      && (forall k | k in dict && (forall i | 0 <= i < |fs| :: fs[i].name != k) :: k in d && d[k] == dict[k])
      && (forall k | k in d :: k in dict || exists i | 0 <= i < |fs| :: fs[i].name == k)
  {
    if fs != [] {
      var dict' := dict[fs[0].name := Encode(fs[0].value).value];
      var rest := fs[1..];
      assert forall i | 0 <= i < |rest| :: rest[i] == fs[i + 1];
      EncodedFields(rest, dict');
      var d := EncodeEntries(rest, dict').value;
      assert fs[0].name in d && d[fs[0].name] == dict'[fs[0].name];
      forall i | 0 <= i < |fs| ensures fs[i].name in d && Encode(fs[i].value) == Ok(d[fs[i].name]) {
        if i > 0 {
          assert rest[i - 1] == fs[i];
        }
      }
      forall k | k in d ensures k in dict || exists i | 0 <= i < |fs| :: fs[i].name == k {
        if k !in dict && k != fs[0].name {
          var i :| 0 <= i < |rest| && rest[i].name == k;
          assert fs[i + 1].name == k;
        }
      }
    }
  }

  // ---------- Decoding dictionaries in any order ----------

  ghost predicate EntriesOk(s: Schema, dict: map<string, Xpc>, keys: seq<string>, order: Order)
    requires ValidOrder(order) && forall k | k in keys :: k in dict
  {
    forall k | k in keys :: Decode(s, dict[k], order).Ok?
  }

  ghost function EntryValues(s: Schema, dict: map<string, Xpc>, keys: seq<string>, order: Order)
    : (m: map<string, Value>)
    requires ValidOrder(order) && (forall k | k in keys :: k in dict) && EntriesOk(s, dict, keys, order)
    ensures forall k :: k in m <==> k in keys
  {
    map k | k in keys :: Decode(s, dict[k], order).value
  }

  lemma {:induction false} Uncons(keys: seq<string>)
    requires keys != []
    ensures forall k :: k in keys <==> k == keys[0] || k in keys[1..]
  {
  }

  lemma {:induction false} EntriesUncons(s: Schema, dict: map<string, Xpc>, keys: seq<string>, order: Order)
    requires ValidOrder(order) && (forall k | k in keys :: k in dict) && keys != []
    ensures EntriesOk(s, dict, keys, order) <==>
            Decode(s, dict[keys[0]], order).Ok? && EntriesOk(s, dict, keys[1..], order)
    ensures EntriesOk(s, dict, keys, order) ==>
              forall acc: map<string, Value> {:trigger acc + EntryValues(s, dict, keys, order)} ::
                acc + EntryValues(s, dict, keys, order) ==
                acc[keys[0] := Decode(s, dict[keys[0]], order).value] + EntryValues(s, dict, keys[1..], order)
  {
    Uncons(keys);
  }

  /** Decoding a map is looking at each key once; the order does not show. */
  lemma {:induction false} EntriesDecoded(s: Schema, dict: map<string, Xpc>, keys: seq<string>,
                                          acc: map<string, Value>, order: Order)
    requires ValidOrder(order) && forall k | k in keys :: k in dict
    ensures DecodeEntries(s, dict, keys, acc, order) ==
            if EntriesOk(s, dict, keys, order) then Ok(acc + EntryValues(s, dict, keys, order)) else Err
    decreases |keys|
  {
    if keys == [] {
      assert acc + EntryValues(s, dict, keys, order) == acc;
    } else {
      EntriesUncons(s, dict, keys, order);
      if Decode(s, dict[keys[0]], order).Ok? {
        EntriesDecoded(s, dict, keys[1..], acc[keys[0] := Decode(s, dict[keys[0]], order).value], order);
      }
    }
  }

  predicate Known(fs: seq<SField>, k: string) {
    IndexOf(fs, k) < |fs|
  }

  function DecodeField(fs: seq<SField>, k: string, x: Xpc, order: Order): Result<Value>
    requires ValidOrder(order) && Known(fs, k)
  {
    Decode(fs[IndexOf(fs, k)].schema, x, order)
  }

  ghost predicate FieldsOk(fs: seq<SField>, dict: map<string, Xpc>, keys: seq<string>, order: Order)
    requires ValidOrder(order) && forall k | k in keys :: k in dict
  {
    forall k | k in keys && Known(fs, k) :: DecodeField(fs, k, dict[k], order).Ok?
  }

  ghost function FieldValues(fs: seq<SField>, dict: map<string, Xpc>, keys: seq<string>, order: Order)
    : (m: map<string, Value>)
    requires ValidOrder(order) && (forall k | k in keys :: k in dict) && FieldsOk(fs, dict, keys, order)
    ensures forall k :: k in m <==> k in keys && Known(fs, k)
  {
    map k | k in keys && Known(fs, k) :: DecodeField(fs, k, dict[k], order).value
  }

  lemma {:induction false} FieldsUncons(fs: seq<SField>, dict: map<string, Xpc>, keys: seq<string>, order: Order)
    requires ValidOrder(order) && (forall k | k in keys :: k in dict) && keys != []
    ensures FieldsOk(fs, dict, keys, order) <==>
            (Known(fs, keys[0]) ==> DecodeField(fs, keys[0], dict[keys[0]], order).Ok?)
                && FieldsOk(fs, dict, keys[1..], order)
    ensures FieldsOk(fs, dict, keys, order) ==>
              forall acc: map<string, Value> {:trigger acc + FieldValues(fs, dict, keys, order)} ::
                acc + FieldValues(fs, dict, keys, order) ==
                (if Known(fs, keys[0])
                 then acc[keys[0] := DecodeField(fs, keys[0], dict[keys[0]], order).value]
                 else acc)
                + FieldValues(fs, dict, keys[1..], order)
  {
    Uncons(keys);
  }

  lemma {:induction false} FieldsDecoded(fs: seq<SField>, dict: map<string, Xpc>, keys: seq<string>,
                                         acc: map<string, Value>, order: Order)
    requires ValidOrder(order) && forall k | k in keys :: k in dict
    ensures DecodeFields(fs, dict, keys, acc, order) ==
            if FieldsOk(fs, dict, keys, order) then Ok(acc + FieldValues(fs, dict, keys, order)) else Err
    decreases |keys|
  {
    if keys == [] {
      assert acc + FieldValues(fs, dict, keys, order) == acc;
    } else {
      FieldsUncons(fs, dict, keys, order);
      if !Known(fs, keys[0]) {
        FieldsDecoded(fs, dict, keys[1..], acc, order);
      } else if DecodeField(fs, keys[0], dict[keys[0]], order).Ok? {
        FieldsDecoded(fs, dict, keys[1..], acc[keys[0] := DecodeField(fs, keys[0], dict[keys[0]], order).value], order);
      }
    }
  }

  ghost predicate SameDecoding(s: Schema, dict: map<string, Xpc>, o1: Order, o2: Order)
    requires ValidOrder(o1) && ValidOrder(o2)
  {
    forall k | k in dict :: Decode(s, dict[k], o1) == Decode(s, dict[k], o2)
  }

  ghost predicate SameKeys(keys: seq<string>, dict: map<string, Xpc>) {
    forall k :: k in keys <==> k in dict
  }

  lemma {:induction false} SameEntryValues(s: Schema, dict: map<string, Xpc>, k1: seq<string>, k2: seq<string>,
                                           o1: Order, o2: Order)
    requires ValidOrder(o1) && ValidOrder(o2) && SameDecoding(s, dict, o1, o2)
    requires SameKeys(k1, dict) && SameKeys(k2, dict) && EntriesOk(s, dict, k1, o1)
    ensures EntriesOk(s, dict, k2, o2) && EntryValues(s, dict, k1, o1) == EntryValues(s, dict, k2, o2)
  {
  }

  lemma {:induction false} SameEntries(s: Schema, dict: map<string, Xpc>, k1: seq<string>, k2: seq<string>,
                                       o1: Order, o2: Order)
    requires ValidOrder(o1) && ValidOrder(o2) && SameDecoding(s, dict, o1, o2)
    requires SameKeys(k1, dict) && SameKeys(k2, dict)
    ensures DecodeEntries(s, dict, k1, map[], o1) == DecodeEntries(s, dict, k2, map[], o2)
  {
    EntriesDecoded(s, dict, k1, map[], o1);
    EntriesDecoded(s, dict, k2, map[], o2);
    if EntriesOk(s, dict, k1, o1) {
      SameEntryValues(s, dict, k1, k2, o1, o2);
    } else if EntriesOk(s, dict, k2, o2) {
      SameEntryValues(s, dict, k2, k1, o2, o1);
    }
  }

  ghost predicate SameFields(fs: seq<SField>, dict: map<string, Xpc>, o1: Order, o2: Order)
    requires ValidOrder(o1) && ValidOrder(o2)
  {
    forall k | k in dict && Known(fs, k) :: DecodeField(fs, k, dict[k], o1) == DecodeField(fs, k, dict[k], o2)
  }

  lemma {:induction false} SameFoundValues(fs: seq<SField>, dict: map<string, Xpc>, k1: seq<string>,
                                           k2: seq<string>, o1: Order, o2: Order)
    requires ValidOrder(o1) && ValidOrder(o2) && SameFields(fs, dict, o1, o2)
    requires SameKeys(k1, dict) && SameKeys(k2, dict) && FieldsOk(fs, dict, k1, o1)
    ensures FieldsOk(fs, dict, k2, o2) && FieldValues(fs, dict, k1, o1) == FieldValues(fs, dict, k2, o2)
  {
  }

  lemma {:induction false} SameFieldValues(fs: seq<SField>, dict: map<string, Xpc>, k1: seq<string>,
                                           k2: seq<string>, o1: Order, o2: Order)
    requires ValidOrder(o1) && ValidOrder(o2) && SameFields(fs, dict, o1, o2)
    requires SameKeys(k1, dict) && SameKeys(k2, dict)
    ensures DecodeFields(fs, dict, k1, map[], o1) == DecodeFields(fs, dict, k2, map[], o2)
  {
    FieldsDecoded(fs, dict, k1, map[], o1);
    FieldsDecoded(fs, dict, k2, map[], o2);
    if FieldsOk(fs, dict, k1, o1) {
      SameFoundValues(fs, dict, k1, k2, o1, o2);
    } else if FieldsOk(fs, dict, k2, o2) {
      SameFoundValues(fs, dict, k2, k1, o2, o1);
    }
  }

  /** With distinct names a field is found at its own place. */
  lemma {:induction false} IndexFound(fs: seq<SField>, i: nat)
    requires DistinctFields(fs) && i < |fs|
    ensures IndexOf(fs, fs[i].name) == i
  {
    if i > 0 {
      assert fs[1..][i - 1] == fs[i];
      IndexFound(fs[1..], i - 1);
    }
  }

  lemma {:induction false} VariantFound(vs: seq<SVariant>, i: nat)
    requires DistinctVariants(vs) && i < |vs|
    ensures VariantIndex(vs, vs[i].name) == i
  {
    if i > 0 {
      assert vs[1..][i - 1] == vs[i];
      VariantFound(vs[1..], i - 1);
    }
  }

  // ---------- What comes back ----------

  /** The values encoded as null. */
  predicate Nullish(v: Value) {
    match v
    case Unit => true
    case Nothing => true
    case Just(u) => Nullish(u)
    case Newtype(u) => Nullish(u)
    case _ => false
  }

  /** The value with every option of a null replaced by the empty option. */
  function Collapse(v: Value): Value {
    match v
    case Just(u) => if Nullish(u) then Nothing else Just(Collapse(u))
    case Newtype(u) => Newtype(Collapse(u))
    case Seq(vs) => Seq(CollapseAll(vs))
    case Tuple(vs) => Tuple(CollapseAll(vs))
    case Map(m) => Map(map k | k in m :: Collapse(m[k]))
    case Struct(fs) => Struct(CollapseFields(fs))
    case Variant(name, p) => Variant(name, CollapsePayload(p))
    case _ => v
  }

  function CollapseAll(vs: seq<Value>): seq<Value> {
    if vs == [] then [] else [Collapse(vs[0])] + CollapseAll(vs[1..])
  }

  function CollapseFields(fs: seq<Field>): seq<Field> {
    if fs == [] then [] else [Field(fs[0].name, Collapse(fs[0].value))] + CollapseFields(fs[1..])
  }

  function CollapsePayload(p: Payload): Payload {
    match p
    case NoPayload => NoPayload
    case NewtypePayload(v) => NewtypePayload(Collapse(v))
    case TuplePayload(vs) => TuplePayload(CollapseAll(vs))
    case StructPayload(fs) => StructPayload(CollapseFields(fs))
  }

  lemma {:induction false} NullishEncodes(v: Value)
    ensures Nullish(v) <==> Encode(v) == Ok(XNull)
  {
    match v
    case Just(u) => NullishEncodes(u);
    case Newtype(u) => NullishEncodes(u);
    case _ =>
  }

  /** Decoding what was encoded gives the value back up to options of null, whatever the order in
      which dictionaries are visited. */
  lemma {:induction false} RoundTrip(s: Schema, v: Value, order: Order)
    requires ValidOrder(order) && WellFormed(s) && HasType(s, v) && Encode(v).Ok?
    ensures Decode(s, Encode(v).value, order) == Ok(Collapse(v))
    decreases s, 1
  {
    match s
    case SOption(t) =>
      if v.Just? {
        NullishEncodes(v.v);
        RoundTrip(t, v.v, order);
      }
    case SNewtype(t) => RoundTrip(t, v.v, order);
    case SSeq(t) => ElementsRoundTrip(t, v.vs, order);
    case STuple(ts, _) => TupleRoundTrip(ts, v.vs, order);
    case SMap(t) => MapRoundTrip(t, v, order);
    case SStruct(fs) => StructRoundTrip(fs, v.fields, order);
    case SEnum(vs) => EnumRoundTrip(vs, v, order);
    case _ =>
  }

  lemma {:induction false} MapRoundTrip(t: Schema, v: Value, order: Order)
    requires ValidOrder(order) && WellFormed(t) && HasType(SMap(t), v) && Encode(v).Ok?
    ensures Decode(SMap(t), Encode(v).value, order) == Ok(Collapse(v))
    decreases t, 2
  {
    var dict := Encode(v).value.dict;
    var keys := order(dict.Keys);
    assert Enumerates(keys, dict.Keys);
    forall k | k in v.m ensures Decode(t, dict[k], order) == Ok(Collapse(v.m[k])) {
      RoundTrip(t, v.m[k], order);
    }
    var c := Collapse(v).m;
    assert forall k | k in c :: Decode(t, dict[k], order) == Ok(c[k]);
    EntriesKnown(t, c, dict, keys, order);
  }

  lemma {:induction false} EntriesKnown(t: Schema, c: map<string, Value>, dict: map<string, Xpc>, keys: seq<string>,
                                        order: Order)
    requires ValidOrder(order) && dict.Keys == c.Keys
    requires forall k :: k in keys <==> k in dict
    requires forall k | k in c :: Decode(t, dict[k], order) == Ok(c[k])
    ensures DecodeEntries(t, dict, keys, map[], order) == Ok(c)
  {
    EntriesDecoded(t, dict, keys, map[], order);
    assert EntriesOk(t, dict, keys, order);
    assert map[] + EntryValues(t, dict, keys, order) == c;
  }

  lemma {:induction false} ElementsRoundTrip(s: Schema, vs: seq<Value>, order: Order)
    requires ValidOrder(order) && WellFormed(s) && EncodeAll(vs).Ok?
    requires forall i | 0 <= i < |vs| :: HasType(s, vs[i])
    ensures DecodeElements(s, EncodeAll(vs).value, order) == Ok(CollapseAll(vs))
    decreases s, 2, vs
  {
    if vs != [] {
      RoundTrip(s, vs[0], order);
      ElementsRoundTrip(s, vs[1..], order);
      assert EncodeAll(vs).value[1..] == EncodeAll(vs[1..]).value;
    }
  }

  lemma {:induction false} TupleRoundTrip(ts: seq<Schema>, vs: seq<Value>, order: Order)
    requires ValidOrder(order) && EncodeAll(vs).Ok? && |vs| == |ts|
    requires forall i | 0 <= i < |ts| :: WellFormed(ts[i]) && HasType(ts[i], vs[i])
    ensures DecodeTuple(ts, EncodeAll(vs).value, order) == Ok(CollapseAll(vs))
    decreases ts, 0
  {
    if ts != [] {
      RoundTrip(ts[0], vs[0], order);
      TupleRoundTrip(ts[1..], vs[1..], order);
      assert EncodeAll(vs).value[1..] == EncodeAll(vs[1..]).value;
    }
  }

  lemma {:induction false} StructRoundTrip(fs: seq<SField>, vs: seq<Field>, order: Order)
    requires ValidOrder(order) && EncodeEntries(vs, map[]).Ok? && FieldsHaveType(fs, vs) && DistinctFields(fs)
    requires forall i | 0 <= i < |fs| :: WellFormed(fs[i].schema)
    ensures DecodeStruct(fs, EncodeEntries(vs, map[]).value, order) == Ok(CollapseFields(vs))
    decreases fs, 2
  {
    var dict := EncodeEntries(vs, map[]).value;
    EncodedFields(vs, map[]);
    var keys := order(dict.Keys);
    assert Enumerates(keys, dict.Keys);
    forall i | 0 <= i < |fs|
      ensures IndexOf(fs, fs[i].name) == i && fs[i].name in dict
      ensures Decode(fs[i].schema, dict[fs[i].name], order) == Ok(Collapse(vs[i].value))
    {
      IndexFound(fs, i);
      RoundTrip(fs[i].schema, vs[i].value, order);
    }
    FieldsDecoded(fs, dict, keys, map[], order);
    forall k | k in keys && Known(fs, k) ensures DecodeField(fs, k, dict[k], order).Ok? {
      assert fs[IndexOf(fs, k)].name == k;
    }
    assert FieldsOk(fs, dict, keys, order);
    CompleteAll(fs, vs, map[] + FieldValues(fs, dict, keys, order));
  }

  lemma {:induction false} CompleteAll(fs: seq<SField>, vs: seq<Field>, found: map<string, Value>)
    requires |vs| == |fs|
    requires forall i | 0 <= i < |fs| ::
      fs[i].name == vs[i].name && fs[i].name in found && found[fs[i].name] == Collapse(vs[i].value)
    ensures Complete(fs, found) == Ok(CollapseFields(vs))
  {
    if fs != [] {
      forall i | 0 <= i < |fs| - 1 ensures fs[1..][i].name == vs[1..][i].name && fs[1..][i].name in found
                                           && found[fs[1..][i].name] == Collapse(vs[1..][i].value) {
        assert fs[1..][i] == fs[i + 1] && vs[1..][i] == vs[i + 1];
      }
      CompleteAll(fs[1..], vs[1..], found);
    }
  }

  lemma {:induction false} EnumRoundTrip(vs: seq<SVariant>, v: Value, order: Order)
    requires ValidOrder(order) && Encode(v).Ok? && HasType(SEnum(vs), v) && WellFormed(SEnum(vs))
    ensures DecodeEnum(vs, Encode(v).value, order) == Ok(Collapse(v))
    decreases vs, 3
  {
    var i :| 0 <= i < |vs| && vs[i].name == v.name && PayloadHasType(vs[i].shape, v.payload);
    VariantFound(vs, i);
    if !v.payload.NoPayload? {
      var dict := Encode(v).value.dict;
      var keys := order(dict.Keys);
      assert Enumerates(keys, dict.Keys);
      OneKey(keys, v.name);
      PayloadRoundTrip(vs[i].shape, v.payload, order);
    }
  }

  lemma {:induction false} OneKey(keys: seq<string>, k: string)
    requires Enumerates(keys, {k})
    ensures keys == [k]
  {
    assert k in keys;
    assert forall i | 0 <= i < |keys| :: keys[i] in keys;
    if |keys| >= 2 {
      TwoDiffer(keys, {k});
    }
  }

  lemma {:induction false} TwoDiffer(keys: seq<string>, all: set<string>)
    requires Enumerates(keys, all) && |keys| >= 2
    ensures exists a, b | a in all && b in all :: a != b
  {
    assert keys[0] in keys && keys[1] in keys && keys[0] != keys[1];
  }

  lemma {:induction false} PayloadRoundTrip(shape: Shape, p: Payload, order: Order)
    requires ValidOrder(order) && EncodePayload(p).Ok? && PayloadHasType(shape, p) && WellFormedShape(shape)
    ensures DecodePayload(shape, EncodePayload(p).value, order) == Ok(CollapsePayload(p))
    decreases shape, 0
  {
    match shape
    case UnitShape =>
    case NewtypeShape(t) => RoundTrip(t, p.v, order);
    case TupleShape(ts) => TupleRoundTrip(ts, p.vs, order);
    case StructShape(fs) => StructRoundTrip(fs, p.fields, order);
  }

  // ---------- Exactly which values survive ----------

  /** No option holds a value that is encoded as null. */
  predicate NoNullOption(v: Value) {
    match v
    case Just(u) => !Nullish(u) && NoNullOption(u)
    case Newtype(u) => NoNullOption(u)
    case Seq(vs) => forall i | 0 <= i < |vs| :: NoNullOption(vs[i])
    case Tuple(vs) => forall i | 0 <= i < |vs| :: NoNullOption(vs[i])
    case Map(m) => forall k | k in m :: NoNullOption(m[k])
    case Struct(fs) => forall i | 0 <= i < |fs| :: NoNullOption(fs[i].value)
    case Variant(_, NewtypePayload(u)) => NoNullOption(u)
    case Variant(_, TuplePayload(vs)) => forall i | 0 <= i < |vs| :: NoNullOption(vs[i])
    case Variant(_, StructPayload(fs)) => forall i | 0 <= i < |fs| :: NoNullOption(fs[i].value)
    case _ => true
  }

  lemma {:induction false} CollapseUnchanged(v: Value)
    ensures Collapse(v) == v <==> NoNullOption(v)
    decreases v, 1
  {
    match v
    case Just(u) => CollapseUnchanged(u);
    case Newtype(u) => CollapseUnchanged(u);
    case Seq(vs) => CollapseAllUnchanged(vs);
    case Tuple(vs) => CollapseAllUnchanged(vs);
    case Map(m) =>
      forall k | k in m ensures Collapse(m[k]) == m[k] <==> NoNullOption(m[k]) {
        CollapseUnchanged(m[k]);
      }
      var m' := map k | k in m :: Collapse(m[k]);
      assert m' == m <==> forall k | k in m :: m'[k] == m[k];
    case Struct(fs) => CollapseFieldsUnchanged(fs);
    case Variant(_, p) =>
      match p {
        case NewtypePayload(u) => CollapseUnchanged(u);
        case TuplePayload(vs) => CollapseAllUnchanged(vs);
        case StructPayload(fs) => CollapseFieldsUnchanged(fs);
        case NoPayload =>
      }
    case _ =>
  }

  lemma {:induction false} CollapseAllUnchanged(vs: seq<Value>)
    ensures CollapseAll(vs) == vs <==> forall i | 0 <= i < |vs| :: NoNullOption(vs[i])
    decreases vs, 0
  {
    if vs != [] {
      CollapseUnchanged(vs[0]);
      CollapseAllUnchanged(vs[1..]);
      var c := CollapseAll(vs);
      assert c[0] == Collapse(vs[0]) && c[1..] == CollapseAll(vs[1..]);
      assert c == vs <==> c[0] == vs[0] && c[1..] == vs[1..] by {
        assert vs == [vs[0]] + vs[1..] && c == [c[0]] + c[1..];
      }
      assert forall i | 0 < i < |vs| :: vs[i] == vs[1..][i - 1];
    }
  }

  lemma {:induction false} CollapseFieldsUnchanged(fs: seq<Field>)
    ensures CollapseFields(fs) == fs <==> forall i | 0 <= i < |fs| :: NoNullOption(fs[i].value)
    decreases fs, 0
  {
    if fs != [] {
      CollapseUnchanged(fs[0].value);
      CollapseFieldsUnchanged(fs[1..]);
      var c := CollapseFields(fs);
      assert c[0] == Field(fs[0].name, Collapse(fs[0].value)) && c[1..] == CollapseFields(fs[1..]);
      assert c == fs <==> c[0] == fs[0] && c[1..] == fs[1..] by {
        assert fs == [fs[0]] + fs[1..] && c == [c[0]] + c[1..];
      }
      assert forall i | 0 < i < |fs| :: fs[i] == fs[1..][i - 1];
    }
  }

  /** `from_xpc(to_xpc(v))` is v exactly when no option in v holds a null; on a NUL it fails. */
  lemma {:induction false} RoundTripExact(s: Schema, v: Value, order: Order)
    requires ValidOrder(order) && WellFormed(s) && HasType(s, v)
    ensures Encode(v).Ok? <==> NulFree(v)
    ensures Encode(v).Ok? ==> (Decode(s, Encode(v).value, order) == Ok(v) <==> NoNullOption(v))
  {
    EncodeSucceeds(v);
    if Encode(v).Ok? {
      RoundTrip(s, v, order);
      CollapseUnchanged(v);
    }
  }

  /** `Some(())` comes back as `None`. */
  lemma {:induction false} NullOptionLost(order: Order)
    requires ValidOrder(order)
    ensures HasType(SOption(SUnit), Just(Unit)) && Encode(Just(Unit)) == Encode(Nothing)
    ensures Decode(SOption(SUnit), Encode(Just(Unit)).value, order) == Ok(Nothing)
  {
    assert Encode(Just(Unit)) == Encode(Unit);
  }

  // ---------- Any object, any order ----------

  /** Decoding anything, not only what the serializer produced, does not depend on the order in
      which dictionaries are visited. */
  lemma {:induction false} OrderIndependent(s: Schema, x: Xpc, o1: Order, o2: Order)
    requires ValidOrder(o1) && ValidOrder(o2)
    ensures Decode(s, x, o1) == Decode(s, x, o2)
    decreases s, 1
  {
    match s
    case SOption(t) => OrderIndependent(t, x, o1, o2);
    case SNewtype(t) => OrderIndependent(t, x, o1, o2);
    case SSeq(t) =>
      if x.XArray? {
        ElementsIndependent(t, x.xs, o1, o2);
      }
    case STuple(ts, _) =>
      if x.XArray? {
        TupleIndependent(ts, x.xs, o1, o2);
      }
    case SMap(t) =>
      if x.XDict? {
        EntriesIndependent(t, x.dict, o1, o2);
      }
    case SStruct(fs) =>
      if x.XDict? {
        StructIndependent(fs, x.dict, o1, o2);
      }
    case SEnum(vs) => EnumIndependent(vs, x, o1, o2);
    case _ =>
  }

  lemma {:induction false} EntriesIndependent(t: Schema, dict: map<string, Xpc>, o1: Order, o2: Order)
    requires ValidOrder(o1) && ValidOrder(o2)
    ensures Decode(SMap(t), XDict(dict), o1) == Decode(SMap(t), XDict(dict), o2)
    decreases t, 2
  {
    var k1, k2 := o1(dict.Keys), o2(dict.Keys);
    assert Enumerates(k1, dict.Keys) && Enumerates(k2, dict.Keys);
    forall k | k in dict ensures Decode(t, dict[k], o1) == Decode(t, dict[k], o2) {
      OrderIndependent(t, dict[k], o1, o2);
    }
    SameEntries(t, dict, k1, k2, o1, o2);
  }

  lemma {:induction false} ElementsIndependent(s: Schema, xs: seq<Xpc>, o1: Order, o2: Order)
    requires ValidOrder(o1) && ValidOrder(o2)
    ensures DecodeElements(s, xs, o1) == DecodeElements(s, xs, o2)
    decreases s, 2, xs
  {
    if xs != [] {
      OrderIndependent(s, xs[0], o1, o2);
      ElementsIndependent(s, xs[1..], o1, o2);
    }
  }

  lemma {:induction false} TupleIndependent(ts: seq<Schema>, xs: seq<Xpc>, o1: Order, o2: Order)
    requires ValidOrder(o1) && ValidOrder(o2)
    ensures DecodeTuple(ts, xs, o1) == DecodeTuple(ts, xs, o2)
    decreases ts, 0
  {
    if ts != [] && xs != [] {
      OrderIndependent(ts[0], xs[0], o1, o2);
      TupleIndependent(ts[1..], xs[1..], o1, o2);
    }
  }

  lemma {:induction false} StructIndependent(fs: seq<SField>, dict: map<string, Xpc>, o1: Order, o2: Order)
    requires ValidOrder(o1) && ValidOrder(o2)
    ensures DecodeStruct(fs, dict, o1) == DecodeStruct(fs, dict, o2)
    decreases fs, 2
  {
    var k1, k2 := o1(dict.Keys), o2(dict.Keys);
    assert Enumerates(k1, dict.Keys) && Enumerates(k2, dict.Keys);
    forall k | k in dict && Known(fs, k) ensures DecodeField(fs, k, dict[k], o1) == DecodeField(fs, k, dict[k], o2) {
      OrderIndependent(fs[IndexOf(fs, k)].schema, dict[k], o1, o2);
    }
    SameFieldValues(fs, dict, k1, k2, o1, o2);
  }

  lemma {:induction false} EnumIndependent(vs: seq<SVariant>, x: Xpc, o1: Order, o2: Order)
    requires ValidOrder(o1) && ValidOrder(o2)
    ensures DecodeEnum(vs, x, o1) == DecodeEnum(vs, x, o2)
    decreases vs, 3
  {
    if x.XDict? {
      var k1, k2 := o1(x.dict.Keys), o2(x.dict.Keys);
      assert Enumerates(k1, x.dict.Keys) && Enumerates(k2, x.dict.Keys);
      SameSingle(k1, k2, x.dict.Keys);
      if |k1| == 1 {
        var i := VariantIndex(vs, k1[0]);
        if i < |vs| {
          PayloadIndependent(vs[i].shape, x.dict[k1[0]], o1, o2);
        }
      }
    }
  }

  lemma {:induction false} SameSingle(k1: seq<string>, k2: seq<string>, all: set<string>)
    requires Enumerates(k1, all) && Enumerates(k2, all)
    ensures |k1| == 1 <==> |k2| == 1
    ensures |k1| == 1 ==> k1 == k2
  {
    if |k1| == 1 {
      assert forall k :: k in all <==> k == k1[0];
      OneKey(k2, k1[0]);
    }
    if |k2| == 1 {
      assert forall k :: k in all <==> k == k2[0];
      OneKey(k1, k2[0]);
    }
  }

  lemma {:induction false} PayloadIndependent(shape: Shape, x: Xpc, o1: Order, o2: Order)
    requires ValidOrder(o1) && ValidOrder(o2)
    ensures DecodePayload(shape, x, o1) == DecodePayload(shape, x, o2)
    decreases shape, 0
  {
    match shape
    case UnitShape =>
    case NewtypeShape(t) => OrderIndependent(t, x, o1, o2);
    case TupleShape(ts) =>
      if x.XArray? {
        TupleIndependent(ts, x.xs, o1, o2);
      }
    case StructShape(fs) =>
      if x.XDict? {
        StructIndependent(fs, x.dict, o1, o2);
      }
  }
}
