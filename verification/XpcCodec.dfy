/** The XPC serializer and deserializer (src/pal/apple/xpc.rs) and their round trip. */
module XpcCodec {
  import opened Wrappers
  import opened XpcTypes

  // ---------- Serializer ----------

  function Encode(v: Value): Result<Xpc> {
    match v
    case Bool(b) => Ok(XBool(b))
    case Int(i) => Ok(XInt64(i))
    case Uint(u) => Ok(XUint64(u))
    case Double(d) => Ok(XDouble(d))
    case Char(c) => EncodeStr([c])
    case Str(s) => EncodeStr(s)
    case Bytes(bytes) => Ok(XData(bytes))
    case Unit => Ok(XNull)
    case Nothing => Ok(XNull)
    case Just(u) => Encode(u)
    case Newtype(u) => Encode(u)
    case Seq(vs) => EncodeArray(vs)
    case Tuple(vs) => EncodeArray(vs)
    case Map(m) =>
      if exists k | k in m :: HasNul(k) || Encode(m[k]).Err? then Err
      else Ok(XDict(map k | k in m :: Encode(m[k]).value))
    case Struct(fields) => EncodeFields(fields)
    case Variant(name, NoPayload) => EncodeStr(name)
    case Variant(name, payload) =>
      var inner := EncodePayload(payload);
      if inner.Err? || HasNul(name) then Err else Ok(XDict(map[name := inner.value]))
  }

  /** CString::new refuses an interior NUL. */
  function EncodeStr(s: string): Result<Xpc> {
    if HasNul(s) then Err else Ok(XString(s))
  }

  function EncodeArray(vs: seq<Value>): Result<Xpc>
    decreases vs, 1
  {
    var xs := EncodeAll(vs);
    if xs.Err? then Err else Ok(XArray(xs.value))
  }

  /** SeqSerializer: the elements are appended one after the other. */
  function EncodeAll(vs: seq<Value>): (r: Result<seq<Xpc>>)
    decreases vs, 0
  {
    if vs == [] then Ok([])
    else
      var x := Encode(vs[0]);
      if x.Err? then Err
      else
        var xs := EncodeAll(vs[1..]);
        if xs.Err? then Err else Ok([x.value] + xs.value)
  }

  function EncodeFields(fields: seq<Field>): Result<Xpc>
    decreases fields, 1
  {
    var d := EncodeEntries(fields, map[]);
    if d.Err? then Err else Ok(XDict(d.value))
  }

  /** MapSerializer: each field is set in the dictionary built so far. */
  function EncodeEntries(fields: seq<Field>, dict: map<string, Xpc>): Result<map<string, Xpc>>
    decreases fields, 0
  {
    if fields == [] then Ok(dict)
    else
      var x := Encode(fields[0].value);
      if x.Err? || HasNul(fields[0].name) then Err
      else EncodeEntries(fields[1..], dict[fields[0].name := x.value])
  }

  function EncodePayload(p: Payload): Result<Xpc> {
    match p
    case NoPayload => Ok(XNull)
    case NewtypePayload(v) => Encode(v)
    case TuplePayload(vs) => EncodeArray(vs)
    case StructPayload(fields) => EncodeFields(fields)
  }

  // ---------- Deserializer ----------

  /** The order in which xpc_dictionary_apply visits the keys of a dictionary. */
  type Order = set<string> -> seq<string>

  ghost predicate Enumerates(keys: seq<string>, all: set<string>) {
    && (forall i, j | 0 <= i < j < |keys| :: keys[i] != keys[j])
    && (forall k :: k in keys <==> k in all)
  }

  ghost predicate ValidOrder(order: Order) {
    forall ks :: Enumerates(order(ks), ks)
  }

  function Decode(s: Schema, x: Xpc, order: Order): Result<Value>
    requires ValidOrder(order)
    decreases s, 1
  {
    match s
    case SBool => if x.XBool? then Ok(Bool(x.b)) else Err
    case SInt(bits) => if x.XInt64? && FitsInt(x.i, bits) then Ok(Int(x.i)) else Err
    case SUint(bits) => if x.XUint64? && FitsUint(x.u, bits) then Ok(Uint(x.u)) else Err
    case SDouble => if x.XDouble? then Ok(Double(x.d)) else Err
    case SChar => if x.XString? && |x.s| == 1 then Ok(Char(x.s[0])) else Err
    case SStr => if x.XString? then Ok(Str(x.s)) else Err
    case SBytes => if x.XData? then Ok(Bytes(x.bytes)) else Err
    case SUnit => Ok(Unit)
    case SOption(t) =>
      if x.XNull? then Ok(Nothing)
      else
        var v := Decode(t, x, order);
        if v.Err? then Err else Ok(Just(v.value))
    case SNewtype(t) =>
      var v := Decode(t, x, order);
      if v.Err? then Err else Ok(Newtype(v.value))
    case SSeq(t) =>
      if !x.XArray? then Err
      else
        var vs := DecodeElements(t, x.xs, order);
        if vs.Err? then Err else Ok(Seq(vs.value))
    case STuple(ts, named) =>
      var vs := if x.XData? && !named then DecodeBytes(ts, x.bytes)
                else if x.XArray? then DecodeTuple(ts, x.xs, order)
                else Err;
      if vs.Err? then Err else Ok(Tuple(vs.value))
    case SMap(t) =>
      if !x.XDict? then Err
      else
        var keys := order(x.dict.Keys);
        assert Enumerates(keys, x.dict.Keys);
        var m := DecodeEntries(t, x.dict, keys, map[], order);
        if m.Err? then Err else Ok(Map(m.value))
    case SStruct(fs) =>
      if !x.XDict? then Err
      else
        var vs := DecodeStruct(fs, x.dict, order);
        if vs.Err? then Err else Ok(Struct(vs.value))
    case SEnum(vs) => DecodeEnum(vs, x, order)
  }

  /** XpcSeqAccess, until the array is exhausted. */
  function DecodeElements(s: Schema, xs: seq<Xpc>, order: Order): Result<seq<Value>>
    requires ValidOrder(order)
    decreases s, 2, xs
  {
    if xs == [] then Ok([])
    else
      var v := Decode(s, xs[0], order);
      if v.Err? then Err
      else
        var vs := DecodeElements(s, xs[1..], order);
        if vs.Err? then Err else Ok([v.value] + vs.value)
  }

  /** A tuple asks for as many elements as it has; more are left unread. */
  function DecodeTuple(ts: seq<Schema>, xs: seq<Xpc>, order: Order): Result<seq<Value>>
    requires ValidOrder(order)
    decreases ts, 0
  {
    if ts == [] then Ok([])
    else if xs == [] then Err
    else
      var v := Decode(ts[0], xs[0], order);
      if v.Err? then Err
      else
        var vs := DecodeTuple(ts[1..], xs[1..], order);
        if vs.Err? then Err else Ok([v.value] + vs.value)
  }

  /** ByteSeqAccess: a data object read as a tuple of numbers. */
  function DecodeBytes(ts: seq<Schema>, bytes: seq<Byte>): Result<seq<Value>> {
    if ts == [] then Ok([])
    else if bytes == [] then Err
    else
      var v := DecodeByte(ts[0], bytes[0]);
      if v.Err? then Err
      else
        var vs := DecodeBytes(ts[1..], bytes[1..]);
        if vs.Err? then Err else Ok([v.value] + vs.value)
  }

  function DecodeByte(s: Schema, b: Byte): Result<Value> {
    match s
    case SInt(bits) => if FitsInt(b, bits) then Ok(Int(b)) else Err
    case SUint(bits) => if FitsUint(b, bits) then Ok(Uint(b)) else Err
    case SDouble => Ok(Double(b as real))
    case _ => Err
  }

  /** XpcMapAccess for a map: every entry is decoded and inserted. */
  function DecodeEntries(s: Schema, dict: map<string, Xpc>, keys: seq<string>, acc: map<string, Value>, order: Order)
    : Result<map<string, Value>>
    requires ValidOrder(order)
    requires forall k | k in keys :: k in dict
    decreases s, 2, keys
  {
    if keys == [] then Ok(acc)
    else
      var v := Decode(s, dict[keys[0]], order);
      if v.Err? then Err
      else DecodeEntries(s, dict, keys[1..], acc[keys[0] := v.value], order)
  }

  function IndexOf(fs: seq<SField>, name: string): (i: nat)
    ensures i <= |fs|
    ensures i < |fs| ==> fs[i].name == name
  {
    if fs == [] then 0 else if fs[0].name == name then 0 else 1 + IndexOf(fs[1..], name)
  }

  function DecodeStruct(fs: seq<SField>, dict: map<string, Xpc>, order: Order): Result<seq<Field>>
    requires ValidOrder(order)
    decreases fs, 2
  {
    var keys := order(dict.Keys);
    assert Enumerates(keys, dict.Keys);
    var found := DecodeFields(fs, dict, keys, map[], order);
    if found.Err? then Err else Complete(fs, found.value)
  }

  /** XpcMapAccess for a struct: known keys are decoded, unknown ones are skipped. */
  function DecodeFields(fs: seq<SField>, dict: map<string, Xpc>, keys: seq<string>, acc: map<string, Value>,
                        order: Order)
    : Result<map<string, Value>>
    requires ValidOrder(order)
    requires forall k | k in keys :: k in dict
    decreases fs, 1, keys
  {
    if keys == [] then Ok(acc)
    else
      var i := IndexOf(fs, keys[0]);
      if i == |fs| then DecodeFields(fs, dict, keys[1..], acc, order)
      else
        var v := Decode(fs[i].schema, dict[keys[0]], order);
        if v.Err? then Err
        else DecodeFields(fs, dict, keys[1..], acc[keys[0] := v.value], order)
  }

  /** A field that was not there is an error unless it is optional. */
  function Complete(fs: seq<SField>, found: map<string, Value>): Result<seq<Field>> {
    if fs == [] then Ok([])
    else if fs[0].name !in found && !fs[0].schema.SOption? then Err
    else
      var v := if fs[0].name in found then found[fs[0].name] else Nothing;
      var rest := Complete(fs[1..], found);
      if rest.Err? then Err else Ok([Field(fs[0].name, v)] + rest.value)
  }

  function VariantIndex(vs: seq<SVariant>, name: string): (i: nat)
    ensures i <= |vs|
    ensures i < |vs| ==> vs[i].name == name
  {
    if vs == [] then 0 else if vs[0].name == name then 0 else 1 + VariantIndex(vs[1..], name)
  }

  /** A string names a unit variant, a dictionary with one key any variant. */
  function DecodeEnum(vs: seq<SVariant>, x: Xpc, order: Order): Result<Value>
    requires ValidOrder(order)
    decreases vs, 3
  {
    match x
    case XString(name) =>
      var i := VariantIndex(vs, name);
      if i < |vs| && vs[i].shape.UnitShape? then Ok(Variant(name, NoPayload)) else Err
    case XDict(dict) =>
      var keys := order(dict.Keys);
      assert Enumerates(keys, dict.Keys);
      if |keys| != 1 then Err
      else
        var i := VariantIndex(vs, keys[0]);
        if i == |vs| then Err
        else
          var p := DecodePayload(vs[i].shape, dict[keys[0]], order);
          if p.Err? then Err else Ok(Variant(keys[0], p.value))
    case _ => Err
  }

  function DecodePayload(shape: Shape, x: Xpc, order: Order): Result<Payload>
    requires ValidOrder(order)
    decreases shape, 0
  {
    match shape
    case UnitShape => Ok(NoPayload)
    case NewtypeShape(t) =>
      var v := Decode(t, x, order);
      if v.Err? then Err else Ok(NewtypePayload(v.value))
    case TupleShape(ts) =>
      if !x.XArray? then Err
      else
        var vs := DecodeTuple(ts, x.xs, order);
        if vs.Err? then Err else Ok(TuplePayload(vs.value))
    case StructShape(fs) =>
      if !x.XDict? then Err
      else
        var vs := DecodeStruct(fs, x.dict, order);
        if vs.Err? then Err else Ok(StructPayload(vs.value))
  }
}
