/** What an XPC object says, apart from the loops that write and read it (src/pal/apple/xpc.rs): what
    the serializer writes, exactly, and what the deserializer takes, exactly. */
module XpcWire {
  import opened Wrappers
  import opened XpcTypes
  import opened XpcCodec
  import opened XpcRoundTrip

  /** The object says the value, as one of the type. Strictly, every value has its own form: scalars are
      of their own type, a unit is null, arrays are as long as the tuple, dictionaries have exactly the
      fields, a unit variant is its name and any other a dictionary of that one key. Otherwise what the
      deserializer puts up with is a form as well. */
  ghost predicate Says(s: Schema, x: Xpc, v: Value, strict: bool)
    decreases s, 1
  {
    match s
    case SBool => x.XBool? && v == Bool(x.b)
    case SInt(bits) => x.XInt64? && FitsInt(x.i, bits) && v == Int(x.i)
    case SUint(bits) => x.XUint64? && FitsUint(x.u, bits) && v == Uint(x.u)
    case SDouble => x.XDouble? && v == Double(x.d)
    case SChar => x.XString? && |x.s| == 1 && v == Char(x.s[0]) && (strict ==> !HasNul(x.s))
    case SStr => x.XString? && v == Str(x.s) && (strict ==> !HasNul(x.s))
    case SBytes => x.XData? && v == Bytes(x.bytes)
    case SUnit => v == Unit && (strict ==> x == XNull)
    case SOption(t) => if x == XNull then v == Nothing else v.Just? && Says(t, x, v.v, strict)
    case SNewtype(t) => v.Newtype? && Says(t, x, v.v, strict)
    case SSeq(t) =>
      x.XArray? && v.Seq? && |v.vs| == |x.xs| && forall i | 0 <= i < |x.xs| :: Says(t, x.xs[i], v.vs[i], strict)
    case STuple(ts, named) =>
      v.Tuple? && if x.XArray? then TupleSays(ts, x.xs, v.vs, strict)
                  else x.XData? && !named && !strict && BytesSay(ts, x.bytes, v.vs)
    case SMap(t) =>
      && x.XDict? && v.Map? && v.m.Keys == x.dict.Keys
      && (forall k | k in x.dict :: Says(t, x.dict[k], v.m[k], strict) && (strict ==> !HasNul(k)))
    case SStruct(fs) => x.XDict? && v.Struct? && StructSays(fs, x.dict, v.fields, strict)
    case SEnum(vs) =>
      v.Variant? && exists i | 0 <= i < |vs| :: vs[i].name == v.name && VariantSays(vs[i], x, v.payload, strict)
  }

  /** Elements beyond those of the tuple are left unread. */
  ghost predicate TupleSays(ts: seq<Schema>, xs: seq<Xpc>, vs: seq<Value>, strict: bool)
    decreases ts, 0
  {
    && |vs| == |ts| && (if strict then |xs| == |ts| else |xs| >= |ts|)
    && forall i | 0 <= i < |ts| :: Says(ts[i], xs[i], vs[i], strict)
  }

  /** A data object as a tuple of numbers. */
  ghost predicate BytesSay(ts: seq<Schema>, bytes: seq<Byte>, vs: seq<Value>) {
    && |vs| == |ts| <= |bytes|
    && forall i | 0 <= i < |ts| ::
         match ts[i]
         case SInt(bits) => FitsInt(bytes[i], bits) && vs[i] == Int(bytes[i])
         case SUint(bits) => FitsUint(bytes[i], bits) && vs[i] == Uint(bytes[i])
         case SDouble => vs[i] == Double(bytes[i] as real)
         case _ => false
  }

  /** A field that is not there is an empty option; keys that are no fields say nothing. */
  ghost predicate StructSays(fs: seq<SField>, dict: map<string, Xpc>, fields: seq<Field>, strict: bool)
    decreases fs, 0
  {
    && |fields| == |fs|
    && (forall i | 0 <= i < |fs| ::
          && fields[i].name == fs[i].name
          && if fs[i].name in dict then Says(fs[i].schema, dict[fs[i].name], fields[i].value, strict)
             else !strict && fs[i].schema.SOption? && fields[i].value == Nothing)
    && (strict ==> forall k | k in dict :: !HasNul(k) && exists i | 0 <= i < |fs| :: fs[i].name == k)
  }

  ghost predicate VariantSays(variant: SVariant, x: Xpc, p: Payload, strict: bool)
    decreases variant, 0
  {
    && (strict ==> !HasNul(variant.name))
    && match variant.shape
       case UnitShape =>
         p == NoPayload && (x == XString(variant.name) || (!strict && x.XDict? && x.dict.Keys == {variant.name}))
       case NewtypeShape(t) =>
         && x.XDict? && x.dict.Keys == {variant.name} && p.NewtypePayload?
         && Says(t, x.dict[variant.name], p.v, strict)
       case TupleShape(ts) =>
         && x.XDict? && x.dict.Keys == {variant.name} && p.TuplePayload?
         && x.dict[variant.name].XArray? && TupleSays(ts, x.dict[variant.name].xs, p.vs, strict)
       case StructShape(fs) =>
         && x.XDict? && x.dict.Keys == {variant.name} && p.StructPayload?
         && x.dict[variant.name].XDict? && StructSays(fs, x.dict[variant.name].dict, p.fields, strict)
  }

  // ---------- What is written ----------

  lemma {:induction false} PayloadForm(name: string, p: Payload)
    ensures p.TuplePayload? ==>
              EncodePayload(p) == if EncodeAll(p.vs).Err? then Err else Ok(XArray(EncodeAll(p.vs).value))
    ensures p.StructPayload? ==>
              EncodePayload(p)
              == if EncodeEntries(p.fields, map[]).Err? then Err else Ok(XDict(EncodeEntries(p.fields, map[]).value))
    ensures !p.NoPayload? ==>
              Encode(Variant(name, p))
              == if EncodePayload(p).Err? || HasNul(name) then Err else Ok(XDict(map[name := EncodePayload(p).value]))
  {
  }

  lemma {:induction false} EncodedAt(vs: seq<Value>, xs: seq<Xpc>)
    ensures EncodeAll(vs) == Ok(xs) <==> |xs| == |vs| && forall i | 0 <= i < |vs| :: Encode(vs[i]) == Ok(xs[i])
  {
    if vs != [] && xs != [] {
      EncodedAt(vs[1..], xs[1..]);
      assert xs == [xs[0]] + xs[1..];
      assert forall i | 0 < i < |vs| :: vs[i] == vs[1..][i - 1];
      assert forall i | 0 < i < |xs| :: xs[i] == xs[1..][i - 1];
    }
  }

  lemma {:induction false} CollapsedAt(vs: seq<Value>)
    ensures |CollapseAll(vs)| == |vs| && forall i | 0 <= i < |vs| :: CollapseAll(vs)[i] == Collapse(vs[i])
  {
    if vs != [] {
      CollapsedAt(vs[1..]);
    }
  }

  lemma {:induction false} CollapsedFieldAt(fs: seq<Field>)
    ensures |CollapseFields(fs)| == |fs|
    ensures forall i | 0 <= i < |fs| :: CollapseFields(fs)[i] == Field(fs[i].name, Collapse(fs[i].value))
  {
    if fs != [] {
      CollapsedFieldAt(fs[1..]);
    }
  }

  /** What is written for a value says it, strictly, with options of null as empty options. */
  lemma {:induction false} EncodedSays(s: Schema, v: Value)
    requires WellFormed(s) && HasType(s, v) && Encode(v).Ok?
    ensures Says(s, Encode(v).value, Collapse(v), true)
    decreases s, 1
  {
    match s
    case SOption(t) =>
      if v.Just? {
        NullishEncodes(v.v);
        EncodedSays(t, v.v);
      }
    case SNewtype(t) => EncodedSays(t, v.v);
    case SSeq(t) => EncodedSeqSays(t, v.vs);
    case STuple(ts, _) => EncodedTupleSays(ts, v.vs);
    case SMap(t) => EncodedMapSays(t, v);
    case SStruct(fs) => EncodedStructSays(fs, v.fields);
    case SEnum(vs) => EncodedEnumSays(vs, v);
    case _ =>
  }

  lemma {:induction false} EncodedEnumSays(vs: seq<SVariant>, v: Value)
    requires WellFormed(SEnum(vs)) && HasType(SEnum(vs), v) && Encode(v).Ok?
    ensures Says(SEnum(vs), Encode(v).value, Collapse(v), true)
    decreases vs, 0
  {
    var i :| 0 <= i < |vs| && vs[i].name == v.name && PayloadHasType(vs[i].shape, v.payload);
    EncodedVariantSays(vs[i], v);
  }

  lemma {:induction false} EncodedSeqSays(t: Schema, vs: seq<Value>)
    requires WellFormed(t) && EncodeAll(vs).Ok? && forall i | 0 <= i < |vs| :: HasType(t, vs[i])
    ensures Says(SSeq(t), XArray(EncodeAll(vs).value), Seq(CollapseAll(vs)), true)
    decreases t, 2
  {
    EncodedAt(vs, EncodeAll(vs).value);
    CollapsedAt(vs);
    forall i | 0 <= i < |vs| ensures Says(t, EncodeAll(vs).value[i], Collapse(vs[i]), true) {
      EncodedSays(t, vs[i]);
    }
  }

  lemma {:induction false} EncodedMapSays(t: Schema, v: Value)
    requires WellFormed(t) && HasType(SMap(t), v) && Encode(v).Ok?
    ensures Says(SMap(t), Encode(v).value, Collapse(v), true)
    decreases t, 2
  {
    forall k | k in v.m ensures Says(t, Encode(v).value.dict[k], Collapse(v.m[k]), true) && !HasNul(k) {
      EncodedSays(t, v.m[k]);
    }
  }

  lemma {:induction false} EncodedTupleSays(ts: seq<Schema>, vs: seq<Value>)
    requires EncodeAll(vs).Ok? && |vs| == |ts|
    requires forall i | 0 <= i < |ts| :: WellFormed(ts[i]) && HasType(ts[i], vs[i])
    ensures TupleSays(ts, EncodeAll(vs).value, CollapseAll(vs), true)
    decreases ts, 0
  {
    EncodedAt(vs, EncodeAll(vs).value);
    CollapsedAt(vs);
    forall i | 0 <= i < |vs| ensures Says(ts[i], EncodeAll(vs).value[i], Collapse(vs[i]), true) {
      EncodedSays(ts[i], vs[i]);
    }
  }

  lemma {:induction false} EncodedStructSays(fs: seq<SField>, vs: seq<Field>)
    requires EncodeEntries(vs, map[]).Ok? && FieldsHaveType(fs, vs) && DistinctFields(fs)
    requires forall i | 0 <= i < |fs| :: WellFormed(fs[i].schema)
    ensures StructSays(fs, EncodeEntries(vs, map[]).value, CollapseFields(vs), true)
    decreases fs, 0
  {
    var dict := EncodeEntries(vs, map[]).value;
    EncodedFields(vs, map[]);
    EntriesSucceed(vs, map[]);
    CollapsedFieldAt(vs);
    forall i | 0 <= i < |fs|
      ensures fs[i].name in dict && Says(fs[i].schema, dict[fs[i].name], Collapse(vs[i].value), true)
    {
      EncodedFieldSays(fs[i], dict, vs[i]);
    }
    OnlyFields(fs, dict, vs);
  }

  lemma {:induction false} EncodedFieldSays(f: SField, dict: map<string, Xpc>, field: Field)
    requires WellFormed(f.schema) && HasType(f.schema, field.value)
    requires field.name == f.name && f.name in dict && Encode(field.value) == Ok(dict[f.name])
    ensures Says(f.schema, dict[f.name], Collapse(field.value), true)
    decreases f, 0
  {
    EncodedSays(f.schema, field.value);
  }

  lemma {:induction false} OnlyFields(fs: seq<SField>, dict: map<string, Xpc>, vs: seq<Field>)
    requires |vs| == |fs| && forall i | 0 <= i < |fs| :: vs[i].name == fs[i].name && !HasNul(vs[i].name)
    requires forall k | k in dict :: exists i | 0 <= i < |vs| :: vs[i].name == k
    ensures forall k | k in dict :: !HasNul(k) && exists i | 0 <= i < |fs| :: fs[i].name == k
  {
    forall k | k in dict ensures !HasNul(k) && exists i | 0 <= i < |fs| :: fs[i].name == k {
      var i :| 0 <= i < |vs| && vs[i].name == k;
      assert fs[i].name == k;
    }
  }

  lemma {:induction false} EncodedVariantSays(variant: SVariant, v: Value)
    requires v.Variant? && variant.name == v.name && Encode(v).Ok?
    requires PayloadHasType(variant.shape, v.payload) && WellFormedShape(variant.shape)
    ensures VariantSays(variant, Encode(v).value, CollapsePayload(v.payload), true)
    decreases variant, 0
  {
    PayloadForm(v.name, v.payload);
    match variant.shape
    case UnitShape =>
    case NewtypeShape(t) => EncodedSays(t, v.payload.v);
    case TupleShape(ts) => EncodedTupleSays(ts, v.payload.vs);
    case StructShape(fs) => EncodedStructSays(fs, v.payload.fields);
  }

  // ---------- Nothing else is written ----------

  /** An object that says a value strictly is what is written for that value, which is of the type. */
  lemma {:induction false} SaysEncoded(s: Schema, x: Xpc, v: Value)
    requires WellFormed(s) && Says(s, x, v, true)
    ensures HasType(s, v) && Encode(v) == Ok(x)
    decreases s, 1
  {
    match s
    case SOption(t) => OptionSaysEncoded(t, x, v);
    case SNewtype(t) => SaysEncoded(t, x, v.v);
    case SMap(t) => MapSaysEncoded(t, x.dict, v.m);
    case SEnum(vs) => EnumSaysEncoded(vs, x, v);
    case SSeq(_) => PartsSaysEncoded(s, x, v);
    case STuple(_, _) => PartsSaysEncoded(s, x, v);
    case SStruct(_) => PartsSaysEncoded(s, x, v);
    case _ => ScalarSaysEncoded(s, x, v);
  }

  lemma {:induction false} PartsSaysEncoded(s: Schema, x: Xpc, v: Value)
    requires (s.SSeq? || s.STuple? || s.SStruct?) && WellFormed(s) && Says(s, x, v, true)
    ensures HasType(s, v) && Encode(v) == Ok(x)
    decreases s, 0
  {
    match s
    case SSeq(t) => SeqSaysEncoded(t, x.xs, v.vs);
    case STuple(ts, _) => TupleSaysEncoded(ts, x.xs, v.vs);
    case SStruct(fs) => StructSaysEncoded(fs, x.dict, v.fields);
  }

  predicate Scalar(s: Schema) {
    s.SBool? || s.SInt? || s.SUint? || s.SDouble? || s.SChar? || s.SStr? || s.SBytes? || s.SUnit?
  }

  lemma {:induction false} ScalarSaysEncoded(s: Schema, x: Xpc, v: Value)
    requires Scalar(s) && Says(s, x, v, true)
    ensures HasType(s, v) && Encode(v) == Ok(x)
  {
    if s.SChar? {
      assert x.s == [x.s[0]];
    }
  }

  lemma {:induction false} OptionSaysEncoded(t: Schema, x: Xpc, v: Value)
    requires WellFormed(t) && Says(SOption(t), x, v, true)
    ensures HasType(SOption(t), v) && Encode(v) == Ok(x)
    decreases t, 2
  {
    if x != XNull {
      SaysEncoded(t, x, v.v);
    }
  }

  lemma {:induction false} SeqSaysEncoded(t: Schema, xs: seq<Xpc>, vs: seq<Value>)
    requires WellFormed(t) && |vs| == |xs| && forall i | 0 <= i < |xs| :: Says(t, xs[i], vs[i], true)
    ensures EncodeAll(vs) == Ok(xs) && forall i | 0 <= i < |vs| :: HasType(t, vs[i])
    decreases t, 2
  {
    forall i | 0 <= i < |xs| ensures HasType(t, vs[i]) && Encode(vs[i]) == Ok(xs[i]) {
      SaysEncoded(t, xs[i], vs[i]);
    }
    EncodedAt(vs, xs);
  }

  lemma {:induction false} EnumSaysEncoded(vs: seq<SVariant>, x: Xpc, v: Value)
    requires WellFormed(SEnum(vs)) && Says(SEnum(vs), x, v, true)
    ensures HasType(SEnum(vs), v) && Encode(v) == Ok(x)
    decreases vs, 0
  {
    var i :| 0 <= i < |vs| && vs[i].name == v.name && VariantSays(vs[i], x, v.payload, true);
    VariantSaysEncoded(vs[i], x, v);
  }

  lemma {:induction false} MapSaysEncoded(t: Schema, dict: map<string, Xpc>, m: map<string, Value>)
    requires WellFormed(t) && Says(SMap(t), XDict(dict), Map(m), true)
    ensures Encode(Map(m)) == Ok(XDict(dict)) && forall k | k in m :: HasType(t, m[k])
    decreases t, 2
  {
    forall k | k in m ensures HasType(t, m[k]) && Encode(m[k]) == Ok(dict[k]) && !HasNul(k) {
      SaysEncoded(t, dict[k], m[k]);
    }
    MapEncoded(dict, m);
  }

  lemma {:induction false} MapEncoded(dict: map<string, Xpc>, m: map<string, Value>)
    requires m.Keys == dict.Keys && forall k | k in m :: Encode(m[k]) == Ok(dict[k]) && !HasNul(k)
    ensures Encode(Map(m)) == Ok(XDict(dict))
  {
    assert !exists k | k in m :: HasNul(k) || Encode(m[k]).Err?;
    assert Encode(Map(m)).value.dict == dict;
  }

  lemma {:induction false} TupleSaysEncoded(ts: seq<Schema>, xs: seq<Xpc>, vs: seq<Value>)
    requires TupleSays(ts, xs, vs, true) && forall i | 0 <= i < |ts| :: WellFormed(ts[i])
    ensures EncodeAll(vs) == Ok(xs) && forall i | 0 <= i < |ts| :: HasType(ts[i], vs[i])
    decreases ts, 0
  {
    forall i | 0 <= i < |ts| ensures HasType(ts[i], vs[i]) && Encode(vs[i]) == Ok(xs[i]) {
      SaysEncoded(ts[i], xs[i], vs[i]);
    }
    EncodedAt(vs, xs);
  }

  lemma {:induction false} EntriesEncode(fields: seq<Field>, dict: map<string, Xpc>)
    requires forall i | 0 <= i < |fields| :: !HasNul(fields[i].name) && Encode(fields[i].value).Ok?
    ensures EncodeEntries(fields, dict).Ok?
  {
    if fields != [] {
      EntriesEncode(fields[1..], dict[fields[0].name := Encode(fields[0].value).value]);
    }
  }

  lemma {:induction false} StructSaysEncoded(fs: seq<SField>, dict: map<string, Xpc>, fields: seq<Field>)
    requires StructSays(fs, dict, fields, true) && DistinctFields(fs)
    requires forall i | 0 <= i < |fs| :: WellFormed(fs[i].schema)
    ensures EncodeEntries(fields, map[]) == Ok(dict) && FieldsHaveType(fs, fields)
    decreases fs, 0
  {
    forall i | 0 <= i < |fs|
      ensures HasType(fs[i].schema, fields[i].value) && Encode(fields[i].value) == Ok(dict[fields[i].name])
    {
      FieldSaysEncoded(fs[i], dict, fields[i]);
    }
    EntriesGive(fs, dict, fields);
  }

  lemma {:induction false} EntriesGive(fs: seq<SField>, dict: map<string, Xpc>, fields: seq<Field>)
    requires DistinctFields(fs) && |fields| == |fs| && forall i | 0 <= i < |fs| :: fields[i].name == fs[i].name
    requires forall k | k in dict :: !HasNul(k) && exists i | 0 <= i < |fs| :: fs[i].name == k
    requires forall i | 0 <= i < |fields| ::
      fields[i].name in dict && Encode(fields[i].value) == Ok(dict[fields[i].name])
    ensures EncodeEntries(fields, map[]) == Ok(dict)
  {
    EntriesEncode(fields, map[]);
    EncodedFields(fields, map[]);
    SameDict(fs, EncodeEntries(fields, map[]).value, dict, fields);
  }

  lemma {:induction false} FieldSaysEncoded(f: SField, dict: map<string, Xpc>, field: Field)
    requires WellFormed(f.schema) && f.name in dict && field.name == f.name
    requires Says(f.schema, dict[f.name], field.value, true)
    ensures HasType(f.schema, field.value) && Encode(field.value) == Ok(dict[field.name])
    decreases f, 0
  {
    SaysEncoded(f.schema, dict[f.name], field.value);
  }

  lemma {:induction false} SameDict(fs: seq<SField>, d: map<string, Xpc>, dict: map<string, Xpc>, fields: seq<Field>)
    requires |fields| == |fs| && forall i | 0 <= i < |fs| :: fields[i].name == fs[i].name
    requires forall k | k in dict :: exists i | 0 <= i < |fs| :: fs[i].name == k
    requires forall k | k in d :: exists i | 0 <= i < |fields| :: fields[i].name == k
    requires forall i | 0 <= i < |fields| ::
      fields[i].name in d && fields[i].name in dict && d[fields[i].name] == dict[fields[i].name]
    ensures d == dict
  {
    forall k | k in dict ensures k in d && d[k] == dict[k] {
      var i :| 0 <= i < |fs| && fs[i].name == k;
      assert fields[i].name == k;
    }
    forall k | k in d ensures k in dict {
      var i :| 0 <= i < |fields| && fields[i].name == k;
    }
  }

  lemma {:induction false} VariantSaysEncoded(variant: SVariant, x: Xpc, v: Value)
    requires v.Variant? && variant.name == v.name && VariantSays(variant, x, v.payload, true)
    requires WellFormedShape(variant.shape)
    ensures PayloadHasType(variant.shape, v.payload) && Encode(v) == Ok(x)
    decreases variant, 0
  {
    if !variant.shape.UnitShape? {
      assert x.dict == map[v.name := x.dict[v.name]];
    }
    PayloadForm(v.name, v.payload);
    match variant.shape
    case UnitShape =>
    case NewtypeShape(t) => SaysEncoded(t, x.dict[v.name], v.payload.v);
    case TupleShape(ts) => TupleSaysEncoded(ts, x.dict[v.name].xs, v.payload.vs);
    case StructShape(fs) => StructSaysEncoded(fs, x.dict[v.name].dict, v.payload.fields);
  }

  /** The object is written for some value of the type. */
  ghost predicate Written(s: Schema, x: Xpc) {
    exists v :: HasType(s, v) && Encode(v) == Ok(x)
  }

  ghost predicate SaysOne(s: Schema, x: Xpc) {
    exists v :: Says(s, x, v, true)
  }

  /** The objects written for the values of a type are exactly those that say one of them strictly. */
  lemma {:induction false} WireExact(s: Schema, x: Xpc)
    requires WellFormed(s)
    ensures Written(s, x) <==> SaysOne(s, x)
  {
    if Written(s, x) {
      var v :| HasType(s, v) && Encode(v) == Ok(x);
      EncodedSays(s, v);
      Witnessed(s, x, Collapse(v));
    }
    if SaysOne(s, x) {
      var v :| Says(s, x, v, true);
      SaysEncoded(s, x, v);
    }
  }

  lemma {:induction false} Witnessed(s: Schema, x: Xpc, v: Value)
    requires Says(s, x, v, true)
    ensures SaysOne(s, x)
  {
  }

  /** Writing again what was read from such an object gives the same object. */
  lemma {:induction false} WrittenAgain(s: Schema, v: Value, order: Order)
    requires ValidOrder(order) && WellFormed(s) && HasType(s, v) && Encode(v).Ok?
    ensures var back := Decode(s, Encode(v).value, order);
            back.Ok? && HasType(s, back.value) && Encode(back.value) == Encode(v)
  {
    RoundTrip(s, v, order);
    EncodedSays(s, v);
    SaysEncoded(s, Encode(v).value, Collapse(v));
  }

  // ---------- What is read ----------

  lemma {:induction false} ElementsAt(s: Schema, xs: seq<Xpc>, vs: seq<Value>, order: Order)
    requires ValidOrder(order)
    ensures DecodeElements(s, xs, order) == Ok(vs) <==>
            |vs| == |xs| && forall i | 0 <= i < |xs| :: Decode(s, xs[i], order) == Ok(vs[i])
    decreases |xs|
  {
    if xs != [] && vs != [] {
      ElementsAt(s, xs[1..], vs[1..], order);
      assert vs == [vs[0]] + vs[1..];
      assert forall i | 0 < i < |vs| :: vs[i] == vs[1..][i - 1];
      assert forall i | 0 < i < |xs| :: xs[i] == xs[1..][i - 1];
    }
  }

  lemma {:induction false} TupleAt(ts: seq<Schema>, xs: seq<Xpc>, vs: seq<Value>, order: Order)
    requires ValidOrder(order)
    ensures DecodeTuple(ts, xs, order) == Ok(vs) <==>
            |vs| == |ts| <= |xs| && forall i | 0 <= i < |ts| :: Decode(ts[i], xs[i], order) == Ok(vs[i])
    decreases |ts|
  {
    if ts != [] && xs != [] && vs != [] {
      TupleAt(ts[1..], xs[1..], vs[1..], order);
      assert vs == [vs[0]] + vs[1..];
      assert forall i | 0 < i < |ts| :: ts[i] == ts[1..][i - 1];
      assert forall i | 0 < i < |vs| :: vs[i] == vs[1..][i - 1];
      assert forall i | 0 < i < |xs| :: xs[i] == xs[1..][i - 1];
    }
  }

  lemma {:induction false} BytesAt(ts: seq<Schema>, bytes: seq<Byte>, vs: seq<Value>)
    ensures DecodeBytes(ts, bytes) == Ok(vs) <==> BytesSay(ts, bytes, vs)
    decreases |ts|
  {
    if ts != [] && bytes != [] && vs != [] {
      BytesAt(ts[1..], bytes[1..], vs[1..]);
      assert vs == [vs[0]] + vs[1..];
      assert DecodeBytes(ts, bytes) == Ok(vs) <==>
             DecodeByte(ts[0], bytes[0]) == Ok(vs[0]) && DecodeBytes(ts[1..], bytes[1..]) == Ok(vs[1..]);
      if BytesSay(ts[1..], bytes[1..], vs[1..]) {
        assert forall i | 0 < i < |ts| :: ts[i] == ts[1..][i - 1] && bytes[i] == bytes[1..][i - 1]
                                          && vs[i] == vs[1..][i - 1];
      }
    }
  }

  /** The entries of a dictionary as those of a map. */
  lemma {:induction false} MapAt(t: Schema, dict: map<string, Xpc>, keys: seq<string>, m: map<string, Value>,
                                 order: Order)
    requires ValidOrder(order) && SameKeys(keys, dict)
    ensures DecodeEntries(t, dict, keys, map[], order) == Ok(m) <==>
            m.Keys == dict.Keys && forall k | k in dict :: Decode(t, dict[k], order) == Ok(m[k])
  {
    EntriesDecoded(t, dict, keys, map[], order);
    if EntriesOk(t, dict, keys, order) {
      var values := EntryValues(t, dict, keys, order);
      assert map[] + values == values;
      ValuesAt(t, dict, keys, order);
      SameValues(t, dict, values, m, order);
    }
  }

  lemma {:induction false} ValuesAt(t: Schema, dict: map<string, Xpc>, keys: seq<string>, order: Order)
    requires ValidOrder(order) && SameKeys(keys, dict) && EntriesOk(t, dict, keys, order)
    ensures var values := EntryValues(t, dict, keys, order);
            values.Keys == dict.Keys && forall k | k in dict :: Decode(t, dict[k], order) == Ok(values[k])
  {
  }

  lemma {:induction false} SameValues(t: Schema, dict: map<string, Xpc>, values: map<string, Value>,
                                      m: map<string, Value>, order: Order)
    requires ValidOrder(order) && values.Keys == dict.Keys
    requires forall k | k in dict :: Decode(t, dict[k], order) == Ok(values[k])
    ensures values == m <==> m.Keys == dict.Keys && forall k | k in dict :: Decode(t, dict[k], order) == Ok(m[k])
  {
    SameResults(map k | k in dict :: Decode(t, dict[k], order), values, m);
  }

  lemma {:induction false} SameResults(results: map<string, Result<Value>>, values: map<string, Value>,
                                       m: map<string, Value>)
    requires values.Keys == results.Keys && forall k | k in results :: results[k] == Ok(values[k])
    ensures values == m <==> m.Keys == results.Keys && forall k | k in results :: results[k] == Ok(m[k])
  {
    if m.Keys == results.Keys && forall k | k in results :: results[k] == Ok(m[k]) {
      assert forall k | k in values :: k in m && values[k] == m[k];
      assert values == m;
    }
  }

  lemma {:induction false} CompleteAt(fs: seq<SField>, found: map<string, Value>, fields: seq<Field>)
    ensures Complete(fs, found) == Ok(fields) <==>
            |fields| == |fs| && forall i | 0 <= i < |fs| :: FieldAt(fs[i], found, fields[i])
  {
    if fs != [] && fields != [] {
      CompleteAt(fs[1..], found, fields[1..]);
      assert fields == [fields[0]] + fields[1..];
      assert forall i | 0 < i < |fs| :: fs[i] == fs[1..][i - 1];
      assert forall i | 0 < i < |fields| :: fields[i] == fields[1..][i - 1];
      assert Complete(fs, found) == Ok(fields) <==>
             FieldAt(fs[0], found, fields[0]) && Complete(fs[1..], found) == Ok(fields[1..]);
    }
  }

  predicate FieldAt(f: SField, found: map<string, Value>, field: Field) {
    && field.name == f.name
    && if f.name in found then field.value == found[f.name] else f.schema.SOption? && field.value == Nothing
  }

  ghost predicate FieldDecoded(f: SField, dict: map<string, Xpc>, field: Field, order: Order)
    requires ValidOrder(order)
  {
    && field.name == f.name
    && if f.name in dict then Decode(f.schema, dict[f.name], order) == Ok(field.value)
       else f.schema.SOption? && field.value == Nothing
  }

  lemma {:induction false} StructAt(fs: seq<SField>, dict: map<string, Xpc>, fields: seq<Field>, order: Order)
    requires ValidOrder(order) && DistinctFields(fs)
    ensures DecodeStruct(fs, dict, order) == Ok(fields) <==>
            |fields| == |fs| && forall i | 0 <= i < |fs| :: FieldDecoded(fs[i], dict, fields[i], order)
  {
    var keys := order(dict.Keys);
    assert Enumerates(keys, dict.Keys);
    FieldsDecoded(fs, dict, keys, map[], order);
    if FieldsOk(fs, dict, keys, order) {
      var found := map[] + FieldValues(fs, dict, keys, order);
      CompleteAt(fs, found, fields);
      forall i | 0 <= i < |fs| && i < |fields|
        ensures FieldAt(fs[i], found, fields[i]) <==> FieldDecoded(fs[i], dict, fields[i], order)
      {
        FoundAt(fs, dict, keys, i, order);
      }
    } else {
      var k :| k in keys && Known(fs, k) && DecodeField(fs, k, dict[k], order).Err?;
      var i := IndexOf(fs, k);
      assert |fields| == |fs| ==> !FieldDecoded(fs[i], dict, fields[i], order);
    }
  }

  lemma {:induction false} FoundAt(fs: seq<SField>, dict: map<string, Xpc>, keys: seq<string>, i: nat, order: Order)
    requires ValidOrder(order) && DistinctFields(fs) && SameKeys(keys, dict) && i < |fs|
    requires FieldsOk(fs, dict, keys, order)
    ensures var found := map[] + FieldValues(fs, dict, keys, order);
            && (fs[i].name in found <==> fs[i].name in dict)
            && (fs[i].name in dict ==> Decode(fs[i].schema, dict[fs[i].name], order) == Ok(found[fs[i].name]))
  {
    IndexFound(fs, i);
    if fs[i].name in dict {
      assert fs[i].name in keys && Known(fs, fs[i].name);
      assert DecodeField(fs, fs[i].name, dict[fs[i].name], order) == Decode(fs[i].schema, dict[fs[i].name], order);
    }
  }

  /** Reading is exact: whatever the object, and in whatever order dictionaries are visited, the value
      read is the one the object says, and there is an error just when it says none. */
  lemma {:induction false} DecodeSays(s: Schema, x: Xpc, v: Value, order: Order)
    requires ValidOrder(order) && WellFormed(s)
    ensures Decode(s, x, order) == Ok(v) <==> Says(s, x, v, false)
    decreases s, 1
  {
    match s
    case SOption(_) => DecodeWrappedSays(s, x, v, order);
    case SNewtype(_) => DecodeWrappedSays(s, x, v, order);
    case SSeq(t) =>
      if x.XArray? && v.Seq? {
        DecodeSeqSays(t, x.xs, v.vs, order);
      }
    case STuple(ts, named) => DecodeAnyTupleSays(ts, named, x, v, order);
    case SMap(t) =>
      if x.XDict? && v.Map? {
        DecodeMapSays(t, x.dict, v.m, order);
      }
    case SStruct(fs) =>
      if x.XDict? && v.Struct? {
        DecodeStructSays(fs, x.dict, v.fields, order);
      }
    case SEnum(vs) => DecodeEnumSays(vs, x, v, order);
    case _ =>
  }

  lemma {:induction false} DecodeWrappedSays(s: Schema, x: Xpc, v: Value, order: Order)
    requires ValidOrder(order) && WellFormed(s) && (s.SOption? || s.SNewtype?)
    ensures Decode(s, x, order) == Ok(v) <==> Says(s, x, v, false)
    decreases s, 0
  {
    if s.SOption? && x != XNull && v.Just? {
      DecodeSays(s.inner, x, v.v, order);
    } else if s.SNewtype? && v.Newtype? {
      DecodeSays(s.inner, x, v.v, order);
    }
  }

  lemma {:induction false} DecodeSeqSays(t: Schema, xs: seq<Xpc>, vs: seq<Value>, order: Order)
    requires ValidOrder(order) && WellFormed(t)
    ensures DecodeElements(t, xs, order) == Ok(vs) <==>
            |vs| == |xs| && forall i | 0 <= i < |xs| :: Says(t, xs[i], vs[i], false)
    decreases t, 2
  {
    ElementsAt(t, xs, vs, order);
    forall i | 0 <= i < |xs| && i < |vs|
      ensures Decode(t, xs[i], order) == Ok(vs[i]) <==> Says(t, xs[i], vs[i], false)
    {
      DecodeSays(t, xs[i], vs[i], order);
    }
  }

  lemma {:induction false} DecodeAnyTupleSays(ts: seq<Schema>, named: bool, x: Xpc, v: Value, order: Order)
    requires ValidOrder(order) && forall i | 0 <= i < |ts| :: WellFormed(ts[i])
    ensures Decode(STuple(ts, named), x, order) == Ok(v) <==> Says(STuple(ts, named), x, v, false)
    decreases ts, 1
  {
    if v.Tuple? && x.XArray? {
      DecodeTupleSays(ts, x.xs, v.vs, order);
    } else if v.Tuple? && x.XData? {
      BytesAt(ts, x.bytes, v.vs);
    }
  }

  lemma {:induction false} DecodeTupleSays(ts: seq<Schema>, xs: seq<Xpc>, vs: seq<Value>, order: Order)
    requires ValidOrder(order) && forall i | 0 <= i < |ts| :: WellFormed(ts[i])
    ensures DecodeTuple(ts, xs, order) == Ok(vs) <==> TupleSays(ts, xs, vs, false)
    decreases ts, 0
  {
    TupleAt(ts, xs, vs, order);
    forall i | 0 <= i < |ts| && i < |xs| && i < |vs|
      ensures Decode(ts[i], xs[i], order) == Ok(vs[i]) <==> Says(ts[i], xs[i], vs[i], false)
    {
      DecodeSays(ts[i], xs[i], vs[i], order);
    }
  }

  lemma {:induction false} DecodeMapSays(t: Schema, dict: map<string, Xpc>, m: map<string, Value>, order: Order)
    requires ValidOrder(order) && WellFormed(t)
    ensures DecodeEntries(t, dict, order(dict.Keys), map[], order) == Ok(m) <==>
            m.Keys == dict.Keys && forall k | k in dict :: Says(t, dict[k], m[k], false)
    decreases t, 2
  {
    var keys := order(dict.Keys);
    assert Enumerates(keys, dict.Keys);
    MapAt(t, dict, keys, m, order);
    if m.Keys == dict.Keys {
      forall k | k in dict ensures Decode(t, dict[k], order) == Ok(m[k]) <==> Says(t, dict[k], m[k], false) {
        DecodeSays(t, dict[k], m[k], order);
      }
    }
  }

  lemma {:induction false} DecodeStructSays(fs: seq<SField>, dict: map<string, Xpc>, fields: seq<Field>, order: Order)
    requires ValidOrder(order) && DistinctFields(fs) && forall i | 0 <= i < |fs| :: WellFormed(fs[i].schema)
    ensures DecodeStruct(fs, dict, order) == Ok(fields) <==> StructSays(fs, dict, fields, false)
    decreases fs, 0
  {
    StructAt(fs, dict, fields, order);
    forall i | 0 <= i < |fs| && i < |fields| && fs[i].name in dict
      ensures Decode(fs[i].schema, dict[fs[i].name], order) == Ok(fields[i].value) <==>
              Says(fs[i].schema, dict[fs[i].name], fields[i].value, false)
    {
      DecodeSays(fs[i].schema, dict[fs[i].name], fields[i].value, order);
    }
  }

  lemma {:induction false} DecodeEnumSays(vs: seq<SVariant>, x: Xpc, v: Value, order: Order)
    requires ValidOrder(order) && WellFormed(SEnum(vs))
    ensures DecodeEnum(vs, x, order) == Ok(v) <==> Says(SEnum(vs), x, v, false)
    decreases vs, 0
  {
    if v.Variant? {
      forall i: nat | i < |vs| && vs[i].name == v.name
        ensures DecodeEnum(vs, x, order) == Ok(v) <==> VariantSays(vs[i], x, v.payload, false)
      {
        DecodeVariantSays(vs, i, x, v.payload, order);
      }
      assert DecodeEnum(vs, x, order) == Ok(v) ==> VariantIndex(vs, v.name) < |vs|;
    }
  }

  lemma {:induction false} DecodeVariantSays(vs: seq<SVariant>, i: nat, x: Xpc, p: Payload, order: Order)
    requires ValidOrder(order) && DistinctVariants(vs) && i < |vs| && WellFormedShape(vs[i].shape)
    ensures DecodeEnum(vs, x, order) == Ok(Variant(vs[i].name, p)) <==> VariantSays(vs[i], x, p, false)
    decreases vs[i], 0
  {
    var name := vs[i].name;
    VariantFound(vs, i);
    if x.XDict? {
      var keys := order(x.dict.Keys);
      assert Enumerates(keys, x.dict.Keys);
      if x.dict.Keys == {name} {
        OneKey(keys, name);
        DecodePayloadSays(vs[i].shape, x.dict[name], p, order);
      } else if |keys| == 1 {
        assert x.dict.Keys == {keys[0]};
      }
    }
  }

  lemma {:induction false} DecodePayloadSays(shape: Shape, x: Xpc, p: Payload, order: Order)
    requires ValidOrder(order) && WellFormedShape(shape)
    ensures DecodePayload(shape, x, order) == Ok(p) <==>
            match shape
            case UnitShape => p == NoPayload
            case NewtypeShape(t) => p.NewtypePayload? && Says(t, x, p.v, false)
            case TupleShape(ts) => x.XArray? && p.TuplePayload? && TupleSays(ts, x.xs, p.vs, false)
            case StructShape(fs) => x.XDict? && p.StructPayload? && StructSays(fs, x.dict, p.fields, false)
    decreases shape, 0
  {
    match shape
    case UnitShape =>
    case NewtypeShape(t) =>
      if p.NewtypePayload? {
        DecodeSays(t, x, p.v, order);
      }
    case TupleShape(ts) =>
      if x.XArray? && p.TuplePayload? {
        DecodeTupleSays(ts, x.xs, p.vs, order);
      }
    case StructShape(fs) =>
      if x.XDict? && p.StructPayload? {
        DecodeStructSays(fs, x.dict, p.fields, order);
      }
  }
}
