/** Values, their serde shapes, and XPC objects (src/pal/apple/xpc.rs). */
module XpcTypes {
  import opened Wrappers
  import Bits

  /** The serde data model as far as the codec distinguishes it. A struct with one unnamed field is
      a newtype; a unit struct is a unit. `named` tells a tuple struct from a tuple. */
  datatype Schema =
    | SBool
    | SInt(bits: nat)
    | SUint(bits: nat)
    | SDouble
    | SChar
    | SStr
    | SBytes
    | SUnit
    | SOption(inner: Schema)
    | SNewtype(inner: Schema)
    | SSeq(element: Schema)
    | STuple(elements: seq<Schema>, named: bool)
    | SMap(value: Schema)
    | SStruct(fields: seq<SField>)
    | SEnum(variants: seq<SVariant>)

  datatype SField = SField(name: string, schema: Schema)

  datatype SVariant = SVariant(name: string, shape: Shape)

  datatype Shape =
    | UnitShape
    | NewtypeShape(inner: Schema)
    | TupleShape(elements: seq<Schema>)
    | StructShape(fields: seq<SField>)

  type Int64 = i: int | -0x8000_0000_0000_0000 <= i < 0x8000_0000_0000_0000

  type Uint64 = u: nat | u < 0x1_0000_0000_0000_0000

  type Byte = b: nat | b < 256

  datatype Value =
    | Bool(b: bool)
    | Int(i: Int64)
    | Uint(u: Uint64)
    | Double(d: real)
    | Char(c: char)
    | Str(s: string)
    | Bytes(bytes: seq<Byte>)
    | Unit
    | Nothing
    | Just(v: Value)
    | Newtype(v: Value)
    | Seq(vs: seq<Value>)
    | Tuple(vs: seq<Value>)
    | Map(m: map<string, Value>)
    | Struct(fields: seq<Field>)
    | Variant(name: string, payload: Payload)

  datatype Field = Field(name: string, value: Value)

  datatype Payload =
    | NoPayload
    | NewtypePayload(v: Value)
    | TuplePayload(vs: seq<Value>)
    | StructPayload(fields: seq<Field>)

  /** XPC objects; XOther stands for the types the codec knows nothing about, such as shared memory. */
  datatype Xpc =
    | XBool(b: bool)
    | XInt64(i: Int64)
    | XUint64(u: Uint64)
    | XDouble(d: real)
    | XString(s: string)
    | XData(bytes: seq<Byte>)
    | XNull
    | XArray(xs: seq<Xpc>)
    | XDict(dict: map<string, Xpc>)
    | XOther

  predicate HasNul(s: string) {
    '\0' in s
  }

  predicate FitsInt(i: int, bits: nat) {
    bits > 0 && 0 - Bits.Pow2(bits - 1) <= i < Bits.Pow2(bits - 1)
  }

  predicate FitsUint(u: nat, bits: nat) {
    u < Bits.Pow2(bits)
  }

  // ---------- Well-formed schemas, well-typed values ----------

  ghost predicate DistinctFields(fields: seq<SField>) {
    forall i, j | 0 <= i < j < |fields| :: fields[i].name != fields[j].name
  }

  ghost predicate DistinctVariants(variants: seq<SVariant>) {
    forall i, j | 0 <= i < j < |variants| :: variants[i].name != variants[j].name
  }

  /** The integers of 128 bits are not supported. */
  predicate Width(bits: nat) {
    bits == 8 || bits == 16 || bits == 32 || bits == 64
  }

  ghost predicate WellFormed(s: Schema) {
    match s
    case SInt(bits) => Width(bits)
    case SUint(bits) => Width(bits)
    case SOption(t) => WellFormed(t)
    case SNewtype(t) => WellFormed(t)
    case SSeq(t) => WellFormed(t)
    case STuple(ts, _) => forall i | 0 <= i < |ts| :: WellFormed(ts[i])
    case SMap(t) => WellFormed(t)
    case SStruct(fs) => DistinctFields(fs) && forall i | 0 <= i < |fs| :: WellFormed(fs[i].schema)
    case SEnum(vs) => DistinctVariants(vs) && forall i | 0 <= i < |vs| :: WellFormedShape(vs[i].shape)
    case _ => true
  }

  ghost predicate WellFormedShape(shape: Shape) {
    match shape
    case UnitShape => true
    case NewtypeShape(t) => WellFormed(t)
    case TupleShape(ts) => forall i | 0 <= i < |ts| :: WellFormed(ts[i])
    case StructShape(fs) => DistinctFields(fs) && forall i | 0 <= i < |fs| :: WellFormed(fs[i].schema)
  }

  ghost predicate HasType(s: Schema, v: Value)
    decreases s
  {
    match s
    case SBool => v.Bool?
    case SInt(bits) => v.Int? && FitsInt(v.i, bits)
    case SUint(bits) => v.Uint? && FitsUint(v.u, bits)
    case SDouble => v.Double?
    case SChar => v.Char?
    case SStr => v.Str?
    case SBytes => v.Bytes?
    case SUnit => v.Unit?
    case SOption(t) => v.Nothing? || (v.Just? && HasType(t, v.v))
    case SNewtype(t) => v.Newtype? && HasType(t, v.v)
    case SSeq(t) => v.Seq? && forall i | 0 <= i < |v.vs| :: HasType(t, v.vs[i])
    case STuple(ts, _) => v.Tuple? && |v.vs| == |ts| && forall i | 0 <= i < |ts| :: HasType(ts[i], v.vs[i])
    case SMap(t) => v.Map? && forall k | k in v.m :: HasType(t, v.m[k])
    case SStruct(fs) => v.Struct? && FieldsHaveType(fs, v.fields)
    case SEnum(vs) =>
      v.Variant? && exists i | 0 <= i < |vs| :: vs[i].name == v.name && PayloadHasType(vs[i].shape, v.payload)
  }

  ghost predicate FieldsHaveType(fs: seq<SField>, vs: seq<Field>)
    decreases fs
  {
    |vs| == |fs| && forall i | 0 <= i < |fs| :: vs[i].name == fs[i].name && HasType(fs[i].schema, vs[i].value)
  }

  ghost predicate PayloadHasType(shape: Shape, p: Payload)
    decreases shape
  {
    match shape
    case UnitShape => p.NoPayload?
    case NewtypeShape(t) => p.NewtypePayload? && HasType(t, p.v)
    case TupleShape(ts) => p.TuplePayload? && |p.vs| == |ts| && forall i | 0 <= i < |ts| :: HasType(ts[i], p.vs[i])
    case StructShape(fs) => p.StructPayload? && FieldsHaveType(fs, p.fields)
  }

  /** A value of some type of the program. */
  ghost predicate Typed(v: Value) {
    exists s: Schema :: WellFormed(s) && HasType(s, v)
  }

  ghost predicate AllTyped(vs: seq<Value>) {
    forall i | 0 <= i < |vs| :: Typed(vs[i])
  }

  ghost predicate TypedFields(fields: seq<Field>) {
    && (forall i, j | 0 <= i < j < |fields| :: fields[i].name != fields[j].name)
    && forall i | 0 <= i < |fields| :: Typed(fields[i].value)
  }

  lemma {:induction false} FieldsTyped(fs: seq<SField>, fields: seq<Field>)
    requires FieldsHaveType(fs, fields) && DistinctFields(fs) && forall i | 0 <= i < |fs| :: WellFormed(fs[i].schema)
    ensures TypedFields(fields)
  {
    forall i, j | 0 <= i < j < |fields| ensures fields[i].name != fields[j].name {
      assert fs[i].name != fs[j].name;
    }
  }

  ghost predicate PartsTyped(v: Value) {
    match v
    case Just(u) => Typed(u)
    case Newtype(u) => Typed(u)
    case Seq(vs) => AllTyped(vs)
    case Tuple(vs) => AllTyped(vs)
    case Map(m) => forall k | k in m :: Typed(m[k])
    case Struct(fields) => TypedFields(fields)
    case Variant(_, payload) => TypedPayload(payload)
    case _ => true
  }

  /** The parts of a value of some type are values of some type. */
  lemma {:induction false} TypedParts(v: Value)
    requires Typed(v)
    ensures PartsTyped(v)
  {
    match v
    case Just(_) => WrappedTyped(v);
    case Newtype(_) => WrappedTyped(v);
    case Seq(_) => SequenceTyped(v);
    case Tuple(_) => SequenceTyped(v);
    case Map(_) => MapTyped(v);
    case Struct(_) => StructTyped(v);
    case Variant(_, _) => VariantTyped(v);
    case _ =>
  }

  lemma {:induction false} WrappedTyped(v: Value)
    requires Typed(v) && (v.Just? || v.Newtype?)
    ensures Typed(v.v)
  {
    var s :| WellFormed(s) && HasType(s, v);
    OfType(s.inner, v.v);
  }

  lemma {:induction false} SequenceTyped(v: Value)
    requires Typed(v) && (v.Seq? || v.Tuple?)
    ensures AllTyped(v.vs)
  {
    var s :| WellFormed(s) && HasType(s, v);
    ElementsTyped(if s.SSeq? then seq(|v.vs|, _ => s.element) else s.elements, v.vs);
  }

  lemma {:induction false} MapTyped(v: Value)
    requires Typed(v) && v.Map?
    ensures forall k | k in v.m :: Typed(v.m[k])
  {
    var s :| WellFormed(s) && HasType(s, v);
    forall k | k in v.m ensures Typed(v.m[k]) {
      OfType(s.value, v.m[k]);
    }
  }

  lemma {:induction false} StructTyped(v: Value)
    requires Typed(v) && v.Struct?
    ensures TypedFields(v.fields)
  {
    var s :| WellFormed(s) && HasType(s, v);
    FieldsTyped(s.fields, v.fields);
  }

  lemma {:induction false} ElementsTyped(ts: seq<Schema>, vs: seq<Value>)
    requires |ts| == |vs| && forall i | 0 <= i < |vs| :: WellFormed(ts[i]) && HasType(ts[i], vs[i])
    ensures AllTyped(vs)
  {
    forall i | 0 <= i < |vs| ensures Typed(vs[i]) {
      OfType(ts[i], vs[i]);
    }
  }

  lemma {:induction false} VariantTyped(v: Value)
    requires Typed(v) && v.Variant?
    ensures TypedPayload(v.payload)
  {
    var s :| WellFormed(s) && HasType(s, v);
    var vs := s.variants;
    var i :| 0 <= i < |vs| && vs[i].name == v.name && PayloadHasType(vs[i].shape, v.payload);
    PayloadTyped(vs[i].shape, v.payload);
  }

  lemma {:induction false} OfType(s: Schema, v: Value)
    requires WellFormed(s) && HasType(s, v)
    ensures Typed(v)
  {
  }

  ghost predicate TypedPayload(p: Payload) {
    match p
    case NoPayload => true
    case NewtypePayload(v) => Typed(v)
    case TuplePayload(vs) => AllTyped(vs)
    case StructPayload(fields) => TypedFields(fields)
  }

  lemma {:induction false} PayloadTyped(shape: Shape, p: Payload)
    requires PayloadHasType(shape, p) && WellFormedShape(shape)
    ensures TypedPayload(p)
  {
    match p
    case StructPayload(fields) => FieldsTyped(shape.fields, fields);
    case _ =>
  }
}
