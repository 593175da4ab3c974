/** The vector that lives in one shared block and grows by moving to another (src/vec.rs). */
module GrowVec {
  import opened Wrappers

  const U32: nat := 0x1_0000_0000

  // ---------- What a vector means ----------

  /** The elements, the capacity, and the elements moved by growing so far. */
  datatype View<T> = View(items: seq<T>, capacity: nat, moved: nat)

  function Grown(capacity: nat): nat {
    if capacity == 0 then 1 else capacity * 2
  }

  function Pushed<T>(v: View<T>, x: T): View<T> {
    if |v.items| == v.capacity then View(v.items + [x], Grown(v.capacity), v.moved + |v.items|)
    else v.(items := v.items + [x])
  }

  function Popped<T>(v: View<T>): (Option<T>, View<T>) {
    if v.items == [] then (None, v)
    else (Some(v.items[|v.items| - 1]), v.(items := v.items[..|v.items| - 1]))
  }

  datatype Op<T> = Push(x: T) | Pop

  function Apply<T>(v: View<T>, op: Op<T>): View<T> {
    match op
    case Push(x) => Pushed(v, x)
    case Pop => Popped(v).1
  }

  function Run<T>(v: View<T>, ops: seq<Op<T>>): View<T>
    decreases |ops|
  {
    if ops == [] then v else Apply(Run(v, ops[..|ops| - 1]), ops[|ops| - 1])
  }

  function Pushes<T>(ops: seq<Op<T>>): nat
    decreases |ops|
  {
    if ops == [] then 0 else Pushes(ops[..|ops| - 1]) + if ops[|ops| - 1].Push? then 1 else 0
  }

  /** The plain sequence the same operations make. */
  function Plain<T>(ops: seq<Op<T>>): seq<T>
    decreases |ops|
  {
    if ops == [] then []
    else
      var s := Plain(ops[..|ops| - 1]);
      match ops[|ops| - 1]
      case Push(x) => s + [x]
      case Pop => if s == [] then [] else s[..|s| - 1]
  }

  /** What the pops of a run return, and what those of the plain sequence do. */
  function Returned<T>(v: View<T>, ops: seq<Op<T>>): seq<Option<T>>
    decreases |ops|
  {
    if ops == [] then []
    else
      var before := ops[..|ops| - 1];
      Returned(v, before) + if ops[|ops| - 1].Pop? then [Popped(Run(v, before)).0] else []
  }

  function PlainReturned<T>(ops: seq<Op<T>>): seq<Option<T>>
    decreases |ops|
  {
    if ops == [] then []
    else
      var before := ops[..|ops| - 1];
      PlainReturned(before) + if ops[|ops| - 1].Pop? then [Top(Plain(before))] else []
  }

  function Top<T>(s: seq<T>): Option<T> {
    if s == [] then None else Some(s[|s| - 1])
  }

  /** By how much the operations lengthen a vector that none of its pops finds too short. */
  function Depth<T>(ops: seq<Op<T>>): int
    decreases |ops|
  {
    if ops == [] then 0 else Depth(ops[..|ops| - 1]) + if ops[|ops| - 1].Push? then 1 else -1
  }

  /** The operations never take back more than they have pushed. */
  ghost predicate NeverBelow<T>(ops: seq<Op<T>>) {
    forall k | 0 <= k <= |ops| :: Depth(ops[..k]) >= 0
  }

  lemma {:induction false} KeepsBelow<T>(v: View<T>, ops: seq<Op<T>>)
    requires |v.items| <= v.capacity && NeverBelow(ops)
    ensures var w := Run(v, ops);
            && |v.items| <= |w.items| <= w.capacity && |w.items| == |v.items| + Depth(ops)
            && w.items[..|v.items|] == v.items
    decreases |ops|
  {
    assert ops[..|ops|] == ops;
    if ops != [] {
      var before := ops[..|ops| - 1];
      forall k | 0 <= k <= |before| ensures Depth(before[..k]) >= 0 {
        assert before[..k] == ops[..k];
      }
      KeepsBelow(v, before);
      assert Depth(ops) >= 0;
    }
  }

  /** Last in, first out: whatever is pushed and popped again in between, a pop returns what was pushed
      before that, and leaves what there was before the push. */
  lemma {:induction false} LastInFirstOut<T>(v: View<T>, x: T, between: seq<Op<T>>)
    requires |v.items| <= v.capacity && NeverBelow(between) && Depth(between) == 0
    ensures var (out, w) := Popped(Run(Pushed(v, x), between));
            out == Some(x) && w.items == v.items
  {
    KeepsBelow(Pushed(v, x), between);
    assert Pushed(v, x).items == v.items + [x];
  }

  ghost predicate IsPowerOfTwo(n: nat) {
    exists k: nat :: n == Power(k)
  }

  function Power(k: nat): (p: nat)
    ensures p > 0
  {
    if k == 0 then 1 else 2 * Power(k - 1)
  }

  /** Any run on a new vector: the contents are the plain sequence, and once there is room at all the
      elements moved are exactly one less than the capacity, a power of two. */
  lemma {:induction false} RunExact<T>(ops: seq<Op<T>>)
    ensures var v := Run(View([], 0, 0), ops);
            && v.items == Plain(ops) && |v.items| <= v.capacity
            && Returned(View([], 0, 0), ops) == PlainReturned(ops)
            && (v.capacity == 0 ==> v.moved == 0 && Pushes(ops) == 0)
            && (v.capacity > 0 ==> v.moved == v.capacity - 1 && IsPowerOfTwo(v.capacity))
            && (v.capacity > 1 ==> v.capacity < 2 * Pushes(ops))
            && |v.items| <= Pushes(ops)
    decreases |ops|
  {
    if ops != [] {
      RunExact(ops[..|ops| - 1]);
      var v := Run(View([], 0, 0), ops[..|ops| - 1]);
      if ops[|ops| - 1].Push? && |v.items| == v.capacity {
        if v.capacity == 0 {
          assert Grown(0) == Power(0);
        } else {
          var k: nat :| v.capacity == Power(k);
          assert Grown(v.capacity) == Power(k + 1);
        }
      }
    }
  }

  /** Pushing costs amortized constant time: fewer than two moves a push. */
  lemma {:induction false} FewMoves<T>(ops: seq<Op<T>>)
    requires Pushes(ops) > 0
    ensures Run(View([], 0, 0), ops).moved < 2 * Pushes(ops)
  {
    RunExact(ops);
  }

  // ---------- Sizes ----------

  /** The size asked for, with the cast to 32 bits. */
  function ByteSize(capacity: nat, elementSize: nat): (size: nat)
    ensures size < U32
  {
    if capacity == 0 then 1 else capacity * elementSize % U32
  }

  /** A block asked for has room for the capacity exactly when the bytes fit in 32 bits. */
  lemma {:induction false} RoomIff(capacity: nat, elementSize: nat)
    ensures ByteSize(capacity, elementSize) >= capacity * elementSize <==> capacity * elementSize < U32
  {
    if capacity == 0 {
      assert capacity * elementSize == 0;
    }
  }

  /** Growing from this capacity gives a block, but one that is too small. */
  predicate Overruns(capacity: nat, elementSize: nat) {
    Grown(capacity) * elementSize >= U32 && ByteSize(Grown(capacity), elementSize) != 0
  }

  /** Growing from this capacity asks for a block of no size, which there is not. */
  predicate CutToNothing(capacity: nat, elementSize: nat) {
    ByteSize(Grown(capacity), elementSize) == 0
  }

  /** When a full vector grows and gets a block, it is too small for the elements and one more exactly
      when the size did not fit in 32 bits. */
  lemma {:induction false} OverrunIff(len: nat, elementSize: nat)
    requires elementSize > 0 && len * elementSize < U32 && !CutToNothing(len, elementSize)
    ensures (len + 1) * elementSize > ByteSize(Grown(len), elementSize) <==> Overruns(len, elementSize)
  {
    if len == 0 {
      OneTooMuch(elementSize);
    } else {
      var bytes := len * elementSize;
      Doubled(len, elementSize);
      TwiceTooMuch(bytes, elementSize);
    }
  }

  lemma {:induction false} Doubled(len: nat, elementSize: nat)
    requires len > 0
    ensures (len + 1) * elementSize == len * elementSize + elementSize && elementSize <= len * elementSize
    ensures Grown(len) * elementSize == 2 * (len * elementSize)
  {
    assert (len - 1) * elementSize == len * elementSize - elementSize;
  }

  lemma {:induction false} OneTooMuch(elementSize: nat)
    ensures 1 * elementSize > elementSize % U32 <==> elementSize >= U32
  {
  }

  lemma {:induction false} TwiceTooMuch(bytes: nat, elementSize: nat)
    requires 0 < elementSize <= bytes < U32
    ensures bytes + elementSize > 2 * bytes % U32 <==> 2 * bytes >= U32
  {
  }

  // ---------- Which vectors run past their blocks ----------

  lemma {:induction false} PowerSum(m: nat, n: nat)
    ensures Power(m + n) == Power(m) * Power(n)
  {
    if m > 0 {
      PowerSum(m - 1, n);
    }
  }

  lemma {:induction false} PowerDouble(n: nat, p: nat)
    requires Power(n) == p
    ensures Power(2 * n) == p * p
  {
    PowerSum(n, n);
  }

  lemma {:induction false} PowerOf32()
    ensures Power(32) == U32
  {
    var one: nat, four: nat, sixteen: nat := 1, 4, 16;
    assert Power(one) == 2;
    PowerDouble(one, 2);
    PowerDouble(2 * one, 4);
    PowerDouble(four, 16);
    PowerDouble(2 * four, 256);
    PowerDouble(sixteen, 0x1_0000);
  }

  lemma {:induction false} PowerGrows(m: nat, n: nat)
    ensures m < n <==> Power(m) < Power(n)
  {
    if m < n {
      PowerLess(m, n);
    } else if n < m {
      PowerLess(n, m);
    }
  }

  lemma {:induction false} PowerLess(m: nat, n: nat)
    requires m < n
    ensures Power(m) < Power(n)
  {
    if m + 1 < n {
      PowerLess(m, n - 1);
    }
  }

  /** With elements whose size is a power of two, a size that does not fit is cut to nothing. */
  lemma {:induction false} PowersNeverOverrun(k: nat, j: nat)
    ensures !Overruns(Power(k), Power(j))
  {
    PowerSum(k + 1, j);
    assert Grown(Power(k)) == Power(k + 1) by {
      PowerGrows(0, k + 1);
    }
    PowerOf32();
    if Power(k + 1 + j) >= U32 {
      PowerGrows(k + 1 + j, 32);
      PowerSum(32, k + 1 + j - 32);
      Multiple(Power(k + 1 + j - 32));
    }
  }

  lemma {:induction false} Multiple(q: nat)
    ensures U32 * q % U32 == 0
  {
  }

  /** No run of a new vector with such elements, as those of all integer types, writes past a block. */
  lemma {:induction false} NewNeverOverruns<T>(ops: seq<Op<T>>, j: nat)
    ensures var v := Run(View([], 0, 0), ops);
            v.capacity > 0 ==> !Overruns(v.capacity, Power(j))
    ensures Run(View([], 0, 0), ops).capacity == 0 && Power(j) < U32 ==> !Overruns(0, Power(j))
  {
    RunExact(ops);
    var v := Run(View([], 0, 0), ops);
    if v.capacity > 0 {
      var k: nat :| v.capacity == Power(k);
      PowersNeverOverrun(k, j);
    }
  }

  /** Other vectors do, if they grow on: of the capacities a new vector comes to, the last whose bytes
      fit is one to run past the block from, unless the element size is a power of two. */
  lemma {:induction false} SomeOverrunIff(elementSize: nat)
    requires 0 < elementSize < U32
    ensures (exists k: nat :: Power(k) * elementSize < U32 && Overruns(Power(k), elementSize))
            <==> !IsPowerOfTwo(elementSize)
  {
    if IsPowerOfTwo(elementSize) {
      var j: nat :| elementSize == Power(j);
      forall k: nat ensures !Overruns(Power(k), elementSize) {
        PowersNeverOverrun(k, j);
      }
    } else {
      assert Power(0) * elementSize < U32;
      var k := LastFitting(elementSize, 0);
      LastOverruns(elementSize, k);
    }
  }

  lemma {:induction false} LastFitting(elementSize: nat, k: nat) returns (last: nat)
    requires elementSize > 0 && Power(k) * elementSize < U32
    ensures Power(last) * elementSize < U32 && Power(last + 1) * elementSize >= U32
    decreases U32 - Power(k) * elementSize
  {
    if Power(k + 1) * elementSize >= U32 {
      last := k;
    } else {
      assert Power(k + 1) * elementSize == 2 * (Power(k) * elementSize);
      PowerGrows(0, k + 1);
      assert Power(k) * elementSize > 0;
      last := LastFitting(elementSize, k + 1);
    }
  }

  lemma {:induction false} LastOverruns(elementSize: nat, k: nat)
    requires elementSize > 0 && !IsPowerOfTwo(elementSize)
    requires Power(k) * elementSize < U32 && Power(k + 1) * elementSize >= U32
    ensures Overruns(Power(k), elementSize)
  {
    assert Grown(Power(k)) == Power(k + 1) by {
      PowerGrows(0, k + 1);
    }
    assert Power(k + 1) * elementSize == 2 * (Power(k) * elementSize);
    if ByteSize(Power(k + 1), elementSize) == 0 {
      assert Power(k + 1) * elementSize == U32;
      QuotientIsPower(elementSize, k + 1);
    }
  }

  lemma {:induction false} QuotientIsPower(elementSize: nat, k: nat)
    requires elementSize > 0 && Power(k) * elementSize == U32
    ensures IsPowerOfTwo(elementSize)
  {
    PowerOf32();
    PowerGrows(32, k);
    assert Power(k) <= U32 by {
      assert Power(k) * elementSize >= Power(k) * 1;
    }
    PowerSum(k, 32 - k);
    PowerGrows(0, k);
    SameFactor(Power(k), elementSize, Power(32 - k));
  }

  lemma {:induction false} SameFactor(a: nat, b: nat, c: nat)
    requires a > 0 && a * b == a * c
    ensures b == c
  {
    if b < c {
      MoreTimes(a, b, c);
    } else if c < b {
      MoreTimes(a, c, b);
    }
  }

  lemma {:induction false} MoreTimes(a: nat, b: nat, c: nat)
    requires a > 0 && b < c
    ensures a * b < a * c
  {
    assert a * c == a * b + a * (c - b);
  }

  /** A vector of twelve-byte elements that has come to a capacity of 2^28 asks for 6 GiB, gets 2 GiB,
      and has more than 3 GiB to write. */
  lemma {:induction false} OverrunExample()
    ensures var capacity := 0x1000_0000;
            && IsPowerOfTwo(capacity) && capacity * 12 < U32 && Overruns(capacity, 12)
            && ByteSize(Grown(capacity), 12) == 0x8000_0000 < (capacity + 1) * 12
  {
    var four: nat := 4;
    PowerOf32();
    PowerSum(28, four);
    assert Power(four) == 16;
    assert Power(28) == 0x1000_0000;
  }

  lemma {:induction false} Inside(i: nat, capacity: nat, elementSize: nat)
    requires i < capacity
    ensures (i + 1) * elementSize <= capacity * elementSize
  {
    assert capacity * elementSize == (i + 1) * elementSize + (capacity - i - 1) * elementSize;
  }

  // ---------- Blocks ----------

  datatype Block<T> = Block(size: nat, cells: map<nat, T>)

  predicate Filled<T>(cells: map<nat, T>, n: nat) {
    forall i | 0 <= i < n :: i in cells
  }

  function Items<T>(cells: map<nat, T>, n: nat): (s: seq<T>)
    requires Filled(cells, n)
    ensures |s| == n && forall i | 0 <= i < n :: s[i] == cells[i]
  {
    seq(n, i requires 0 <= i < n => cells[i])
  }

  /** The shared blocks of the family; no more than `limit` at a time, and none without a size. */
  class Store<T> {
    var blocks: map<nat, Block<T>>
    var next: nat
    const limit: nat
    /** Elements destroyed, in order. */
    var destroyed: seq<T>

    ghost predicate Valid()
      reads this
    {
      forall b | b in blocks :: b < next && blocks[b].size < U32
    }

    constructor (limit: nat)
      ensures Valid() && blocks == map[] && destroyed == [] && this.limit == limit
    {
      this.limit := limit;
      blocks, next, destroyed := map[], 0, [];
    }

    method Alloc(size: nat) returns (id: Option<nat>)
      requires Valid() && size < U32
      modifies this`blocks, this`next
      ensures Valid()
      ensures id.None? <==> size == 0 || |old(blocks)| >= limit
      ensures id.None? ==> blocks == old(blocks)
      ensures id.Some? ==> id.value !in old(blocks) && blocks == old(blocks)[id.value := Block(size, map[])]
    {
      if size == 0 || |blocks| >= limit {
        id := None;
      } else {
        id := Some(next);
        blocks := blocks[next := Block(size, map[])];
        next := next + 1;
      }
    }

    method Free(id: nat)
      requires Valid() && id in blocks
      modifies this`blocks
      ensures Valid() && blocks == old(blocks) - {id}
    {
      blocks := blocks - {id};
    }

    /** A write of element i through the mapped pointer stays inside the block. */
    method Write(id: nat, i: nat, elementSize: nat, x: T)
      requires Valid() && id in blocks && (i + 1) * elementSize <= blocks[id].size
      modifies this`blocks
      ensures Valid() && blocks == old(blocks)[id := old(blocks)[id].(cells := old(blocks)[id].cells[i := x])]
    {
      blocks := blocks[id := blocks[id].(cells := blocks[id].cells[i := x])];
    }

    /** copy_nonoverlapping of the first n elements. */
    method Copy(from: nat, to: nat, n: nat, elementSize: nat)
      requires Valid() && from in blocks && to in blocks && from != to
      requires Filled(blocks[from].cells, n) && n * elementSize <= blocks[to].size
      modifies this`blocks
      ensures Valid() && to in blocks && blocks.Keys == old(blocks.Keys)
      ensures forall b | b in blocks && b != to :: blocks[b] == old(blocks)[b]
      ensures blocks[to].size == old(blocks[to]).size && Filled(blocks[to].cells, n)
      ensures Items(blocks[to].cells, n) == Items(old(blocks[from].cells), n)
    {
      var cells := map i | 0 <= i < n :: blocks[from].cells[i];
      blocks := blocks[to := blocks[to].(cells := cells)];
      assert Filled(blocks[to].cells, n);
    }
  }

  // ---------- The vector ----------

  /** A block has room for a capacity and holds len elements. */
  ghost predicate Holds<T>(id: nat, len: nat, capacity: nat, elementSize: nat, blocks: map<nat, Block<T>>) {
    && elementSize > 0 && id in blocks && len <= capacity
    && blocks[id].size >= capacity * elementSize && Filled(blocks[id].cells, len)
  }

  /** Overrun: the elements would be written past the end of the new block. */
  datatype PushOutcome = Done | Refused | Overrun

  class Vec<T> {
    var id: nat
    var len: nat
    var capacity: nat
    const elementSize: nat
    ghost var moved: nat

    ghost predicate Valid(store: Store<T>)
      reads this, store
    {
      store.Valid() && Holds(id, len, capacity, elementSize, store.blocks)
    }

    ghost function Value(store: Store<T>): View<T>
      reads this, store
      requires Valid(store)
    {
      View(Items(store.blocks[id].cells, len), capacity, moved)
    }

    ghost function Self(): Shape
      reads this
    {
      Shape(id, len, capacity, elementSize, moved)
    }

    constructor (id: nat, len: nat, capacity: nat, elementSize: nat)
      ensures this.id == id && this.len == len && this.capacity == capacity
      ensures this.elementSize == elementSize && moved == 0
    {
      this.id, this.len, this.capacity, this.elementSize := id, len, capacity, elementSize;
      moved := 0;
    }

    /** with_capacity: a size that does not fit in 32 bits is cut down. If nothing is left of it there
        is no vector, else the vector made is larger than its block. */
    static method WithCapacity(store: Store<T>, capacity: nat, elementSize: nat) returns (v: Option<Vec<T>>)
      requires store.Valid() && elementSize > 0
      modifies store`blocks, store`next
      ensures store.Valid()
      ensures v.None? <==> ByteSize(capacity, elementSize) == 0 || |old(store.blocks)| >= store.limit
      ensures v.None? ==> store.blocks == old(store.blocks)
      ensures v.Some? ==>
                && fresh(v.value) && v.value.elementSize == elementSize
                && (v.value.Valid(store) <==> capacity * elementSize < U32)
                && (v.value.Valid(store) ==> v.value.Value(store) == View([], capacity, 0))
                && v.value.id !in old(store.blocks) && store.blocks - {v.value.id} == old(store.blocks)
    {
      RoomIff(capacity, elementSize);
      var id := store.Alloc(ByteSize(capacity, elementSize));
      if id.None? {
        return None;
      }
      var made := new Vec<T>(id.value, 0, capacity, elementSize);
      v := Some(made);
    }

    /** push: a full vector first moves to a block of twice the capacity and gives the old one back.
        A size that does not fit in 32 bits is cut down. If nothing is left of it the push is refused,
        else what is written runs past the block. */
    method Push(store: Store<T>, x: T) returns (out: PushOutcome)
      requires Valid(store)
      modifies this, store`blocks, store`next
      ensures out.Refused? <==>
              old(len == capacity) && (|old(store.blocks)| >= store.limit || CutToNothing(old(capacity), elementSize))
      ensures out.Overrun? <==>
              old(len == capacity) && |old(store.blocks)| < store.limit && Overruns(old(capacity), elementSize)
      ensures !out.Overrun? ==>
                && Valid(store) && (id == old(id) || id !in old(store.blocks))
                && Value(store) == (if out.Done? then Pushed(old(Value(store)), x) else old(Value(store)))
                && store.blocks - {id} == old(store.blocks) - {old(id)}
    {
      if len == capacity {
        out := Grow(store);
        if !out.Done? {
          return;
        }
      }
      Put(store, x);
      out := Done;
    }

    method Put(store: Store<T>, x: T)
      requires Valid(store) && len < capacity
      modifies this`len, store`blocks
      ensures Valid(store) && len == old(len) + 1
      ensures Value(store) == old(Value(store)).(items := old(Value(store)).items + [x])
      ensures store.blocks - {id} == old(store.blocks) - {id}
    {
      ghost var before := Value(store).items;
      Inside(len, capacity, elementSize);
      store.Write(id, len, elementSize, x);
      len := len + 1;
      assert Value(store).items == before + [x];
    }

    method Grow(store: Store<T>) returns (out: PushOutcome)
      requires Valid(store) && len == capacity
      modifies this, store`blocks, store`next
      ensures out.Refused? <==> |old(store.blocks)| >= store.limit || CutToNothing(old(capacity), elementSize)
      ensures out.Overrun? <==> |old(store.blocks)| < store.limit && Overruns(old(capacity), elementSize)
      ensures !out.Overrun? ==>
                && Valid(store) && len == old(len) && (id == old(id) || id !in old(store.blocks))
                && store.blocks - {id} == old(store.blocks) - {old(id)}
      ensures out.Refused? ==> Value(store) == old(Value(store))
      ensures out.Done? ==>
                Value(store) == View(old(Value(store)).items, Grown(old(capacity)), old(moved) + old(len))
                    && len < capacity
    {
      var newCapacity := Grown(capacity);
      RoomIff(newCapacity, elementSize);
      var newId := store.Alloc(ByteSize(newCapacity, elementSize));
      if newId.None? {
        return Refused;
      }
      OverrunIff(len, elementSize);
      if (len + 1) * elementSize > store.blocks[newId.value].size {
        return Overrun;
      }
      Move(store, newId.value, newCapacity);
      out := Done;
    }

    /** The elements are copied to the new block, and the old one is given back. */
    method Move(store: Store<T>, newId: nat, newCapacity: nat)
      requires Valid(store) && newId in store.blocks && newId != id && len < newCapacity
      requires store.blocks[newId].size >= newCapacity * elementSize
      modifies this, store`blocks
      ensures Valid(store) && len == old(len) && id == newId
      ensures Value(store) == View(old(Value(store)).items, newCapacity, old(moved) + old(len))
      ensures store.blocks - {id} == old(store.blocks) - {id, old(id)}
    {
      Inside(len, newCapacity, elementSize);
      assert len * elementSize <= (len + 1) * elementSize;
      if len > 0 {
        store.Copy(id, newId, len, elementSize);
      }
      store.Free(id);
      id := newId;
      capacity := newCapacity;
      moved := moved + len;
    }

    method Pop(store: Store<T>) returns (x: Option<T>)
      requires Valid(store)
      modifies this
      ensures Valid(store) && id == old(id)
      ensures (x, Value(store)) == Popped(old(Value(store)))
    {
      if len == 0 {
        x := None;
      } else {
        ghost var before := Value(store).items;
        len := len - 1;
        x := Some(store.blocks[id].cells[len]);
        assert Value(store).items == before[..len];
      }
    }

    /** clone: an own block of the same capacity, filled element by element. */
    method Clone(store: Store<T>) returns (v: Option<Vec<T>>)
      requires Valid(store)
      modifies store`blocks, store`next
      ensures Valid(store) && Value(store) == old(Value(store))
      ensures v.None? ==> store.blocks == old(store.blocks) && |store.blocks| >= store.limit
      ensures v.Some? ==>
                && fresh(v.value) && v.value.Valid(store) && v.value.elementSize == elementSize
                && v.value.Value(store) == View(Value(store).items, capacity, 0)
                && v.value.id !in old(store.blocks) && store.blocks - {v.value.id} == old(store.blocks)
    {
      RoomIff(capacity, elementSize);
      var newId := store.Alloc(ByteSize(capacity, elementSize));
      if newId.None? {
        return None;
      }
      CloneElements(store, newId.value);
      var made := new Vec<T>(newId.value, len, capacity, elementSize);
      v := Some(made);
    }

    method CloneElements(store: Store<T>, to: nat)
      requires Valid(store) && to in store.blocks && to != id && store.blocks[to].size >= capacity * elementSize
      modifies store`blocks
      ensures Valid(store) && to in store.blocks && store.blocks - {to} == old(store.blocks) - {to}
      ensures store.blocks[id] == old(store.blocks)[id]
      ensures store.blocks[to].size == old(store.blocks)[to].size && Filled(store.blocks[to].cells, len)
      ensures Items(store.blocks[to].cells, len) == Items(store.blocks[id].cells, len)
    {
      var i := 0;
      while i < len
        invariant 0 <= i <= len && store.Valid() && to in store.blocks && id in store.blocks
        invariant store.blocks - {to} == old(store.blocks) - {to} && store.blocks[id] == old(store.blocks)[id]
        invariant store.blocks[to].size == old(store.blocks)[to].size && Filled(store.blocks[to].cells, i)
        invariant forall j | 0 <= j < i :: store.blocks[to].cells[j] == store.blocks[id].cells[j]
      {
        Inside(i, capacity, elementSize);
        store.Write(to, i, elementSize, store.blocks[id].cells[i]);
        i := i + 1;
      }
    }

    /** drop: every element is destroyed once, then the block is given back. */
    method Drop(store: Store<T>)
      requires Valid(store)
      modifies store`blocks, store`destroyed
      ensures store.Valid() && store.blocks == old(store.blocks) - {id}
      ensures store.destroyed == old(store.destroyed) + old(Value(store)).items
    {
      if capacity > 0 {
        var i := 0;
        ghost var items := Value(store).items;
        while i < len
          invariant 0 <= i <= len && store.blocks == old(store.blocks)
          invariant store.destroyed == old(store.destroyed) + items[..i]
        {
          store.destroyed := store.destroyed + [store.blocks[id].cells[i]];
          i := i + 1;
        }
      }
      store.Free(id);
    }
  }

  // ---------- Many vectors ----------

  datatype ManyOp<T> =
    | MakeVec(capacity: nat)
    | PushTo(i: nat, x: T)
    | PopFrom(i: nat)
    | CloneOf(i: nat)
    | DropOf(i: nat)

  predicate InRange<T>(op: ManyOp<T>, n: nat) {
    op.MakeVec? || op.i < n
  }

  function Without<V>(vs: seq<V>, i: nat): seq<V>
    requires i < |vs|
  {
    vs[..i] + vs[i + 1..]
  }

  /** What an operation makes of all vectors. A clone has moved nothing yet. */
  function Many<T>(vs: seq<View<T>>, op: ManyOp<T>): seq<View<T>>
    requires InRange(op, |vs|)
  {
    match op
    case MakeVec(capacity) => vs + [View([], capacity, 0)]
    case PushTo(i, x) => vs[i := Pushed(vs[i], x)]
    case PopFrom(i) => vs[i := Popped(vs[i]).1]
    case CloneOf(i) => vs + [vs[i].(moved := 0)]
    case DropOf(i) => Without(vs, i)
  }

  /** The plain account of one vector: its elements as a sequence, the capacity and the number of
      elements it started with, and the pushes since. */
  datatype Account<T> = Account(items: seq<T>, first: nat, start: nat, pushes: nat)

  function ManyAccounts<T>(accounts: seq<Account<T>>, vs: seq<View<T>>, op: ManyOp<T>): seq<Account<T>>
    requires InRange(op, |vs|) && |accounts| == |vs|
  {
    match op
    case MakeVec(capacity) => accounts + [Account([], capacity, 0, 0)]
    case PushTo(i, x) =>
      var a := accounts[i];
      accounts[i := a.(items := a.items + [x], pushes := a.pushes + 1)]
    case PopFrom(i) =>
      var a := accounts[i];
      accounts[i := a.(items := if a.items == [] then [] else a.items[..|a.items| - 1])]
    case CloneOf(i) =>
      var a := accounts[i];
      accounts + [Account(a.items, vs[i].capacity, |a.items|, 0)]
    case DropOf(i) => Without(accounts, i)
  }

  /** The vector holds the plain elements; what it moved and the first capacity make up the capacity;
      and it is larger than at first only for its elements. */
  ghost predicate Balances<T>(v: View<T>, a: Account<T>) {
    && v.items == a.items && |v.items| <= v.capacity && |v.items| <= a.start + a.pushes
    && (if a.first == 0 && v.capacity > 0 then v.moved + 1 == v.capacity else v.moved + a.first == v.capacity)
    && (v.capacity > a.first && v.capacity > 1 ==> v.capacity < 2 * (a.start + a.pushes))
  }

  ghost predicate AllBalance<T>(vs: seq<View<T>>, accounts: seq<Account<T>>) {
    |vs| == |accounts| && forall j | 0 <= j < |vs| :: Balances(vs[j], accounts[j])
  }

  lemma {:induction false} ManyStep<T>(vs: seq<View<T>>, accounts: seq<Account<T>>, op: ManyOp<T>)
    requires AllBalance(vs, accounts) && InRange(op, |vs|)
    ensures AllBalance(Many(vs, op), ManyAccounts(accounts, vs, op))
  {
    var vs', accounts' := Many(vs, op), ManyAccounts(accounts, vs, op);
    forall j | 0 <= j < |vs'| ensures Balances(vs'[j], accounts'[j]) {
      if j < |vs| {
        assert Balances(vs[j], accounts[j]);
      }
      if !op.MakeVec? {
        assert Balances(vs[op.i], accounts[op.i]);
      }
      if op.DropOf? && j >= op.i {
        assert Balances(vs[j + 1], accounts[j + 1]);
      }
    }
  }

  /** What the operation returns, and what it does by the plain accounts. */
  function ManyReturned<T>(vs: seq<View<T>>, op: ManyOp<T>): Option<T>
    requires InRange(op, |vs|)
  {
    if op.PopFrom? then Popped(vs[op.i]).0 else None
  }

  function AccountReturned<T>(accounts: seq<Account<T>>, op: ManyOp<T>): Option<T>
    requires InRange(op, |accounts|)
  {
    if op.PopFrom? then Top(accounts[op.i].items) else None
  }

  ghost predicate IsManyRun<T>(states: seq<seq<View<T>>>, accounts: seq<seq<Account<T>>>, ops: seq<ManyOp<T>>) {
    && |states| == |accounts| == |ops| + 1 && states[0] == [] && accounts[0] == []
    && forall k | 0 <= k < |ops| ::
         && |states[k]| == |accounts[k]| && InRange(ops[k], |states[k]|)
         && states[k + 1] == Many(states[k], ops[k])
         && accounts[k + 1] == ManyAccounts(accounts[k], states[k], ops[k])
  }

  /** In any run over any number of vectors, clones and clones of clones included, every vector has its
      plain elements at the exact cost, and every pop returns what the plain elements say. */
  lemma {:induction false} ManyExact<T>(states: seq<seq<View<T>>>, accounts: seq<seq<Account<T>>>,
                                        ops: seq<ManyOp<T>>, k: nat)
    requires IsManyRun(states, accounts, ops) && k < |states|
    ensures AllBalance(states[k], accounts[k])
    ensures k < |ops| ==> ManyReturned(states[k], ops[k]) == AccountReturned(accounts[k], ops[k])
    decreases k
  {
    if k > 0 {
      ManyExact(states, accounts, ops, k - 1);
      ManyStep(states[k - 1], accounts[k - 1], ops[k - 1]);
    }
    if k < |ops| && ops[k].PopFrom? {
      assert Balances(states[k][ops[k].i], accounts[k][ops[k].i]);
    }
  }

  // ---------- All vectors of a process ----------

  /** The fields of a vector. */
  datatype Shape = Shape(id: nat, len: nat, capacity: nat, elementSize: nat, moved: nat)

  ghost predicate Sits<T>(s: Shape, blocks: map<nat, Block<T>>) {
    Holds(s.id, s.len, s.capacity, s.elementSize, blocks)
  }

  ghost function ViewOf<T>(s: Shape, blocks: map<nat, Block<T>>): View<T>
    requires Sits(s, blocks)
  {
    View(Items(blocks[s.id].cells, s.len), s.capacity, s.moved)
  }

  /** Every vector has a block of its own, and there are no other blocks. */
  ghost predicate Sound<T>(shapes: seq<Shape>, blocks: map<nat, Block<T>>) {
    && (forall j | 0 <= j < |shapes| :: Sits(shapes[j], blocks))
    && (forall i, j | 0 <= i < j < |shapes| :: shapes[i].id != shapes[j].id)
    && |blocks| == |shapes|
  }

  ghost function ViewsOf<T>(shapes: seq<Shape>, blocks: map<nat, Block<T>>): (vs: seq<View<T>>)
    requires Sound(shapes, blocks)
    ensures |vs| == |shapes| && forall j | 0 <= j < |vs| :: vs[j] == ViewOf(shapes[j], blocks)
  {
    seq(|shapes|, j requires 0 <= j < |shapes| => ViewOf(shapes[j], blocks))
  }

  lemma {:induction false} StillSits<T>(s: Shape, blocks: map<nat, Block<T>>, blocks': map<nat, Block<T>>)
    requires Sits(s, blocks) && s.id in blocks' && blocks'[s.id] == blocks[s.id]
    ensures Sits(s, blocks') && ViewOf(s, blocks') == ViewOf(s, blocks)
  {
  }

  lemma {:induction false} SoundAdd<T>(shapes: seq<Shape>, s: Shape, blocks: map<nat, Block<T>>,
                                       blocks': map<nat, Block<T>>)
    requires Sound(shapes, blocks) && Sits(s, blocks') && s.id !in blocks && blocks' - {s.id} == blocks
    ensures Sound(shapes + [s], blocks')
        && ViewsOf(shapes + [s], blocks') == ViewsOf(shapes, blocks) + [ViewOf(s, blocks')]
  {
    OneMore(blocks, blocks', s.id);
    forall j | 0 <= j < |shapes|
      ensures Sits(shapes[j], blocks') && ViewOf(shapes[j], blocks') == ViewOf(shapes[j], blocks)
          && shapes[j].id != s.id
    {
      StillSits(shapes[j], blocks, blocks');
    }
  }

  lemma {:induction false} SoundMove<T>(shapes: seq<Shape>, i: nat, s: Shape, blocks: map<nat, Block<T>>,
                                        blocks': map<nat, Block<T>>)
    requires Sound(shapes, blocks) && i < |shapes| && Sits(s, blocks')
    requires (s.id == shapes[i].id || s.id !in blocks) && blocks' - {s.id} == blocks - {shapes[i].id}
    ensures Sound(shapes[i := s], blocks')
    ensures ViewsOf(shapes[i := s], blocks') == ViewsOf(shapes, blocks)[i := ViewOf(s, blocks')]
  {
    Moved(blocks, blocks', shapes[i].id, s.id);
    forall j | 0 <= j < |shapes| && j != i
      ensures Sits(shapes[j], blocks') && ViewOf(shapes[j], blocks') == ViewOf(shapes[j], blocks)
          && shapes[j].id != s.id
    {
      StillSits(shapes[j], blocks, blocks');
    }
  }

  lemma {:induction false} SoundDrop<T>(shapes: seq<Shape>, i: nat, blocks: map<nat, Block<T>>)
    requires Sound(shapes, blocks) && i < |shapes|
    ensures Sound(Without(shapes, i), blocks - {shapes[i].id})
    ensures ViewsOf(Without(shapes, i), blocks - {shapes[i].id}) == Without(ViewsOf(shapes, blocks), i)
  {
    var blocks', rest := blocks - {shapes[i].id}, Without(shapes, i);
    OneMore(blocks', blocks, shapes[i].id);
    forall j | 0 <= j < |shapes| && j != i
      ensures Sits(shapes[j], blocks') && ViewOf(shapes[j], blocks') == ViewOf(shapes[j], blocks)
    {
      StillSits(shapes[j], blocks, blocks');
    }
    assert forall j | 0 <= j < |rest| :: rest[j] == shapes[if j < i then j else j + 1];
  }

  class Process<T> {
    const store: Store<T>
    var vecs: seq<Vec<T>>

    ghost function Shapes(): (shapes: seq<Shape>)
      reads this, vecs
      ensures |shapes| == |vecs| && forall j | 0 <= j < |vecs| :: shapes[j] == vecs[j].Self()
    {
      seq(|vecs|, j requires 0 <= j < |vecs| reads this, vecs => vecs[j].Self())
    }

    ghost predicate Valid()
      reads this, store, vecs
    {
      store.Valid() && Sound(Shapes(), store.blocks)
    }

    ghost function Views(): seq<View<T>>
      reads this, store, vecs
      requires Valid()
    {
      ViewsOf(Shapes(), store.blocks)
    }

    constructor (limit: nat)
      ensures Valid() && vecs == [] && fresh(store)
    {
      store := new Store<T>(limit);
      vecs := [];
    }

    method New(elementSize: nat) returns (ok: bool)
      requires Valid() && elementSize > 0
      modifies this, store
      ensures Valid() && Views() == if ok then Many(old(Views()), MakeVec(0)) else old(Views())
    {
      ghost var shapes := Shapes();
      NoBytes(elementSize);
      var v := Vec<T>.WithCapacity(store, 0, elementSize);
      ok := v.Some?;
      if ok {
        SoundAdd(shapes, v.value.Self(), old(store.blocks), store.blocks);
        vecs := vecs + [v.value];
        assert Shapes() == shapes + [v.value.Self()];
      } else {
        assert Shapes() == shapes;
      }
    }

    /** Among all vectors only the one pushed to changes. */
    method Push(i: nat, x: T) returns (out: PushOutcome)
      requires Valid() && i < |vecs|
      modifies store, vecs[i]
      ensures out.Overrun? <==>
              && old(vecs[i].len == vecs[i].capacity) && |old(store.blocks)| < store.limit
              && Overruns(old(vecs[i].capacity), vecs[i].elementSize)
      ensures out.Refused? <==>
              && old(vecs[i].len == vecs[i].capacity)
              && (|old(store.blocks)| >= store.limit || CutToNothing(old(vecs[i].capacity), vecs[i].elementSize))
      ensures !out.Overrun? ==>
          Valid() && Views() == if out.Done? then Many(old(Views()), PushTo(i, x)) else old(Views())
    {
      ghost var shapes := Shapes();
      var v := vecs[i];
      Distinct(shapes, i);
      out := v.Push(store, x);
      if !out.Overrun? {
        assert Shapes() == shapes[i := v.Self()];
        SoundMove(shapes, i, v.Self(), old(store.blocks), store.blocks);
      }
    }

    lemma {:induction false} Distinct(shapes: seq<Shape>, i: nat)
      requires Valid() && shapes == Shapes() && i < |vecs|
      ensures forall j | 0 <= j < |vecs| && j != i :: vecs[j] != vecs[i]
    {
      forall j | 0 <= j < |vecs| && j != i ensures vecs[j] != vecs[i] {
        assert shapes[j].id != shapes[i].id;
      }
    }

    method Pop(i: nat) returns (x: Option<T>)
      requires Valid() && i < |vecs|
      modifies vecs[i]
      ensures x == ManyReturned(old(Views()), PopFrom(i))
      ensures Valid() && Views() == Many(old(Views()), PopFrom(i))
    {
      ghost var shapes := Shapes();
      var v := vecs[i];
      Distinct(shapes, i);
      x := v.Pop(store);
      assert Shapes() == shapes[i := v.Self()];
      SoundMove(shapes, i, v.Self(), store.blocks, store.blocks);
    }

    /** A clone has the same elements, in a block of its own. */
    method Clone(i: nat) returns (ok: bool)
      requires Valid() && i < |vecs|
      modifies this, store
      ensures Valid() && Views() == if ok then Many(old(Views()), CloneOf(i)) else old(Views())
    {
      ghost var shapes := Shapes();
      var v := vecs[i].Clone(store);
      ok := v.Some?;
      if ok {
        SoundAdd(shapes, v.value.Self(), old(store.blocks), store.blocks);
        vecs := vecs + [v.value];
        assert Shapes() == shapes + [v.value.Self()];
      } else {
        assert Shapes() == shapes;
      }
    }

    /** A dropped vector takes its block and its elements with it, and nothing else. */
    method Drop(i: nat)
      requires Valid() && i < |vecs|
      modifies this, store
      ensures Valid() && Views() == Many(old(Views()), DropOf(i))
      ensures store.destroyed == old(store.destroyed) + old(Views())[i].items
    {
      ghost var shapes := Shapes();
      vecs[i].Drop(store);
      SoundDrop(shapes, i, old(store.blocks));
      vecs := Without(vecs, i);
      assert Shapes() == Without(shapes, i);
    }
  }

  /** A vector that changes its block leaves the other blocks, and their number, alone. */
  lemma {:induction false} Moved<T>(before: map<nat, Block<T>>, after: map<nat, Block<T>>, oldId: nat, newId: nat)
    requires oldId in before && newId in after && after - {newId} == before - {oldId}
    requires newId == oldId || newId !in before
    ensures |after| == |before|
    ensures forall b | b in before && b != oldId :: b in after && b != newId && after[b] == before[b]
  {
    assert after.Keys - {newId} == before.Keys - {oldId} by {
      assert (after - {newId}).Keys == (before - {oldId}).Keys;
    }
    assert |after.Keys - {newId}| == |after.Keys| - 1 && |before.Keys - {oldId}| == |before.Keys| - 1;
    assert |after| == |after.Keys| && |before| == |before.Keys|;
    assert forall b | b in before && b != oldId :: b in after - {newId};
  }

  lemma {:induction false} OneMore<T>(before: map<nat, Block<T>>, after: map<nat, Block<T>>, id: nat)
    requires id in after && id !in before && after - {id} == before
    ensures |after| == |before| + 1
    ensures forall b | b in before :: b in after && after[b] == before[b]
  {
    assert after.Keys == before.Keys + {id};
    assert |after| == |after.Keys| && |before| == |before.Keys|;
    assert forall b | b in before :: b in after - {id};
  }

  lemma {:induction false} NoBytes(elementSize: nat)
    ensures 0 * elementSize < U32
  {
  }
}
