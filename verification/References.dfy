/** Cross-process reference counting (src/sync.rs, src/context.rs, and the worker slots of
    src/pal/posix/server.rs): every owner of a reference, in any number of processes, together
    with the block table. Each operation is one step. */
module References {
  import opened Wrappers
  import opened Blocks

  /** A strong or weak handle, or a bare id that carries one strong reference. */
  datatype Ref = Strong(data: BlockId, rcs: BlockId) | Weak(data: BlockId, rcs: BlockId) | RawId(rcs: BlockId)

  /** Who owns the reference: a handle of a process, an id returned by `alloc_id` that nobody has
      consumed, or the state slot of a worker. */
  datatype Name = Handle(process: nat, n: nat) | Published(n: nat) | Slot(worker: nat)

  /** What has happened to the two blocks of one shared object. */
  datatype Frees = Frees(data: nat, rcs: nat)

  /** `others` are live blocks that belong to no counted object; `serial` numbers the objects whose
      counts are live, and `frees` counts per object how often its blocks were freed. */
  datatype World = World(st: State, refs: map<Name, Ref>, workers: set<nat>, others: set<BlockId>,
                         serial: map<BlockId, nat>, frees: map<nat, Frees>)

  ghost function StrongOn(w: World, r: BlockId): set<Name> {
    set n | n in w.refs && !w.refs[n].Weak? && w.refs[n].rcs == r
  }

  ghost function WeakOn(w: World, r: BlockId): set<Name> {
    set n | n in w.refs && w.refs[n].Weak? && w.refs[n].rcs == r
  }

  // ---------- The invariant ----------

  /** Stored counts equal the number of owners, and no counted object is without an owner. */
  ghost predicate Counted(w: World, r: BlockId)
    requires IsRcs(w.st, r)
  {
    && w.st.live[r].count == |StrongOn(w, r)|
    && w.st.live[r].weaks == |WeakOn(w, r)|
    && (w.st.live[r].count > 0 || w.st.live[r].weaks > 0)
  }

  /** While a strong reference is left the data block is live and belongs to this object alone. */
  ghost predicate DataHeld(w: World, r: BlockId)
    requires IsRcs(w.st, r)
  {
    var d := w.st.live[r].data;
    && d != r
    && (w.st.live[r].count > 0 ==>
      && d in w.st.live && w.st.live[d].Plain? && d !in w.others
      && forall o | IsRcs(w.st, o) && o != r && w.st.live[o].count > 0 :: w.st.live[o].data != d)
  }

  ghost predicate RefOk(w: World, n: Name)
    requires n in w.refs
  {
    var ref := w.refs[n];
    && IsRcs(w.st, ref.rcs)
    && (ref.RawId? <==> !n.Handle?)
    && (!ref.RawId? ==> ref.data == w.st.live[ref.rcs].data)
    && (n.Slot? ==> n.worker in w.workers)
  }

  /** Every live block without counts is somebody's: data of an object with a strong reference, or other. */
  ghost predicate Accounted(w: World, b: BlockId)
    requires b in w.st.live
  {
    w.st.live[b].Plain? ==> b in w.others || exists r :: DataOf(w, r, b)
  }

  ghost predicate DataOf(w: World, r: BlockId, b: BlockId) {
    IsRcs(w.st, r) && w.st.live[r].count > 0 && w.st.live[r].data == b
  }

  /** How often the blocks of object s have been freed: exactly once when they are gone, else never. */
  ghost predicate FreedOnce(w: World, r: BlockId)
    requires IsRcs(w.st, r) && r in w.serial && w.serial[r] in w.frees
  {
    w.frees[w.serial[r]] == Frees(if w.st.live[r].count == 0 then 1 else 0, 0)
  }

  ghost predicate Ledger(w: World) {
    && (forall r :: r in w.serial <==> IsRcs(w.st, r))
    && (forall r | r in w.serial :: w.serial[r] in w.frees && FreedOnce(w, r))
    && (forall q, r | q in w.serial && r in w.serial && w.serial[q] == w.serial[r] :: q == r)
    && (forall s | s in w.frees && !Current(w, s) :: w.frees[s] == Frees(1, 1))
  }

  ghost predicate Current(w: World, s: nat) {
    exists r :: IsSerial(w, r, s)
  }

  ghost predicate IsSerial(w: World, r: BlockId, s: nat) {
    r in w.serial && w.serial[r] == s
  }

  ghost predicate AllCounted(w: World) {
    forall r | IsRcs(w.st, r) :: Counted(w, r)
  }

  ghost predicate AllHeld(w: World) {
    forall r | IsRcs(w.st, r) :: DataHeld(w, r)
  }

  ghost predicate RefsOk(w: World) {
    forall n | n in w.refs :: RefOk(w, n)
  }

  ghost predicate AllAccounted(w: World) {
    && (forall b | b in w.others :: b in w.st.live && w.st.live[b].Plain?)
    && (forall b | b in w.st.live :: Accounted(w, b))
  }

  ghost predicate Inv(w: World) {
    Conserved(w.st) && AllCounted(w) && AllHeld(w) && RefsOk(w) && AllAccounted(w) && Ledger(w)
  }

  /** No object ever has 2^32 owners of one kind. */
  ghost predicate Bounded(w: World) {
    forall r | IsRcs(w.st, r) :: |StrongOn(w, r)| < 0x1_0000_0000 && |WeakOn(w, r)| < 0x1_0000_0000
  }

  // ---------- Elementary changes ----------

  /** A new strong owner of r. */
  function Acquire(w: World, n: Name, ref: Ref): World
    requires IsRcs(w.st, ref.rcs)
  {
    w.(st := WithCount(w.st, ref.rcs, FetchAdd(w.st.live[ref.rcs].count)), refs := w.refs[n := ref])
  }

  function AcquireWeak(w: World, n: Name, ref: Ref): World
    requires IsRcs(w.st, ref.rcs)
  {
    w.(st := WithWeaks(w.st, ref.rcs, FetchAdd(w.st.live[ref.rcs].weaks)), refs := w.refs[n := ref])
  }

  /** What a change of the block table pushed on the free list. */
  function Pushed(st: State, st': State): multiset<BlockId> {
    if |st.free| <= |st'.free| then multiset(st'.free[|st.free|..]) else multiset{}
  }

  predicate Booked(w: World, r: BlockId) {
    IsRcs(w.st, r) && r in w.serial && w.serial[r] in w.frees
  }

  /** An owner of r is gone and the block table has become st': enter the blocks that came back. */
  function Drop(w: World, n: Name, r: BlockId, st': State): World
    requires Booked(w, r)
  {
    var s := w.serial[r];
    var back := Pushed(w.st, st');
    w.(st := st', refs := w.refs - {n},
       serial := if r in st'.live then w.serial else w.serial - {r},
       frees := w.frees[s := Frees(w.frees[s].data + back[w.st.live[r].data], w.frees[s].rcs + back[r])])
  }

  /** `Arc::drop`: decrement_strong_count by the client that owns the handle. */
  function DropStrong(w: World, n: Name): World
    requires n in w.refs && w.refs[n].Strong? && Booked(w, w.refs[n].rcs)
  {
    var ref := w.refs[n];
    Drop(w, n, ref.rcs, ClientRelease(w.st, ref.data, ref.rcs))
  }

  /** The server's decrement_rc on the id held by a worker slot. */
  function DropSlot(w: World, n: Name): World
    requires n in w.refs && w.refs[n].RawId? && Booked(w, w.refs[n].rcs)
  {
    Drop(w, n, w.refs[n].rcs, ServerRelease(w.st, w.refs[n].rcs))
  }

  /** `Weak::drop`: decrement_weak_count. */
  function DropWeak(w: World, n: Name): World
    requires n in w.refs && w.refs[n].Weak? && Booked(w, w.refs[n].rcs)
  {
    Drop(w, n, w.refs[n].rcs, ReleaseWeak(w.st, w.refs[n].rcs))
  }

  /** The reference changes owner; no count is touched. */
  function Move(w: World, from: Name, to: Name): World
    requires from in w.refs
  {
    w.(refs := (w.refs - {from})[to := w.refs[from]])
  }

  /** `Arc::new`. If only the second allocation fails, the data block stays allocated and nobody
      knows it. */
  function NewArc(w: World, n: Name, s: nat, fault1: bool, fault2: bool): World {
    var (out, st') := NewObject(w.st, fault1, fault2);
    match out
    case NoBlocks => w.(st := st')
    case DataOnly(d) => w.(st := st', others := w.others + {d})
    case Both(d, r) =>
      w.(st := st', refs := w.refs[n := Strong(d, r)], serial := w.serial[r := s], frees := w.frees[s := Frees(0, 0)])
  }

  // ---------- Operations ----------

  /** n, m are handles, p is an id in flight, k a worker; new names and the object number s are fresh. */
  datatype Op =
    | New(n: Name, s: nat, fault1: bool, fault2: bool)
    | Clone(n: Name, m: Name)
    | CloneFrom(n: Name, source: Name)
    | Downgrade(n: Name, m: Name)
    | Upgrade(n: Name, m: Name)
    | DropArc(n: Name)
    | DropWeakRef(n: Name)
    | AllocId(n: Name, p: Name)
    | FromId(p: Name, m: Name)
    | SetState(k: nat, p: Name)
    | GetState(k: nat, m: Name)
    | Register(k: nat, lost: Name)
    | Disconnect(k: nat)
    | AllocOther(fault: bool)
    | FreeOther(b: BlockId)

  predicate HasStrong(w: World, n: Name) {
    n in w.refs && w.refs[n].Strong? && Booked(w, w.refs[n].rcs)
  }

  predicate HasWeak(w: World, n: Name) {
    n in w.refs && w.refs[n].Weak? && Booked(w, w.refs[n].rcs)
  }

  predicate HasId(w: World, n: Name) {
    n in w.refs && w.refs[n].RawId? && Booked(w, w.refs[n].rcs)
  }

  predicate FreshHandle(w: World, m: Name) {
    m.Handle? && m !in w.refs
  }

  /** A handle made from an id: the data block is the one the counts speak of. */
  function Resolve(w: World, r: BlockId): Ref
    requires IsRcs(w.st, r)
  {
    Strong(w.st.live[r].data, r)
  }

  predicate Next(w: World, op: Op, w': World) {
    match op
    case New(n, s, fault1, fault2) =>
      FreshHandle(w, n) && s !in w.frees && w' == NewArc(w, n, s, fault1, fault2)
    case Clone(n, m) =>
      HasStrong(w, n) && FreshHandle(w, m) && w' == Acquire(w, m, w.refs[n])
    case CloneFrom(n, source) =>
      && HasStrong(w, n) && HasStrong(w, source) && n != source
      && var w1 := DropStrong(w, n);
         IsRcs(w1.st, w.refs[source].rcs) && w' == Acquire(w1, n, w.refs[source])
    case Downgrade(n, m) =>
      && HasStrong(w, n) && FreshHandle(w, m)
      && w' == AcquireWeak(w, m, Weak(w.refs[n].data, w.refs[n].rcs))
    case Upgrade(n, m) =>
      && HasWeak(w, n) && FreshHandle(w, m)
      && var ref := w.refs[n];
         w' == if w.st.live[ref.rcs].count != 0 then Acquire(w, m, Strong(ref.data, ref.rcs)) else w
    case DropArc(n) =>
      HasStrong(w, n) && w' == DropStrong(w, n)
    case DropWeakRef(n) =>
      HasWeak(w, n) && w' == DropWeak(w, n)
    case AllocId(n, p) =>
      HasStrong(w, n) && p.Published? && p !in w.refs && w' == Acquire(w, p, RawId(w.refs[n].rcs))
    case FromId(p, m) =>
      HasId(w, p) && p.Published? && FreshHandle(w, m) && w' == Acquire(w, m, Resolve(w, w.refs[p].rcs))
    case SetState(k, p) =>
      // an id sent for a worker the server does not know stays unconsumed
      && p.Published? && HasId(w, p)
      && if k !in w.workers then w' == w
         else if Slot(k) !in w.refs then w' == Move(w, p, Slot(k))
         else HasId(w, Slot(k)) && w' == Move(DropSlot(w, Slot(k)), p, Slot(k))
    case GetState(k, m) =>
      FreshHandle(w, m) &&
      if Slot(k) !in w.refs then w' == w
      else HasId(w, Slot(k)) && w' == Acquire(w, m, Resolve(w, w.refs[Slot(k)].rcs))
    case Register(k, lost) =>
      // the new entry replaces the old one without a decrement: the id it held is never consumed
      && lost.Published? && lost !in w.refs
      && var w1 := if Slot(k) in w.refs then Move(w, Slot(k), lost) else w;
         w' == w1.(workers := w.workers + {k})
    case Disconnect(k) =>
      if Slot(k) !in w.refs then w' == w.(workers := w.workers - {k})
      else HasId(w, Slot(k)) && w' == DropSlot(w, Slot(k)).(workers := w.workers - {k})
    case AllocOther(fault) =>
      var (out, st') := Alloc(w.st, fault);
      w' == w.(st := st', others := if out.Granted? then w.others + {out.block} else w.others)
    case FreeOther(b) =>
      b in w.others && w' == w.(st := Free(w.st, b), others := w.others - {b})
  }

  // ---------- What the elementary changes keep ----------

  /** w' differs from w in the owners and in the counts of r, and no count of strong references
      has crossed zero. */
  ghost predicate Recounted(w: World, r: BlockId, w': World) {
    && IsRcs(w.st, r) && IsRcs(w'.st, r)
    && w'.st.live[r].data == w.st.live[r].data
    && (w'.st.live[r].count > 0 <==> w.st.live[r].count > 0)
    && w' == w.(st := w.st.(live := w.st.live[r := w'.st.live[r]]), refs := w'.refs)
  }

  lemma {:induction false} RecountConserved(w: World, r: BlockId, w': World)
    requires Conserved(w.st) && Recounted(w, r, w')
    ensures Conserved(w'.st)
  {
    assert w'.st.live.Keys == w.st.live.Keys;
  }

  lemma {:induction false} RecountHeld(w: World, r: BlockId, w': World)
    requires AllHeld(w) && Recounted(w, r, w')
    ensures AllHeld(w')
  {
    forall o | IsRcs(w'.st, o) ensures DataHeld(w', o) {
      assert IsRcs(w.st, o) && DataHeld(w, o);
    }
  }

  lemma {:induction false} RecountAccounted(w: World, r: BlockId, w': World)
    requires AllAccounted(w) && Recounted(w, r, w')
    ensures AllAccounted(w')
  {
    forall x | x in w'.st.live ensures Accounted(w', x) {
      assert Accounted(w, x);
      if w.st.live[x].Plain? && x !in w.others {
        var q :| DataOf(w, q, x);
        assert DataOf(w', q, x);
      }
    }
  }

  lemma {:induction false} RecountLedger(w: World, r: BlockId, w': World)
    requires Ledger(w) && Recounted(w, r, w')
    ensures Ledger(w')
  {
    forall q | q in w'.serial ensures w'.serial[q] in w'.frees && FreedOnce(w', q) {
      assert FreedOnce(w, q);
    }
    SameSerials(w, w');
  }

  lemma {:induction false} SameSerials(w: World, w': World)
    requires w'.serial == w.serial && w'.frees == w.frees
    requires forall s | s in w.frees && !Current(w, s) :: w.frees[s] == Frees(1, 1)
    ensures forall s | s in w'.frees && !Current(w', s) :: w'.frees[s] == Frees(1, 1)
  {
    forall s | s in w'.frees && !Current(w', s) ensures w'.frees[s] == Frees(1, 1) {
      assert forall q :: IsSerial(w, q, s) ==> IsSerial(w', q, s);
    }
  }

  lemma {:induction false} RecountKeeps(w: World, r: BlockId, w': World)
    requires Inv(w) && Recounted(w, r, w') && AllCounted(w') && RefsOk(w')
    ensures Inv(w')
  {
    RecountConserved(w, r, w');
    RecountHeld(w, r, w');
    RecountAccounted(w, r, w');
    RecountLedger(w, r, w');
  }

  /** A new name counts for its object and its kind, and for nothing else. */
  lemma {:induction false} MoreOwners(w: World, n: Name, ref: Ref, w': World, o: BlockId)
    requires n !in w.refs && w'.refs == w.refs[n := ref]
    ensures StrongOn(w', o) == if o == ref.rcs && !ref.Weak? then StrongOn(w, o) + {n} else StrongOn(w, o)
    ensures WeakOn(w', o) == if o == ref.rcs && ref.Weak? then WeakOn(w, o) + {n} else WeakOn(w, o)
    ensures n !in StrongOn(w, o) && n !in WeakOn(w, o)
  {
  }

  lemma {:induction false} MoreRefs(w: World, n: Name, ref: Ref, w': World)
    requires RefsOk(w) && n !in w.refs && Recounted(w, ref.rcs, w') && w'.refs == w.refs[n := ref]
    requires RefOk(w.(refs := w.refs[n := ref]), n)
    ensures RefsOk(w')
  {
    forall m | m in w'.refs ensures RefOk(w', m) {
      if m != n {
        assert RefOk(w, m);
      }
    }
  }

  lemma {:induction false} AcquireCounts(w: World, n: Name, ref: Ref, w': World)
    requires AllCounted(w) && n !in w.refs && IsRcs(w.st, ref.rcs) && Bounded(w')
    requires w' == if ref.Weak? then AcquireWeak(w, n, ref) else Acquire(w, n, ref)
    ensures AllCounted(w')
    ensures IsRcs(w'.st, ref.rcs)
    ensures w'.st.live[ref.rcs].count == w.st.live[ref.rcs].count + if ref.Weak? then 0 else 1
    ensures w'.st.live[ref.rcs].weaks == w.st.live[ref.rcs].weaks + if ref.Weak? then 1 else 0
  {
    var r := ref.rcs;
    assert Counted(w, r);
    MoreOwners(w, n, ref, w', r);
    assert IsRcs(w'.st, r);
    assert |StrongOn(w', r)| < 0x1_0000_0000 && |WeakOn(w', r)| < 0x1_0000_0000;
    forall o | IsRcs(w'.st, o) && o != r ensures Counted(w', o) {
      assert Counted(w, o);
      MoreOwners(w, n, ref, w', o);
    }
  }

  /** A new owner keeps the invariant: handles can only come from a count that is positive. */
  lemma {:induction false} AcquireKeeps(w: World, n: Name, ref: Ref, w': World)
    requires Inv(w) && n !in w.refs && IsRcs(w.st, ref.rcs) && Bounded(w')
    requires w' == if ref.Weak? then AcquireWeak(w, n, ref) else Acquire(w, n, ref)
    requires !ref.Weak? ==> w.st.live[ref.rcs].count > 0
    requires RefOk(w.(refs := w.refs[n := ref]), n)
    ensures Inv(w')
  {
    AcquireCounts(w, n, ref, w');
    MoreRefs(w, n, ref, w');
    RecountKeeps(w, ref.rcs, w');
  }

  /** A strong owner means a positive count, and so a live data block. */
  lemma {:induction false} OwnerHolds(w: World, n: Name)
    requires Inv(w) && n in w.refs && !w.refs[n].Weak?
    ensures Booked(w, w.refs[n].rcs) && HoldsData(w.st, w.refs[n].rcs)
    ensures n in StrongOn(w, w.refs[n].rcs)
  {
    var r := w.refs[n].rcs;
    assert RefOk(w, n);
    assert n in StrongOn(w, r);
    assert Counted(w, r) && DataHeld(w, r);
    assert FreedOnce(w, r);
  }

  lemma {:induction false} OnlyOne<T>(s: set<T>, x: T)
    requires x in s && |s| == 1
    ensures s == {x}
  {
    assert |s - {x}| == 0;
  }

  lemma {:induction false} FewerOwners(w: World, n: Name, w': World, o: BlockId)
    requires n in w.refs && w'.refs == w.refs - {n}
    ensures StrongOn(w', o) == StrongOn(w, o) - {n}
    ensures WeakOn(w', o) == WeakOn(w, o) - {n}
  {
  }

  lemma {:induction false} ReleaseConserves(st: State, r: BlockId)
    requires Conserved(st) && HoldsData(st, r)
    ensures Conserved(Release(st, r))
  {
    ReleasesRefine(st, r);
    var b := st.live[r];
    var st1 := WithCount(st, r, FetchSub(b.count));
    assert st1.live.Keys == st.live.Keys;
    if b.count <= 1 {
      FreeConserves(st1, b.data);
      FreeConserves(Free(st1, b.data), r);
    }
  }

  /** A strong reference that is not the last one. */
  lemma {:induction false} EarlierRelease(w: World, n: Name, r: BlockId, w': World)
    requires Inv(w) && n in w.refs && !w.refs[n].Weak? && r == w.refs[n].rcs
    requires Booked(w, r) && w.st.live[r].count > 1
    requires w' == Drop(w, n, r, Release(w.st, r))
    ensures Inv(w')
  {
    EarlierEffect(w, n, r, w');
    assert Counted(w, r);
    FewerCounted(w, n, r, w');
    FewerRefs(w, n, r, w');
    RecountKeeps(w, r, w');
  }

  lemma {:induction false} EarlierEffect(w: World, n: Name, r: BlockId, w': World)
    requires Booked(w, r) && w.st.live[r].count > 1
    requires w' == Drop(w, n, r, Release(w.st, r))
    ensures Recounted(w, r, w') && w'.refs == w.refs - {n}
    ensures w'.st.live[r].count == w.st.live[r].count - 1 && w'.st.live[r].weaks == w.st.live[r].weaks
  {
    assert w'.st == WithCount(w.st, r, FetchSub(w.st.live[r].count));
    assert w'.frees == w.frees;
  }

  lemma {:induction false} FewerRefs(w: World, n: Name, r: BlockId, w': World)
    requires RefsOk(w) && Recounted(w, r, w') && w'.refs == w.refs - {n}
    ensures RefsOk(w')
  {
    forall m | m in w'.refs ensures RefOk(w', m) {
      assert RefOk(w, m);
    }
  }

  lemma {:induction false} FewerCounted(w: World, n: Name, r: BlockId, w': World)
    requires AllCounted(w) && n in w.refs && r == w.refs[n].rcs && IsRcs(w.st, r) && w'.refs == w.refs - {n}
    requires forall o | IsRcs(w'.st, o) && o != r :: IsRcs(w.st, o) && w'.st.live[o] == w.st.live[o]
    requires IsRcs(w'.st, r) ==>
      && w'.st.live[r].count == w.st.live[r].count - (if w.refs[n].Weak? then 0 else 1)
      && w'.st.live[r].weaks == w.st.live[r].weaks - (if w.refs[n].Weak? then 1 else 0)
      && (w'.st.live[r].count > 0 || w'.st.live[r].weaks > 0)
    ensures AllCounted(w')
  {
    forall o | IsRcs(w'.st, o) ensures Counted(w', o) {
      assert Counted(w, o);
      FewerOwners(w, n, w', o);
      assert n in if w.refs[n].Weak? then WeakOn(w, r) else StrongOn(w, r);
    }
  }

  /** What is live after the last strong reference to r has gone: not the data block d, and the
      counts only if weak references are left. */
  ghost predicate LastEffect(w: World, r: BlockId, d: BlockId, w': World) {
    && IsRcs(w.st, r) && d in w.st.live && w.st.live[d].Plain? && d !in w.others
    && (forall o | IsRcs(w.st, o) && o != r && w.st.live[o].count > 0 :: w.st.live[o].data != d)
    && (forall b :: b in w'.st.live <==> b in w.st.live && b != d && (b == r ==> w.st.live[r].weaks > 0))
    && (forall b | b in w'.st.live && b != r :: w'.st.live[b] == w.st.live[b])
    && (r in w'.st.live ==> w'.st.live[r] == w.st.live[r].(count := 0))
    && w'.others == w.others
  }

  lemma {:induction false} LastReleaseEffect(w: World, n: Name, r: BlockId, w': World)
    requires Booked(w, r) && w.st.live[r].count == 1 && DataHeld(w, r)
    requires w' == Drop(w, n, r, Release(w.st, r))
    ensures LastEffect(w, r, w.st.live[r].data, w')
  {
  }

  lemma {:induction false} LastReleasePushed(w: World, n: Name, r: BlockId, w': World)
    requires Booked(w, r) && w.st.live[r].count == 1 && w.st.live[r].data != r
    requires w' == Drop(w, n, r, Release(w.st, r))
    ensures
      var s := w.serial[r];
      && w'.frees == w.frees[s := Frees(w.frees[s].data + 1, w.frees[s].rcs + if w.st.live[r].weaks > 0 then 0 else 1)]
      && w'.serial == if w.st.live[r].weaks > 0 then w.serial else w.serial - {r}
  {
    var dead := LastStrongFrees(w.st.live[r], r);
    assert w'.st.free[|w.st.free|..] == dead;
  }

  lemma {:induction false} LastReleaseRefs(w: World, n: Name, r: BlockId, d: BlockId, w': World)
    requires RefsOk(w) && AllCounted(w) && n in w.refs && !w.refs[n].Weak? && r == w.refs[n].rcs
    requires IsRcs(w.st, r) && w.st.live[r].count == 1
    requires LastEffect(w, r, d, w') && w'.refs == w.refs - {n} && w'.workers == w.workers
    ensures RefsOk(w') && AllCounted(w')
  {
    assert Counted(w, r);
    assert n in StrongOn(w, r);
    OnlyOne(StrongOn(w, r), n);
    forall m | m in w'.refs ensures RefOk(w', m) {
      assert RefOk(w, m);
      assert w.refs[m].rcs == r ==> m in StrongOn(w, r) || m in WeakOn(w, r);
    }
    FewerCounted(w, n, r, w');
  }

  lemma {:induction false} LastReleaseHeld(w: World, r: BlockId, d: BlockId, w': World)
    requires AllHeld(w) && LastEffect(w, r, d, w')
    ensures AllHeld(w')
  {
    forall o | IsRcs(w'.st, o) ensures DataHeld(w', o) {
      assert IsRcs(w.st, o) && DataHeld(w, o);
    }
  }

  lemma {:induction false} LastReleaseAccounted(w: World, r: BlockId, d: BlockId, w': World)
    requires AllAccounted(w) && LastEffect(w, r, d, w')
    requires w.st.live[r].data == d
    ensures AllAccounted(w')
  {
    forall x | x in w'.st.live ensures Accounted(w', x) {
      assert x in w.st.live && Accounted(w, x);
      if w'.st.live[x].Plain? && x !in w.others {
        var q :| DataOf(w, q, x);
        assert q != r;
        assert DataOf(w', q, x);
      }
    }
  }

  lemma {:induction false} LastReleaseLedger(w: World, n: Name, r: BlockId, w': World)
    requires Ledger(w) && Booked(w, r) && w.st.live[r].count == 1 && w.st.live[r].data != r
    requires w' == Drop(w, n, r, Release(w.st, r)) && LastEffect(w, r, w.st.live[r].data, w')
    ensures Ledger(w')
  {
    assert FreedOnce(w, r);
    LastReleasePushed(w, n, r, w');
    LedgerStep(w, r, w.serial[r], w');
  }

  /** Entries for one object r, which is struck off when its counts are gone. */
  lemma {:induction false} LedgerStep(w: World, r: BlockId, s: nat, w': World)
    requires Ledger(w) && IsSerial(w, r, s) && s in w'.frees
    requires w'.frees == w.frees[s := w'.frees[s]]
    requires w'.serial == if IsRcs(w'.st, r) then w.serial else w.serial - {r}
    requires w'.frees[s] == if !IsRcs(w'.st, r) then Frees(1, 1)
                            else Frees(if w'.st.live[r].count == 0 then 1 else 0, 0)
    requires forall o | o != r :: IsRcs(w'.st, o) <==> IsRcs(w.st, o)
    requires forall o | o != r && IsRcs(w.st, o) :: o in w'.st.live && w'.st.live[o] == w.st.live[o]
    ensures Ledger(w')
  {
    forall q | q in w'.serial ensures w'.serial[q] in w'.frees && FreedOnce(w', q) {
      assert q in w.serial && FreedOnce(w, q);
    }
    SerialsOf(w, r, s, w');
  }

  /** The books of object s were changed, and r was struck off only with both blocks freed. */
  lemma {:induction false} SerialsOf(w: World, r: BlockId, s: nat, w': World)
    requires IsSerial(w, r, s) && s in w'.frees
    requires w'.serial == w.serial || (w'.serial == w.serial - {r} && w'.frees[s] == Frees(1, 1))
    requires w'.frees == w.frees[s := w'.frees[s]]
    requires forall x | x in w.frees && !Current(w, x) :: w.frees[x] == Frees(1, 1)
    ensures forall x | x in w'.frees && !Current(w', x) :: w'.frees[x] == Frees(1, 1)
  {
    forall x | x in w'.frees && !Current(w', x) ensures w'.frees[x] == Frees(1, 1) {
      assert forall q :: IsSerial(w, q, x) ==> IsSerial(w', q, x) || q == r;
      if x == s {
        assert !IsSerial(w', r, s);
      }
    }
  }

  /** Giving up a strong reference keeps the invariant. */
  lemma {:induction false} ReleaseKeeps(w: World, n: Name, r: BlockId, w': World)
    requires Inv(w) && n in w.refs && !w.refs[n].Weak? && r == w.refs[n].rcs && Booked(w, r)
    requires w' == Drop(w, n, r, Release(w.st, r))
    ensures Inv(w')
  {
    OwnerHolds(w, n);
    if w.st.live[r].count > 1 {
      EarlierRelease(w, n, r, w');
    } else {
      var d := w.st.live[r].data;
      ReleaseConserves(w.st, r);
      assert DataHeld(w, r);
      LastReleaseEffect(w, n, r, w');
      LastReleaseRefs(w, n, r, d, w');
      LastReleaseHeld(w, r, d, w');
      LastReleaseAccounted(w, r, d, w');
      LastReleaseLedger(w, n, r, w');
    }
  }

  // ---------- Weak references ----------

  /** A weak reference that leaves the counts in place. */
  lemma {:induction false} EarlierWeak(w: World, n: Name, r: BlockId, w': World)
    requires Inv(w) && n in w.refs && w.refs[n].Weak? && r == w.refs[n].rcs && Booked(w, r)
    requires w.st.live[r].weaks > 1 || w.st.live[r].count > 0
    requires w' == Drop(w, n, r, ReleaseWeak(w.st, r))
    ensures Inv(w')
  {
    assert Counted(w, r) && n in WeakOn(w, r);
    EarlierWeakEffect(w, n, r, w');
    FewerCounted(w, n, r, w');
    FewerRefs(w, n, r, w');
    RecountKeeps(w, r, w');
  }

  lemma {:induction false} EarlierWeakEffect(w: World, n: Name, r: BlockId, w': World)
    requires Booked(w, r) && w.st.live[r].weaks > 0
    requires w.st.live[r].weaks > 1 || w.st.live[r].count > 0
    requires w' == Drop(w, n, r, ReleaseWeak(w.st, r))
    ensures Recounted(w, r, w') && w'.refs == w.refs - {n}
    ensures w'.st.live[r].count == w.st.live[r].count && w'.st.live[r].weaks == w.st.live[r].weaks - 1
  {
    assert w'.st == WithWeaks(w.st, r, FetchSub(w.st.live[r].weaks));
    assert w'.frees == w.frees;
  }

  /** The last weak reference of an object without strong ones takes the counts along. */
  lemma {:induction false} LastWeak(w: World, n: Name, r: BlockId, w': World)
    requires Inv(w) && n in w.refs && w.refs[n].Weak? && r == w.refs[n].rcs && Booked(w, r)
    requires w.st.live[r].weaks <= 1 && w.st.live[r].count == 0
    requires w' == Drop(w, n, r, ReleaseWeak(w.st, r))
    ensures Inv(w')
  {
    assert WeakOn(w, r) == {n} by {
      assert Counted(w, r) && n in WeakOn(w, r);
      OnlyOne(WeakOn(w, r), n);
    }
    assert DataHeld(w, r);
    LastWeakConserves(w.st, r);
    LastWeakGone(w, n, r, w');
    LastWeakRefs(w, n, r, w');
    LastWeakHeld(w, r, w');
    LastWeakLedger(w, n, r, w');
  }

  lemma {:induction false} LastWeakGone(w: World, n: Name, r: BlockId, w': World)
    requires Booked(w, r) && w.st.live[r].weaks <= 1 && w.st.live[r].count == 0
    requires w' == Drop(w, n, r, ReleaseWeak(w.st, r))
    ensures CountsGone(w, r, w') && w'.refs == w.refs - {n} && w'.workers == w.workers
  {
  }

  lemma {:induction false} LastWeakConserves(st: State, r: BlockId)
    requires Conserved(st) && IsRcs(st, r) && st.live[r].weaks <= 1 && st.live[r].count == 0
    ensures Conserved(ReleaseWeak(st, r))
  {
    var st1 := WithWeaks(st, r, FetchSub(st.live[r].weaks));
    assert st1.live.Keys == st.live.Keys;
    FreeConserves(st1, r);
  }

  ghost predicate CountsGone(w: World, r: BlockId, w': World) {
    && IsRcs(w.st, r) && w.st.live[r].count == 0
    && w'.st.live == w.st.live - {r} && w'.others == w.others
  }

  lemma {:induction false} LastWeakRefs(w: World, n: Name, r: BlockId, w': World)
    requires RefsOk(w) && AllCounted(w) && n in w.refs && w.refs[n].Weak? && r == w.refs[n].rcs
    requires CountsGone(w, r, w') && WeakOn(w, r) == {n}
    requires w'.refs == w.refs - {n} && w'.workers == w.workers
    ensures RefsOk(w') && AllCounted(w')
  {
    assert Counted(w, r);
    forall m | m in w'.refs ensures RefOk(w', m) {
      assert RefOk(w, m);
      assert w.refs[m].rcs == r ==> m in StrongOn(w, r) || m in WeakOn(w, r);
    }
    FewerCounted(w, n, r, w');
  }

  lemma {:induction false} LastWeakHeld(w: World, r: BlockId, w': World)
    requires AllHeld(w) && AllAccounted(w) && CountsGone(w, r, w')
    ensures AllHeld(w') && AllAccounted(w')
  {
    forall o | IsRcs(w'.st, o) ensures DataHeld(w', o) {
      assert IsRcs(w.st, o) && DataHeld(w, o);
    }
    forall x | x in w'.st.live ensures Accounted(w', x) {
      assert Accounted(w, x);
      if w'.st.live[x].Plain? && x !in w.others {
        var q :| DataOf(w, q, x);
        assert DataOf(w', q, x);
      }
    }
  }

  lemma {:induction false} LastWeakLedger(w: World, n: Name, r: BlockId, w': World)
    requires Ledger(w) && Booked(w, r) && CountsGone(w, r, w')
    requires w.st.live[r].data != r && w.st.live[r].weaks <= 1
    requires w' == Drop(w, n, r, ReleaseWeak(w.st, r))
    ensures Ledger(w')
  {
    assert FreedOnce(w, r);
    assert w'.st.free[|w.st.free|..] == [r];
    LedgerStep(w, r, w.serial[r], w');
  }

  // ---------- Other changes ----------

  lemma {:induction false} MoveKeeps(w: World, from: Name, to: Name)
    requires Inv(w) && from in w.refs && to !in w.refs && w.refs[from].RawId?
    requires !to.Handle? && (to.Slot? ==> to.worker in w.workers)
    ensures Inv(Move(w, from, to))
  {
    var w' := Move(w, from, to);
    MoveCounts(w, from, to);
    forall m | m in w'.refs ensures RefOk(w', m) {
      assert RefOk(w, from) && (m != to ==> RefOk(w, m));
    }
    SameTable(w, w');
  }

  lemma {:induction false} MoveCounts(w: World, from: Name, to: Name)
    requires AllCounted(w) && from in w.refs && to !in w.refs && w.refs[from].RawId?
    ensures AllCounted(Move(w, from, to))
  {
    var w' := Move(w, from, to);
    var w1 := w.(refs := w.refs - {from});
    forall o | IsRcs(w'.st, o) ensures Counted(w', o) {
      assert Counted(w, o);
      FewerOwners(w, from, w1, o);
      MoreOwners(w1, to, w.refs[from], w', o);
      assert w.refs[from].rcs == o ==> from in StrongOn(w, o);
    }
  }

  /** Owners and workers do not enter into the accounts of the blocks. */
  lemma {:induction false} SameTable(w: World, w': World)
    requires AllHeld(w) && AllAccounted(w) && Ledger(w)
    requires w' == w.(refs := w'.refs, workers := w'.workers)
    ensures AllHeld(w') && AllAccounted(w') && Ledger(w')
  {
    forall o | IsRcs(w'.st, o) ensures DataHeld(w', o) {
      assert DataHeld(w, o);
    }
    forall x | x in w'.st.live ensures Accounted(w', x) {
      assert Accounted(w, x);
      if w.st.live[x].Plain? && x !in w.others {
        var q :| DataOf(w, q, x);
        assert DataOf(w', q, x);
      }
    }
    forall q | q in w'.serial ensures w'.serial[q] in w'.frees && FreedOnce(w', q) {
      assert FreedOnce(w, q);
    }
    SameSerials(w, w');
  }

  lemma {:induction false} WorkersKeep(w: World, workers: set<nat>)
    requires Inv(w)
    requires forall k | Slot(k) in w.refs :: k in workers
    ensures Inv(w.(workers := workers))
  {
    var w' := w.(workers := workers);
    forall o | IsRcs(w'.st, o) ensures Counted(w', o) {
      assert Counted(w, o);
      assert StrongOn(w', o) == StrongOn(w, o) && WeakOn(w', o) == WeakOn(w, o);
    }
    forall m | m in w'.refs ensures RefOk(w', m) {
      assert RefOk(w, m);
      assert m.Slot? ==> Slot(m.worker) in w.refs;
    }
    SameTable(w, w');
  }

  /** Changes of the free list and the mark alone. */
  lemma {:induction false} SameLive(w: World, st': State)
    requires Inv(w) && st'.live == w.st.live && Conserved(st')
    ensures Inv(w.(st := st'))
  {
    var w' := w.(st := st');
    forall o | IsRcs(w'.st, o) ensures Counted(w', o) && DataHeld(w', o) {
      assert Counted(w, o) && DataHeld(w, o);
      assert StrongOn(w', o) == StrongOn(w, o) && WeakOn(w', o) == WeakOn(w, o);
    }
    forall m | m in w'.refs ensures RefOk(w', m) {
      assert RefOk(w, m);
    }
    SameLiveAccounts(w, w');
  }

  lemma {:induction false} SameLiveAccounts(w: World, w': World)
    requires AllAccounted(w) && Ledger(w)
    requires w'.st.live == w.st.live && w' == w.(st := w'.st)
    ensures AllAccounted(w') && Ledger(w')
  {
    forall x | x in w'.st.live ensures Accounted(w', x) {
      assert Accounted(w, x);
      if w.st.live[x].Plain? && x !in w.others {
        var q :| DataOf(w, q, x);
        assert DataOf(w', q, x);
      }
    }
    forall q | q in w'.serial ensures w'.serial[q] in w'.frees && FreedOnce(w', q) {
      assert FreedOnce(w, q);
    }
    SameSerials(w, w');
  }

  /** A block without counts appears among the others, or disappears from them. */
  ghost predicate OthersChanged(w: World, b: BlockId, w': World) {
    && (b in w.st.live ==> w.st.live[b].Plain? && b in w.others)
    && (b in w'.st.live ==> w'.st.live[b].Plain?)
    && w'.st.live - {b} == w.st.live - {b}
    && w'.others == (if b in w'.st.live then w.others + {b} else w.others - {b})
    && w' == w.(st := w'.st, others := w'.others)
  }

  lemma {:induction false} OthersKeep(w: World, b: BlockId, w': World)
    requires Inv(w) && OthersChanged(w, b, w') && Conserved(w'.st)
    ensures Inv(w')
  {
    assert forall x | x != b :: x in w'.st.live <==> x in w'.st.live - {b};
    assert forall x | x != b :: x in w.st.live <==> x in w.st.live - {b};
    assert forall x | x != b && x in w.st.live :: w'.st.live[x] == (w'.st.live - {b})[x];
    OthersKeepOwners(w, b, w');
    OthersKeepAccounts(w, b, w');
  }

  ghost predicate SameElsewhere(w: World, b: BlockId, w': World) {
    && (forall x | x != b :: x in w'.st.live <==> x in w.st.live)
    && (forall x | x != b && x in w.st.live :: w'.st.live[x] == w.st.live[x])
  }

  lemma {:induction false} OthersKeepOwners(w: World, b: BlockId, w': World)
    requires AllCounted(w) && AllHeld(w) && RefsOk(w) && OthersChanged(w, b, w') && SameElsewhere(w, b, w')
    requires b !in w.st.live ==> forall r | IsRcs(w.st, r) && w.st.live[r].count > 0 :: w.st.live[r].data in w.st.live
    ensures AllCounted(w') && AllHeld(w') && RefsOk(w')
  {
    forall o | IsRcs(w'.st, o) ensures Counted(w', o) && DataHeld(w', o) {
      assert IsRcs(w.st, o) && Counted(w, o) && DataHeld(w, o);
      assert StrongOn(w', o) == StrongOn(w, o) && WeakOn(w', o) == WeakOn(w, o);
    }
    forall m | m in w'.refs ensures RefOk(w', m) {
      assert RefOk(w, m);
    }
  }

  lemma {:induction false} OthersKeepAccounts(w: World, b: BlockId, w': World)
    requires AllAccounted(w) && Ledger(w) && OthersChanged(w, b, w') && SameElsewhere(w, b, w')
    ensures AllAccounted(w') && Ledger(w')
  {
    forall x | x in w'.st.live ensures Accounted(w', x) {
      if x != b {
        assert Accounted(w, x);
        if w.st.live[x].Plain? && x !in w.others {
          var q :| DataOf(w, q, x);
          assert DataOf(w', q, x);
        }
      }
    }
    forall q | q in w'.serial ensures w'.serial[q] in w'.frees && FreedOnce(w', q) {
      assert FreedOnce(w, q);
    }
    SameSerials(w, w');
  }

  lemma {:induction false} AllocKeeps(w: World, fault: bool)
    requires Inv(w)
    ensures
      var (out, st') := Alloc(w.st, fault);
      if out.Granted? then out.block !in w.st.live && out.block in st'.live
                           && Inv(w.(st := st', others := w.others + {out.block}))
      else Inv(w.(st := st'))
  {
    var (out, st') := Alloc(w.st, fault);
    AllocSafe(w.st, fault);
    AllocConserves(w.st, fault);
    if out.Granted? {
      var w' := w.(st := st', others := w.others + {out.block});
      assert st'.live - {out.block} == w.st.live - {out.block};
      OthersKeep(w, out.block, w');
    } else {
      SameLive(w, st');
    }
  }

  lemma {:induction false} FreeOtherKeeps(w: World, b: BlockId)
    requires Inv(w) && b in w.others
    ensures Inv(w.(st := Free(w.st, b), others := w.others - {b}))
  {
    FreeConserves(w.st, b);
    var w' := w.(st := Free(w.st, b), others := w.others - {b});
    assert w'.st.live - {b} == w.st.live - {b};
    OthersKeep(w, b, w');
  }

  /** Two blocks nobody knows become a counted object with one handle. */
  function BecomeArc(w: World, n: Name, d: BlockId, r: BlockId, s: nat): World {
    w.(st := w.st.(live := w.st.live[r := Rcs(1, 0, d)]), others := w.others - {d, r},
       refs := w.refs[n := Strong(d, r)], serial := w.serial[r := s], frees := w.frees[s := Frees(0, 0)])
  }

  lemma {:induction false} BecomeArcKeeps(w: World, n: Name, d: BlockId, r: BlockId, s: nat)
    requires Inv(w) && d != r && d in w.others && r in w.others
    requires n.Handle? && n !in w.refs && s !in w.frees
    ensures Inv(BecomeArc(w, n, d, r, s))
  {
    var w' := BecomeArc(w, n, d, r, s);
    assert w'.st.live.Keys == w.st.live.Keys;
    BecomeArcCounts(w, n, d, r, s);
    BecomeArcHeld(w, n, d, r, s);
    BecomeArcLedger(w, n, d, r, s);
  }

  lemma {:induction false} BecomeArcCounts(w: World, n: Name, d: BlockId, r: BlockId, s: nat)
    requires AllCounted(w) && RefsOk(w) && r in w.st.live && w.st.live[r].Plain? && n.Handle? && n !in w.refs
    ensures AllCounted(BecomeArc(w, n, d, r, s)) && RefsOk(BecomeArc(w, n, d, r, s))
  {
    var w' := BecomeArc(w, n, d, r, s);
    assert forall m | m in w.refs :: RefOk(w, m) && w.refs[m].rcs != r;
    assert StrongOn(w, r) == {} && WeakOn(w, r) == {};
    forall o | IsRcs(w'.st, o) ensures Counted(w', o) {
      MoreOwners(w, n, Strong(d, r), w', o);
      assert o != r ==> Counted(w, o);
    }
    forall m | m in w'.refs ensures RefOk(w', m) {
      assert m != n ==> RefOk(w, m);
    }
  }

  lemma {:induction false} BecomeArcHeld(w: World, n: Name, d: BlockId, r: BlockId, s: nat)
    requires AllHeld(w) && AllAccounted(w) && d != r && d in w.others && r in w.others
    ensures AllHeld(BecomeArc(w, n, d, r, s)) && AllAccounted(BecomeArc(w, n, d, r, s))
  {
    var w' := BecomeArc(w, n, d, r, s);
    assert forall q | IsRcs(w.st, q) :: DataHeld(w, q);
    forall o | IsRcs(w'.st, o) ensures DataHeld(w', o) {
      assert forall q | q != r && IsRcs(w'.st, q) :: IsRcs(w.st, q) && DataHeld(w, q);
      assert o != r ==> DataHeld(w, o);
    }
    forall x | x in w'.st.live ensures Accounted(w', x) {
      assert Accounted(w, x);
      if x == d {
        assert DataOf(w', r, d);
      } else if x != r && w.st.live[x].Plain? && x !in w.others {
        var q :| DataOf(w, q, x);
        assert DataOf(w', q, x);
      }
    }
  }

  lemma {:induction false} BecomeArcLedger(w: World, n: Name, d: BlockId, r: BlockId, s: nat)
    requires Ledger(w) && r in w.st.live && w.st.live[r].Plain? && s !in w.frees
    ensures Ledger(BecomeArc(w, n, d, r, s))
  {
    var w' := BecomeArc(w, n, d, r, s);
    assert r !in w.serial;
    forall q | q in w'.serial ensures w'.serial[q] in w'.frees && FreedOnce(w', q) {
      assert q != r ==> FreedOnce(w, q);
    }
    forall x | x in w'.frees && !Current(w', x) ensures w'.frees[x] == Frees(1, 1) {
      assert IsSerial(w', r, s);
      assert forall q :: IsSerial(w, q, x) ==> IsSerial(w', q, x);
    }
  }

  lemma {:induction false} OthersBack(others: set<BlockId>, d: BlockId, r: BlockId)
    requires d !in others && r !in others
    ensures others + {d} + {r} - {d, r} == others
  {
  }

  lemma {:induction false} NewArcKeeps(w: World, n: Name, s: nat, fault1: bool, fault2: bool)
    requires Inv(w) && FreshHandle(w, n) && s !in w.frees
    ensures Inv(NewArc(w, n, s, fault1, fault2))
  {
    AllocKeeps(w, fault1);
    var (out1, st1) := Alloc(w.st, fault1);
    if out1.Granted? {
      var d := out1.block;
      var w1 := w.(st := st1, others := w.others + {d});
      assert d !in w.others;
      AllocKeeps(w1, fault2);
      var (out2, st2) := Alloc(st1, fault2);
      if out2.Granted? {
        var r := out2.block;
        var w2 := w1.(st := st2, others := w1.others + {r});
        BecomeArcKeeps(w2, n, d, r, s);
        OthersBack(w.others, d, r);
        assert NewArc(w, n, s, fault1, fault2) == BecomeArc(w2, n, d, r, s);
      } else {
        assert NewArc(w, n, s, fault1, fault2) == w1.(st := st2);
      }
    }
  }

  // ---------- Every operation keeps the invariant ----------

  lemma {:induction false} DropArcKeeps(w: World, n: Name)
    requires Inv(w) && HasStrong(w, n)
    ensures Inv(DropStrong(w, n))
  {
    OwnerHolds(w, n);
    assert RefOk(w, n);
    ReleasesRefine(w.st, w.refs[n].rcs);
    ReleaseKeeps(w, n, w.refs[n].rcs, DropStrong(w, n));
  }

  lemma {:induction false} DropSlotKeeps(w: World, n: Name)
    requires Inv(w) && HasId(w, n)
    ensures Inv(DropSlot(w, n))
  {
    OwnerHolds(w, n);
    ReleasesRefine(w.st, w.refs[n].rcs);
    ReleaseKeeps(w, n, w.refs[n].rcs, DropSlot(w, n));
  }

  lemma {:induction false} DropWeakKeeps(w: World, n: Name)
    requires Inv(w) && HasWeak(w, n)
    ensures Inv(DropWeak(w, n))
  {
    var r := w.refs[n].rcs;
    assert RefOk(w, n) && Counted(w, r);
    if w.st.live[r].weaks <= 1 && w.st.live[r].count == 0 {
      LastWeak(w, n, r, DropWeak(w, n));
    } else {
      EarlierWeak(w, n, r, DropWeak(w, n));
    }
  }

  /** Any owner of a strong reference may hand out another one. */
  lemma {:induction false} ShareKeeps(w: World, n: Name, m: Name, ref: Ref)
    requires Inv(w) && n in w.refs && !w.refs[n].Weak? && m !in w.refs
    requires IsRcs(w.st, w.refs[n].rcs) && ref.rcs == w.refs[n].rcs && !ref.Weak?
    requires ref.Strong? <==> m.Handle?
    requires ref.Strong? ==> ref.data == w.st.live[ref.rcs].data
    requires m.Slot? ==> m.worker in w.workers
    requires Bounded(Acquire(w, m, ref))
    ensures Inv(Acquire(w, m, ref))
  {
    OwnerHolds(w, n);
    AcquireKeeps(w, m, ref, Acquire(w, m, ref));
  }

  lemma {:induction false} CloneFromKeeps(w: World, n: Name, source: Name, w': World)
    requires Inv(w) && Next(w, CloneFrom(n, source), w') && Bounded(w')
    ensures Inv(w')
  {
    var w1 := DropStrong(w, n);
    SourceStays(w, n, source, w1);
    ShareKeeps(w1, source, n, w1.refs[source]);
  }

  /** Giving up one handle leaves any other as it was, even on the same object. */
  lemma {:induction false} SourceStays(w: World, n: Name, source: Name, w1: World)
    requires Inv(w) && HasStrong(w, n) && HasStrong(w, source) && n != source && w1 == DropStrong(w, n)
    ensures Inv(w1) && n !in w1.refs && source in w1.refs && w1.refs[source] == w.refs[source] && RefOk(w1, source)
  {
    DropArcKeeps(w, n);
    assert RefOk(w1, source);
  }

  lemma {:induction false} WeakHandleKeeps(w: World, op: Op, w': World)
    requires Inv(w) && Next(w, op, w') && Bounded(w')
    requires op.Downgrade? || op.Upgrade?
    ensures Inv(w')
  {
    assert RefOk(w, op.n);
    var ref := w.refs[op.n];
    if op.Downgrade? {
      AcquireKeeps(w, op.m, Weak(ref.data, ref.rcs), w');
    } else if w.st.live[ref.rcs].count != 0 {
      AcquireKeeps(w, op.m, Strong(ref.data, ref.rcs), w');
    }
  }

  lemma {:induction false} SetStateKeeps(w: World, k: nat, p: Name, w': World)
    requires Inv(w) && Next(w, SetState(k, p), w')
    ensures Inv(w')
  {
    if k in w.workers {
      if Slot(k) in w.refs {
        ReplaceKeeps(w, k, p);
      } else {
        MoveKeeps(w, p, Slot(k));
      }
    }
  }

  lemma {:induction false} ReplaceKeeps(w: World, k: nat, p: Name)
    requires Inv(w) && k in w.workers && HasId(w, Slot(k)) && p.Published? && HasId(w, p)
    ensures Inv(Move(DropSlot(w, Slot(k)), p, Slot(k)))
  {
    DropSlotKeeps(w, Slot(k));
    MoveKeeps(DropSlot(w, Slot(k)), p, Slot(k));
  }

  lemma {:induction false} RegisterKeeps(w: World, k: nat, lost: Name, w': World)
    requires Inv(w) && Next(w, Register(k, lost), w')
    ensures Inv(w')
  {
    var w1 := if Slot(k) in w.refs then Move(w, Slot(k), lost) else w;
    if Slot(k) in w.refs {
      assert RefOk(w, Slot(k));
      MoveKeeps(w, Slot(k), lost);
    }
    assert forall n | n in w1.refs :: RefOk(w1, n);
    WorkersKeep(w1, w.workers + {k});
  }

  lemma {:induction false} DisconnectKeeps(w: World, k: nat, w': World)
    requires Inv(w) && Next(w, Disconnect(k), w')
    ensures Inv(w')
  {
    var w1 := if Slot(k) in w.refs then DropSlot(w, Slot(k)) else w;
    if Slot(k) in w.refs {
      DropSlotKeeps(w, Slot(k));
    }
    assert forall n | n in w1.refs :: RefOk(w1, n);
    WorkersKeep(w1, w.workers - {k});
  }

  lemma {:induction false} StepKeeps(w: World, op: Op, w': World)
    requires Inv(w) && Next(w, op, w') && Bounded(w')
    ensures Inv(w')
  {
    match op
    case New(n, s, fault1, fault2) => NewArcKeeps(w, n, s, fault1, fault2);
    case Clone(n, m) =>
      assert RefOk(w, n);
      ShareKeeps(w, n, m, w.refs[n]);
    case CloneFrom(n, source) => CloneFromKeeps(w, n, source, w');
    case Downgrade(n, m) => WeakHandleKeeps(w, op, w');
    case Upgrade(n, m) => WeakHandleKeeps(w, op, w');
    case DropArc(n) => DropArcKeeps(w, n);
    case DropWeakRef(n) => DropWeakKeeps(w, n);
    case AllocId(n, p) => ShareKeeps(w, n, p, RawId(w.refs[n].rcs));
    case FromId(p, m) => ShareKeeps(w, p, m, Resolve(w, w.refs[p].rcs));
    case SetState(k, p) => SetStateKeeps(w, k, p, w');
    case GetState(k, m) =>
      if Slot(k) in w.refs {
        ShareKeeps(w, Slot(k), m, Resolve(w, w.refs[Slot(k)].rcs));
      }
    case Register(k, lost) => RegisterKeeps(w, k, lost, w');
    case Disconnect(k) => DisconnectKeeps(w, k, w');
    case AllocOther(fault) => AllocKeeps(w, fault);
    case FreeOther(b) => FreeOtherKeeps(w, b);
  }

  // ---------- Runs ----------

  function Start(names: set<BlockId>): World {
    World(Initial(names), map[], {}, {}, map[], map[])
  }

  /** `ws` is a run: each world comes from the one before by one operation, and no object ever has
      2^32 owners of one kind. */
  ghost predicate IsRun(names: set<BlockId>, ops: seq<Op>, ws: seq<World>) {
    && |ws| == |ops| + 1 && ws[0] == Start(names)
    && forall i | 0 <= i < |ops| :: StepAt(ops, ws, i)
  }

  ghost predicate StepAt(ops: seq<Op>, ws: seq<World>, i: nat)
    requires i < |ops| && |ws| == |ops| + 1
  {
    Next(ws[i], ops[i], ws[i + 1]) && Bounded(ws[i + 1])
  }

  lemma {:induction false} RunKeeps(names: set<BlockId>, ops: seq<Op>, ws: seq<World>, i: nat)
    requires IsRun(names, ops, ws) && i < |ws|
    ensures Inv(ws[i])
  {
    if i > 0 {
      RunKeeps(names, ops, ws, i - 1);
      assert StepAt(ops, ws, i - 1);
      StepKeeps(ws[i - 1], ops[i - 1], ws[i]);
    }
  }

  ghost function HandlesOn(w: World, r: BlockId): set<Name> {
    set n | n in w.refs && n.Handle? && w.refs[n].Strong? && w.refs[n].rcs == r
  }

  ghost function PublishedOn(w: World, r: BlockId): set<Name> {
    set n | n in w.refs && n.Published? && w.refs[n].rcs == r
  }

  ghost function SlotsOn(w: World, r: BlockId): set<Name> {
    set n | n in w.refs && n.Slot? && w.refs[n].rcs == r
  }

  /** Conservation: at every moment of every run the stored counts are the numbers of owners. */
  lemma {:induction false} Conservation(names: set<BlockId>, ops: seq<Op>, ws: seq<World>, i: nat, r: BlockId)
    requires IsRun(names, ops, ws) && i < |ws| && IsRcs(ws[i].st, r)
    ensures ws[i].st.live[r].count == |HandlesOn(ws[i], r)| + |PublishedOn(ws[i], r)| + |SlotsOn(ws[i], r)|
    ensures ws[i].st.live[r].weaks == |WeakOn(ws[i], r)|
  {
    RunKeeps(names, ops, ws, i);
    assert Counted(ws[i], r);
    OwnersSplit(ws[i], r);
  }

  lemma {:induction false} OwnersSplit(w: World, r: BlockId)
    requires RefsOk(w)
    ensures |StrongOn(w, r)| == |HandlesOn(w, r)| + |PublishedOn(w, r)| + |SlotsOn(w, r)|
  {
    assert forall n | n in w.refs :: RefOk(w, n);
    var h, p, s := HandlesOn(w, r), PublishedOn(w, r), SlotsOn(w, r);
    assert StrongOn(w, r) == h + p + s;
    assert h !! p && (h + p) !! s;
  }

  /** Exact lifetimes: the counts are live just as long as someone owns a reference; while someone
      owns a strong one so is the data block, which no other object has; and a live block is always
      counts, data with a strong owner, or not part of a counted object. */
  lemma {:induction false} Lifetimes(names: set<BlockId>, ops: seq<Op>, ws: seq<World>, i: nat)
    requires IsRun(names, ops, ws) && i < |ws|
    ensures
      var w := ws[i];
      && (forall n | n in w.refs :: IsRcs(w.st, w.refs[n].rcs))
      && (forall r | IsRcs(w.st, r) :: StrongOn(w, r) != {} || WeakOn(w, r) != {})
      && (forall r | IsRcs(w.st, r) && StrongOn(w, r) != {} ::
            && w.st.live[r].data in w.st.live && w.st.live[w.st.live[r].data].Plain?
            && forall o | IsRcs(w.st, o) && o != r && StrongOn(w, o) != {} :: w.st.live[o].data != w.st.live[r].data)
      && (forall b | b in w.st.live && w.st.live[b].Plain? && b !in w.others ::
            exists r :: DataOf(w, r, b) && StrongOn(w, r) != {})
      && Conserved(w.st)
  {
    RunKeeps(names, ops, ws, i);
    var w := ws[i];
    forall r | IsRcs(w.st, r)
      ensures StrongOn(w, r) != {} || WeakOn(w, r) != {}
      ensures w.st.live[r].count > 0 <==> StrongOn(w, r) != {}
      ensures DataHeld(w, r)
    {
      assert Counted(w, r);
    }
    assert forall n | n in w.refs :: RefOk(w, n);
    forall b | b in w.st.live && w.st.live[b].Plain? && b !in w.others
      ensures exists r :: DataOf(w, r, b) && StrongOn(w, r) != {}
    {
      assert Accounted(w, b);
      var r :| DataOf(w, r, b);
      assert StrongOn(w, r) != {};
    }
  }

  /** Each object's data block has come back to the free list exactly once if its strong references
      are gone and not at all before, its counts likewise with the last reference of any kind. */
  lemma {:induction false} FreedExactlyOnce(names: set<BlockId>, ops: seq<Op>, ws: seq<World>, i: nat, s: nat)
    requires IsRun(names, ops, ws) && i < |ws| && s in ws[i].frees
    ensures
      var w := ws[i];
      && (forall r | IsSerial(w, r, s) ::
            IsRcs(w.st, r) && w.frees[s] == Frees(if StrongOn(w, r) == {} then 1 else 0, 0))
      && (!Current(w, s) ==> w.frees[s] == Frees(1, 1))
  {
    RunKeeps(names, ops, ws, i);
    var w := ws[i];
    if Current(w, s) {
      forall r | IsSerial(w, r, s)
        ensures IsRcs(w.st, r) && w.frees[s] == Frees(if StrongOn(w, r) == {} then 1 else 0, 0)
      {
        assert FreedOnce(w, r) && Counted(w, r);
      }
    }
  }

  /** When no owner is left, nothing of any counted object is left: every block that was ever handed
      out and is not other people's is back on the free list or was abandoned by a failed create. */
  lemma {:induction false} NothingLeaks(names: set<BlockId>, ops: seq<Op>, ws: seq<World>, i: nat)
    requires IsRun(names, ops, ws) && i < |ws| && ws[i].refs == map[]
    ensures ws[i].st.live.Keys == ws[i].others
    ensures forall n: BlockId | n < ws[i].st.next ::
      n in ws[i].others || n in ToSet(ws[i].st.free) || n in ws[i].st.abandoned
    ensures forall s | s in ws[i].frees :: ws[i].frees[s] == Frees(1, 1)
  {
    RunKeeps(names, ops, ws, i);
    var w := ws[i];
    forall r ensures !IsRcs(w.st, r) {
      assert StrongOn(w, r) == {} && WeakOn(w, r) == {};
      assert IsRcs(w.st, r) ==> Counted(w, r);
    }
    forall b | b in w.st.live ensures b in w.others {
      assert Accounted(w, b);
      assert !IsRcs(w.st, b);
    }
    forall s | s in w.frees ensures w.frees[s] == Frees(1, 1) {
      assert !Current(w, s);
    }
  }

  // ---------- Nothing a program may do is blocked ----------

  /** What the callers have to provide: the handles they own, and new names. */
  predicate Legal(w: World, op: Op) {
    match op
    case New(n, s, _, _) => FreshHandle(w, n) && s !in w.frees
    case Clone(n, m) => n in w.refs && w.refs[n].Strong? && FreshHandle(w, m)
    case CloneFrom(n, source) =>
      n in w.refs && w.refs[n].Strong? && source in w.refs && w.refs[source].Strong? && n != source
    case Downgrade(n, m) => n in w.refs && w.refs[n].Strong? && FreshHandle(w, m)
    case Upgrade(n, m) => n in w.refs && w.refs[n].Weak? && FreshHandle(w, m)
    case DropArc(n) => n in w.refs && w.refs[n].Strong?
    case DropWeakRef(n) => n in w.refs && w.refs[n].Weak?
    case AllocId(n, p) => n in w.refs && w.refs[n].Strong? && p.Published? && p !in w.refs
    case FromId(p, m) => p in w.refs && p.Published? && FreshHandle(w, m)
    case SetState(_, p) => p in w.refs && p.Published?
    case GetState(_, m) => FreshHandle(w, m)
    case Register(_, lost) => lost.Published? && lost !in w.refs
    case Disconnect(_) => true
    case AllocOther(_) => true
    case FreeOther(b) => b in w.others
  }

  /** No handle or id ever dangles: the counts it needs are live and on the books ... */
  lemma {:induction false} NoDangling(w: World, n: Name)
    requires Inv(w) && n in w.refs
    ensures Booked(w, w.refs[n].rcs) && RefOk(w, n)
  {
    assert RefOk(w, n);
    assert FreedOnce(w, w.refs[n].rcs);
  }

  lemma {:induction false} CloneFromSteps(w: World, n: Name, source: Name) returns (w': World)
    requires Inv(w) && Legal(w, CloneFrom(n, source))
    ensures Next(w, CloneFrom(n, source), w')
  {
    NoDangling(w, n);
    NoDangling(w, source);
    var w1 := DropStrong(w, n);
    SourceStays(w, n, source, w1);
    w' := Acquire(w1, n, w.refs[source]);
  }

  lemma {:induction false} WorkerSteps(w: World, op: Op) returns (w': World)
    requires Inv(w) && Legal(w, op)
    requires op.SetState? || op.GetState? || op.Register? || op.Disconnect?
    ensures Next(w, op, w')
  {
    match op
    case SetState(k, p) =>
      NoDangling(w, p);
      if k !in w.workers {
        w' := w;
      } else if Slot(k) !in w.refs {
        w' := Move(w, p, Slot(k));
      } else {
        NoDangling(w, Slot(k));
        w' := Move(DropSlot(w, Slot(k)), p, Slot(k));
      }
    case GetState(k, m) =>
      if Slot(k) !in w.refs {
        w' := w;
      } else {
        NoDangling(w, Slot(k));
        w' := Acquire(w, m, Resolve(w, w.refs[Slot(k)].rcs));
      }
    case Register(k, lost) =>
      var w1 := if Slot(k) in w.refs then Move(w, Slot(k), lost) else w;
      w' := w1.(workers := w.workers + {k});
    case Disconnect(k) =>
      if Slot(k) !in w.refs {
        w' := w.(workers := w.workers - {k});
      } else {
        NoDangling(w, Slot(k));
        w' := DropSlot(w, Slot(k)).(workers := w.workers - {k});
      }
    case _ => w' := w;
  }

  lemma {:induction false} ArcSteps(w: World, op: Op) returns (w': World)
    requires Inv(w) && Legal(w, op)
    requires op.Clone? || op.DropArc? || op.AllocId? || op.FromId?
    ensures Next(w, op, w')
  {
    match op
    case Clone(n, m) =>
      NoDangling(w, n);
      w' := Acquire(w, m, w.refs[n]);
    case DropArc(n) =>
      NoDangling(w, n);
      w' := DropStrong(w, n);
    case AllocId(n, p) =>
      NoDangling(w, n);
      w' := Acquire(w, p, RawId(w.refs[n].rcs));
    case FromId(p, m) =>
      NoDangling(w, p);
      w' := Acquire(w, m, Resolve(w, w.refs[p].rcs));
    case _ => w' := w;
  }

  lemma {:induction false} WeakSteps(w: World, op: Op) returns (w': World)
    requires Inv(w) && Legal(w, op)
    requires op.Downgrade? || op.Upgrade? || op.DropWeakRef?
    ensures Next(w, op, w')
  {
    NoDangling(w, op.n);
    var ref := w.refs[op.n];
    match op
    case Downgrade(n, m) => w' := AcquireWeak(w, m, Weak(ref.data, ref.rcs));
    case Upgrade(n, m) =>
      w' := if w.st.live[ref.rcs].count != 0 then Acquire(w, m, Strong(ref.data, ref.rcs)) else w;
    case DropWeakRef(n) => w' := DropWeak(w, n);
    case _ => w' := w;
  }

  /** ... so every operation that the owners of the handles may ask for has a step. */
  lemma {:induction false} LegalSteps(w: World, op: Op) returns (w': World)
    requires Inv(w) && Legal(w, op)
    ensures Next(w, op, w')
  {
    match op
    case New(n, s, fault1, fault2) => w' := NewArc(w, n, s, fault1, fault2);
    case CloneFrom(n, source) => w' := CloneFromSteps(w, n, source);
    case SetState(_, _) => w' := WorkerSteps(w, op);
    case GetState(_, _) => w' := WorkerSteps(w, op);
    case Register(_, _) => w' := WorkerSteps(w, op);
    case Disconnect(_) => w' := WorkerSteps(w, op);
    case AllocOther(fault) =>
      var (out, st') := Alloc(w.st, fault);
      w' := w.(st := st', others := if out.Granted? then w.others + {out.block} else w.others);
    case FreeOther(b) => w' := w.(st := Free(w.st, b), others := w.others - {b});
    case Clone(_, _) => w' := ArcSteps(w, op);
    case DropArc(_) => w' := ArcSteps(w, op);
    case AllocId(_, _) => w' := ArcSteps(w, op);
    case FromId(_, _) => w' := ArcSteps(w, op);
    case Downgrade(_, _) => w' := WeakSteps(w, op);
    case Upgrade(_, _) => w' := WeakSteps(w, op);
    case DropWeakRef(_) => w' := WeakSteps(w, op);
  }
}
