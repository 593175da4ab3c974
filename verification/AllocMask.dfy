/** The three-level allocation mask of the shared header (src/header.rs): one bit per block id
    in `t`, one summary bit per full word of `t` in `s`, one bit per full word of `s` in `f`. */
module AllocMask {
  import opened Bits
  import opened Wrappers

  const IDS := 65536

  type Id = n: nat | n < 65536

  ghost function UpTo(n: nat): (all: set<nat>)
    ensures forall x: nat :: x in all <==> x < n
    ensures |all| == n
  {
    if n == 0 then {} else UpTo(n - 1) + {n - 1}
  }

  ghost predicate LeastOutside(id: nat, taken: set<nat>) {
    id !in taken && forall y: nat | y !in taken :: id <= y
  }

  ghost function AllIds(): (all: set<nat>)
    ensures forall x: nat :: x in all <==> x < IDS
    ensures |all| == IDS
  {
    var n: nat :| n == IDS;
    UpTo(n)
  }

  // ---------- One level over the next ----------

  /** Bit k of the summary words `up` is set iff word k of `down` is full, for the first n words. */
  ghost predicate Summarizes(up: seq<nat>, down: seq<nat>, n: nat) {
    && |down| == n <= 64 * |up|
    && forall k | 0 <= k < n :: SummaryBit(up, k) <==> AllBits(down[k], 64)
  }

  predicate SummaryBit(up: seq<nat>, k: nat)
    requires k < 64 * |up|
  {
    Bit(up[k / 64], k % 64)
  }

  /** Filling one more bit of word k leaves the summary right if the word is still not full ... */
  lemma {:induction false} NotYetFull(up: seq<nat>, down: seq<nat>, n: nat, k: nat, i: nat, w: nat)
    requires Summarizes(up, down, n) && k < n && i < 64
    requires BitSetTo(w, down[k], i, true, 64) && !AllBits(w, 64)
    ensures Summarizes(up, down[k := w], n)
  {
    var j :| 0 <= j < 64 && !Bit(w, j);
    assert !AllBits(down[k], 64) by {
      assert !Bit(down[k], j);
    }
  }

  /** ... and otherwise the summary bit of the word has to be set along with it. */
  lemma {:induction false} NowFull(up: seq<nat>, down: seq<nat>, n: nat, k: nat, w: nat, u: nat)
    requires Summarizes(up, down, n) && k < n
    requires AllBits(w, 64)
    requires BitSetTo(u, up[k / 64], k % 64, true, if n < 64 then n else 64)
    ensures Summarizes(up[k / 64 := u], down[k := w], n)
  {
    SetSummary(up, down, n, k, w, u, true);
  }

  /** Emptying a bit of word k goes with clearing bit k of the summary. */
  lemma {:induction false} EmptyKeeps(up: seq<nat>, down: seq<nat>, n: nat, k: nat, i: nat, w: nat, u: nat)
    requires Summarizes(up, down, n) && k < n && i < 64
    requires BitSetTo(w, down[k], i, false, 64)
    requires BitSetTo(u, up[k / 64], k % 64, false, if n < 64 then n else 64)
    ensures Summarizes(up[k / 64 := u], down[k := w], n)
  {
    assert !Bit(w, i);
    SetSummary(up, down, n, k, w, u, false);
  }

  lemma {:induction false} SetSummary(up: seq<nat>, down: seq<nat>, n: nat, k: nat, w: nat, u: nat, full: bool)
    requires Summarizes(up, down, n) && k < n
    requires AllBits(w, 64) == full
    requires BitSetTo(u, up[k / 64], k % 64, full, if n < 64 then n else 64)
    ensures Summarizes(up[k / 64 := u], down[k := w], n)
  {
    var up', down' := up[k / 64 := u], down[k := w];
    forall o | 0 <= o < n ensures SummaryBit(up', o) <==> AllBits(down'[o], 64) {
      assert SummaryBit(up, o) <==> AllBits(down[o], 64);
      if o / 64 == k / 64 {
        assert o % 64 == k % 64 ==> o == k;
        assert o % 64 < if n < 64 then n else 64;
      }
    }
  }

  // ---------- All three levels ----------

  /** A second-level bit is set iff its leaf word is full, a top bit iff its second-level word is. */
  ghost predicate Consistent(f: Word16, s: seq<Word64>, t: seq<Word64>) {
    && Summarizes([f], s, 16)
    && Summarizes(s, t, 1024)
  }

  /** The plain set the leaf words stand for. */
  ghost function Ids(t: seq<nat>): set<nat>
    requires |t| == 1024
  {
    set id | 0 <= id < IDS && SummaryBit(t, id)
  }

  /** A set second-level bit vouches for the 64 ids of its word ... */
  lemma {:induction false} WordCovers(f: Word16, s: seq<Word64>, t: seq<Word64>, id: nat)
    requires Consistent(f, s, t) && id < IDS
    requires SummaryBit(s, id / 64)
    ensures id in Ids(t)
  {
    assert AllBits(t[id / 64], 64);
  }

  /** ... and a set top bit for the 4096 ids below it. */
  lemma {:induction false} TopCovers(f: Word16, s: seq<Word64>, t: seq<Word64>, id: nat)
    requires Consistent(f, s, t) && id < IDS
    requires SummaryBit([f], id / 4096)
    ensures id in Ids(t)
  {
    assert id / 64 / 64 == id / 4096;
    assert AllBits(s[id / 4096], 64);
    assert SummaryBit(s, id / 64);
    WordCovers(f, s, t, id);
  }

  /** Below a clear top bit there is a second-level word with room, below a clear second-level
      bit a leaf word with room. */
  lemma {:induction false} RoomBelow(f: Word16, s: seq<Word64>, t: seq<Word64>, i1: nat, i2: nat)
    requires Consistent(f, s, t) && i1 < 16
    ensures !Bit(f, i1) ==> !AllBits(s[i1], 64)
    ensures i2 < 64 && !Bit(s[i1], i2) ==> !AllBits(t[i1 * 64 + i2], 64)
  {
    assert !SummaryBit([f], i1) ==> !AllBits(s[i1], 64);
    if i2 < 64 {
      var k := i1 * 64 + i2;
      assert k / 64 == i1 && k % 64 == i2;
      assert !SummaryBit(s, k) ==> !AllBits(t[k], 64);
    }
  }

  lemma {:induction false} LeafIds(t: seq<nat>, id: nat, w: nat, b: bool)
    requires |t| == 1024 && id < IDS && BitSetTo(w, t[id / 64], id % 64, b, 64)
    ensures Ids(t[id / 64 := w]) == if b then Ids(t) + {id} else Ids(t) - {id}
  {
    var t' := t[id / 64 := w];
    forall o | 0 <= o < IDS ensures SummaryBit(t', o) <==> if o == id then b else SummaryBit(t, o) {
      assert o / 64 == id / 64 && o % 64 == id % 64 ==> o == id;
    }
  }

  lemma {:induction false} AllZero(s: seq<Word64>, t: seq<Word64>)
    requires |s| == 16 && |t| == 1024
    requires forall k | 0 <= k < 16 :: s[k] == 0
    requires forall k | 0 <= k < 1024 :: t[k] == 0
    ensures Consistent(0, s, t) && Ids(t) == {}
  {
    forall i: nat ensures !Bit(0, i) {
      ZeroBit(i);
    }
    assert !AllBits(0, 64) by {
      assert !Bit(0, 0);
    }
    forall id | 0 <= id < IDS ensures !SummaryBit(t, id) {
      ZeroBit(id % 64);
    }
  }

  /** However far the reservation of an id has to be carried up, the levels stay consistent. */
  lemma {:induction false} ReserveKeeps(f: Word16, s: seq<Word64>, t: seq<Word64>, id: nat)
    requires Consistent(f, s, t) && id < IDS
    ensures
      var k, h := id / 64, id / 4096;
      var w, u, v := SetBit64(t[k], id % 64), SetBit64(s[h], k % 64), SetBit16(f, h);
      && Ids(t[k := w]) == Ids(t) + {id}
      && (w != MAX64 ==> Consistent(f, s, t[k := w]))
      && (w == MAX64 && u != MAX64 ==> Consistent(f, s[h := u], t[k := w]))
      && (w == MAX64 && u == MAX64 ==> Consistent(v, s[h := u], t[k := w]))
  {
    var k, h := id / 64, id / 4096;
    assert h == k / 64;
    var w, u, v := SetBit64(t[k], id % 64), SetBit64(s[h], k % 64), SetBit16(f, h);
    LeafIds(t, id, w, true);
    if w != MAX64 {
      NotYetFull(s, t, 1024, k, id % 64, w);
    } else {
      NowFull(s, t, 1024, k, w, u);
      if u != MAX64 {
        NotYetFull([f], s, 16, h, k % 64, u);
      } else {
        NowFull([f], s, 16, h, u, v);
        assert [f][0 := v] == [v];
      }
    }
  }

  lemma {:induction false} FreeKeeps(f: Word16, s: seq<Word64>, t: seq<Word64>, id: nat)
    requires Consistent(f, s, t) && id < IDS
    ensures
      var k, h := id / 64, id / 4096;
      var w, u, v := ClearBit64(t[k], id % 64), ClearBit64(s[h], k % 64), ClearBit16(f, h);
      && Ids(t[k := w]) == Ids(t) - {id}
      && Consistent(v, s[h := u], t[k := w])
  {
    var k, h := id / 64, id / 4096;
    assert h == k / 64;
    var w, u, v := ClearBit64(t[k], id % 64), ClearBit64(s[h], k % 64), ClearBit16(f, h);
    LeafIds(t, id, w, false);
    EmptyKeeps(s, t, 1024, k, id % 64, w, u);
    EmptyKeeps([f], s, 16, h, k % 64, u, v);
    assert [f][0 := v] == [v];
  }

  class MLAllocMask {
    var f: Word16
    const s: array<Word64>
    const t: array<Word64>

    ghost predicate Valid()
      reads this, s, t
    {
      s.Length == 16 && t.Length == 1024 && s != t && Consistent(f, s[..], t[..])
    }

    ghost function Reserved(): set<nat>
      requires t.Length == 1024
      reads this, t
    {
      Ids(t[..])
    }

    constructor ()
      ensures Valid() && fresh(s) && fresh(t)
      ensures Reserved() == {}
    {
      f := 0;
      s := new Word64[16](_ => 0);
      t := new Word64[1024](_ => 0);
      new;
      AllZero(s[..], t[..]);
    }

    method FindAvailableId() returns (r: Option<Id>)
      requires Valid()
      ensures r.Some? ==> LeastOutside(r.value, Reserved())
      ensures r.None? ==> Reserved() == AllIds()
    {
      DescentFinds(f, s[..], t[..]);
      r := Descend();
    }

    /** The first clear bit of each level, from the top down. */
    method Descend() returns (r: Option<Id>)
      requires s.Length == 16 && t.Length == 1024
      ensures r == Descent(f, s[..], t[..])
    {
      var i1 := LowestClear16(f);
      if i1 >= 16 {
        return None;
      }
      var i2 := LowestClear64(s[i1]);
      if i2 >= 64 {
        return None;
      }
      var i := i1 * 64 + i2;
      var i3 := LowestClear64(t[i]);
      if i3 < 64 {
        return Some(i * 64 + i3);
      } else {
        return None;
      }
    }

    method ReserveId(id: Id)
      requires Valid()
      modifies this, s, t
      ensures Valid()
      ensures Reserved() == old(Reserved()) + {id as nat}
    {
      var k, i := id / 64, id % 64;
      ghost var s0, t0 := s[..], t[..];
      ReserveKeeps(f, s0, t0, id);
      t[k] := SetBit64(t[k], i);
      assert t[..] == t0[k := t[k]];
      if t[k] == MAX64 {
        var h, j := k / 64, k % 64;
        s[h] := SetBit64(s[h], j);
        assert s[..] == s0[h := s[h]];
        if s[h] == MAX64 {
          f := SetBit16(f, h);
        }
      }
    }

    method FreeId(id: Id)
      requires Valid()
      modifies this, s, t
      ensures Valid()
      ensures Reserved() == old(Reserved()) - {id as nat}
    {
      ghost var s0, t0 := s[..], t[..];
      FreeKeeps(f, s0, t0, id);
      var k, i := id / 64, id % 64;
      t[k] := ClearBit64(t[k], i);
      assert t[..] == t0[k := t[k]];
      var h, j := k / 64, k % 64;
      s[h] := ClearBit64(s[h], j);
      assert s[..] == s0[h := s[h]];
      f := ClearBit16(f, h);
    }
  }

  lemma {:induction false} FullMask(f: Word16, s: seq<Word64>, t: seq<Word64>)
    requires Consistent(f, s, t) && AllBits(f, 16)
    ensures Ids(t) == AllIds()
  {
    forall id | 0 <= id < IDS ensures id in Ids(t) {
      assert Bit(f, id / 4096);
      TopCovers(f, s, t, id);
    }
  }

  ghost function Descent(f: Word16, s: seq<Word64>, t: seq<Word64>): Option<Id>
    requires |s| == 16 && |t| == 1024
  {
    var i1 := LowestClear16(f);
    if i1 == 16 then None
    else
      var i2 := LowestClear64(s[i1]);
      if i2 == 64 then None
      else
        var i3 := LowestClear64(t[i1 * 64 + i2]);
        if i3 == 64 then None else Some((i1 * 64 + i2) * 64 + i3)
  }

  /** The first clear bit on each level leads to the least free id; a clear bit always has room below. */
  lemma {:induction false} DescentFinds(f: Word16, s: seq<Word64>, t: seq<Word64>)
    requires Consistent(f, s, t)
    ensures Descent(f, s, t).Some? ==> LeastOutside(Descent(f, s, t).value, Ids(t))
    ensures Descent(f, s, t).None? ==> Ids(t) == AllIds()
  {
    var i1 := LowestClear16(f);
    if i1 == 16 {
      FullMask(f, s, t);
    } else {
      DescentBelow(f, s, t, i1);
    }
  }

  lemma {:induction false} DescentBelow(f: Word16, s: seq<Word64>, t: seq<Word64>, i1: nat)
    requires Consistent(f, s, t) && i1 == LowestClear16(f) < 16
    ensures Descent(f, s, t).Some? && LeastOutside(Descent(f, s, t).value, Ids(t))
  {
    RoomFound(f, s, t, i1);
    var i2 := LowestClear64(s[i1]);
    var i3 := LowestClear64(t[i1 * 64 + i2]);
    DescentIs(f, s, t, i1, i2, i3);
    LeastFree(f, s, t, i1, i2, i3);
  }

  lemma {:induction false} DescentIs(f: Word16, s: seq<Word64>, t: seq<Word64>, i1: nat, i2: nat, i3: nat)
    requires |s| == 16 && |t| == 1024 && i1 < 16 && i2 < 64 && i3 < 64
    requires i1 == LowestClear16(f) && i2 == LowestClear64(s[i1]) && i3 == LowestClear64(t[i1 * 64 + i2])
    ensures Descent(f, s, t) == Some((i1 * 64 + i2) * 64 + i3)
  {
  }

  lemma {:induction false} RoomFound(f: Word16, s: seq<Word64>, t: seq<Word64>, i1: nat)
    requires Consistent(f, s, t) && i1 < 16 && !Bit(f, i1)
    ensures LowestClear64(s[i1]) < 64 && LowestClear64(t[i1 * 64 + LowestClear64(s[i1])]) < 64
  {
    RoomBelow(f, s, t, i1, 64);
    RoomBelow(f, s, t, i1, LowestClear64(s[i1]));
  }

  lemma {:induction false} LeastFree(f: Word16, s: seq<Word64>, t: seq<Word64>, i1: nat, i2: nat, i3: nat)
    requires Consistent(f, s, t) && i1 < 16 && i2 < 64 && i3 < 64
    requires AllBits(f, i1) && AllBits(s[i1], i2) && AllBits(t[i1 * 64 + i2], i3)
    requires !Bit(t[i1 * 64 + i2], i3)
    ensures LeastOutside((i1 * 64 + i2) * 64 + i3, Ids(t))
  {
    var k := i1 * 64 + i2;
    var found := k * 64 + i3;
    assert found / 64 == k && found % 64 == i3;
    assert !SummaryBit(t, found);
    forall id: nat | id !in Ids(t) ensures found <= id {
      if id < found {
        LowerReserved(f, s, t, i1, i2, i3, id);
      }
    }
  }

  lemma {:induction false} LowerReserved(f: Word16, s: seq<Word64>, t: seq<Word64>, i1: nat, i2: nat, i3: nat, id: nat)
    requires Consistent(f, s, t) && i1 < 16 && i2 < 64 && i3 < 64
    requires AllBits(f, i1) && AllBits(s[i1], i2) && AllBits(t[i1 * 64 + i2], i3)
    requires id < (i1 * 64 + i2) * 64 + i3
    ensures id in Ids(t)
  {
    if id / 4096 < i1 {
      assert Bit(f, id / 4096);
      TopCovers(f, s, t, id);
    } else if id / 64 < i1 * 64 + i2 {
      assert id / 64 / 64 == i1 && id / 64 % 64 < i2;
      assert Bit(s[i1], id / 64 % 64);
      WordCovers(f, s, t, id);
    } else {
      assert Bit(t[id / 64], id % 64);
    }
  }

  // ---------- Runs: drain the mask, free some ids, drain again ----------

  ghost predicate Ascending(ids: seq<nat>) {
    forall i, j | 0 <= i < j < |ids| :: ids[i] < ids[j]
  }

  ghost function Elements(ids: seq<nat>): set<nat> {
    set x | x in ids
  }

  /** Reserving whatever is found until nothing is left yields the free ids, in ascending order. */
  method TakeAll(mask: MLAllocMask) returns (ids: seq<nat>)
    requires mask.Valid()
    modifies mask, mask.s, mask.t
    ensures mask.Valid() && mask.Reserved() == AllIds()
    ensures Ascending(ids)
    ensures Elements(ids) == AllIds() - old(mask.Reserved())
    ensures |ids| == IDS - |old(mask.Reserved())|
  {
    ids := [];
    ghost var start, now := mask.Reserved(), mask.Reserved();
    var next := mask.FindAvailableId();
    while next.Some?
      invariant mask.Valid() && mask.Reserved() == now
      invariant Taken(start, ids, now)
      invariant next.Some? ==> LeastOutside(next.value, now)
      invariant next.None? ==> now == AllIds()
      decreases AllIds() - now
    {
      TakeOne(start, ids, now, next.value);
      mask.ReserveId(next.value);
      ids, now := ids + [next.value], now + {next.value as nat};
      next := mask.FindAvailableId();
    }
  }

  /** `ids` has been taken, in ascending order, from a mask that held `start` and now holds `now`. */
  ghost predicate Taken(start: set<nat>, ids: seq<nat>, now: set<nat>) {
    && Ascending(ids)
    && start <= now
    && Elements(ids) == now - start
    && |now| == |start| + |ids|
    && (ids != [] ==> forall y: nat | y !in now :: ids[|ids| - 1] < y)
  }

  lemma {:induction false} TakeOne(start: set<nat>, ids: seq<nat>, now: set<nat>, id: nat)
    requires Taken(start, ids, now) && LeastOutside(id, now)
    ensures Taken(start, ids + [id], now + {id})
  {
    StillAscending(ids, now, id);
    MoreElements(ids, id);
    assert (ids + [id])[|ids + [id]| - 1] == id;
    assert (now - start) + {id} == (now + {id}) - start;
  }

  lemma {:induction false} MoreElements(ids: seq<nat>, id: nat)
    ensures Elements(ids + [id]) == Elements(ids) + {id}
  {
  }

  lemma {:induction false} StillAscending(ids: seq<nat>, now: set<nat>, id: nat)
    requires Ascending(ids) && LeastOutside(id, now)
    requires ids != [] ==> forall y: nat | y !in now :: ids[|ids| - 1] < y
    ensures Ascending(ids + [id]) && forall y: nat | y !in now + {id} :: id < y
  {
    forall y: nat | y !in now + {id} ensures id < y {
      assert y !in now;
    }
    assert ids != [] ==> ids[|ids| - 1] < id;
  }

  method FreeAll(mask: MLAllocMask, victims: seq<Id>)
    requires mask.Valid()
    modifies mask, mask.s, mask.t
    ensures mask.Valid()
    ensures mask.Reserved() == old(mask.Reserved()) - Elements(victims)
  {
    for i := 0 to |victims|
      invariant mask.Valid()
      invariant mask.Reserved() == old(mask.Reserved()) - Elements(victims[..i])
    {
      mask.FreeId(victims[i]);
      assert Elements(victims[..i + 1]) == Elements(victims[..i]) + {victims[i] as nat};
    }
    assert victims[..|victims|] == victims;
  }

  /** From a full mask, exactly the freed ids come back, smallest first, whatever the order and
      the repetitions in which they were freed. */
  method FreeThenTake(mask: MLAllocMask, victims: seq<Id>) returns (ids: seq<nat>)
    requires mask.Valid() && mask.Reserved() == AllIds()
    modifies mask, mask.s, mask.t
    ensures mask.Valid() && mask.Reserved() == AllIds()
    ensures Ascending(ids) && Elements(ids) == Elements(victims)
  {
    FreeAll(mask, victims);
    FreedBack(victims);
    ids := TakeAll(mask);
  }

  lemma {:induction false} FreedBack(victims: seq<Id>)
    ensures AllIds() - (AllIds() - Elements(victims)) == Elements(victims)
  {
  }

  lemma {:induction false} NoElements(a: seq<nat>)
    ensures Elements(a) == {} <==> a == []
  {
    if a != [] {
      assert a[0] in Elements(a);
    }
  }

  /** An ascending enumeration is determined by its elements. */
  lemma {:induction false} AscendingUnique(a: seq<nat>, b: seq<nat>)
    requires Ascending(a) && Ascending(b) && Elements(a) == Elements(b)
    ensures a == b
  {
    NoElements(a);
    NoElements(b);
    if a != [] {
      var m, n := |a| - 1, |b| - 1;
      assert a[m] in Elements(b) && b[n] in Elements(a);
      assert a[m] == b[n];
      assert Elements(a[..m]) == Elements(a) - {a[m]};
      assert Elements(b[..n]) == Elements(b) - {b[n]};
      AscendingUnique(a[..m], b[..n]);
      assert a == a[..m] + [a[m]] && b == b[..n] + [b[n]];
    }
  }
}
