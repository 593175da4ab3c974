/** The XPC runtime's objects with their reference counts, as the codec uses them (src/pal/apple/xpc.rs). */
module XpcHeap {
  import opened XpcTypes

  type Ref = nat

  datatype Entry = Entry(key: string, value: Ref)

  datatype Node = Leaf(x: Xpc) | Array(items: seq<Ref>) | Dict(entries: seq<Entry>)

  function Values(entries: seq<Entry>): (vs: seq<Ref>)
    ensures |vs| == |entries|
    ensures forall i | 0 <= i < |vs| :: vs[i] == entries[i].value
  {
    seq(|entries|, i requires 0 <= i < |entries| => entries[i].value)
  }

  function Children(n: Node): seq<Ref> {
    match n
    case Leaf(_) => []
    case Array(items) => items
    case Dict(entries) => Values(entries)
  }

  // ---------- How often an object sits in a container ----------

  ghost function InNode(nodes: map<Ref, Node>, c: Ref, r: Ref): nat {
    if c in nodes then multiset(Children(nodes[c]))[r] else 0
  }

  /** The container slots below `bound` that hold r. */
  ghost function Slots(nodes: map<Ref, Node>, r: Ref, bound: nat): nat {
    if bound == 0 then 0 else Slots(nodes, r, bound - 1) + InNode(nodes, bound - 1, r)
  }

  /** Changing one container changes the slots by what that container holds. */
  lemma {:induction false} SlotsChange(nodes: map<Ref, Node>, nodes': map<Ref, Node>, c: Ref, r: Ref, bound: nat)
    requires forall n | n != c :: n in nodes <==> n in nodes'
    requires forall n | n != c && n in nodes :: nodes[n] == nodes'[n]
    ensures Slots(nodes', r, bound) ==
            if c < bound then Slots(nodes, r, bound) - InNode(nodes, c, r) + InNode(nodes', c, r)
            else Slots(nodes, r, bound)
  {
    if bound > 0 {
      SlotsChange(nodes, nodes', c, r, bound - 1);
    }
  }

  lemma {:induction false} SlotHeld(nodes: map<Ref, Node>, c: Ref, r: Ref, bound: nat)
    requires c < bound
    ensures Slots(nodes, r, bound) >= InNode(nodes, c, r)
  {
    if c < bound - 1 {
      SlotHeld(nodes, c, r, bound - 1);
    }
  }

  /** Every count is the number of slots holding the object plus the references owned by code; an
      object is live exactly while its count is positive. */
  ghost predicate Balanced(nodes: map<Ref, Node>, rc: map<Ref, nat>, owned: multiset<Ref>, next: nat) {
    && nodes.Keys == rc.Keys
    && (forall r | r in rc :: rc[r] > 0 && r < next)
    && (forall r: Ref {:trigger Slots(nodes, r, next)} ::
        Slots(nodes, r, next) + owned[r] == if r in rc then rc[r] else 0)
  }

  // ---------- Frames ----------

  /** Nothing below `lo` is touched. */
  ghost predicate SameBelow(lo: nat, nodes: map<Ref, Node>, rc: map<Ref, nat>, nodes': map<Ref, Node>,
                            rc': map<Ref, nat>)
  {
    forall n: Ref | n < lo ::
      && (n in nodes <==> n in nodes') && (n in rc <==> n in rc')
      && (n in nodes ==> nodes[n] == nodes'[n])
      && (n in rc ==> rc[n] == rc'[n])
  }

  /** Objects from `lo` on hold only objects from `lo` on. */
  ghost predicate Above(lo: nat, nodes: map<Ref, Node>) {
    forall n, i | n in nodes && n >= lo && 0 <= i < |Children(nodes[n])| :: Children(nodes[n])[i] >= lo
  }

  /** Some objects may be gone; the others are as they were. */
  ghost predicate Within(nodes': map<Ref, Node>, nodes: map<Ref, Node>) {
    forall n | n in nodes' :: n in nodes && nodes'[n] == nodes[n]
  }

  ghost predicate AllFrom(lo: nat, rs: seq<Ref>) {
    forall i | 0 <= i < |rs| :: rs[i] >= lo
  }

  /** Below any level that nothing from `rs` on points under, nothing is touched. */
  ghost predicate Spares(rs: seq<Ref>, nodes: map<Ref, Node>, rc: map<Ref, nat>, nodes': map<Ref, Node>,
                         rc': map<Ref, nat>)
  {
    forall lo: nat | AllFrom(lo, rs) && Above(lo, nodes) :: SameBelow(lo, nodes, rc, nodes', rc')
  }

  lemma {:induction false} Smaller(nodes': map<Ref, Node>, nodes: map<Ref, Node>)
    requires Within(nodes', nodes)
    ensures |nodes'| <= |nodes|
  {
    assert nodes.Keys == nodes'.Keys + (nodes.Keys - nodes'.Keys);
    assert |nodes| == |nodes.Keys| && |nodes'| == |nodes'.Keys|;
  }

  lemma {:induction false} TakeFirst(rs: seq<Ref>, owned: multiset<Ref>)
    requires rs != [] && multiset(rs) <= owned
    ensures owned[rs[0]] > 0 && multiset(rs[1..]) <= owned - multiset{rs[0]}
    ensures owned - multiset{rs[0]} - multiset(rs[1..]) == owned - multiset(rs)
  {
    assert rs == [rs[0]] + rs[1..];
    assert rs[0] in multiset(rs);
  }

  lemma {:induction false} SparesOne(r: Ref, nodes: map<Ref, Node>, rc: map<Ref, nat>, nodes': map<Ref, Node>,
                                     rc': map<Ref, nat>)
    requires nodes' == nodes && r in rc && r in rc' && rc' == rc[r := rc'[r]]
    ensures Spares([r], nodes, rc, nodes', rc')
  {
    forall lo: nat | AllFrom(lo, [r]) && Above(lo, nodes) ensures SameBelow(lo, nodes, rc, nodes', rc') {
      assert [r][0] >= lo;
    }
  }

  lemma {:induction false} SparesDestroyed(r: Ref, n0: map<Ref, Node>, rc0: map<Ref, nat>, n1: map<Ref, Node>,
                                           rc1: map<Ref, nat>,
                                           n2: map<Ref, Node>, rc2: map<Ref, nat>)
    requires r in n0 && n1 == n0 - {r} && rc1 == rc0 - {r} && Spares(Children(n0[r]), n1, rc1, n2, rc2)
    ensures Spares([r], n0, rc0, n2, rc2)
  {
    forall lo: nat | AllFrom(lo, [r]) && Above(lo, n0) ensures SameBelow(lo, n0, rc0, n2, rc2) {
      assert [r][0] >= lo;
      assert Above(lo, n1) && AllFrom(lo, Children(n0[r]));
      assert SameBelow(lo, n1, rc1, n2, rc2);
    }
  }

  lemma {:induction false} SparesBoth(rs: seq<Ref>, n0: map<Ref, Node>, rc0: map<Ref, nat>, n1: map<Ref, Node>,
                                      rc1: map<Ref, nat>,
                                      n2: map<Ref, Node>, rc2: map<Ref, nat>)
    requires rs != [] && Within(n1, n0) && Spares([rs[0]], n0, rc0, n1, rc1) && Spares(rs[1..], n1, rc1, n2, rc2)
    ensures Spares(rs, n0, rc0, n2, rc2)
  {
    forall lo: nat | AllFrom(lo, rs) && Above(lo, n0) ensures SameBelow(lo, n0, rc0, n2, rc2) {
      assert AllFrom(lo, [rs[0]]) && AllFrom(lo, rs[1..]);
      assert Above(lo, n1);
      assert SameBelow(lo, n0, rc0, n1, rc1) && SameBelow(lo, n1, rc1, n2, rc2);
    }
  }

  class Runtime {
    var nodes: map<Ref, Node>
    var rc: map<Ref, nat>
    var next: nat
    /** The references held by code rather than by a container. */
    ghost var owned: multiset<Ref>

    ghost predicate Valid()
      reads this
    {
      Balanced(nodes, rc, owned, next)
    }

    constructor ()
      ensures Valid() && nodes == map[] && owned == multiset{}
    {
      nodes, rc, next, owned := map[], map[], 0, multiset{};
    }

    /** A new object belongs to its creator. */
    method Create(n: Node) returns (r: Ref)
      requires Valid() && Children(n) == []
      modifies this
      ensures Valid() && r == old(next) && r !in old(nodes) && next == r + 1
      ensures nodes == old(nodes)[r := n] && rc == old(rc)[r := 1] && owned == old(owned) + multiset{r}
    {
      r := next;
      nodes, rc, next, owned := nodes[r := n], rc[r := 1], next + 1, owned + multiset{r};
      forall k: Ref ensures Slots(nodes, k, next) == Slots(old(nodes), k, old(next)) {
        SlotsChange(old(nodes), nodes, r, k, old(next));
      }
    }

    method Retain(r: Ref)
      requires Valid() && r in nodes
      modifies this
      ensures Valid() && nodes == old(nodes) && next == old(next)
      ensures rc == old(rc)[r := old(rc[r]) + 1] && owned == old(owned) + multiset{r}
    {
      rc, owned := rc[r := rc[r] + 1], owned + multiset{r};
    }

    /** Giving back a reference; the last one destroys the object and gives back what it holds. */
    method Release(r: Ref)
      requires Valid() && owned[r] > 0
      modifies this
      ensures Valid() && owned == old(owned) - multiset{r} && next == old(next)
      ensures old(r in rc && rc[r] > 1) ==> nodes == old(nodes) && rc == old(rc)[r := old(rc)[r] - 1]
      ensures old(r in rc && rc[r] == 1 && Children(nodes[r]) == []) ==>
          nodes == old(nodes) - {r} && rc == old(rc) - {r}
      ensures Within(nodes, old(nodes)) && Spares([r], old(nodes), old(rc), nodes, rc)
      decreases |nodes|, 0, 0
    {
      assert r in rc by {
        assert Slots(nodes, r, next) + owned[r] > 0;
      }
      if rc[r] > 1 {
        rc, owned := rc[r := rc[r] - 1], owned - multiset{r};
        SparesOne(r, old(nodes), old(rc), nodes, rc);
      } else {
        var kids := Children(nodes[r]);
        Destroy(r);
        ghost var n1, rc1 := nodes, rc;
        ReleaseAll(kids);
        SparesDestroyed(r, old(nodes), old(rc), n1, rc1, nodes, rc);
      }
    }

    method ReleaseAll(rs: seq<Ref>)
      requires Valid() && multiset(rs) <= owned
      modifies this
      ensures Valid() && owned == old(owned) - multiset(rs) && next == old(next)
      ensures rs == [] ==> nodes == old(nodes) && rc == old(rc)
      ensures Within(nodes, old(nodes)) && Spares(rs, old(nodes), old(rc), nodes, rc)
      decreases |nodes|, 1, |rs|
    {
      if rs != [] {
        TakeFirst(rs, owned);
        Release(rs[0]);
        ghost var n1, rc1 := nodes, rc;
        Smaller(n1, old(nodes));
        ReleaseAll(rs[1..]);
        SparesBoth(rs, old(nodes), old(rc), n1, rc1, nodes, rc);
      }
    }

    /** The object goes; its slots become references to give back. */
    method Destroy(r: Ref)
      requires Valid() && r in rc && rc[r] == 1 && owned[r] > 0
      modifies this
      ensures Valid() && nodes == old(nodes) - {r} && rc == old(rc) - {r} && next == old(next)
      ensures owned == old(owned) - multiset{r} + multiset(Children(old(nodes[r]))) && |nodes| < old(|nodes|)
    {
      ghost var kids := Children(nodes[r]);
      assert Slots(nodes, r, next) + owned[r] == 1;
      SlotHeld(nodes, r, r, next);
      nodes, rc := nodes - {r}, rc - {r};
      owned := owned - multiset{r} + multiset(kids);
      forall k: Ref ensures Slots(nodes, k, next) + owned[k] == if k in rc then rc[k] else 0 {
        assert Slots(old(nodes), k, next) + old(owned)[k] == if k in old(rc) then old(rc)[k] else 0;
        SlotsChange(old(nodes), nodes, r, k, next);
      }
      assert nodes.Keys == old(nodes.Keys) - {r};
      assert |nodes| == |nodes.Keys| && old(|nodes|) == |old(nodes.Keys)|;
    }

    /** The array retains what is appended. */
    method Append(a: Ref, r: Ref)
      requires Valid() && a in nodes && nodes[a].Array? && r in nodes
      modifies this
      ensures Valid() && owned == old(owned) && next == old(next)
      ensures nodes == old(nodes)[a := Array(old(nodes[a].items) + [r])]
      ensures rc == old(rc)[r := old(rc[r]) + 1]
    {
      nodes, rc := nodes[a := Array(nodes[a].items + [r])], rc[r := rc[r] + 1];
      forall k: Ref ensures Slots(nodes, k, next) + owned[k] == if k in rc then rc[k] else 0 {
        assert Slots(old(nodes), k, next) + owned[k] == if k in old(rc) then old(rc)[k] else 0;
        SlotsChange(old(nodes), nodes, a, k, next);
      }
    }

    /** The dictionary retains what is set and gives back what it replaces. */
    method Set(d: Ref, key: string, r: Ref)
      requires Valid() && d in nodes && nodes[d].Dict? && r in nodes
      modifies this
      ensures Valid() && owned == old(owned) && next == old(next)
      ensures KeyIndex(old(nodes[d].entries), key) == |old(nodes[d].entries)| ==>
                && nodes == old(nodes)[d := Dict(old(nodes[d].entries) + [Entry(key, r)])]
                && rc == old(rc)[r := old(rc[r]) + 1]
    {
      var es := nodes[d].entries;
      var i := KeyIndex(es, key);
      if i == |es| {
        assert Values(es + [Entry(key, r)]) == Values(es) + [r];
        Put(d, es + [Entry(key, r)], r, multiset{});
      } else {
        assert Values(es[i := Entry(key, r)]) == Values(es)[i := r];
        Put(d, es[i := Entry(key, r)], r, multiset{es[i].value});
        Release(es[i].value);
      }
    }

    /** New entries with one slot more for r; what they no longer hold is left to give back. */
    method Put(d: Ref, entries: seq<Entry>, r: Ref, ghost dropped: multiset<Ref>)
      requires Valid() && d in nodes && nodes[d].Dict? && r in nodes
      requires multiset(Values(entries)) + dropped == multiset(Values(nodes[d].entries)) + multiset{r}
      modifies this
      ensures Valid() && owned == old(owned) + dropped && next == old(next)
      ensures nodes == old(nodes)[d := Dict(entries)] && rc == old(rc)[r := old(rc[r]) + 1]
    {
      ghost var held := multiset(Values(nodes[d].entries));
      nodes, rc, owned := nodes[d := Dict(entries)], rc[r := rc[r] + 1], owned + dropped;
      forall k: Ref ensures Slots(nodes, k, next) + owned[k] == if k in rc then rc[k] else 0 {
        assert Slots(old(nodes), k, next) + old(owned)[k] == if k in old(rc) then old(rc)[k] else 0;
        SlotsChange(old(nodes), nodes, d, k, next);
        assert (multiset(Values(entries)) + dropped)[k] == (held + multiset{r})[k];
      }
    }
  }

  /** A key made into an object and given back at once. */
  method TouchKey(h: Runtime, k: string)
    requires h.Valid()
    modifies h
    ensures h.Valid() && h.nodes == old(h.nodes) && h.rc == old(h.rc) && h.owned == old(h.owned)
        && h.next >= old(h.next)
  {
    var key := h.Create(Leaf(XString(k)));
    h.Release(key);
  }

  function KeyIndex(es: seq<Entry>, key: string): (i: nat)
    ensures i <= |es|
    ensures i < |es| ==> es[i].key == key
    ensures forall j | 0 <= j < i :: es[j].key != key
  {
    if es == [] then 0 else if es[0].key == key then 0 else 1 + KeyIndex(es[1..], key)
  }
}
