/** A value sent through the codec and its object dropped: what comes out, and that nothing stays
    (the round trips of src/pal/apple/xpc.rs). */
module XpcLifecycle {
  import opened Wrappers
  import opened XpcTypes
  import opened XpcCodec
  import opened XpcHeap
  import opened XpcOwnership
  import XpcRoundTrip
  import XpcSerialize
  import XpcDeserialize

  lemma {:induction false} SlotsLost(nodes: map<Ref, Node>, nodes': map<Ref, Node>, p: Ref, c: Ref, bound: nat)
    requires Within(nodes', nodes) && p !in nodes'
    ensures p < bound ==> Slots(nodes', c, bound) + InNode(nodes, p, c) <= Slots(nodes, c, bound)
    ensures Slots(nodes', c, bound) <= Slots(nodes, c, bound)
  {
    if bound > 0 {
      SlotsLost(nodes, nodes', p, c, bound - 1);
    }
  }

  /** An object held once, by a container that is gone, is gone. */
  lemma {:induction false} ChildGone(n1: map<Ref, Node>, rc1: map<Ref, nat>, o1: multiset<Ref>, n2: map<Ref, Node>,
                                     rc2: map<Ref, nat>,
                  o2: multiset<Ref>, next: nat, p: Ref, c: Ref)
    requires Balanced(n1, rc1, o1, next) && Balanced(n2, rc2, o2, next) && Within(n2, n1)
    requires p in n1 && c in Children(n1[p]) && p !in n2
    requires c in rc1 && rc1[c] == 1 && o2[c] == 0
    ensures c !in n2
  {
    SlotsLost(n1, n2, p, c, next);
    assert Slots(n1, c, next) + o1[c] == 1;
    assert Slots(n2, c, next) + o2[c] == 0;
  }

  /** With the root the whole tree is gone. */
  lemma {:induction false} TreeGone(n1: map<Ref, Node>, rc1: map<Ref, nat>, o1: multiset<Ref>, n2: map<Ref, Node>,
                                    rc2: map<Ref, nat>, o2: multiset<Ref>, next: nat, lo: nat, r: Ref, x: Xpc, n: Ref)
    requires Balanced(n1, rc1, o1, next) && Balanced(n2, rc2, o2, next) && Within(n2, n1)
    requires HeldOnce(n1, rc1, lo) && (forall k: Ref | k >= lo :: o2[k] == 0)
    requires Denotes(From(n1, lo), r, x) && Reaches(From(n1, lo), r, x, n) && r !in n2
    ensures n !in n2
    decreases x
  {
    var f := From(n1, lo);
    if n != r {
      match x
      case XArray(xs) =>
        var items := f[r].items;
        var i :| 0 <= i < |xs| && i < |items| && Reaches(f, items[i], xs[i], n);
        assert Denotes(f, items[i], xs[i]);
        ChildGone(n1, rc1, o1, n2, rc2, o2, next, r, items[i]);
        TreeGone(n1, rc1, o1, n2, rc2, o2, next, lo, items[i], xs[i], n);
      case XDict(d) =>
        var es := f[r].entries;
        var i :| 0 <= i < |es| && es[i].key in d && Reaches(f, es[i].value, d[es[i].key], n);
        assert Denotes(f, es[i].value, d[es[i].key]);
        assert Values(es)[i] == es[i].value;
        ChildGone(n1, rc1, o1, n2, rc2, o2, next, r, es[i].value);
        TreeGone(n1, rc1, o1, n2, rc2, o2, next, lo, es[i].value, d[es[i].key], n);
    }
  }

  /** Dropping the one reference to a built tree destroys exactly that tree. */
  method DropTree(h: Runtime, ghost n0: map<Ref, Node>, ghost rc0: map<Ref, nat>, ghost lo: nat, r: Ref, ghost x: Xpc)
    requires h.Valid() && Built(n0, rc0, h.nodes, h.rc, lo, r, x)
    requires n0.Keys == rc0.Keys && forall n | n in n0 :: n < lo
    requires h.owned[r] > 0 && forall n: Ref | n >= lo && n != r :: h.owned[n] == 0
    modifies h
    ensures h.Valid() && h.nodes == n0 && h.rc == rc0 && h.owned == old(h.owned) - multiset{r} && h.next == old(h.next)
  {
    ghost var n1, rc1, o1 := h.nodes, h.rc, h.owned;
    assert r in From(n1, lo) && rc1[r] == 1;
    assert o1[r] == 1 by {
      assert Slots(n1, r, h.next) + o1[r] == 1;
    }
    h.Release(r);
    assert Slots(h.nodes, r, h.next) + h.owned[r] == 0 by {
      RootGone(n1, rc1, o1, h.nodes, h.next, r);
    }
    assert r !in h.nodes;
    assert AllFrom(lo, [r]);
    assert SameBelow(lo, n1, rc1, h.nodes, h.rc);
    forall n | n in h.nodes ensures n < lo {
      if n >= lo {
        assert Reaches(From(n1, lo), r, x, n);
        TreeGone(n1, rc1, o1, h.nodes, h.rc, h.owned, h.next, lo, r, x, n);
      }
    }
    assert h.nodes == n0 && h.rc == rc0;
  }

  lemma {:induction false} RootGone(n1: map<Ref, Node>, rc1: map<Ref, nat>, o1: multiset<Ref>, n2: map<Ref, Node>,
                                    next: nat, r: Ref)
    requires Balanced(n1, rc1, o1, next) && Within(n2, n1) && r in rc1 && rc1[r] == 1 && o1[r] == 1
    ensures Slots(n2, r, next) == 0
  {
    assert Slots(n1, r, next) + o1[r] == 1;
    SlotsLost(n1, n2, next, r, next);
  }

  /** to_xpc, from_xpc, drop. The value comes back, options of null collapsed, and the runtime is as
      it was before. */
  method Roundtrip(h: Runtime, s: Schema, v: Value, ghost order: Order) returns (u: Result<Value>)
    requires h.Valid() && WellFormed(s) && HasType(s, v) && ValidOrder(order)
    modifies h
    ensures h.Valid()
    ensures XpcRoundTrip.NulFree(v) <==> u.Ok?
    ensures u.Ok? ==> u == Ok(XpcRoundTrip.Collapse(v)) && (u == Ok(v) <==> XpcRoundTrip.NoNullOption(v))
    ensures u.Ok? ==> h.nodes == old(h.nodes) && h.rc == old(h.rc) && h.owned == old(h.owned)
  {
    OfType(s, v);
    XpcRoundTrip.RoundTripExact(s, v, order);
    var r := XpcSerialize.ToXpc(h, v);
    if r.Err? {
      return Err;
    }
    XpcRoundTrip.RoundTrip(s, v, order);
    ghost var x := Encode(v).value;
    DenotesMore(From(h.nodes, old(h.next)), h.nodes, r.value, x);
    u := XpcDeserialize.FromXpc(h, s, r.value, x, order);
    XpcSerialize.UnownedNext(old(h.nodes), old(h.rc), old(h.owned), old(h.next));
    DropTree(h, old(h.nodes), old(h.rc), old(h.next), r.value, x);
  }
}
