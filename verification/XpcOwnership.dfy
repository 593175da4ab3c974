/** The serializer and deserializer on the runtime's objects: what they build, retain and give back
    (src/pal/apple/xpc.rs). */
module XpcOwnership {
  import opened Wrappers
  import opened XpcTypes
  import opened XpcCodec
  import opened XpcHeap
  import XpcRoundTrip

  // ---------- Objects and the values they stand for ----------

  function Keys(es: seq<Entry>): (ks: seq<string>)
    ensures |ks| == |es| && forall i | 0 <= i < |es| :: ks[i] == es[i].key
  {
    seq(|es|, i requires 0 <= i < |es| => es[i].key)
  }

  ghost predicate DistinctKeys(es: seq<Entry>) {
    forall i, j | 0 <= i < j < |es| :: es[i].key != es[j].key
  }

  ghost predicate Denotes(nodes: map<Ref, Node>, r: Ref, x: Xpc)
    decreases x
  {
    r in nodes &&
    match x
    case XArray(xs) =>
      nodes[r].Array? && |nodes[r].items| == |xs|
          && forall i | 0 <= i < |xs| :: Denotes(nodes, nodes[r].items[i], xs[i])
    case XDict(d) =>
      && nodes[r].Dict?
      && var es := nodes[r].entries;
      && DistinctKeys(es) && (forall k :: k in d <==> k in Keys(es))
      && forall i | 0 <= i < |es| && es[i].key in d :: Denotes(nodes, es[i].value, d[es[i].key])
    case _ => nodes[r] == Leaf(x)
  }

  /** n is r or an object inside it. */
  ghost predicate Reaches(nodes: map<Ref, Node>, r: Ref, x: Xpc, n: Ref)
    decreases x
  {
    n == r || (r in nodes &&
    match x
    case XArray(xs) =>
      nodes[r].Array? && exists i | 0 <= i < |xs| && i < |nodes[r].items| :: Reaches(nodes, nodes[r].items[i], xs[i], n)
    case XDict(d) =>
      && nodes[r].Dict?
      && var es := nodes[r].entries;
      exists i | 0 <= i < |es| && es[i].key in d :: Reaches(nodes, es[i].value, d[es[i].key], n)
    case _ => false)
  }

  ghost predicate Extends(nodes': map<Ref, Node>, nodes: map<Ref, Node>) {
    forall n | n in nodes :: n in nodes' && nodes'[n] == nodes[n]
  }

  lemma {:induction false} DenotesMore(nodes: map<Ref, Node>, nodes': map<Ref, Node>, r: Ref, x: Xpc)
    requires Extends(nodes', nodes) && Denotes(nodes, r, x)
    ensures Denotes(nodes', r, x)
    decreases x
  {
    match x
    case XArray(xs) =>
      forall i | 0 <= i < |xs| ensures Denotes(nodes', nodes[r].items[i], xs[i]) {
        DenotesMore(nodes, nodes', nodes[r].items[i], xs[i]);
      }
    case XDict(d) =>
      var es := nodes[r].entries;
      forall i | 0 <= i < |es| && es[i].key in d ensures Denotes(nodes', es[i].value, d[es[i].key]) {
        DenotesMore(nodes, nodes', es[i].value, d[es[i].key]);
      }
    case _ =>
  }

  lemma {:induction false} ReachesMore(nodes: map<Ref, Node>, nodes': map<Ref, Node>, r: Ref, x: Xpc, n: Ref)
    requires Extends(nodes', nodes) && Reaches(nodes, r, x, n)
    ensures Reaches(nodes', r, x, n)
    decreases x
  {
    if n != r {
      match x
      case XArray(xs) =>
        var i :| 0 <= i < |xs| && i < |nodes[r].items| && Reaches(nodes, nodes[r].items[i], xs[i], n);
        ReachesMore(nodes, nodes', nodes[r].items[i], xs[i], n);
      case XDict(d) =>
        var es := nodes[r].entries;
        var i :| 0 <= i < |es| && es[i].key in d && Reaches(nodes, es[i].value, d[es[i].key], n);
        ReachesMore(nodes, nodes', es[i].value, d[es[i].key], n);
    }
  }

  ghost predicate AllDenote(nodes: map<Ref, Node>, rs: seq<Ref>, xs: seq<Xpc>) {
    |rs| == |xs| && forall i | 0 <= i < |rs| :: Denotes(nodes, rs[i], xs[i])
  }

  ghost predicate SomeReaches(nodes: map<Ref, Node>, rs: seq<Ref>, xs: seq<Xpc>, n: Ref) {
    exists i | 0 <= i < |rs| && i < |xs| :: Reaches(nodes, rs[i], xs[i], n)
  }

  lemma {:induction false} AllDenoteMore(nodes: map<Ref, Node>, nodes': map<Ref, Node>, rs: seq<Ref>, xs: seq<Xpc>)
    requires Extends(nodes', nodes) && AllDenote(nodes, rs, xs)
    ensures AllDenote(nodes', rs, xs)
  {
    forall i | 0 <= i < |rs| ensures Denotes(nodes', rs[i], xs[i]) {
      DenotesMore(nodes, nodes', rs[i], xs[i]);
    }
  }

  lemma {:induction false} SomeReachesMore(nodes: map<Ref, Node>, nodes': map<Ref, Node>, rs: seq<Ref>, xs: seq<Xpc>,
                                           n: Ref)
    requires Extends(nodes', nodes) && SomeReaches(nodes, rs, xs, n)
    ensures SomeReaches(nodes', rs, xs, n)
  {
    var i :| 0 <= i < |rs| && i < |xs| && Reaches(nodes, rs[i], xs[i], n);
    ReachesMore(nodes, nodes', rs[i], xs[i], n);
  }

  lemma {:induction false} SomeReachesPush(nodes: map<Ref, Node>, rs: seq<Ref>, xs: seq<Xpc>, r: Ref, x: Xpc, n: Ref)
    requires |rs| == |xs| && (SomeReaches(nodes, rs, xs, n) || Reaches(nodes, r, x, n))
    ensures SomeReaches(nodes, rs + [r], xs + [x], n)
  {
    var rs', xs' := rs + [r], xs + [x];
    if Reaches(nodes, r, x, n) {
      assert Reaches(nodes, rs'[|rs|], xs'[|rs|], n);
    } else {
      var i :| 0 <= i < |rs| && i < |xs| && Reaches(nodes, rs[i], xs[i], n);
      assert Reaches(nodes, rs'[i], xs'[i], n);
    }
  }

  /** The dictionary d has the entries' keys, and xs under them. */
  ghost predicate Collects(es: seq<Entry>, xs: seq<Xpc>, d: map<string, Xpc>) {
    && DistinctKeys(es) && |es| == |xs|
    && (forall k :: k in d <==> k in Keys(es))
    && forall i | 0 <= i < |es| :: es[i].key in d && d[es[i].key] == xs[i]
  }

  lemma {:induction false} CollectsMore(es: seq<Entry>, xs: seq<Xpc>, d: map<string, Xpc>, e: Entry, x: Xpc)
    requires Collects(es, xs, d) && e.key !in d
    ensures Collects(es + [e], xs + [x], d[e.key := x])
    ensures KeyIndex(es, e.key) == |es| && Values(es + [e]) == Values(es) + [e.value]
  {
    assert Keys(es + [e]) == Keys(es) + [e.key];
    assert forall i | 0 <= i < |es| :: Keys(es)[i] in Keys(es);
  }

  /** What a container holding rs stands for, given what they stand for. */
  ghost predicate Gathers(node: Node, xs: seq<Xpc>, x: Xpc) {
    match x
    case XArray(ys) => node.Array? && ys == xs
    case XDict(d) => node.Dict? && Collects(node.entries, xs, d)
    case _ => false
  }

  lemma {:induction false} ContainerDenotes(nodes: map<Ref, Node>, a: Ref, rs: seq<Ref>, xs: seq<Xpc>, x: Xpc)
    requires a in nodes && Children(nodes[a]) == rs && AllDenote(nodes, rs, xs) && Gathers(nodes[a], xs, x)
    ensures Denotes(nodes, a, x)
  {
    if x.XDict? {
      var es := nodes[a].entries;
      forall i | 0 <= i < |es| ensures Denotes(nodes, es[i].value, x.dict[es[i].key]) {
        assert Denotes(nodes, rs[i], xs[i]);
      }
    }
  }

  lemma {:induction false} ContainerReaches(nodes: map<Ref, Node>, a: Ref, rs: seq<Ref>, xs: seq<Xpc>, x: Xpc, n: Ref)
    requires a in nodes && Children(nodes[a]) == rs && |rs| == |xs| && Gathers(nodes[a], xs, x)
    requires SomeReaches(nodes, rs, xs, n)
    ensures Reaches(nodes, a, x, n)
  {
    var i :| 0 <= i < |rs| && i < |xs| && Reaches(nodes, rs[i], xs[i], n);
    if x.XDict? {
      var es := nodes[a].entries;
      assert Reaches(nodes, es[i].value, x.dict[es[i].key], n);
    }
  }

  // ---------- Building ----------

  ghost function From(nodes: map<Ref, Node>, lo: nat): (f: map<Ref, Node>)
    ensures forall n :: n in f <==> n in nodes && n >= lo
    ensures forall n | n in f :: f[n] == nodes[n]
  {
    map n | n in nodes && n >= lo :: nodes[n]
  }

  /** Objects from `lo` on are held exactly once. */
  ghost predicate HeldOnce(nodes: map<Ref, Node>, rc: map<Ref, nat>, lo: nat) {
    forall n | n in nodes && n >= lo :: n in rc && rc[n] == 1
  }

  /** A value has been built out of objects from `lo` on: r stands for x, every one of those objects
      is part of it and is held exactly once, and nothing older is touched. */
  ghost predicate Built(n0: map<Ref, Node>, rc0: map<Ref, nat>, n1: map<Ref, Node>, rc1: map<Ref, nat>,
                        lo: nat, r: Ref, x: Xpc)
  {
    && SameBelow(lo, n0, rc0, n1, rc1)
    && Above(lo, n1)
    && HeldOnce(n1, rc1, lo)
    && Denotes(From(n1, lo), r, x)
    && forall n {:trigger Reaches(From(n1, lo), r, x, n)} | n in n1 && n >= lo :: Reaches(From(n1, lo), r, x, n)
  }

  /** The container a is being filled: it holds rs, which stand for xs. */
  ghost predicate Filling(n0: map<Ref, Node>, rc0: map<Ref, nat>, n1: map<Ref, Node>, rc1: map<Ref, nat>,
                          a: Ref, rs: seq<Ref>, xs: seq<Xpc>)
  {
    && SameBelow(a, n0, rc0, n1, rc1)
    && Above(a + 1, n1)
    && HeldOnce(n1, rc1, a)
    && a in n1 && Children(n1[a]) == rs
    && AllDenote(From(n1, a + 1), rs, xs)
    && forall n {:trigger SomeReaches(From(n1, a + 1), rs, xs, n)} | n in n1 && n > a ::
         SomeReaches(From(n1, a + 1), rs, xs, n)
  }

  lemma {:induction false} FillStart(n0: map<Ref, Node>, rc0: map<Ref, nat>, a: Ref, node: Node)
    requires Children(node) == [] && (forall n | n in n0 :: n < a) && (forall n | n in rc0 :: n < a)
    ensures Filling(n0, rc0, n0[a := node], rc0[a := 1], a, [], [])
  {
  }

  /** One more element built and put in the container. */
  lemma {:induction false} FillStep(n0: map<Ref, Node>, rc0: map<Ref, nat>, n1: map<Ref, Node>, rc1: map<Ref, nat>,
                 n2: map<Ref, Node>, rc2: map<Ref, nat>, n3: map<Ref, Node>,
                 a: Ref, rs: seq<Ref>, xs: seq<Xpc>, lo: nat, r: Ref, x: Xpc)
    requires Filling(n0, rc0, n1, rc1, a, rs, xs) && Built(n1, rc1, n2, rc2, lo, r, x)
    requires forall n | n in n1 :: n < lo
    requires a in n3 && n3 == n2[a := n3[a]] && Children(n3[a]) == rs + [r]
    ensures Filling(n0, rc0, n3, rc2, a, rs + [r], xs + [x])
  {
    assert a < lo;
    var f1, f2, f3 := From(n1, a + 1), From(n2, lo), From(n3, a + 1);
    assert Extends(f3, f1) && Extends(f3, f2);
    FilledDenote(f1, f2, f3, rs, xs, r, x);
    forall n | n in n3 && n > a ensures SomeReaches(f3, rs + [r], xs + [x], n) {
      if n < lo {
        SomeReachesMore(f1, f3, rs, xs, n);
      } else {
        ReachesMore(f2, f3, r, x, n);
      }
      SomeReachesPush(f3, rs, xs, r, x, n);
    }
    StepFrame(n0, rc0, n1, rc1, n2, rc2, n3, a, lo);
  }

  lemma {:induction false} FilledDenote(f1: map<Ref, Node>, f2: map<Ref, Node>, f3: map<Ref, Node>,
                     rs: seq<Ref>, xs: seq<Xpc>, r: Ref, x: Xpc)
    requires Extends(f3, f1) && Extends(f3, f2) && AllDenote(f1, rs, xs) && Denotes(f2, r, x)
    ensures AllDenote(f3, rs + [r], xs + [x])
  {
    AllDenoteMore(f1, f3, rs, xs);
    DenotesMore(f2, f3, r, x);
  }

  lemma {:induction false} StepFrame(n0: map<Ref, Node>, rc0: map<Ref, nat>, n1: map<Ref, Node>, rc1: map<Ref, nat>,
                  n2: map<Ref, Node>, rc2: map<Ref, nat>, n3: map<Ref, Node>, a: Ref, lo: nat)
    requires SameBelow(a, n0, rc0, n1, rc1) && Above(a + 1, n1) && HeldOnce(n1, rc1, a)
    requires SameBelow(lo, n1, rc1, n2, rc2) && Above(lo, n2) && HeldOnce(n2, rc2, lo)
    requires a < lo && a in n1 && a in n3 && n3 == n2[a := n3[a]]
    ensures SameBelow(a, n0, rc0, n3, rc2) && Above(a + 1, n3) && HeldOnce(n3, rc2, a)
  {
    forall n, i | n in n3 && n >= a + 1 && 0 <= i < |Children(n3[n])| ensures Children(n3[n])[i] >= a + 1 {
      if n < lo {
        assert n3[n] == n1[n];
      } else {
        assert n3[n] == n2[n];
      }
    }
  }

  lemma {:induction false} FillDone(n0: map<Ref, Node>, rc0: map<Ref, nat>, n1: map<Ref, Node>, rc1: map<Ref, nat>,
                 a: Ref, rs: seq<Ref>, xs: seq<Xpc>, x: Xpc)
    requires Filling(n0, rc0, n1, rc1, a, rs, xs) && Gathers(n1[a], xs, x)
    ensures Built(n0, rc0, n1, rc1, a, a, x)
  {
    var f, g := From(n1, a + 1), From(n1, a);
    assert Extends(g, f);
    AllDenoteMore(f, g, rs, xs);
    ContainerDenotes(g, a, rs, xs, x);
    forall n | n in n1 && n >= a ensures Reaches(g, a, x, n) {
      if n > a {
        SomeReachesMore(f, g, rs, xs, n);
        ContainerReaches(g, a, rs, xs, x, n);
      }
    }
    DoneAbove(n1, a, rs, xs);
  }

  lemma {:induction false} DoneAbove(n1: map<Ref, Node>, a: Ref, rs: seq<Ref>, xs: seq<Xpc>)
    requires a in n1 && Children(n1[a]) == rs && AllDenote(From(n1, a + 1), rs, xs) && Above(a + 1, n1)
    ensures Above(a, n1)
  {
    forall n, i | n in n1 && n >= a && 0 <= i < |Children(n1[n])| ensures Children(n1[n])[i] >= a {
      if n == a {
        assert Denotes(From(n1, a + 1), rs[i], xs[i]);
      }
    }
  }

  /** A built value put under a variant's name. */
  lemma {:induction false} Wrapped(n0: map<Ref, Node>, rc0: map<Ref, nat>, n1: map<Ref, Node>, rc1: map<Ref, nat>,
                lo: nat, r: Ref, x: Xpc, d: Ref, name: string)
    requires Built(n0, rc0, n1, rc1, lo, r, x) && d >= lo && d !in n1
    ensures Built(n0, rc0, n1[d := Dict([Entry(name, r)])], rc1[d := 1], lo, d, XDict(map[name := x]))
  {
    var n2 := n1[d := Dict([Entry(name, r)])];
    WrapDenotes(From(n1, lo), From(n2, lo), r, x, d, name);
    forall n | n in n2 && n >= lo ensures Reaches(From(n2, lo), d, XDict(map[name := x]), n) {
      if n != d {
        WrapReaches(From(n1, lo), From(n2, lo), r, x, d, name, n);
      }
    }
    OneEntry(name, r, x);
    WrapAbove(n1, lo, d, Dict([Entry(name, r)]), r);
  }

  lemma {:induction false} WrapDenotes(f: map<Ref, Node>, g: map<Ref, Node>, r: Ref, x: Xpc, d: Ref, name: string)
    requires Extends(g, f) && Denotes(f, r, x) && d in g && g[d] == Dict([Entry(name, r)])
    ensures Denotes(g, d, XDict(map[name := x]))
  {
    OneEntry(name, r, x);
    DenotesMore(f, g, r, x);
    ContainerDenotes(g, d, [r], [x], XDict(map[name := x]));
  }

  lemma {:induction false} OneEntry(name: string, r: Ref, x: Xpc)
    ensures Gathers(Dict([Entry(name, r)]), [x], XDict(map[name := x])) && Children(Dict([Entry(name, r)])) == [r]
  {
    CollectsMore([], [], map[], Entry(name, r), x);
    assert [] + [Entry(name, r)] == [Entry(name, r)] && [] + [x] == [x];
    assert Values([Entry(name, r)]) == [r];
  }

  lemma {:induction false} WrapReaches(f: map<Ref, Node>, g: map<Ref, Node>, r: Ref, x: Xpc, d: Ref, name: string,
                                       n: Ref)
    requires Extends(g, f) && Reaches(f, r, x, n) && d in g && g[d] == Dict([Entry(name, r)])
    ensures Reaches(g, d, XDict(map[name := x]), n)
  {
    OneEntry(name, r, x);
    ReachesMore(f, g, r, x, n);
    assert Reaches(g, [r][0], [x][0], n);
    ContainerReaches(g, d, [r], [x], XDict(map[name := x]), n);
  }

  lemma {:induction false} WrapAbove(n1: map<Ref, Node>, lo: nat, d: Ref, node: Node, r: Ref)
    requires Above(lo, n1) && d !in n1 && Children(node) == [r] && r >= lo
    ensures Above(lo, n1[d := node])
  {
    var n2 := n1[d := node];
    forall n, i | n in n2 && n >= lo && 0 <= i < |Children(n2[n])| ensures Children(n2[n])[i] >= lo {
      if n != d {
        assert n2[n] == n1[n];
      }
    }
  }

  // ---------- Failing ----------

  /** The error is met before any container is open. */
  predicate Bare(v: Value) {
    match v
    case Just(u) => Bare(u)
    case Newtype(u) => Bare(u)
    case Seq(_) => false
    case Tuple(_) => false
    case Map(_) => false
    case Struct(_) => false
    case Variant(_, NewtypePayload(u)) => Encode(u).Err? && Bare(u)
    case Variant(_, TuplePayload(_)) => false
    case Variant(_, StructPayload(_)) => false
    case _ => true
  }

  /** A value whose encoding fails with a container open: the array of a list is lost. */
  lemma {:induction false} LeakExample()
    ensures var v := Seq([Str(['\0'])]);
            Typed(v) && Encode(v).Err? && !Bare(v)
  {
    var v := Seq([Str(['\0'])]);
    assert HasType(SStr, v.vs[0]);
    OfType(SSeq(SStr), v);
    assert HasNul(v.vs[0].s);
    assert EncodeAll(v.vs).Err?;
  }

  /** What a failed serialization has done: nothing older is touched, no older reference given
      away; `clean` says that nothing at all is left behind. */
  ghost predicate Failed(n0: map<Ref, Node>, rc0: map<Ref, nat>, o0: multiset<Ref>, lo: nat,
                         n1: map<Ref, Node>, rc1: map<Ref, nat>, o1: multiset<Ref>, clean: bool)
  {
    && SameBelow(lo, n0, rc0, n1, rc1)
    && (forall n: Ref | n < lo :: o0[n] == o1[n])
    && if clean then n1 == n0 && rc1 == rc0 && o1 == o0 else o1 != o0
  }
}
