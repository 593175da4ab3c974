/** The operations on handles (src/sync.rs), taken one instruction at a time without interruption, do
    to one object's counts and blocks what they do to the block table. */
module FineHandles {
  import opened Wrappers
  import opened Blocks
  import opened Handles
  import F = FineRelease

  datatype Op = Clone | Downgrade | Upgrade | DropStrong | DropWeak

  const LAST_WORD: nat := 0xFFFF_FFFF

  /** A handle asks for it, and no count wraps. */
  predicate Asked(o: F.Object, op: Op) {
    match op
    case Clone => o.strong > 0 && o.count < LAST_WORD
    case Downgrade => o.strong > 0 && o.weaks < LAST_WORD
    case Upgrade => o.weak > 0 && o.count < LAST_WORD
    case DropStrong => o.strong > 0
    case DropWeak => o.weak > 0
  }

  /** The instructions of the operation when nobody interferes. */
  function Instructions(o: F.Object, op: Op): seq<F.Action> {
    match op
    case Clone => [F.Clone]
    case Downgrade => [F.Downgrade]
    case Upgrade => [F.Upgrade]
    case DropStrong =>
      if o.count > 1 then [F.SubCount]
      else if o.weaks > 0 then [F.SubCount, F.Run(F.FreeData), F.Run(F.LoadWeaks)]
      else [F.SubCount, F.Run(F.FreeData), F.Run(F.LoadWeaks), F.Run(F.FreeRcsStrong)]
    case DropWeak =>
      if o.weaks > 1 then [F.SubWeaks]
      else if o.count > 0 then [F.SubWeaks, F.Run(F.LoadCount)]
      else [F.SubWeaks, F.Run(F.LoadCount), F.Run(F.FreeRcsWeak)]
  }

  /** What the operation does to the block table. */
  function OnTable(st: State, d: BlockId, r: BlockId, op: Op): State
    requires IsRcs(st, r)
  {
    var b := st.live[r];
    match op
    case Clone => WithCount(st, r, FetchAdd(b.count))
    case Downgrade => WithWeaks(st, r, FetchAdd(b.weaks))
    case Upgrade => if b.count != 0 then WithCount(st, r, FetchAdd(b.count)) else st
    case DropStrong => ClientRelease(st, d, r)
    case DropWeak => ReleaseWeak(st, r)
  }

  /** The table has the object's counts, and each of its two blocks until it was freed. */
  ghost predicate Shows(o: F.Object, st: State, d: BlockId, r: BlockId) {
    && o.pending == F.NONE && d != r
    && o.dataFrees == (if d in st.live then 0 else 1)
    && o.rcsFrees == (if r in st.live then 0 else 1)
    && (r in st.live ==>
          IsRcs(st, r) && st.live[r].data == d && st.live[r].count == o.count && st.live[r].weaks == o.weaks)
  }

  ghost predicate Stands(o: F.Object, st: State, d: BlockId, r: BlockId) {
    F.QuietInv(o) && Shows(o, st, d, r)
  }

  /** The blocks freed between the two objects, in order. */
  function FreedSince(o: F.Object, o': F.Object, d: BlockId, r: BlockId): seq<BlockId> {
    (if o'.dataFrees > o.dataFrees then [d] else []) + (if o'.rcsFrees > o.rcsFrees then [r] else [])
  }

  /** The operation makes or drops the handle it is for. An upgrade makes one if there is a strong one. */
  ghost predicate HandlesAfter(o: F.Object, o': F.Object, op: Op) {
    match op
    case Clone => o'.strong == o.strong + 1 && o'.weak == o.weak
    case Downgrade => o'.strong == o.strong && o'.weak == o.weak + 1
    case Upgrade => o'.strong == (if o.strong > 0 then o.strong + 1 else o.strong) && o'.weak == o.weak
    case DropStrong => o'.strong == o.strong - 1 && o'.weak == o.weak
    case DropWeak => o'.strong == o.strong && o'.weak == o.weak - 1
  }

  /** What the instructions come to, without a downgrade inside a weak drop. */
  ghost predicate Comes(o: F.Object, run: seq<F.Action>, o': F.Object)
    decreases |run|
  {
    if run == [] then o' == o
    else
      && F.Enabled(o, run[0]) && (run[0] == F.Downgrade ==> o.pending.loadCount == 0)
      && Comes(F.Step(o, run[0]), run[1..], o')
  }

  lemma {:induction false} ComesIsRun(o: F.Object, run: seq<F.Action>, o': F.Object)
    ensures Comes(o, run, o') <==> F.IsRun(o, run) && F.Quiet(o, run) && F.After(o, run) == o'
    decreases |run|
  {
    if run != [] && F.Enabled(o, run[0]) {
      ComesIsRun(F.Step(o, run[0]), run[1..], o');
    }
  }

  lemma {:induction false} ComesKeeps(o: F.Object, run: seq<F.Action>, o': F.Object)
    requires F.QuietInv(o) && Comes(o, run, o')
    ensures F.QuietInv(o')
  {
    ComesIsRun(o, run, o');
    F.QuietRunKeeps(o, run);
  }

  lemma {:induction false} ComesOnce(o: F.Object, run: seq<F.Action>, a: F.Object, b: F.Object)
    requires Comes(o, run, a) && Comes(o, run, b)
    ensures a == b
    decreases |run|
  {
    if run != [] {
      ComesOnce(F.Step(o, run[0]), run[1..], a, b);
    }
  }

  lemma {:induction false} NoMore(o: F.Object)
    ensures Comes(o, [], o)
  {
  }

  lemma {:induction false} OneMore(o: F.Object, a: F.Action, rest: seq<F.Action>, o': F.Object)
    requires F.Enabled(o, a) && (a == F.Downgrade ==> o.pending.loadCount == 0) && Comes(F.Step(o, a), rest, o')
    ensures Comes(o, [a] + rest, o')
  {
    assert ([a] + rest)[1..] == rest;
  }

  lemma {:induction false} PlayOne(o: F.Object, a: F.Action)
    requires F.Enabled(o, a) && (a == F.Downgrade ==> o.pending.loadCount == 0)
    ensures Comes(o, [a], F.Step(o, a))
  {
    NoMore(F.Step(o, a));
    OneMore(o, a, [], F.Step(o, a));
    assert [a] + [] == [a];
  }

  /** A strong drop from its decrement to its last instruction. */
  lemma {:induction false} DropsStrong(o: F.Object) returns (o': F.Object)
    requires o.pending == F.NONE && o.strong > 0 && o.count > 0
    ensures Comes(o, Instructions(o, DropStrong), o')
    ensures o' == o.(strong := o.strong - 1, count := o.count - 1,
                     dataFrees := if o.count > 1 then o.dataFrees else o.dataFrees + 1,
                     rcsFrees := if o.count > 1 || o.weaks > 0 then o.rcsFrees else o.rcsFrees + 1)
  {
    var o1 := F.Step(o, F.SubCount);
    if o.count > 1 {
      o' := o1;
      PlayOne(o, F.SubCount);
    } else {
      var o2 := F.Step(o1, F.Run(F.FreeData));
      var o3 := F.Step(o2, F.Run(F.LoadWeaks));
      var last: seq<F.Action> := if o.weaks > 0 then [] else [F.Run(F.FreeRcsStrong)];
      if o.weaks > 0 {
        o' := o3;
        NoMore(o3);
      } else {
        o' := F.Step(o3, F.Run(F.FreeRcsStrong));
        PlayOne(o3, F.Run(F.FreeRcsStrong));
      }
      OneMore(o2, F.Run(F.LoadWeaks), last, o');
      OneMore(o1, F.Run(F.FreeData), [F.Run(F.LoadWeaks)] + last, o');
      OneMore(o, F.SubCount, [F.Run(F.FreeData)] + ([F.Run(F.LoadWeaks)] + last), o');
      assert Instructions(o, DropStrong) == [F.SubCount] + ([F.Run(F.FreeData)] + ([F.Run(F.LoadWeaks)] + last));
    }
  }

  lemma {:induction false} DropsWeak(o: F.Object) returns (o': F.Object)
    requires o.pending == F.NONE && o.weak > 0 && o.weaks > 0
    ensures Comes(o, Instructions(o, DropWeak), o')
    ensures o' == o.(weak := o.weak - 1, weaks := o.weaks - 1,
                     rcsFrees := if o.weaks > 1 || o.count > 0 then o.rcsFrees else o.rcsFrees + 1)
  {
    var o1 := F.Step(o, F.SubWeaks);
    if o.weaks > 1 {
      o' := o1;
      PlayOne(o, F.SubWeaks);
    } else {
      var o2 := F.Step(o1, F.Run(F.LoadCount));
      var last: seq<F.Action> := if o.count > 0 then [] else [F.Run(F.FreeRcsWeak)];
      if o.count > 0 {
        o' := o2;
        NoMore(o2);
      } else {
        o' := F.Step(o2, F.Run(F.FreeRcsWeak));
        PlayOne(o2, F.Run(F.FreeRcsWeak));
      }
      OneMore(o1, F.Run(F.LoadCount), last, o');
      OneMore(o, F.SubWeaks, [F.Run(F.LoadCount)] + last, o');
      assert Instructions(o, DropWeak) == [F.SubWeaks] + ([F.Run(F.LoadCount)] + last);
    }
  }

  /** One handle less, with what the last one frees. */
  lemma {:induction false} StrongOnTable(o: F.Object, o': F.Object, st: State, d: BlockId, r: BlockId)
    requires Shows(o, st, d, r) && r in st.live && d in st.live && o.count > 0
    requires o' == o.(strong := o'.strong, count := o.count - 1,
                      dataFrees := if o.count > 1 then o.dataFrees else o.dataFrees + 1,
                      rcsFrees := if o.count > 1 || o.weaks > 0 then o.rcsFrees else o.rcsFrees + 1)
    ensures var st' := OnTable(st, d, r, DropStrong);
            Shows(o', st', d, r) && st'.free == st.free + FreedSince(o, o', d, r)
  {
    assert st.free + [] == st.free && st.free + [d] + [r] == st.free + [d, r];
  }

  lemma {:induction false} WeakOnTable(o: F.Object, o': F.Object, st: State, d: BlockId, r: BlockId)
    requires Shows(o, st, d, r) && r in st.live && o.weaks > 0
    requires o' == o.(weak := o'.weak, weaks := o.weaks - 1,
                      rcsFrees := if o.weaks > 1 || o.count > 0 then o.rcsFrees else o.rcsFrees + 1)
    ensures var st' := OnTable(st, d, r, DropWeak);
            Shows(o', st', d, r) && st'.free == st.free + FreedSince(o, o', d, r)
  {
    assert st.free + [] == st.free;
  }

  lemma {:induction false} CountsOnTable(o: F.Object, op: Op, st: State, d: BlockId, r: BlockId)
    requires (op.Clone? || op.Downgrade? || op.Upgrade?) && Shows(o, st, d, r) && r in st.live && Asked(o, op)
    requires Instructions(o, op) != [] && F.Enabled(o, Instructions(o, op)[0])
    ensures var o', st' := F.Step(o, Instructions(o, op)[0]), OnTable(st, d, r, op);
            Shows(o', st', d, r) && st'.free == st.free + FreedSince(o, o', d, r)
  {
    assert st.free + [] == st.free;
  }

  /** Uninterrupted, the instructions of the operation make of the counts, the two blocks and the free
      list what the operation makes of the block table, and they make or drop its handle. */
  ghost predicate Refined(o: F.Object, st: State, d: BlockId, r: BlockId, op: Op, o': F.Object) {
    && IsRcs(st, r) && Comes(o, Instructions(o, op), o') && HandlesAfter(o, o', op)
    && Stands(o', OnTable(st, d, r, op), d, r)
    && OnTable(st, d, r, op).free == st.free + FreedSince(o, o', d, r)
  }

  lemma {:induction false} StrongRefines(o: F.Object, st: State, d: BlockId, r: BlockId) returns (o': F.Object)
    requires Stands(o, st, d, r) && Asked(o, DropStrong)
    ensures Refined(o, st, d, r, DropStrong, o')
  {
    o' := DropsStrong(o);
    ComesKeeps(o, Instructions(o, DropStrong), o');
    StrongOnTable(o, o', st, d, r);
  }

  lemma {:induction false} WeakRefines(o: F.Object, st: State, d: BlockId, r: BlockId) returns (o': F.Object)
    requires Stands(o, st, d, r) && Asked(o, DropWeak)
    ensures Refined(o, st, d, r, DropWeak, o')
  {
    o' := DropsWeak(o);
    ComesKeeps(o, Instructions(o, DropWeak), o');
    WeakOnTable(o, o', st, d, r);
  }

  lemma {:induction false} CountsRefine(o: F.Object, st: State, d: BlockId, r: BlockId, op: Op)
    returns (o': F.Object)
    requires (op.Clone? || op.Downgrade? || op.Upgrade?) && Stands(o, st, d, r) && Asked(o, op)
    ensures Refined(o, st, d, r, op, o')
  {
    var a := Instructions(o, op)[0];
    o' := F.Step(o, a);
    PlayOne(o, a);
    ComesKeeps(o, Instructions(o, op), o');
    CountsOnTable(o, op, st, d, r);
  }

  lemma {:induction false} Refines(o: F.Object, st: State, d: BlockId, r: BlockId, op: Op) returns (o': F.Object)
    requires Stands(o, st, d, r) && Asked(o, op)
    ensures Refined(o, st, d, r, op, o')
  {
    if op == DropStrong {
      o' := StrongRefines(o, st, d, r);
    } else if op == DropWeak {
      o' := WeakRefines(o, st, d, r);
    } else {
      o' := CountsRefine(o, st, d, r, op);
    }
  }

  // ---------- The handles themselves ----------

  method CloneRefines(server: Server, arc: Arc, ghost o: F.Object) returns (copy: Arc, ghost o': F.Object)
    requires arc.Points(server.St()) && Stands(o, server.St(), arc.dataId.block, arc.rcsId.block) && Asked(o, Clone)
    modifies server`allocations
    ensures Comes(o, Instructions(o, Clone), o') && Stands(o', server.St(), arc.dataId.block, arc.rcsId.block)
    ensures o'.strong == o.strong + 1 && o'.weak == o.weak && copy.Points(server.St())
  {
    o' := Refines(o, server.St(), arc.dataId.block, arc.rcsId.block, Clone);
    copy := arc.Clone(server);
  }

  method DowngradeRefines(server: Server, arc: Arc, ghost o: F.Object) returns (weak: Weak, ghost o': F.Object)
    requires arc.Points(server.St()) && Stands(o, server.St(), arc.dataId.block, arc.rcsId.block) && Asked(o, Downgrade)
    modifies server`allocations
    ensures Comes(o, Instructions(o, Downgrade), o') && Stands(o', server.St(), arc.dataId.block, arc.rcsId.block)
    ensures o'.strong == o.strong && o'.weak == o.weak + 1 && weak.rcsId == arc.rcsId
  {
    o' := Refines(o, server.St(), arc.dataId.block, arc.rcsId.block, Downgrade);
    weak := arc.Downgrade(server);
  }

  /** A strong handle is made exactly when the instruction makes one, and that is when there is one. */
  method UpgradeRefines(server: Server, weak: Weak, d: BlockId, ghost o: F.Object)
    returns (arc: Option<Arc>, ghost o': F.Object)
    requires weak.rcsId.Id? && Stands(o, server.St(), d, weak.rcsId.block) && Asked(o, Upgrade)
    modifies server`allocations
    ensures Comes(o, Instructions(o, Upgrade), o') && Stands(o', server.St(), d, weak.rcsId.block)
    ensures arc.Some? <==> o'.strong == o.strong + 1
    ensures arc.None? <==> o'.strong == o.strong == 0
  {
    o' := Refines(o, server.St(), d, weak.rcsId.block, Upgrade);
    arc := weak.Upgrade(server);
  }

  method DropRefines(server: Server, arc: Arc, ghost o: F.Object) returns (ghost o': F.Object)
    requires arc.Points(server.St()) && Stands(o, server.St(), arc.dataId.block, arc.rcsId.block)
    requires Asked(o, DropStrong)
    modifies arc, server
    ensures Comes(o, Instructions(o, DropStrong), o') && o'.strong == o.strong - 1 && o'.weak == o.weak
    ensures Stands(o', server.St(), old(arc.dataId.block), old(arc.rcsId.block))
    ensures server.St().free
         == old(server.St().free) + FreedSince(o, o', old(arc.dataId.block), old(arc.rcsId.block))
  {
    ghost var st, d, r := server.St(), arc.dataId.block, arc.rcsId.block;
    o' := Refines(o, st, d, r, DropStrong);
    var _ := arc.DecrementStrongCount(server);
    assert server.St() == OnTable(st, d, r, DropStrong);
  }

  method DropWeakRefines(server: Server, weak: Weak, d: BlockId, ghost o: F.Object) returns (ghost o': F.Object)
    requires weak.rcsId.Id? && Stands(o, server.St(), d, weak.rcsId.block) && Asked(o, DropWeak)
    modifies weak, server
    ensures Comes(o, Instructions(o, DropWeak), o') && o'.strong == o.strong && o'.weak == o.weak - 1
    ensures Stands(o', server.St(), d, old(weak.rcsId.block))
    ensures server.St().free == old(server.St().free) + FreedSince(o, o', d, old(weak.rcsId.block))
  {
    ghost var st, r := server.St(), weak.rcsId.block;
    o' := Refines(o, st, d, r, DropWeak);
    weak.DecrementWeakCount(server);
    assert server.St() == OnTable(st, d, r, DropWeak);
  }

  /** A new object in its two blocks is one to start from. */
  lemma {:induction false} NewStands(st: State, fault1: bool, fault2: bool)
    requires Owned(st) && NewObject(st, fault1, fault2).0.Both?
    ensures var (out, st') := NewObject(st, fault1, fault2);
            Stands(F.FIRST, st', out.data, out.rcs)
  {
    NewObjectLeaves(st, fault1, fault2);
    var (out, st') := NewObject(st, fault1, fault2);
    FirstStands(F.FIRST, st', out.data, out.rcs);
  }

  // ---------- Whole runs ----------

  /** One operation after the other, on the object and on the table: `run` are all their instructions. */
  ghost predicate Runs(o: F.Object, st: State, d: BlockId, r: BlockId, ops: seq<Op>, run: seq<F.Action>,
                       o': F.Object, st': State)
    decreases |ops|
  {
    if ops == [] then run == [] && o' == o && st' == st
    else
      && Asked(o, ops[0]) && IsRcs(st, r)
      && exists o1, rest ::
           && run == Instructions(o, ops[0]) + rest && Comes(o, Instructions(o, ops[0]), o1)
           && Runs(o1, OnTable(st, d, r, ops[0]), d, r, ops[1..], rest, o', st')
  }

  lemma {:induction false} Chained(o: F.Object, a: seq<F.Action>, o1: F.Object, b: seq<F.Action>, o2: F.Object)
    requires Comes(o, a, o1) && Comes(o1, b, o2)
    ensures Comes(o, a + b, o2)
    decreases |a|
  {
    if a == [] {
      assert a + b == b;
    } else {
      assert (a + b)[1..] == a[1..] + b;
      Chained(F.Step(o, a[0]), a[1..], o1, b, o2);
    }
  }

  lemma {:induction false} StepRefines(o: F.Object, st: State, d: BlockId, r: BlockId, op: Op, o1: F.Object)
    requires Stands(o, st, d, r) && Asked(o, op) && Comes(o, Instructions(o, op), o1)
    ensures IsRcs(st, r) && Stands(o1, OnTable(st, d, r, op), d, r)
  {
    var o' := Refines(o, st, d, r, op);
    ComesOnce(o, Instructions(o, op), o', o1);
  }

  /** Any operations on an object, one after the other, are a quiet run of single instructions, and in
      the end the table shows the object: the two agree on what is live, counted and freed. */
  lemma {:induction false} RunRefines(o: F.Object, st: State, d: BlockId, r: BlockId, ops: seq<Op>,
                                      run: seq<F.Action>, o': F.Object, st': State)
    requires Stands(o, st, d, r) && Runs(o, st, d, r, ops, run, o', st')
    ensures Comes(o, run, o') && Stands(o', st', d, r)
    decreases |ops|
  {
    if ops == [] {
      NoMore(o);
    } else {
      var o1, rest :| run == Instructions(o, ops[0]) + rest && Comes(o, Instructions(o, ops[0]), o1)
                      && Runs(o1, OnTable(st, d, r, ops[0]), d, r, ops[1..], rest, o', st');
      StepRefines(o, st, d, r, ops[0], o1);
      RunRefines(o1, OnTable(st, d, r, ops[0]), d, r, ops[1..], rest, o', st');
      Chained(o, Instructions(o, ops[0]), o1, rest, o');
    }
  }

  /** Once no handle is left, both blocks have been given back, each once. */
  lemma {:induction false} RunFrees(o: F.Object, st: State, d: BlockId, r: BlockId, ops: seq<Op>,
                                    run: seq<F.Action>, o': F.Object, st': State)
    requires Stands(o, st, d, r) && Runs(o, st, d, r, ops, run, o', st') && F.Finished(o')
    ensures d !in st'.live && r !in st'.live && o'.dataFrees == 1 && o'.rcsFrees == 1
  {
    RunRefines(o, st, d, r, ops, run, o', st');
    InTheEnd(o', st', d, r);
  }

  lemma {:induction false} FirstStands(o: F.Object, st: State, d: BlockId, r: BlockId)
    requires F.IsStart(o) && Shows(o, st, d, r)
    ensures Stands(o, st, d, r)
  {
    F.StartQuiet(o);
  }

  lemma {:induction false} InTheEnd(o: F.Object, st: State, d: BlockId, r: BlockId)
    requires Stands(o, st, d, r) && F.Finished(o)
    ensures d !in st.live && r !in st.live && o.dataFrees == 1 && o.rcsFrees == 1
  {
  }
}
