/** The handles and the server's slots take the steps of the world of references: each operation on
    the objects (src/sync.rs, src/context.rs, src/pal/posix/server.rs) is one step of References. */
module HandleSteps {
  import opened Wrappers
  import opened Blocks
  import opened Handles
  import R = References

  /** The server's objects are those of the world: the same block table, and the same slots. */
  ghost predicate Agrees(server: Server, w: R.World)
    reads server
  {
    w.st == server.St() && SlotsAgree(server.workers, w)
  }

  ghost predicate SlotsAgree(workers: map<nat, Option<AllocId>>, w: R.World) {
    && (forall k :: k in workers <==> k in w.workers)
    && (forall k | k in workers :: SlotAgrees(workers[k], w, k))
  }

  /** Handles and ids on their way are not slots. */
  lemma {:induction false} SlotsKept(workers: map<nat, Option<AllocId>>, w: R.World, w': R.World)
    requires SlotsAgree(workers, w) && w'.workers == w.workers
    requires forall n: R.Name | n.Slot? :: (n in w.refs <==> n in w'.refs) && (n in w.refs ==> w.refs[n] == w'.refs[n])
    ensures SlotsAgree(workers, w')
  {
    forall k | k in workers ensures SlotAgrees(workers[k], w', k) {
      assert SlotAgrees(workers[k], w, k);
    }
  }

  ghost predicate SlotAgrees(slot: Option<AllocId>, w: R.World, k: nat) {
    match slot
    case None => R.Slot(k) !in w.refs
    case Some(id) => id.Id? && R.Slot(k) in w.refs && w.refs[R.Slot(k)] == R.RawId(id.block)
  }

  /** In the accounts of all owners the handle is the weak reference n. */
  ghost predicate HeldWeak(weak: Weak, w: R.World, n: R.Name)
    reads weak
  {
    && weak.dataId.Id? && weak.rcsId.Id?
    && n in w.refs && w.refs[n] == R.Weak(weak.dataId.block, weak.rcsId.block)
  }

  lemma {:induction false} HeldWeakPoints(weak: Weak, w: R.World, n: R.Name)
    requires R.Inv(w) && HeldWeak(weak, w, n)
    ensures R.HasWeak(w, n) && IsRcs(w.st, weak.rcsId.block)
  {
    R.NoDangling(w, n);
  }

  method NewStep(server: Server, fault1: bool, fault2: bool, ghost w: R.World, ghost n: R.Name, ghost s: nat)
    returns (arc: Option<Arc>, ghost w': R.World)
    requires Agrees(server, w) && R.FreshHandle(w, n) && s !in w.frees
    modifies server
    ensures R.Next(w, R.New(n, s, fault1, fault2), w') && Agrees(server, w')
    ensures arc.Some? <==> n in w'.refs
    ensures arc.Some? ==> fresh(arc.value) && arc.value.Held(w', n)
  {
    w' := R.NewArc(w, n, s, fault1, fault2);
    arc := Arc.New(server, fault1, fault2);
    SlotsKept(server.workers, w, w');
  }

  method CloneStep(server: Server, arc: Arc, ghost w: R.World, ghost n: R.Name, ghost m: R.Name)
    returns (copy: Arc, ghost w': R.World)
    requires R.Inv(w) && Agrees(server, w) && arc.Held(w, n) && R.FreshHandle(w, m)
    modifies server`allocations
    ensures R.Next(w, R.Clone(n, m), w') && Agrees(server, w')
    ensures arc.Held(w', n) && copy.Held(w', m)
  {
    arc.HeldPoints(w, n);
    w' := R.ArcSteps(w, R.Clone(n, m));
    copy := arc.Clone(server);
    SlotsKept(server.workers, w, w');
  }

  method CloneFromStep(server: Server, arc: Arc, source: Arc, ghost w: R.World, ghost n: R.Name, ghost m: R.Name)
    returns (ghost w': R.World)
    requires R.Inv(w) && Agrees(server, w) && source != arc && arc.Held(w, n) && source.Held(w, m) && n != m
    requires n.Handle? && m.Handle?
    modifies arc, server
    ensures R.Next(w, R.CloneFrom(n, m), w') && Agrees(server, w')
    ensures arc.Held(w', n) && source.Held(w', m)
  {
    arc.HeldPoints(w, n);
    source.HeldPoints(w, m);
    w' := R.CloneFromSteps(w, n, m);
    CloneFromIs(w, n, m, w');
    arc.CloneFrom(server, source, w, n, m);
    SlotsKept(server.workers, w, w');
  }

  lemma {:induction false} CloneFromIs(w: R.World, n: R.Name, m: R.Name, w': R.World)
    requires R.Next(w, R.CloneFrom(n, m), w')
    ensures var st1 := ClientRelease(w.st, w.refs[n].data, w.refs[n].rcs);
            var r := w.refs[m].rcs;
            && IsRcs(st1, r) && w'.st == WithCount(st1, r, FetchAdd(st1.live[r].count))
            && w'.refs == (w.refs - {n})[n := w.refs[m]] && w'.workers == w.workers
  {
  }

  method DowngradeStep(server: Server, arc: Arc, ghost w: R.World, ghost n: R.Name, ghost m: R.Name)
    returns (weak: Weak, ghost w': R.World)
    requires R.Inv(w) && Agrees(server, w) && arc.Held(w, n) && R.FreshHandle(w, m)
    modifies server`allocations
    ensures R.Next(w, R.Downgrade(n, m), w') && Agrees(server, w')
    ensures arc.Held(w', n) && HeldWeak(weak, w', m)
  {
    arc.HeldPoints(w, n);
    w' := R.WeakSteps(w, R.Downgrade(n, m));
    weak := arc.Downgrade(server);
    SlotsKept(server.workers, w, w');
  }

  method UpgradeStep(server: Server, weak: Weak, ghost w: R.World, ghost n: R.Name, ghost m: R.Name)
    returns (arc: Option<Arc>, ghost w': R.World)
    requires R.Inv(w) && Agrees(server, w) && HeldWeak(weak, w, n) && R.FreshHandle(w, m)
    modifies server`allocations
    ensures R.Next(w, R.Upgrade(n, m), w') && Agrees(server, w')
    ensures arc.Some? <==> m in w'.refs
    ensures arc.Some? <==> old(server.allocations)[weak.rcsId.block].count != 0
    ensures HeldWeak(weak, w', n) && (arc.Some? ==> arc.value.Held(w', m))
  {
    HeldWeakPoints(weak, w, n);
    w' := R.WeakSteps(w, R.Upgrade(n, m));
    arc := weak.Upgrade(server);
    SlotsKept(server.workers, w, w');
  }

  method DropStep(server: Server, arc: Arc, ghost w: R.World, ghost n: R.Name) returns (ghost w': R.World)
    requires R.Inv(w) && Agrees(server, w) && arc.Held(w, n) && n.Handle?
    modifies arc, server
    ensures R.Next(w, R.DropArc(n), w') && Agrees(server, w')
  {
    arc.HeldPoints(w, n);
    w' := R.ArcSteps(w, R.DropArc(n));
    var _ := arc.DecrementStrongCount(server);
    SlotsKept(server.workers, w, w');
  }

  method DropWeakStep(server: Server, weak: Weak, ghost w: R.World, ghost n: R.Name) returns (ghost w': R.World)
    requires R.Inv(w) && Agrees(server, w) && HeldWeak(weak, w, n) && n.Handle?
    modifies weak, server
    ensures R.Next(w, R.DropWeakRef(n), w') && Agrees(server, w')
  {
    HeldWeakPoints(weak, w, n);
    w' := R.WeakSteps(w, R.DropWeakRef(n));
    weak.DecrementWeakCount(server);
    SlotsKept(server.workers, w, w');
  }

  /** The id carries the reference p. */
  ghost predicate Carries(w: R.World, p: R.Name, id: AllocId) {
    id.Id? && p in w.refs && w.refs[p] == R.RawId(id.block)
  }

  /** alloc_id: the id returned is a reference on its way. */
  method AllocIdStep(server: Server, arc: Arc, ghost w: R.World, ghost n: R.Name, ghost p: R.Name)
    returns (id: AllocId, ghost w': R.World)
    requires R.Inv(w) && Agrees(server, w) && arc.Held(w, n) && p.Published? && p !in w.refs
    modifies server`allocations
    ensures R.Next(w, R.AllocId(n, p), w') && Agrees(server, w') && arc.Held(w', n)
    ensures Carries(w', p, id)
  {
    arc.HeldPoints(w, n);
    w' := R.ArcSteps(w, R.AllocId(n, p));
    id := arc.AllocIdOf(server);
    SlotsKept(server.workers, w, w');
  }

  method FromIdStep(server: Server, r: BlockId, ghost w: R.World, ghost p: R.Name, ghost m: R.Name)
    returns (arc: Arc, ghost w': R.World)
    requires R.Inv(w) && Agrees(server, w) && R.FreshHandle(w, m)
    requires p.Published? && Carries(w, p, Id(r))
    modifies server`allocations
    ensures R.Next(w, R.FromId(p, m), w') && Agrees(server, w') && arc.Held(w', m)
  {
    R.NoDangling(w, p);
    w' := R.ArcSteps(w, R.FromId(p, m));
    arc := Arc.FromId(server, r);
    SlotsKept(server.workers, w, w');
  }

  /** set_state: the reference of the id passes to the worker's slot, and what was there is released. */
  method SetStateStep(server: Server, k: nat, r: BlockId, ghost w: R.World, ghost p: R.Name) returns (ghost w': R.World)
    requires R.Inv(w) && Agrees(server, w) && p.Published? && Carries(w, p, Id(r))
    modifies server
    ensures R.Next(w, R.SetState(k, p), w') && Agrees(server, w')
  {
    R.NoDangling(w, p);
    SlotReady(server, w, k);
    w' := R.WorkerSteps(w, R.SetState(k, p));
    SetStateIs(w, k, p, w');
    server.HandleSetWorkerState(k, Id(r));
    SlotTaken(old(server.workers), w, k, r, p, w');
  }

  lemma {:induction false} SetStateIs(w: R.World, k: nat, p: R.Name, w': R.World)
    requires R.Next(w, R.SetState(k, p), w')
    ensures k !in w.workers ==> w' == w
    ensures k in w.workers ==> w'.workers == w.workers && w'.refs == (w.refs - {p})[R.Slot(k) := w.refs[p]]
    ensures k in w.workers ==>
              if R.Slot(k) in w.refs
              then R.HasId(w, R.Slot(k)) && w'.st == R.DropSlot(w, R.Slot(k)).st
              else w'.st == w.st
  {
  }

  lemma {:induction false} SlotTaken(workers: map<nat, Option<AllocId>>, w: R.World, k: nat, r: BlockId, p: R.Name,
                                     w': R.World)
    requires SlotsAgree(workers, w) && p.Published? && p in w.refs && w.refs[p] == R.RawId(r)
    requires k !in w.workers ==> w' == w
    requires k in w.workers ==> w'.workers == w.workers && w'.refs == (w.refs - {p})[R.Slot(k) := w.refs[p]]
    ensures SlotsAgree(if k in workers then workers[k := Some(Id(r))] else workers, w')
  {
    var workers' := if k in workers then workers[k := Some(Id(r))] else workers;
    forall i | i in workers' ensures SlotAgrees(workers'[i], w', i) {
      assert SlotAgrees(workers[i], w, i);
    }
  }

  /** What a slot holds is a live reference. */
  lemma {:induction false} SlotReady(server: Server, w: R.World, k: nat)
    requires R.Inv(w) && Agrees(server, w)
    ensures server.SlotOk(k) && (R.Slot(k) in w.refs <==> server.SlotId(k).Some?)
    ensures R.Slot(k) in w.refs ==> k in w.workers && R.HasId(w, R.Slot(k))
    ensures R.Slot(k) in w.refs ==> Released(w.st, server.SlotId(k)) == R.DropSlot(w, R.Slot(k)).st
    ensures R.Slot(k) !in w.refs ==> Released(w.st, server.SlotId(k)) == w.st
  {
    if R.Slot(k) in w.refs {
      R.NoDangling(w, R.Slot(k));
      assert R.DataHeld(w, w.refs[R.Slot(k)].rcs);
    }
  }

  /** get_worker_state, and the handle made from the id. */
  method GetStateStep(server: Server, k: nat, ghost w: R.World, ghost m: R.Name)
    returns (arc: Option<Arc>, ghost w': R.World)
    requires R.Inv(w) && Agrees(server, w) && R.FreshHandle(w, m)
    modifies server`allocations
    ensures R.Next(w, R.GetState(k, m), w') && Agrees(server, w')
    ensures arc.Some? <==> R.Slot(k) in w.refs
    ensures arc.Some? ==> arc.value.Held(w', m)
  {
    SlotReady(server, w, k);
    w' := R.WorkerSteps(w, R.GetState(k, m));
    GetStateIs(w, k, m, w');
    var id := server.HandleGetWorkerState(k);
    match id {
      case None => arc := None;
      case Some(i) =>
        var a := Arc.FromId(server, i.block);
        arc := Some(a);
    }
    SlotsKept(server.workers, w, w');
  }

  lemma {:induction false} GetStateIs(w: R.World, k: nat, m: R.Name, w': R.World)
    requires R.Next(w, R.GetState(k, m), w')
    ensures if R.Slot(k) !in w.refs then w' == w
            else R.HasId(w, R.Slot(k)) && w' == R.Acquire(w, m, R.Resolve(w, w.refs[R.Slot(k)].rcs))
  {
  }

  method RegisterStep(server: Server, k: nat, ghost w: R.World, ghost lost: R.Name) returns (ghost w': R.World)
    requires R.Inv(w) && Agrees(server, w) && lost.Published? && lost !in w.refs
    modifies server`workers
    ensures R.Next(w, R.Register(k, lost), w') && Agrees(server, w')
  {
    SlotReady(server, w, k);
    w' := R.WorkerSteps(w, R.Register(k, lost));
    RegisterIs(w, k, lost, w');
    server.Register(k);
    SlotEmptied(old(server.workers), w, k, w');
  }

  lemma {:induction false} RegisterIs(w: R.World, k: nat, lost: R.Name, w': R.World)
    requires R.Next(w, R.Register(k, lost), w')
    ensures w'.st == w.st && w'.workers == w.workers + {k}
    ensures R.Slot(k) !in w'.refs && forall i | i != k ::
              (R.Slot(i) in w.refs <==> R.Slot(i) in w'.refs)
              && (R.Slot(i) in w.refs ==> w.refs[R.Slot(i)] == w'.refs[R.Slot(i)])
  {
  }

  lemma {:induction false} SlotEmptied(workers: map<nat, Option<AllocId>>, w: R.World, k: nat, w': R.World)
    requires SlotsAgree(workers, w) && w'.workers == w.workers + {k} && R.Slot(k) !in w'.refs
    requires forall i | i != k ::
               (R.Slot(i) in w.refs <==> R.Slot(i) in w'.refs)
               && (R.Slot(i) in w.refs ==> w.refs[R.Slot(i)] == w'.refs[R.Slot(i)])
    ensures SlotsAgree(workers[k := None], w')
  {
    var workers' := workers[k := None];
    forall i | i in workers' ensures SlotAgrees(workers'[i], w', i) {
      if i != k {
        assert SlotAgrees(workers[i], w, i);
      }
    }
  }

  method DisconnectStep(server: Server, k: nat, ghost w: R.World) returns (ghost w': R.World)
    requires R.Inv(w) && Agrees(server, w)
    modifies server
    ensures R.Next(w, R.Disconnect(k), w') && Agrees(server, w')
  {
    SlotReady(server, w, k);
    w' := R.WorkerSteps(w, R.Disconnect(k));
    DisconnectIs(w, k, w');
    server.Disconnect(k);
    SlotGone(old(server.workers), w, k, w');
  }

  lemma {:induction false} DisconnectIs(w: R.World, k: nat, w': R.World)
    requires R.Next(w, R.Disconnect(k), w')
    ensures w'.workers == w.workers - {k} && w'.refs == w.refs - {R.Slot(k)}
    ensures if R.Slot(k) in w.refs then R.HasId(w, R.Slot(k)) && w'.st == R.DropSlot(w, R.Slot(k)).st else w'.st == w.st
  {
  }

  lemma {:induction false} SlotGone(workers: map<nat, Option<AllocId>>, w: R.World, k: nat, w': R.World)
    requires SlotsAgree(workers, w) && w'.workers == w.workers - {k} && w'.refs == w.refs - {R.Slot(k)}
    ensures SlotsAgree(workers - {k}, w')
  {
    var workers' := workers - {k};
    forall i | i in workers' ensures SlotAgrees(workers'[i], w', i) {
      assert SlotAgrees(workers[i], w, i);
    }
  }
}
