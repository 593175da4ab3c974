/** The handles of one process (src/sync.rs): `Arc` and `Weak` as objects whose ids are overwritten
    when a block is freed, working on the shared counts one operation at a time. */
module Handles {
  import opened Wrappers
  import opened Blocks
  import References

  class Arc {
    var dataId: AllocId
    var rcsId: AllocId

    constructor (data: AllocId, rcs: AllocId)
      ensures dataId == data && rcsId == rcs
    {
      dataId, rcsId := data, rcs;
    }

    /** The handle names the counts of a live object and the data block those counts speak of. */
    ghost predicate Points(st: State)
      reads this
    {
      && dataId.Id? && rcsId.Id? && dataId.block != rcsId.block
      && IsRcs(st, rcsId.block) && st.live[rcsId.block].data == dataId.block
    }

    /** In the accounts of all owners the handle is the strong reference n. */
    ghost predicate Held(w: References.World, n: References.Name)
      reads this
    {
      && dataId.Id? && rcsId.Id?
      && n in w.refs && w.refs[n] == References.Strong(dataId.block, rcsId.block)
    }

    /** A handle on the books names live counts. */
    lemma {:induction false} HeldPoints(w: References.World, n: References.Name)
      requires References.Inv(w) && Held(w, n)
      ensures Points(w.st) && References.HasStrong(w, n)
    {
      References.NoDangling(w, n);
      assert References.DataHeld(w, rcsId.block);
    }

    static method New(server: Server, fault1: bool, fault2: bool) returns (arc: Option<Arc>)
      modifies server
      ensures
        var (out, st') := NewObject(old(server.St()), fault1, fault2);
        && server.St() == st' && server.workers == old(server.workers)
        && (arc.Some? <==> out.Both?)
        && (arc.Some? ==> fresh(arc.value) && arc.value.dataId == Id(out.data) && arc.value.rcsId == Id(out.rcs))
    {
      var data := server.HandleAlloc(fault1);
      if !data.Granted? {
        return None;
      }
      var rcs := server.HandleAlloc(fault2);
      if !rcs.Granted? {
        return None;
      }
      AllocGrants(old(server.St()), fault1);
      AllocGrants(Alloc(old(server.St()), fault1).1, fault2);
      server.allocations := server.allocations[rcs.block := Rcs(1, 0, data.block)];
      var a := new Arc(Id(data.block), Id(rcs.block));
      return Some(a);
    }

    /** `Arc::from_id` on the id of live counts. */
    static method FromId(server: Server, r: BlockId) returns (arc: Arc)
      requires IsRcs(server.St(), r)
      modifies server`allocations
      ensures server.St() == WithCount(old(server.St()), r, FetchAdd(old(server.St()).live[r].count))
      ensures fresh(arc) && arc.rcsId == Id(r) && arc.dataId == Id(old(server.St()).live[r].data)
    {
      server.SetCount(r, FetchAdd(server.allocations[r].count));
      arc := new Arc(Id(server.allocations[r].data), Id(r));
    }

    method IncrementStrongCount(server: Server)
      requires Points(server.St())
      modifies server`allocations
      ensures server.St() ==
              WithCount(old(server.St()), rcsId.block, FetchAdd(old(server.St()).live[rcsId.block].count))
    {
      server.SetCount(rcsId.block, FetchAdd(server.allocations[rcsId.block].count));
    }

    /** One reference less; the last one frees the data block, and the counts too if no weak
        reference is left, and zeroes the ids of what it freed. A zero id is reported instead. */
    method DecrementStrongCount(server: Server) returns (found: bool)
      requires rcsId.Id? ==> Points(server.St())
      modifies this, server
      ensures found <==> old(rcsId).Id?
      ensures server.workers == old(server.workers)
      ensures !found ==> server.St() == old(server.St()) && dataId == old(dataId) && rcsId == old(rcsId)
      ensures found ==>
        var r, d := old(rcsId.block), old(dataId.block);
        var b := old(server.St()).live[r];
        && server.St() == ClientRelease(old(server.St()), d, r)
        && dataId == (if b.count > 1 then Id(d) else Zero)
        && rcsId == (if b.count > 1 || b.weaks > 0 then Id(r) else Zero)
    {
      if rcsId.Zero? {
        return false;
      }
      found := true;
      var previous := server.allocations[rcsId.block].count;
      server.SetCount(rcsId.block, FetchSub(previous));
      if previous <= 1 {
        server.HandleFree(dataId.block);
        dataId := Zero;
        if server.allocations[rcsId.block].weaks <= 0 {
          server.HandleFree(rcsId.block);
          rcsId := Zero;
        }
      }
    }

    method Clone(server: Server) returns (copy: Arc)
      requires Points(server.St())
      modifies server`allocations
      ensures server.St() ==
              WithCount(old(server.St()), rcsId.block, FetchAdd(old(server.St()).live[rcsId.block].count))
      ensures fresh(copy) && copy.dataId == dataId && copy.rcsId == rcsId && copy.Points(server.St())
    {
      IncrementStrongCount(server);
      copy := new Arc(dataId, rcsId);
    }

    /** What the source still stands on after the release: another owner keeps its counts live. */
    lemma {:induction false} SourceReady(source: Arc, w: References.World, n: References.Name, m: References.Name)
      requires References.Inv(w) && Held(w, n) && source.Held(w, m) && n != m
      ensures Points(w.st) && source.Points(ClientRelease(w.st, dataId.block, rcsId.block))
    {
      HeldPoints(w, n);
      source.HeldPoints(w, m);
      var w1 := References.DropStrong(w, n);
      References.SourceStays(w, n, m, w1);
      source.HeldPoints(w1, m);
    }

    /** The reference held so far is given up before the source is counted. Both handles are on the
        books of a reachable world, as two references. */
    method CloneFrom(server: Server, source: Arc, ghost w: References.World, ghost n: References.Name,
                     ghost m: References.Name)
      requires References.Inv(w) && w.st == server.St() && source != this
      requires Held(w, n) && source.Held(w, m) && n != m
      modifies this, server
      ensures
        var st1 := ClientRelease(w.st, old(dataId.block), old(rcsId.block));
        && rcsId.Id? && IsRcs(st1, rcsId.block)
        && server.St() == WithCount(st1, rcsId.block, FetchAdd(st1.live[rcsId.block].count))
      ensures dataId == source.dataId && rcsId == source.rcsId && server.workers == old(server.workers)
    {
      SourceReady(source, w, n, m);
      var _ := DecrementStrongCount(server);
      dataId, rcsId := source.dataId, source.rcsId;
      IncrementStrongCount(server);
    }

    /** `HasAllocId::alloc_id` adds the reference that the returned id carries. */
    method AllocIdOf(server: Server) returns (id: AllocId)
      requires Points(server.St())
      modifies server`allocations
      ensures id == rcsId
      ensures server.St() ==
              WithCount(old(server.St()), rcsId.block, FetchAdd(old(server.St()).live[rcsId.block].count))
    {
      IncrementStrongCount(server);
      id := rcsId;
    }

    method Downgrade(server: Server) returns (weak: Weak)
      requires Points(server.St())
      modifies server`allocations
      ensures server.St() ==
              WithWeaks(old(server.St()), rcsId.block, FetchAdd(old(server.St()).live[rcsId.block].weaks))
      ensures fresh(weak) && weak.dataId == dataId && weak.rcsId == rcsId
    {
      server.SetWeaks(rcsId.block, FetchAdd(server.allocations[rcsId.block].weaks));
      weak := new Weak(dataId, rcsId);
    }
  }

  class Weak {
    var dataId: AllocId
    var rcsId: AllocId

    constructor (data: AllocId, rcs: AllocId)
      ensures dataId == data && rcsId == rcs
    {
      dataId, rcsId := data, rcs;
    }

    /** The load and the increment are one step here. */
    method Upgrade(server: Server) returns (arc: Option<Arc>)
      requires rcsId.Id? && IsRcs(server.St(), rcsId.block)
      modifies server`allocations
      ensures arc.Some? <==> old(server.St()).live[rcsId.block].count != 0
      ensures arc.Some? ==> fresh(arc.value) && arc.value.dataId == dataId && arc.value.rcsId == rcsId
      ensures server.St() ==
        if arc.Some? then WithCount(old(server.St()), rcsId.block, FetchAdd(old(server.St()).live[rcsId.block].count))
        else old(server.St())
    {
      var count := server.allocations[rcsId.block].count;
      if count != 0 {
        server.SetCount(rcsId.block, FetchAdd(count));
        var a := new Arc(dataId, rcsId);
        arc := Some(a);
      } else {
        arc := None;
      }
    }

    method DecrementWeakCount(server: Server)
      requires rcsId.Id? && IsRcs(server.St(), rcsId.block)
      modifies this, server
      ensures server.St() == ReleaseWeak(old(server.St()), old(rcsId.block)) && server.workers == old(server.workers)
      ensures dataId == old(dataId)
      ensures
        var b := old(server.St()).live[old(rcsId.block)];
        rcsId == if b.weaks <= 1 && b.count == 0 then Zero else old(rcsId)
    {
      var previous := server.allocations[rcsId.block].weaks;
      server.SetWeaks(rcsId.block, FetchSub(previous));
      if previous <= 1 {
        var strong := server.allocations[rcsId.block].count;
        if strong == 0 {
          server.HandleFree(rcsId.block);
          rcsId := Zero;
        }
      }
    }
  }

  lemma {:induction false} AllocGrants(st: State, fault: bool)
    ensures Alloc(st, fault).0.Granted? ==> Alloc(st, fault).0.block in Alloc(st, fault).1.live
    decreases Measure(st)
  {
    if !Overflows(st) && Candidate(st) in st.names {
      AllocGrants(Taken(st).(abandoned := st.abandoned + {Candidate(st)}), fault);
    }
  }
}
