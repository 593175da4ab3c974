/** The tables of the manager and the locks that guard them (src/pal/posix/server.rs): what a handler
    does to the block table happens with the locks of everything it changes held together. */
module Guards {
  import opened Wrappers
  import opened Locks
  import Blocks

  /** The tables a handler looks at or changes. */
  function Tables(h: Handler): set<Lock> {
    match h
    case Alloc => {Allocations, AvailableBlocks, NextBlockId}
    case Free => {Allocations, AvailableBlocks}
    case MapId => {Allocations}
    case NewWorker(_) => {Workers}
    case SendWorker => {Workers}
    case ResponseWorker => {Workers}
    case GetWorkerState => {Workers}
    case SetWorkerState(heldState) => if heldState then {Workers, Allocations, AvailableBlocks} else {Workers}
    case Disconnect(_, heldState) => if heldState then {Workers, Allocations, AvailableBlocks} else {Workers}
    case NewMutex => {Mutexes}
    case GetPlatformMutex => {Mutexes}
  }

  /** The parts of the block table that differ. */
  ghost function Changed(st: Blocks.State, st': Blocks.State): set<Lock> {
    (if st'.live == st.live then {} else {Allocations})
    + (if st'.free == st.free then {} else {AvailableBlocks})
    + (if st'.next == st.next then {} else {NextBlockId})
  }

  /** What the handler may make of the block table. */
  ghost predicate Does(h: Handler, st: Blocks.State, st': Blocks.State) {
    match h
    case Alloc => exists fault :: st' == Blocks.Alloc(st, fault).1
    case Free => exists b :: st' == Blocks.Free(st, b)
    case SetWorkerState(heldState) => if heldState then exists id :: st' == Blocks.Released(st, id) else st' == st
    case Disconnect(_, heldState) => if heldState then exists id :: st' == Blocks.Released(st, id) else st' == st
    case _ => st' == st
  }

  lemma {:induction false} ChangesItsTables(h: Handler, st: Blocks.State, st': Blocks.State)
    requires Does(h, st, st')
    ensures Changed(st, st') <= Tables(h)
  {
  }

  /** The locks held once the actions are done. */
  function HeldAfter(held: set<Lock>, todo: seq<Action>): set<Lock>
    decreases |todo|
  {
    if todo == [] then held
    else match todo[0]
      case Acquire(l) => HeldAfter(held + {l}, todo[1..])
      case Release(l) => HeldAfter(held - {l}, todo[1..])
      case _ => HeldAfter(held, todo[1..])
  }

  /** At some moment of the handler all these locks are held. */
  ghost predicate HoldsTogether(h: Handler, ls: set<Lock>) {
    exists n :: 0 <= n <= |Program(h)| && ls <= HeldAfter({}, Program(h)[..n])
  }

  /** How deep the nested sections of a handler are before it changes anything. */
  function Depth(h: Handler): nat {
    match h
    case Alloc => 3
    case Free => 2
    case NewWorker(_) => 2
    case SetWorkerState(heldState) => if heldState then 3 else 1
    case Disconnect(_, heldState) => if heldState then 4 else 1
    case _ => 1
  }

  /** Only acquisitions, with something done in between, hold what was acquired. */
  lemma {:induction false} HeldAll(held: set<Lock>, todo: seq<Action>)
    requires forall a | a in todo :: !a.Release?
    ensures forall l :: l in HeldAfter(held, todo) <==> l in held || Acquire(l) in todo
    decreases |todo|
  {
    if todo != [] {
      assert todo[0] in todo && forall a | a in todo[1..] :: a in todo;
      assert forall a :: a in todo <==> a == todo[0] || a in todo[1..];
      HeldAll(if todo[0].Acquire? then held + {todo[0].lock} else held, todo[1..]);
    }
  }

  lemma {:induction false} TakesItsLocks(h: Handler)
    ensures Depth(h) <= |Program(h)|
    ensures forall a | a in Program(h)[..Depth(h)] :: !a.Release?
    ensures forall l: Lock :: l in Tables(h) <==> Acquire(l) in Program(h)[..Depth(h)]
    ensures forall l: Lock :: l in Tables(h) <==> Acquire(l) in Program(h)
  {
    var p := Program(h);
    match h {
      case Alloc =>
        assert p[..3] == [Acquire(Allocations), Acquire(AvailableBlocks), Acquire(NextBlockId)];
      case Free =>
        assert p[..2] == [Acquire(Allocations), Acquire(AvailableBlocks)];
      case NewWorker(worker) =>
        assert p[..2] == [Spawn(worker), Acquire(Workers)];
      case SetWorkerState(heldState) =>
        if heldState {
          assert p[..3] == [Acquire(Workers), Acquire(Allocations), Acquire(AvailableBlocks)];
        } else {
          assert p[..1] == [Acquire(Workers)];
        }
      case Disconnect(worker, heldState) =>
        if heldState {
          assert p[..4] == [Acquire(Workers), Leave(worker), Acquire(Allocations), Acquire(AvailableBlocks)];
        } else {
          assert p[..1] == [Acquire(Workers)];
        }
      case _ =>
        assert |p| == 2 && p[..1] == [p[0]];
    }
  }

  /** A handler takes the locks of its tables and no others, and there is a moment at which it holds
      them all: what it does to them can be one step for everyone else. */
  lemma {:induction false} HoldsItsTables(h: Handler)
    ensures HoldsTogether(h, Tables(h))
    ensures forall l: Lock :: l in Tables(h) <==> Acquire(l) in Program(h)
  {
    TakesItsLocks(h);
    HeldAll({}, Program(h)[..Depth(h)]);
  }

  /** Whatever a handler changes in the block table, it holds the locks of at one moment. */
  lemma {:induction false} ChangesUnderLocks(h: Handler, st: Blocks.State, st': Blocks.State)
    requires Does(h, st, st')
    ensures HoldsTogether(h, Changed(st, st'))
  {
    ChangesItsTables(h, st, st');
    HoldsItsTables(h);
    var n :| 0 <= n <= |Program(h)| && Tables(h) <= HeldAfter({}, Program(h)[..n]);
  }
}
