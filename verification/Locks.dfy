/** The global locks of the manager (src/pal/posix/server.rs), the handler threads that take them and
    the workers they spawn, interleaved at the grain of single acquisitions and releases. */
module Locks {

  datatype Lock = Workers | Allocations | AvailableBlocks | NextBlockId | Mutexes

  /** Spawn starts the process of a worker, Connect is that process opening its connection. Enter puts
      a worker into WORKERS, Leave takes it out; Poll looks whether a worker is there, and when it is
      not gives the lock back to look again later. These three happen with the lock held. */
  datatype Action =
    | Acquire(lock: Lock)
    | Release(lock: Lock)
    | Spawn(worker: nat)
    | Connect(worker: nat)
    | Enter(worker: nat)
    | Leave(worker: nat)
    | Poll(worker: nat)

  function Rank(l: Lock): nat {
    match l
    case Workers => 0
    case Allocations => 1
    case AvailableBlocks => 2
    case NextBlockId => 3
    case Mutexes => 4
  }

  /** What a client's thread may be asked to do; the flags tell which branch it takes. NewWorker spawns
      a worker and waits for it to register. */
  datatype Handler =
    | Alloc
    | Free
    | MapId
    | NewWorker(worker: nat)
    | SendWorker
    | ResponseWorker
    | SetWorkerState(heldState: bool)
    | GetWorkerState
    | NewMutex
    | GetPlatformMutex
    | Disconnect(worker: nat, heldState: bool)

  function Hold(l: Lock, inner: seq<Action>): seq<Action> {
    [Acquire(l)] + inner + [Release(l)]
  }

  function DecrementRc(): seq<Action> {
    Hold(Allocations, Hold(AvailableBlocks, []))
  }

  /** The lock operations of one handler; guards are released in the reverse order. */
  function Program(h: Handler): seq<Action> {
    match h
    case Alloc => Hold(Allocations, Hold(AvailableBlocks, Hold(NextBlockId, [])))
    case Free => Hold(Allocations, Hold(AvailableBlocks, []))
    case MapId => Hold(Allocations, [])
    case NewWorker(worker) => [Spawn(worker)] + Hold(Workers, [Poll(worker)])
    case SetWorkerState(heldState) => Hold(Workers, if heldState then DecrementRc() else [])
    case Disconnect(worker, heldState) => Hold(Workers, [Leave(worker)] + if heldState then DecrementRc() else [])
    case NewMutex => Hold(Mutexes, [])
    case GetPlatformMutex => Hold(Mutexes, [])
    case _ => Hold(Workers, [])
  }

  function Programs(hs: seq<Handler>): seq<Action> {
    if hs == [] then [] else Program(hs[0]) + Programs(hs[1..])
  }

  /** A client: its worker id, its messages, and whether its connection ends. A thread that serves a
      shutdown message does not disconnect its worker. */
  datatype Client = Client(worker: nat, work: seq<Handler>, leaves: bool, heldState: bool)

  /** A client disconnects only in the end, and NEXT_WORKER_ID gives a worker that is spawned an id
      above that of the client it is spawned for. */
  ghost predicate Sensible(clients: seq<Client>) {
    forall i, h | 0 <= i < |clients| && h in clients[i].work ::
      !h.Disconnect? && (h.NewWorker? ==> h.worker > clients[i].worker)
  }

  /** A worker connects, and is registered by the accepting thread before its own thread starts. */
  function Joining(worker: nat): seq<Action> {
    [Connect(worker)] + Hold(Workers, [Enter(worker)])
  }

  function Staying(c: Client): seq<Action> {
    Joining(c.worker) + Programs(c.work)
  }

  function Ending(c: Client): seq<Action> {
    if c.leaves then Program(Disconnect(c.worker, c.heldState)) else []
  }

  function Whole(c: Client): seq<Action> {
    Staying(c) + Ending(c)
  }

  /** The workers that handlers spawn, and wait for. */
  function Awaited(clients: seq<Client>): set<nat> {
    set i, j | 0 <= i < |clients| && 0 <= j < |clients[i].work| && clients[i].work[j].NewWorker? ::
      clients[i].work[j].worker
  }

  /** The workers that connect. */
  ghost function Registering(clients: seq<Client>): set<nat> {
    set i | 0 <= i < |clients| :: clients[i].worker
  }

  /** The workers whose connection ends. */
  ghost function Leaving(clients: seq<Client>): set<nat> {
    set i | 0 <= i < |clients| && clients[i].leaves :: clients[i].worker
  }

  /** A thread: the locks it holds, and what it still has to do. */
  datatype Thread = Thread(held: set<Lock>, todo: seq<Action>)

  /** `unspawned`: the workers some handler is to spawn and has not spawned yet. */
  datatype System = System(threads: seq<Thread>, registered: set<nat>, unspawned: set<nat>)

  predicate Unheld(sys: System, l: Lock) {
    forall j | 0 <= j < |sys.threads| :: l !in sys.threads[j].held
  }

  /** A mutex is not reentrant: it has to be held by nobody, the caller included. A process that a
      handler starts cannot connect before. */
  predicate CanStep(sys: System, i: nat) {
    && i < |sys.threads| && sys.threads[i].todo != []
    && (sys.threads[i].todo[0].Acquire? ==> Unheld(sys, sys.threads[i].todo[0].lock))
    && (sys.threads[i].todo[0].Connect? ==> sys.threads[i].todo[0].worker !in sys.unspawned)
  }

  /** The look does not find the worker. */
  predicate LooksInVain(t: Thread, registered: set<nat>) {
    t.todo != [] && t.todo[0].Poll? && t.todo[0].worker !in registered
  }

  function After(t: Thread, registered: set<nat>): Thread
    requires t.todo != []
  {
    match t.todo[0]
    case Acquire(l) => Thread(t.held + {l}, t.todo[1..])
    case Release(l) => Thread(t.held - {l}, t.todo[1..])
    case Poll(k) =>
      if k in registered then Thread(t.held, t.todo[1..])
      else Thread(t.held - {Workers}, [Acquire(Workers)] + t.todo)
    case _ => Thread(t.held, t.todo[1..])
  }

  function Step(sys: System, i: nat): System
    requires CanStep(sys, i)
  {
    var t := sys.threads[i];
    System(sys.threads[i := After(t, sys.registered)], Registry(t.todo[0], sys.registered),
           if t.todo[0].Spawn? then sys.unspawned - {t.todo[0].worker} else sys.unspawned)
  }

  function Registry(a: Action, registered: set<nat>): set<nat> {
    match a
    case Enter(k) => registered + {k}
    case Leave(k) => registered - {k}
    case _ => registered
  }

  // ---------- The lock order ----------

  /** Every acquisition is of a lock above all those held, every release of a lock that is held, the
      registry is looked at with its lock alone held, processes start and connect with none, and in
      the end nothing is held. */
  ghost predicate Ordered(held: set<Lock>, todo: seq<Action>)
    decreases |todo|
  {
    if todo == [] then held == {}
    else match todo[0]
      case Acquire(l) => (forall h | h in held :: Rank(h) < Rank(l)) && Ordered(held + {l}, todo[1..])
      case Release(l) => l in held && Ordered(held - {l}, todo[1..])
      case Spawn(_) => held == {} && Ordered(held, todo[1..])
      case Connect(_) => held == {} && Ordered(held, todo[1..])
      case _ => held == {Workers} && Ordered(held, todo[1..])
  }

  lemma {:induction false} OrderedHold(l: Lock, held: set<Lock>, inner: seq<Action>, rest: seq<Action>)
    requires forall h | h in held :: Rank(h) < Rank(l)
    requires Ordered(held + {l}, inner + ([Release(l)] + rest))
    ensures Ordered(held, Hold(l, inner) + rest)
  {
    var todo := Hold(l, inner) + rest;
    assert todo[1..] == inner + ([Release(l)] + rest);
  }

  lemma {:induction false} OrderedRelease(l: Lock, held: set<Lock>, rest: seq<Action>)
    requires l !in held && Ordered(held, rest)
    ensures Ordered(held + {l}, [] + ([Release(l)] + rest))
  {
    var todo := [] + ([Release(l)] + rest);
    assert todo[1..] == rest;
    assert held + {l} - {l} == held;
  }

  lemma {:induction false} OrderedOne(l: Lock, held: set<Lock>, rest: seq<Action>)
    requires forall h | h in held :: Rank(h) < Rank(l)
    requires Ordered(held, rest)
    ensures Ordered(held, Hold(l, []) + rest)
  {
    OrderedRelease(l, held, rest);
    OrderedHold(l, held, [], rest);
  }

  /** Two nested sections. */
  lemma {:induction false} OrderedTwo(l: Lock, m: Lock, held: set<Lock>, rest: seq<Action>)
    requires Rank(l) < Rank(m) && forall h | h in held :: Rank(h) < Rank(l)
    requires Ordered(held, rest)
    ensures Ordered(held, Hold(l, Hold(m, [])) + rest)
  {
    var rest1 := [Release(l)] + rest;
    OrderedRelease(l, held, rest);
    assert [] + rest1 == rest1;
    OrderedOne(m, held + {l}, rest1);
    OrderedHold(l, held, Hold(m, []), rest);
  }

  /** Something done under the lock of the registry. */
  lemma {:induction false} OrderedEntry(a: Action, rest: seq<Action>)
    requires (a.Enter? || a.Leave? || a.Poll?) && Ordered({}, rest)
    ensures Ordered({}, Hold(Workers, [a]) + rest)
  {
    OrderedRelease(Workers, {}, rest);
    var todo := [a] + ([Release(Workers)] + rest);
    assert todo[1..] == [] + ([Release(Workers)] + rest);
    assert {} + {Workers} == {Workers};
    OrderedHold(Workers, {}, [a], rest);
  }

  lemma {:induction false} OrderedFirst(a: Action, inner: seq<Action>, rest: seq<Action>)
    requires (a.Spawn? || a.Connect?) && Ordered({}, inner + rest)
    ensures Ordered({}, [a] + inner + rest)
  {
    var todo := [a] + inner + rest;
    assert todo[1..] == inner + rest;
  }

  /** Handlers keep the order Workers, Allocations, AvailableBlocks, NextBlockId; decrement_rc does
      so too when it is called with Workers held. */
  lemma {:induction false} HandlerOrdered(h: Handler, rest: seq<Action>)
    requires Ordered({}, rest)
    ensures Ordered({}, Program(h) + rest)
  {
    match h
    case Alloc =>
      var rest1 := [Release(Allocations)] + rest;
      OrderedRelease(Allocations, {}, rest);
      assert [] + rest1 == rest1;
      OrderedTwo(AvailableBlocks, NextBlockId, {} + {Allocations}, rest1);
      OrderedHold(Allocations, {}, Hold(AvailableBlocks, Hold(NextBlockId, [])), rest);
    case Free => OrderedTwo(Allocations, AvailableBlocks, {}, rest);
    case MapId => OrderedOne(Allocations, {}, rest);
    case NewWorker(worker) =>
      OrderedEntry(Poll(worker), rest);
      OrderedFirst(Spawn(worker), Hold(Workers, [Poll(worker)]), rest);
    case SetWorkerState(heldState) => WorkersOrdered(heldState, rest);
    case Disconnect(worker, heldState) => LeaveOrdered(worker, heldState, rest);
    case NewMutex => OrderedOne(Mutexes, {}, rest);
    case GetPlatformMutex => OrderedOne(Mutexes, {}, rest);
    case SendWorker => OrderedOne(Workers, {}, rest);
    case ResponseWorker => OrderedOne(Workers, {}, rest);
    case GetWorkerState => OrderedOne(Workers, {}, rest);
  }

  lemma {:induction false} WorkersOrdered(releases: bool, rest: seq<Action>)
    requires Ordered({}, rest)
    ensures Ordered({}, Hold(Workers, if releases then DecrementRc() else []) + rest)
  {
    if releases {
      var rest1 := [Release(Workers)] + rest;
      OrderedRelease(Workers, {}, rest);
      assert [] + rest1 == rest1;
      OrderedTwo(Allocations, AvailableBlocks, {} + {Workers}, rest1);
      OrderedHold(Workers, {}, DecrementRc(), rest);
    } else {
      OrderedOne(Workers, {}, rest);
    }
  }

  lemma {:induction false} LeaveOrdered(worker: nat, releases: bool, rest: seq<Action>)
    requires Ordered({}, rest)
    ensures Ordered({}, Hold(Workers, [Leave(worker)] + if releases then DecrementRc() else []) + rest)
  {
    if releases {
      LeaveReleases(worker, rest);
    } else {
      OrderedEntry(Leave(worker), rest);
      assert [Leave(worker)] + [] == [Leave(worker)];
    }
  }

  lemma {:induction false} LeaveReleases(worker: nat, rest: seq<Action>)
    requires Ordered({}, rest)
    ensures Ordered({}, Hold(Workers, [Leave(worker)] + DecrementRc()) + rest)
  {
    var rest1 := [Release(Workers)] + rest;
    OrderedRelease(Workers, {}, rest);
    assert [] + rest1 == rest1 && {} + {Workers} == {Workers};
    OrderedTwo(Allocations, AvailableBlocks, {Workers}, rest1);
    LeaveFirst(worker, DecrementRc(), rest1);
    OrderedHold(Workers, {}, [Leave(worker)] + DecrementRc(), rest);
  }

  lemma {:induction false} LeaveFirst(worker: nat, inner: seq<Action>, rest: seq<Action>)
    requires Ordered({Workers}, inner + rest)
    ensures Ordered({Workers}, [Leave(worker)] + inner + rest)
  {
    var todo := [Leave(worker)] + inner + rest;
    assert todo[1..] == inner + rest;
  }

  lemma {:induction false} ProgramsOrdered(hs: seq<Handler>, rest: seq<Action>)
    requires Ordered({}, rest)
    ensures Ordered({}, Programs(hs) + rest)
  {
    if hs == [] {
      assert [] + rest == rest;
    } else {
      ProgramsOrdered(hs[1..], rest);
      HandlerOrdered(hs[0], Programs(hs[1..]) + rest);
      assert Programs(hs) + rest == Program(hs[0]) + (Programs(hs[1..]) + rest);
    }
  }

  lemma {:induction false} StayingOrdered(c: Client, rest: seq<Action>)
    requires Ordered({}, rest)
    ensures Ordered({}, Staying(c) + rest)
  {
    var rest1 := Programs(c.work) + rest;
    ProgramsOrdered(c.work, rest);
    OrderedEntry(Enter(c.worker), rest1);
    OrderedFirst(Connect(c.worker), Hold(Workers, [Enter(c.worker)]), rest1);
    assert Staying(c) + rest == Joining(c.worker) + rest1;
  }

  lemma {:induction false} EndingOrdered(c: Client)
    ensures Ordered({}, Ending(c))
  {
    if c.leaves {
      HandlerOrdered(Disconnect(c.worker, c.heldState), []);
      assert Ending(c) + [] == Ending(c);
    }
  }

  /** What leads up to a spawn is in order by itself. */
  lemma {:induction false} OrderedPrefix(held: set<Lock>, todo: seq<Action>, n: nat)
    requires Ordered(held, todo) && n < |todo| && todo[n].Spawn?
    ensures Ordered(held, todo[..n + 1])
    decreases n
  {
    if n == 0 {
      assert todo[..1][1..] == [];
    } else {
      assert todo[..n + 1][1..] == todo[1..][..n];
      OrderedPrefix(After(Thread(held, todo), if todo[0].Poll? then {todo[0].worker} else {}).held, todo[1..], n - 1);
    }
  }

  // ---------- Runs ----------

  ghost predicate ThreadsOk(threads: seq<Thread>) {
    && (forall i | 0 <= i < |threads| :: Ordered(threads[i].held, threads[i].todo))
    && (forall i, j | 0 <= i < j < |threads| :: threads[i].held !! threads[j].held)
  }

  ghost predicate Inv(sys: System) {
    ThreadsOk(sys.threads)
  }

  /** One thread per client, with any messages to serve. */
  function Start(clients: seq<Client>): System {
    System(seq(|clients|, i requires 0 <= i < |clients| => Thread({}, Whole(clients[i]))), {}, Awaited(clients))
  }

  predicate IsRun(sys: System, schedule: seq<nat>)
    decreases |schedule|
  {
    schedule == [] || (CanStep(sys, schedule[0]) && IsRun(Step(sys, schedule[0]), schedule[1..]))
  }

  function Outcome(sys: System, schedule: seq<nat>): System
    requires IsRun(sys, schedule)
    decreases |schedule|
  {
    if schedule == [] then sys else Outcome(Step(sys, schedule[0]), schedule[1..])
  }

  lemma {:induction false} StepKeeps(sys: System, i: nat)
    requires Inv(sys) && CanStep(sys, i)
    ensures Inv(Step(sys, i))
  {
    var t := sys.threads[i];
    assert Ordered(t.held, t.todo);
    if LooksInVain(t, sys.registered) {
      var t' := After(t, sys.registered);
      assert t'.todo[1..] == t.todo && t'.held + {Workers} == t.held;
    }
  }

  lemma {:induction false} RunKeeps(sys: System, schedule: seq<nat>)
    requires Inv(sys) && IsRun(sys, schedule)
    ensures Inv(Outcome(sys, schedule))
    decreases |schedule|
  {
    if schedule != [] {
      StepKeeps(sys, schedule[0]);
      RunKeeps(Step(sys, schedule[0]), schedule[1..]);
    }
  }

  lemma {:induction false} StartInv(clients: seq<Client>)
    ensures Inv(Start(clients))
  {
    forall i | 0 <= i < |clients| ensures Ordered({}, Whole(clients[i])) {
      EndingOrdered(clients[i]);
      StayingOrdered(clients[i], Ending(clients[i]));
    }
  }

  /** From a thread that waits for no process, following who waits for whom leads to a thread that can go on: the
      lock waited for gets higher each time. A thread found on the way holds a lock. */
  lemma {:induction false} FindEnabled(sys: System, i: nat) returns (k: nat)
    requires Inv(sys) && i < |sys.threads| && sys.threads[i].todo != []
    requires sys.threads[i].todo[0].Connect? ==> sys.threads[i].todo[0].worker !in sys.unspawned
    ensures CanStep(sys, k) && (k == i || sys.threads[k].held != {})
    decreases if sys.threads[i].todo[0].Acquire? then 5 - Rank(sys.threads[i].todo[0].lock) else 0
  {
    if CanStep(sys, i) {
      k := i;
    } else {
      var l := sys.threads[i].todo[0].lock;
      var j :| 0 <= j < |sys.threads| && l in sys.threads[j].held;
      assert Ordered(sys.threads[j].held, sys.threads[j].todo);
      assert sys.threads[j].todo != [];
      k := FindEnabled(sys, j);
    }
  }

  /** Every message is served, every worker registered, and nothing is locked. */
  ghost predicate Finished(sys: System) {
    forall i | 0 <= i < |sys.threads| :: sys.threads[i] == Thread({}, [])
  }

  lemma {:induction false} FindUnfinished(sys: System) returns (i: nat)
    requires Inv(sys) && !Finished(sys)
    ensures i < |sys.threads| && sys.threads[i].todo != []
  {
    i :| i < |sys.threads| && sys.threads[i] != Thread({}, []);
    assert Ordered(sys.threads[i].held, sys.threads[i].todo);
  }

  /** Each section is exclusive, so what a handler does under Allocations is one step for the others. */
  lemma {:induction false} Exclusive(clients: seq<Client>, schedule: seq<nat>, i: nat, j: nat, l: Lock)
    requires IsRun(Start(clients), schedule)
    requires var ts := Outcome(Start(clients), schedule).threads;
             i < |ts| && j < |ts| && l in ts[i].held && l in ts[j].held
    ensures i == j
  {
    StartInv(clients);
    RunKeeps(Start(clients), schedule);
  }

  // ---------- How long a run is ----------

  function Remaining(ts: seq<Thread>): nat {
    if ts == [] then 0 else |ts[0].todo| + Remaining(ts[1..])
  }

  lemma {:induction false} StepRemaining(ts: seq<Thread>, i: nat, t: Thread)
    requires i < |ts|
    ensures Remaining(ts[i := t]) + |ts[i].todo| == Remaining(ts) + |t.todo|
  {
    if i > 0 {
      assert ts[i := t][1..] == ts[1..][i - 1 := t];
      StepRemaining(ts[1..], i - 1, t);
    } else {
      assert ts[0 := t][1..] == ts[1..];
    }
  }

  /** How often a run looks for a worker that is not there. */
  function VainLooks(sys: System, schedule: seq<nat>): nat
    requires IsRun(sys, schedule)
    decreases |schedule|
  {
    if schedule == [] then 0
    else (if LooksInVain(sys.threads[schedule[0]], sys.registered) then 1 else 0)
         + VainLooks(Step(sys, schedule[0]), schedule[1..])
  }

  /** A run is as long as what it has done, and two steps longer for every look in vain: only waiting
      for a worker can make it long. */
  lemma {:induction false} RunLength(sys: System, schedule: seq<nat>)
    requires IsRun(sys, schedule)
    ensures |schedule| + Remaining(Outcome(sys, schedule).threads)
         == Remaining(sys.threads) + 2 * VainLooks(sys, schedule)
    decreases |schedule|
  {
    if schedule != [] {
      StepRemaining(sys.threads, schedule[0], After(sys.threads[schedule[0]], sys.registered));
      RunLength(Step(sys, schedule[0]), schedule[1..]);
    }
  }

  // ---------- What the threads do, and where they stand ----------

  /** A worker's process connects, is registered, and does neither again. */
  ghost predicate Joins(p: seq<Action>, worker: nat) {
    && |p| >= 3 && p[0] == Connect(worker) && p[1] == Acquire(Workers) && p[2] == Enter(worker)
    && forall n | 3 <= n < |p| :: !p[n].Enter? && !p[n].Connect?
  }

  /** Handlers look for workers they have just spawned, whose ids are above that of their client. */
  ghost predicate LooksAt(p: seq<Action>, n: nat, worker: nat, awaited: set<nat>)
    requires n < |p|
  {
    match p[n]
    case Poll(k) => n >= 2 && p[n - 1] == Acquire(Workers) && p[n - 2] == Spawn(k) && k in awaited
    case Spawn(k) => k > worker
    case _ => true
  }

  ghost predicate Looks(p: seq<Action>, worker: nat, awaited: set<nat>) {
    forall n: nat | n < |p| :: LooksAt(p, n, worker, awaited)
  }

  lemma {:induction false} LooksBoth(a: seq<Action>, b: seq<Action>, worker: nat, awaited: set<nat>)
    requires Looks(a, worker, awaited) && Looks(b, worker, awaited)
    ensures Looks(a + b, worker, awaited)
  {
    var p := a + b;
    forall n: nat | n < |p| ensures LooksAt(p, n, worker, awaited) {
      if n < |a| {
        assert LooksAt(a, n, worker, awaited);
      } else {
        assert LooksAt(b, n - |a|, worker, awaited);
      }
    }
  }

  lemma {:induction false} ProgramLooks(h: Handler, worker: nat, awaited: set<nat>)
    requires h.NewWorker? ==> h.worker > worker && h.worker in awaited
    ensures Looks(Program(h), worker, awaited)
    ensures forall a | a in Program(h) :: !a.Enter? && !a.Connect? && (a.Leave? ==> h.Disconnect?)
    ensures h.NewWorker? ==> Spawn(h.worker) in Program(h) && Poll(h.worker) in Program(h)
  {
    if h.NewWorker? {
      assert Program(h) == [Spawn(h.worker), Acquire(Workers), Poll(h.worker), Release(Workers)];
      assert Program(h)[0] == Spawn(h.worker) && Program(h)[2] == Poll(h.worker);
    } else {
      PlainProgram(h);
    }
  }

  /** Only locks, and a worker that leaves. */
  ghost predicate Plain(todo: seq<Action>, leaves: bool) {
    forall a | a in todo :: a.Acquire? || a.Release? || (a.Leave? && leaves)
  }

  lemma {:induction false} PlainHold(l: Lock, inner: seq<Action>, leaves: bool)
    requires Plain(inner, leaves)
    ensures Plain(Hold(l, inner), leaves)
  {
  }

  lemma {:induction false} PlainProgram(h: Handler)
    requires !h.NewWorker?
    ensures Plain(Program(h), h.Disconnect?)
  {
    PlainHold(AvailableBlocks, [], h.Disconnect?);
    PlainHold(Allocations, Hold(AvailableBlocks, []), h.Disconnect?);
    if h.Alloc? {
      PlainHold(NextBlockId, [], false);
      PlainHold(AvailableBlocks, Hold(NextBlockId, []), false);
      PlainHold(Allocations, Hold(AvailableBlocks, Hold(NextBlockId, [])), false);
    }
  }

  lemma {:induction false} ProgramsLook(hs: seq<Handler>, worker: nat, awaited: set<nat>)
    requires forall h | h in hs && h.NewWorker? :: h.worker > worker && h.worker in awaited
    requires forall h | h in hs :: !h.Disconnect?
    ensures Looks(Programs(hs), worker, awaited)
    ensures forall a | a in Programs(hs) :: !a.Enter? && !a.Connect? && !a.Leave?
    ensures forall h | h in hs && h.NewWorker? :: Spawn(h.worker) in Programs(hs) && Poll(h.worker) in Programs(hs)
  {
    if hs != [] {
      ProgramLooks(hs[0], worker, awaited);
      ProgramsLook(hs[1..], worker, awaited);
      LooksBoth(Program(hs[0]), Programs(hs[1..]), worker, awaited);
      assert forall h :: h in hs <==> h == hs[0] || h in hs[1..];
    }
  }

  lemma {:induction false} StayingJoins(c: Client, awaited: set<nat>)
    requires forall h | h in c.work && h.NewWorker? :: h.worker > c.worker && h.worker in awaited
    requires forall h | h in c.work :: !h.Disconnect?
    ensures Joins(Staying(c), c.worker) && Looks(Staying(c), c.worker, awaited)
    ensures forall a | a in Staying(c) :: !a.Leave?
    ensures forall h | h in c.work && h.NewWorker? :: Spawn(h.worker) in Staying(c) && Poll(h.worker) in Staying(c)
  {
    var first := Joining(c.worker);
    assert first == [Connect(c.worker), Acquire(Workers), Enter(c.worker), Release(Workers)];
    ProgramsLook(c.work, c.worker, awaited);
    LooksBoth(first, Programs(c.work), c.worker, awaited);
    assert forall n | 4 <= n < |Staying(c)| :: Staying(c)[n] in Programs(c.work);
  }

  lemma {:induction false} WholeJoins(c: Client, awaited: set<nat>)
    requires forall h | h in c.work && h.NewWorker? :: h.worker > c.worker && h.worker in awaited
    requires forall h | h in c.work :: !h.Disconnect?
    ensures Joins(Whole(c), c.worker) && Looks(Whole(c), c.worker, awaited)
    ensures forall a | a in Whole(c) && a.Leave? :: c.leaves && a.worker == c.worker
    ensures forall h | h in c.work && h.NewWorker? :: Spawn(h.worker) in Whole(c) && Poll(h.worker) in Whole(c)
  {
    StayingJoins(c, awaited);
    EndingLeaves(c, awaited);
    LooksBoth(Staying(c), Ending(c), c.worker, awaited);
    assert forall n | |Staying(c)| <= n < |Whole(c)| :: Whole(c)[n] in Ending(c);
  }

  lemma {:induction false} EndingLeaves(c: Client, awaited: set<nat>)
    ensures Looks(Ending(c), c.worker, awaited)
    ensures forall a | a in Ending(c) ::
      !a.Enter? && !a.Connect? && !a.Poll? && (a.Leave? ==> c.leaves && a == Leave(c.worker))
    ensures c.leaves ==> Leave(c.worker) in Ending(c)
  {
    if c.leaves {
      assert Ending(c)[1] == Leave(c.worker);
    }
  }

  lemma {:induction false} InAwaited(clients: seq<Client>, i: nat, h: Handler)
    requires i < |clients| && h in clients[i].work && h.NewWorker?
    ensures h.worker in Awaited(clients)
  {
    var j :| 0 <= j < |clients[i].work| && clients[i].work[j] == h;
  }

  /** What each thread does in all, whose it is, and below which ids the workers that are to be
      spawned have somebody to spawn them. */
  datatype Plan = Plan(progs: seq<seq<Action>>, ids: seq<nat>, awaited: set<nat>, limit: nat)

  /** How much of its program a thread has behind it. */
  function Done(p: seq<Action>, t: Thread): int {
    |p| - |t.todo|
  }

  ghost predicate WellPlanned(plan: Plan) {
    && |plan.progs| == |plan.ids|
    && forall m | 0 <= m < |plan.ids| ::
         Joins(plan.progs[m], plan.ids[m]) && Looks(plan.progs[m], plan.ids[m], plan.awaited)
  }

  /** The thread has the rest of its program to do, and has spawned what it was to spawn before. */
  ghost predicate Along(p: seq<Action>, t: Thread, unspawned: set<nat>) {
    && Done(p, t) >= 0 && t.todo == p[Done(p, t)..]
    && forall n | 0 <= n < Done(p, t) && p[n].Spawn? :: p[n].worker !in unspawned
  }

  ghost predicate Spawner(sys: System, k: nat) {
    exists m :: 0 <= m < |sys.threads| && Spawn(k) in sys.threads[m].todo
  }

  ghost predicate Follows(sys: System, plan: Plan) {
    && WellPlanned(plan) && |sys.threads| == |plan.ids| && sys.unspawned <= plan.awaited
    && (forall m | 0 <= m < |plan.ids| :: Along(plan.progs[m], sys.threads[m], sys.unspawned))
    && forall k | k in sys.unspawned && k < plan.limit :: Spawner(sys, k)
  }

  lemma {:induction false} Popped(todo: seq<Action>)
    requires todo != []
    ensures forall a :: a in todo <==> a == todo[0] || a in todo[1..]
  {
  }

  lemma {:induction false} StepAlong(p: seq<Action>, t: Thread, registered: set<nat>, unspawned: set<nat>,
                                     unspawned': set<nat>, worker: nat, awaited: set<nat>)
    requires Along(p, t, unspawned) && t.todo != [] && Looks(p, worker, awaited)
    requires unspawned' == if t.todo[0].Spawn? then unspawned - {t.todo[0].worker} else unspawned
    ensures Along(p, After(t, registered), unspawned')
  {
    var n := Done(p, t);
    assert p[n] == t.todo[0] && LooksAt(p, n, worker, awaited);
    if LooksInVain(t, registered) {
      assert [Acquire(Workers)] + t.todo == p[n - 1..];
    } else {
      assert t.todo[1..] == p[n + 1..];
    }
  }

  lemma {:induction false} StepFollows(sys: System, i: nat, plan: Plan)
    requires Follows(sys, plan) && CanStep(sys, i)
    ensures Follows(Step(sys, i), plan)
  {
    var t, sys' := sys.threads[i], Step(sys, i);
    StepAlong(plan.progs[i], t, sys.registered, sys.unspawned, sys'.unspawned, plan.ids[i], plan.awaited);
    Popped(t.todo);
    forall k | k in sys'.unspawned && k < plan.limit ensures Spawner(sys', k) {
      var m :| 0 <= m < |sys.threads| && Spawn(k) in sys.threads[m].todo;
      assert Spawn(k) in sys'.threads[m].todo;
    }
  }

  lemma {:induction false} RunFollows(sys: System, schedule: seq<nat>, plan: Plan)
    requires Follows(sys, plan) && IsRun(sys, schedule)
    ensures Follows(Outcome(sys, schedule), plan)
    decreases |schedule|
  {
    if schedule != [] {
      StepFollows(sys, schedule[0], plan);
      RunFollows(Step(sys, schedule[0]), schedule[1..], plan);
    }
  }

  lemma {:induction false} Bound(s: set<nat>) returns (limit: nat)
    ensures forall k | k in s :: k < limit
  {
    if s == {} {
      limit := 0;
    } else {
      var k :| k in s;
      var rest := Bound(s - {k});
      limit := if k < rest then rest else k + 1;
      assert forall j | j in s :: j == k || j in s - {k};
    }
  }

  function Ids(clients: seq<Client>): (r: seq<nat>) {
    seq(|clients|, i requires 0 <= i < |clients| => clients[i].worker)
  }

  lemma {:induction false} ClientJoins(clients: seq<Client>, i: nat)
    requires Sensible(clients) && i < |clients|
    ensures var c := clients[i];
            && Joins(Whole(c), c.worker) && Looks(Whole(c), c.worker, Awaited(clients))
            && (forall a | a in Whole(c) && a.Leave? :: c.leaves && a.worker == c.worker)
            && forall h | h in c.work && h.NewWorker? :: Spawn(h.worker) in Whole(c) && Poll(h.worker) in Whole(c)
  {
    forall h | h in clients[i].work && h.NewWorker? ensures h.worker in Awaited(clients) {
      InAwaited(clients, i, h);
    }
    WholeJoins(clients[i], Awaited(clients));
  }

  lemma {:induction false} RegisteringIds(clients: seq<Client>)
    ensures forall k | k in Registering(clients) :: k in Ids(clients)
  {
    forall k | k in Registering(clients) ensures k in Ids(clients) {
      var m :| 0 <= m < |clients| && clients[m].worker == k;
      assert Ids(clients)[m] == k;
    }
  }

  /** The plan of a start, in which everyone who is awaited has a spawner. */
  lemma {:induction false} StartFollows(clients: seq<Client>) returns (plan: Plan)
    requires Sensible(clients)
    ensures Follows(Start(clients), plan) && plan.ids == Ids(clients) && plan.awaited == Awaited(clients)
    ensures forall m | 0 <= m < |clients| :: plan.progs[m] == Whole(clients[m])
    ensures forall k | k in plan.awaited :: k < plan.limit
  {
    var sys, awaited := Start(clients), Awaited(clients);
    var limit := Bound(awaited);
    plan := Plan(seq(|clients|, i requires 0 <= i < |clients| => Whole(clients[i])), Ids(clients), awaited, limit);
    forall m | 0 <= m < |clients|
      ensures Joins(Whole(clients[m]), clients[m].worker) && Looks(Whole(clients[m]), clients[m].worker, awaited)
    {
      ClientJoins(clients, m);
    }
    forall k | k in awaited ensures Spawner(sys, k) {
      var i, j :| 0 <= i < |clients| && 0 <= j < |clients[i].work| && clients[i].work[j] == NewWorker(k);
      ClientJoins(clients, i);
      assert clients[i].work[j] in clients[i].work && Spawn(k) in sys.threads[i].todo;
    }
  }

  // ---------- Deadlock freedom ----------

  /** Who waits for a process to be started leads to the thread that starts it, whose worker has a
      smaller id. */
  lemma {:induction false} FindUnblocked(sys: System, plan: Plan, i: nat) returns (k: nat)
    requires Follows(sys, plan) && (forall u | u in plan.awaited :: u < plan.limit)
    requires i < |sys.threads| && sys.threads[i].todo != []
    ensures k < |sys.threads| && sys.threads[k].todo != []
    ensures sys.threads[k].todo[0].Connect? ==> sys.threads[k].todo[0].worker !in sys.unspawned
    decreases plan.ids[i]
  {
    var a := sys.threads[i].todo[0];
    if a.Connect? && a.worker in sys.unspawned {
      assert a == plan.progs[i][Done(plan.progs[i], sys.threads[i])];
      var m := FindSpawner(sys, plan, a.worker);
      k := FindUnblocked(sys, plan, m);
    } else {
      k := i;
    }
  }

  lemma {:induction false} FindSpawner(sys: System, plan: Plan, u: nat) returns (m: nat)
    requires Follows(sys, plan) && u in sys.unspawned && u < plan.limit
    ensures m < |sys.threads| && sys.threads[m].todo != [] && plan.ids[m] < u
  {
    assert Spawner(sys, u);
    m :| m < |sys.threads| && Spawn(u) in sys.threads[m].todo;
    var n :| 0 <= n < |sys.threads[m].todo| && sys.threads[m].todo[n] == Spawn(u);
    var p := plan.progs[m];
    assert p[Done(p, sys.threads[m]) + n] == Spawn(u);
    assert LooksAt(p, Done(p, sys.threads[m]) + n, plan.ids[m], plan.awaited);
  }

  /** Deadlock freedom: in every reachable state some unfinished thread, if there is one, can go on. */
  lemma {:induction false} NoDeadlock(clients: seq<Client>, schedule: seq<nat>)
    requires Sensible(clients) && IsRun(Start(clients), schedule)
    ensures
      var sys := Outcome(Start(clients), schedule);
      !Finished(sys) ==> exists k: nat :: CanStep(sys, k)
  {
    StartInv(clients);
    RunKeeps(Start(clients), schedule);
    var plan := StartFollows(clients);
    RunFollows(Start(clients), schedule, plan);
    var sys := Outcome(Start(clients), schedule);
    if !Finished(sys) {
      var i := FindUnfinished(sys);
      var j := FindUnblocked(sys, plan, i);
      var k := FindEnabled(sys, j);
    }
  }

  /** A run that cannot go on has served every message. */
  lemma {:induction false} StuckMeansServed(clients: seq<Client>, schedule: seq<nat>)
    requires Sensible(clients) && IsRun(Start(clients), schedule)
    requires forall k: nat :: !CanStep(Outcome(Start(clients), schedule), k)
    ensures Finished(Outcome(Start(clients), schedule))
  {
    NoDeadlock(clients, schedule);
  }

  // ---------- Every message can be served ----------

  /** How many steps a thread is away from holding nothing. */
  function Busy(t: Thread): nat
    decreases |t.todo|
  {
    if t.held == {} || t.todo == [] then 0
    else match t.todo[0]
      case Acquire(l) => 1 + Busy(Thread(t.held + {l}, t.todo[1..]))
      case Release(l) => 1 + Busy(Thread(t.held - {l}, t.todo[1..]))
      case _ => 1 + Busy(Thread(t.held, t.todo[1..]))
  }

  function TotalBusy(ts: seq<Thread>): nat {
    if ts == [] then 0 else Busy(ts[0]) + TotalBusy(ts[1..])
  }

  lemma {:induction false} StepBusy(ts: seq<Thread>, i: nat, t: Thread)
    requires i < |ts|
    ensures TotalBusy(ts[i := t]) + Busy(ts[i]) == TotalBusy(ts) + Busy(t)
  {
    if i > 0 {
      assert ts[i := t][1..] == ts[1..][i - 1 := t];
      StepBusy(ts[1..], i - 1, t);
    } else {
      assert ts[0 := t][1..] == ts[1..];
    }
  }

  lemma {:induction false} HolderProgresses(t: Thread, registered: set<nat>)
    requires t.held != {} && Ordered(t.held, t.todo)
    ensures t.todo != [] && Busy(After(t, registered)) < Busy(t)
  {
    if LooksInVain(t, registered) {
      assert After(t, registered).held == {};
    }
  }

  /** A look costs nothing: what a thread has to do, as if the lock for the look were not to be taken
      again. */
  function Weight(t: Thread): nat {
    |t.todo| + if t.todo != [] && t.todo[0].Poll? then 1 else 0
  }

  function TotalWeight(ts: seq<Thread>): nat {
    if ts == [] then 0 else Weight(ts[0]) + TotalWeight(ts[1..])
  }

  lemma {:induction false} StepWeight(ts: seq<Thread>, i: nat, t: Thread)
    requires i < |ts|
    ensures TotalWeight(ts[i := t]) + Weight(ts[i]) == TotalWeight(ts) + Weight(t)
  {
    if i > 0 {
      assert ts[i := t][1..] == ts[1..][i - 1 := t];
      StepWeight(ts[1..], i - 1, t);
    } else {
      assert ts[0 := t][1..] == ts[1..];
    }
  }

  /** Everyone who is awaited connects and does not leave; who has registered is there. */
  ghost predicate Serves(sys: System, plan: Plan) {
    && Follows(sys, plan)
    && (forall k | k in plan.awaited :: k in plan.ids)
    && (forall m, a | 0 <= m < |plan.ids| && a in plan.progs[m] && a.Leave? :: a.worker !in plan.awaited)
    && forall m | 0 <= m < |plan.ids| && plan.ids[m] in plan.awaited && Done(plan.progs[m], sys.threads[m]) > 2 ::
         plan.ids[m] in sys.registered
  }

  lemma {:induction false} StepServes(sys: System, i: nat, plan: Plan)
    requires Serves(sys, plan) && CanStep(sys, i)
    ensures Serves(Step(sys, i), plan)
  {
    StepFollows(sys, i, plan);
    var p, t := plan.progs[i], sys.threads[i];
    var n := Done(p, t);
    assert p[n] == t.todo[0] && p[n] in p;
  }

  lemma {:induction false} RunServes(sys: System, schedule: seq<nat>, plan: Plan)
    requires Serves(sys, plan) && IsRun(sys, schedule)
    ensures Serves(Outcome(sys, schedule), plan)
    decreases |schedule|
  {
    if schedule != [] {
      StepServes(sys, schedule[0], plan);
      RunServes(Step(sys, schedule[0]), schedule[1..], plan);
    }
  }

  ghost predicate Free(sys: System) {
    forall i | 0 <= i < |sys.threads| :: sys.threads[i].held == {}
  }

  lemma {:induction false} Onwards(sys: System, i: nat, rest: seq<nat>)
    requires CanStep(sys, i) && IsRun(Step(sys, i), rest)
    ensures IsRun(sys, [i] + rest) && Outcome(sys, [i] + rest) == Outcome(Step(sys, i), rest)
  {
    assert ([i] + rest)[1..] == rest;
  }

  lemma {:induction false} Joined(sys: System, a: seq<nat>, b: seq<nat>)
    requires IsRun(sys, a) && IsRun(Outcome(sys, a), b)
    ensures IsRun(sys, a + b) && Outcome(sys, a + b) == Outcome(Outcome(sys, a), b)
    decreases |a|
  {
    if a == [] {
      assert a + b == b;
    } else {
      assert (a + b)[1..] == a[1..] + b;
      Joined(Step(sys, a[0]), a[1..], b);
    }
  }

  /** The thread is about to take the lock for a look. */
  predicate AboutToLook(t: Thread) {
    |t.todo| > 1 && t.todo[1].Poll?
  }

  /** With no lock taken, a thread that can go on, and not for a look in vain. */
  ghost predicate Ready(sys: System, k: nat) {
    CanStep(sys, k) && !sys.threads[k].todo[0].Poll?
    && (AboutToLook(sys.threads[k]) ==>
        sys.threads[k].todo[0] == Acquire(Workers) && sys.threads[k].todo[1].worker in sys.registered)
  }

  /** The process of an awaited worker that has been spawned and is not there can connect or be
      registered. */
  lemma {:induction false} Comes(sys: System, plan: Plan, u: nat) returns (k: nat)
    requires Inv(sys) && Serves(sys, plan) && Free(sys)
    requires u in plan.awaited && u !in sys.unspawned && u !in sys.registered
    ensures Ready(sys, k)
  {
    assert u in plan.ids;
    k :| k < |plan.ids| && plan.ids[k] == u;
    var p, t := plan.progs[k], sys.threads[k];
    assert Ordered(t.held, t.todo);
    assert t.todo == p[Done(p, t)..] && Done(p, t) <= 2;
  }

  /** Where the look comes from, and that its worker has been spawned. */
  lemma {:induction false} LookAfterSpawn(sys: System, plan: Plan, i: nat)
    requires Follows(sys, plan) && i < |sys.threads| && AboutToLook(sys.threads[i])
    ensures var todo := sys.threads[i].todo;
            todo[0] == Acquire(Workers) && todo[1].worker in plan.awaited && todo[1].worker !in sys.unspawned
  {
    var p, t := plan.progs[i], sys.threads[i];
    var n := Done(p, t) + 1;
    assert p[n] == t.todo[1] && p[n - 1] == t.todo[0];
    assert LooksAt(p, n, plan.ids[i], plan.awaited);
  }

  /** Some thread can go on to some avail, if a thread of the goal has something to do. */
  lemma {:induction false} FindReady(sys: System, plan: Plan, i: nat) returns (k: nat)
    requires Inv(sys) && Serves(sys, plan) && Free(sys)
    requires i < |sys.threads| && sys.threads[i].todo != []
    requires plan.ids[i] in sys.unspawned ==> plan.ids[i] < plan.limit
    ensures Ready(sys, k)
    decreases plan.ids[i]
  {
    var t := sys.threads[i];
    assert Ordered(t.held, t.todo);
    if t.todo[0].Connect? && t.todo[0].worker in sys.unspawned {
      assert t.todo[0] == plan.progs[i][Done(plan.progs[i], t)];
      var m := FindSpawner(sys, plan, plan.ids[i]);
      k := FindReady(sys, plan, m);
    } else if AboutToLook(t) {
      LookAfterSpawn(sys, plan, i);
      if t.todo[1].worker in sys.registered {
        k := i;
      } else {
        k := Comes(sys, plan, t.todo[1].worker);
      }
    } else {
      k := i;
    }
  }

  /** The threads of these workers. */
  ghost function Of(ids: seq<nat>, workers: set<nat>): set<nat> {
    set m: nat | m < |ids| && ids[m] in workers
  }

  ghost predicate Goal(sys: System, plan: Plan, goal: set<nat>) {
    forall g | g in goal :: g < |plan.ids| && (plan.ids[g] in sys.unspawned ==> plan.ids[g] < plan.limit)
  }

  /** A step of a thread that holds a lock brings all locks nearer to being given back. */
  lemma {:induction false} Quieter(sys: System, k: nat)
    requires Inv(sys) && CanStep(sys, k) && sys.threads[k].held != {}
    ensures var sys' := Step(sys, k);
            && TotalWeight(sys'.threads) <= TotalWeight(sys.threads)
            && TotalBusy(sys'.threads) < TotalBusy(sys.threads)
  {
    var t := sys.threads[k];
    assert Ordered(t.held, t.todo);
    HolderProgresses(t, sys.registered);
    StepBusy(sys.threads, k, After(t, sys.registered));
    StepWeight(sys.threads, k, After(t, sys.registered));
  }

  lemma {:induction false} FindHolder(sys: System) returns (k: nat)
    requires Inv(sys) && !Free(sys)
    ensures CanStep(sys, k) && sys.threads[k].held != {}
  {
    var i :| 0 <= i < |sys.threads| && sys.threads[i].held != {};
    assert Ordered(sys.threads[i].held, sys.threads[i].todo);
    k := FindEnabled(sys, i);
  }

  /** One step of a thread that is ready, or two when the first is for a look, leaves less to do. */
  lemma {:induction false} Nearer(sys: System, plan: Plan, goal: set<nat>, k: nat) returns (schedule: seq<nat>)
    requires Inv(sys) && Serves(sys, plan) && Goal(sys, plan, goal) && Ready(sys, k)
    ensures IsRun(sys, schedule)
    ensures var sys' := Outcome(sys, schedule);
            && Inv(sys') && Serves(sys', plan) && Goal(sys', plan, goal)
            && TotalWeight(sys'.threads) < TotalWeight(sys.threads)
  {
    var sys1 := Step(sys, k);
    StepKeeps(sys, k);
    StepServes(sys, k, plan);
    StepWeight(sys.threads, k, sys1.threads[k]);
    if AboutToLook(sys.threads[k]) {
      StepKeeps(sys1, k);
      StepServes(sys1, k, plan);
      StepWeight(sys1.threads, k, After(sys1.threads[k], sys1.registered));
      Onwards(sys1, k, []);
      Onwards(sys, k, [k]);
      schedule := [k] + [k];
    } else {
      Onwards(sys, k, []);
      schedule := [k];
    }
  }

  /** The threads of the goal can be brought to their end, and all locks given back. */
  lemma {:induction false} Chase(sys: System, plan: Plan, goal: set<nat>) returns (schedule: seq<nat>)
    requires Inv(sys) && Serves(sys, plan) && Goal(sys, plan, goal)
    ensures IsRun(sys, schedule)
    ensures var sys' := Outcome(sys, schedule);
            && Inv(sys') && Serves(sys', plan) && Free(sys')
            && forall g | g in goal :: sys'.threads[g].todo == []
    decreases TotalWeight(sys.threads), TotalBusy(sys.threads)
  {
    if !Free(sys) {
      var k := FindHolder(sys);
      Quieter(sys, k);
      StepKeeps(sys, k);
      StepServes(sys, k, plan);
      var rest := Chase(Step(sys, k), plan, goal);
      Onwards(sys, k, rest);
      schedule := [k] + rest;
    } else if g :| g in goal && sys.threads[g].todo != [] {
      var k := FindReady(sys, plan, g);
      var first := Nearer(sys, plan, goal, k);
      var rest := Chase(Outcome(sys, first), plan, goal);
      Joined(sys, first, rest);
      schedule := first + rest;
    } else {
      schedule := [];
    }
  }

  // ---------- And only if the workers come ----------

  /** Thread i waits for worker k, whom no one will register. */
  ghost predicate Forsaken(sys: System, i: nat, k: nat) {
    && i < |sys.threads| && Poll(k) in sys.threads[i].todo && k !in sys.registered
    && forall j | 0 <= j < |sys.threads| :: Enter(k) !in sys.threads[j].todo
  }

  lemma {:induction false} ForsakenRun(sys: System, schedule: seq<nat>, i: nat, k: nat)
    requires Forsaken(sys, i, k) && IsRun(sys, schedule)
    ensures Forsaken(Outcome(sys, schedule), i, k)
    decreases |schedule|
  {
    if schedule != [] {
      var j := schedule[0];
      var t := sys.threads[j];
      Popped(t.todo);
      assert t.todo[0] in t.todo;
      assert forall a | a in After(t, sys.registered).todo && !a.Acquire? :: a in t.todo;
      ForsakenRun(Step(sys, j), schedule[1..], i, k);
    }
  }

  /** The client whose handler waits for k. */
  lemma {:induction false} Waiter(clients: seq<Client>, k: nat) returns (i: nat)
    requires Sensible(clients) && k in Awaited(clients)
    ensures i < |clients| && NewWorker(k) in clients[i].work && clients[i].worker < k
    ensures Poll(k) in Start(clients).threads[i].todo
  {
    var i0, j0 :| 0 <= i0 < |clients| && 0 <= j0 < |clients[i0].work| && clients[i0].work[j0] == NewWorker(k);
    i := i0;
    assert NewWorker(k) in clients[i].work;
    ClientJoins(clients, i);
  }

  lemma {:induction false} StartForsaken(clients: seq<Client>, k: nat) returns (i: nat)
    requires Sensible(clients) && k in Awaited(clients) && k !in Registering(clients)
    ensures Forsaken(Start(clients), i, k)
  {
    i := Waiter(clients, k);
    forall j | 0 <= j < |clients| ensures Enter(k) !in Whole(clients[j]) {
      assert clients[j].worker in Registering(clients);
      EntersOnlyItself(clients, j, k);
    }
  }

  lemma {:induction false} EntersOnlyItself(clients: seq<Client>, j: nat, k: nat)
    requires Sensible(clients) && j < |clients| && clients[j].worker != k
    ensures Enter(k) !in Whole(clients[j])
  {
    ClientJoins(clients, j);
  }

  // ---------- A worker that leaves too soon ----------

  /** Thread i can run by itself: nobody else holds a lock, and it waits for no one. */
  ghost predicate Alone(sys: System, i: nat) {
    && i < |sys.threads|
    && (forall j | 0 <= j < |sys.threads| && j != i :: sys.threads[j].held == {})
    && forall a | a in sys.threads[i].todo :: !a.Poll? && !a.Connect? && !a.Enter?
  }

  /** After the thread has run, the others stand where they stood, and who was to leave is gone. */
  lemma {:induction false} RunAlone(sys: System, i: nat) returns (schedule: seq<nat>)
    requires Inv(sys) && Alone(sys, i)
    ensures IsRun(sys, schedule)
    ensures var sys' := Outcome(sys, schedule);
            && sys'.threads == sys.threads[i := Thread({}, [])] && sys'.registered <= sys.registered
            && forall k | Leave(k) in sys.threads[i].todo :: k !in sys'.registered
    decreases |sys.threads[i].todo|
  {
    var t := sys.threads[i];
    assert Ordered(t.held, t.todo);
    if t.todo == [] {
      schedule := [];
      assert sys.threads[i := Thread({}, [])] == sys.threads;
    } else {
      Popped(t.todo);
      assert t.todo[0] in t.todo;
      assert CanStep(sys, i);
      StepKeeps(sys, i);
      var rest := RunAlone(Step(sys, i), i);
      Onwards(sys, i, rest);
      schedule := [i] + rest;
    }
  }

  /** The same system with more to do for each thread in the end. */
  ghost predicate Extends(full: System, sys: System, tails: seq<seq<Action>>) {
    && |full.threads| == |sys.threads| == |tails|
    && full.registered == sys.registered && full.unspawned == sys.unspawned
    && forall m | 0 <= m < |tails| ::
         full.threads[m] == Thread(sys.threads[m].held, sys.threads[m].todo + tails[m])
  }

  lemma {:induction false} StepExtends(full: System, sys: System, tails: seq<seq<Action>>, i: nat)
    requires Extends(full, sys, tails) && CanStep(sys, i)
    ensures CanStep(full, i) && Extends(Step(full, i), Step(sys, i), tails)
  {
    var t, t' := sys.threads[i], full.threads[i];
    assert t'.todo[1..] == t.todo[1..] + tails[i];
    assert [Acquire(Workers)] + t'.todo == [Acquire(Workers)] + t.todo + tails[i];
  }

  lemma {:induction false} RunExtends(full: System, sys: System, tails: seq<seq<Action>>, schedule: seq<nat>)
    requires Extends(full, sys, tails) && IsRun(sys, schedule)
    ensures IsRun(full, schedule) && Extends(Outcome(full, schedule), Outcome(sys, schedule), tails)
    decreases |schedule|
  {
    if schedule != [] {
      StepExtends(full, sys, tails, schedule[0]);
      RunExtends(Step(full, schedule[0]), Step(sys, schedule[0]), tails, schedule[1..]);
    }
  }

  /** Up to where a thread goes: client i's until it has spawned a worker, every other one until its
      connection ends. */
  function Upto(clients: seq<Client>, i: nat, cut: nat, m: nat): seq<Action>
    requires i < |clients| && cut <= |Staying(clients[i])| && m < |clients|
  {
    if m == i then Staying(clients[i])[..cut] else Staying(clients[m])
  }

  function Beyond(clients: seq<Client>, i: nat, cut: nat, m: nat): seq<Action>
    requires i < |clients| && cut <= |Staying(clients[i])| && m < |clients|
  {
    if m == i then Staying(clients[i])[cut..] + Ending(clients[i]) else Ending(clients[m])
  }

  ghost function Shortened(clients: seq<Client>, i: nat, cut: nat): System
    requires i < |clients| && cut <= |Staying(clients[i])|
  {
    System(seq(|clients|, m requires 0 <= m < |clients| => Thread({}, Upto(clients, i, cut, m))), {}, Awaited(clients))
  }

  ghost function Tails(clients: seq<Client>, i: nat, cut: nat): seq<seq<Action>>
    requires i < |clients| && cut <= |Staying(clients[i])|
  {
    seq(|clients|, m requires 0 <= m < |clients| => Beyond(clients, i, cut, m))
  }

  ghost function ShortPlan(clients: seq<Client>, i: nat, cut: nat): Plan
    requires i < |clients| && cut <= |Staying(clients[i])|
  {
    Plan(seq(|clients|, m requires 0 <= m < |clients| => Upto(clients, i, cut, m)), Ids(clients),
         Awaited(clients), clients[i].worker + 1)
  }

  lemma {:induction false} StartExtends(clients: seq<Client>, i: nat, cut: nat)
    requires i < |clients| && cut <= |Staying(clients[i])|
    ensures Extends(Start(clients), Shortened(clients, i, cut), Tails(clients, i, cut))
  {
    forall m: nat | m < |clients|
      ensures Whole(clients[m]) == Upto(clients, i, cut, m) + Beyond(clients, i, cut, m)
    {
      BothParts(clients, i, cut, m);
    }
  }

  lemma {:induction false} BothParts(clients: seq<Client>, i: nat, cut: nat, m: nat)
    requires i < |clients| && cut <= |Staying(clients[i])| && m < |clients|
    ensures Whole(clients[m]) == Upto(clients, i, cut, m) + Beyond(clients, i, cut, m)
  {
    if m == i {
      var s := Staying(clients[i]);
      assert s[..cut] + s[cut..] == s;
      assert s[..cut] + (s[cut..] + Ending(clients[i])) == s[..cut] + s[cut..] + Ending(clients[i]);
    }
  }

  /** The place at which client i's thread has just spawned k and is to look for it. */
  ghost predicate SpawnedAt(clients: seq<Client>, i: nat, cut: nat, k: nat) {
    && i < |clients| && 3 < cut < |Staying(clients[i])| - 1
    && Staying(clients[i])[cut - 1] == Spawn(k) && Staying(clients[i])[cut + 1] == Poll(k)
  }

  lemma {:induction false} ClientStays(clients: seq<Client>, m: nat)
    requires Sensible(clients) && m < |clients|
    ensures var c := clients[m];
            && Joins(Staying(c), c.worker) && Looks(Staying(c), c.worker, Awaited(clients))
            && (forall a | a in Staying(c) :: !a.Leave?)
            && forall h | h in c.work && h.NewWorker? :: Spawn(h.worker) in Staying(c) && Poll(h.worker) in Staying(c)
  {
    forall h | h in clients[m].work && h.NewWorker? ensures h.worker in Awaited(clients) {
      InAwaited(clients, m, h);
    }
    StayingJoins(clients[m], Awaited(clients));
  }

  lemma {:induction false} LooksPrefix(p: seq<Action>, cut: nat, worker: nat, awaited: set<nat>)
    requires Looks(p, worker, awaited) && cut <= |p|
    ensures Looks(p[..cut], worker, awaited)
  {
    forall n: nat | n < cut ensures LooksAt(p[..cut], n, worker, awaited) {
      assert LooksAt(p, n, worker, awaited);
    }
  }

  lemma {:induction false} FindCut(clients: seq<Client>, i: nat, k: nat) returns (cut: nat)
    requires Sensible(clients) && i < |clients| && NewWorker(k) in clients[i].work
    ensures SpawnedAt(clients, i, cut, k)
  {
    ClientStays(clients, i);
    var s := Staying(clients[i]);
    assert Poll(k) in s;
    var n :| 0 <= n < |s| && s[n] == Poll(k);
    assert LooksAt(s, n, clients[i].worker, Awaited(clients));
    assert s[n - 2] == Spawn(k) && n - 2 > 2;
    cut := n - 1;
  }

  lemma {:induction false} ShortenedInv(clients: seq<Client>, i: nat, cut: nat, k: nat)
    requires SpawnedAt(clients, i, cut, k)
    ensures Inv(Shortened(clients, i, cut))
  {
    forall m | 0 <= m < |clients| ensures Ordered({}, Upto(clients, i, cut, m)) {
      StayingOrdered(clients[m], []);
      assert Staying(clients[m]) + [] == Staying(clients[m]);
      if m == i {
        OrderedPrefix({}, Staying(clients[i]), cut - 1);
      }
    }
  }

  lemma {:induction false} ShortenedServes(clients: seq<Client>, i: nat, cut: nat, k: nat)
    requires Sensible(clients) && Awaited(clients) <= Registering(clients) && SpawnedAt(clients, i, cut, k)
    ensures Serves(Shortened(clients, i, cut), ShortPlan(clients, i, cut))
  {
    var sys, plan := Shortened(clients, i, cut), ShortPlan(clients, i, cut);
    forall m | 0 <= m < |clients|
      ensures Joins(plan.progs[m], plan.ids[m]) && Looks(plan.progs[m], plan.ids[m], plan.awaited)
      ensures forall a | a in plan.progs[m] :: !a.Leave?
    {
      ClientStays(clients, m);
      if m == i {
        LooksPrefix(Staying(clients[i]), cut, clients[i].worker, Awaited(clients));
      }
    }
    RegisteringIds(clients);
    forall u | u in plan.awaited && u < plan.limit ensures Spawner(sys, u) {
      ShortenedSpawner(clients, i, cut, u);
    }
  }

  /** Cutting client i's thread short takes away no spawn of a worker up to its own. */
  lemma {:induction false} ShortenedSpawner(clients: seq<Client>, i: nat, cut: nat, u: nat)
    requires Sensible(clients) && i < |clients| && cut <= |Staying(clients[i])|
    requires u in Awaited(clients) && u <= clients[i].worker
    ensures Spawner(Shortened(clients, i, cut), u)
  {
    var m, j :| 0 <= m < |clients| && 0 <= j < |clients[m].work| && clients[m].work[j] == NewWorker(u);
    assert NewWorker(u) in clients[m].work;
    ClientStays(clients, m);
    assert Spawn(u) in Shortened(clients, i, cut).threads[m].todo;
  }

  lemma {:induction false} HasSpawned(p: seq<Action>, t: Thread, unspawned: set<nat>, k: nat)
    requires Along(p, t, unspawned) && t.todo == [] && p != [] && p[|p| - 1] == Spawn(k)
    ensures k !in unspawned
  {
  }

  lemma {:induction false} StillTodo(p: seq<Action>, t: Thread, unspawned: set<nat>)
    requires Along(p, t, unspawned)
    ensures forall a | a in t.todo :: a in p
  {
  }

  /** Client i's thread has spawned k and has not looked yet, the threads of k have served all their
      messages, and no lock is taken. */
  ghost predicate OneToGo(clients: seq<Client>, i: nat, cut: nat, k: nat, short: System) {
    && SpawnedAt(clients, i, cut, k) && clients[i].worker < k
    && Free(short) && |short.threads| == |clients| && short.threads[i].todo == []
    && (forall j | j in Of(Ids(clients), {k}) :: short.threads[j].todo == [])
    && forall j | 0 <= j < |clients| :: forall a | a in short.threads[j].todo :: a in Upto(clients, i, cut, j)
  }

  /** Client i's thread spawns k and stops before it looks; all k's threads serve all their messages. */
  lemma {:induction false} ShortenedRuns(clients: seq<Client>, i: nat, cut: nat, k: nat) returns (schedule: seq<nat>)
    requires Sensible(clients) && Awaited(clients) <= Registering(clients)
    requires SpawnedAt(clients, i, cut, k) && clients[i].worker < k
    ensures IsRun(Shortened(clients, i, cut), schedule)
    ensures OneToGo(clients, i, cut, k, Outcome(Shortened(clients, i, cut), schedule))
  {
    var sys, plan := Shortened(clients, i, cut), ShortPlan(clients, i, cut);
    ShortenedInv(clients, i, cut, k);
    ShortenedServes(clients, i, cut, k);
    var first := Chase(sys, plan, {i});
    var sys1 := Outcome(sys, first);
    HasSpawned(plan.progs[i], sys1.threads[i], sys1.unspawned, k);
    var second := Chase(sys1, plan, {i} + Of(Ids(clients), {k}));
    Joined(sys, first, second);
    schedule := first + second;
    forall j | 0 <= j < |clients|
      ensures forall a | a in Outcome(sys, schedule).threads[j].todo :: a in Upto(clients, i, cut, j)
    {
      StillTodo(plan.progs[j], Outcome(sys, schedule).threads[j], Outcome(sys, schedule).unspawned);
    }
  }

  /** One of k's threads ends the connection. */
  lemma {:induction false} LastSteps(clients: seq<Client>, i: nat, cut: nat, k: nat, short: System, full: System)
    returns (schedule: seq<nat>)
    requires Sensible(clients) && OneToGo(clients, i, cut, k, short) && k in Leaving(clients)
    requires Inv(full) && Extends(full, short, Tails(clients, i, cut))
    ensures IsRun(full, schedule) && Forsaken(Outcome(full, schedule), i, k)
  {
    var j :| 0 <= j < |clients| && clients[j].leaves && clients[j].worker == k;
    LeaverAlone(clients, i, cut, k, short, full, j);
    schedule := RunAlone(full, j);
    Waits(clients, i, cut, k, short, full);
  }

  lemma {:induction false} LeaverAlone(clients: seq<Client>, i: nat, cut: nat, k: nat, short: System, full: System,
                                       j: nat)
    requires OneToGo(clients, i, cut, k, short) && Extends(full, short, Tails(clients, i, cut))
    requires j < |clients| && clients[j].leaves && clients[j].worker == k
    ensures Alone(full, j) && Leave(k) in full.threads[j].todo
  {
    assert j in Of(Ids(clients), {k});
    EndingLeaves(clients[j], Awaited(clients));
    assert full.threads[j].todo == Ending(clients[j]);
  }

  lemma {:induction false} Waits(clients: seq<Client>, i: nat, cut: nat, k: nat, short: System, full: System)
    requires Sensible(clients) && OneToGo(clients, i, cut, k, short)
    requires Extends(full, short, Tails(clients, i, cut))
    ensures Poll(k) in full.threads[i].todo
    ensures forall m | 0 <= m < |clients| :: Enter(k) !in full.threads[m].todo
  {
    assert full.threads[i].todo[1] == Poll(k);
    forall m: nat | m < |clients| ensures Enter(k) !in full.threads[m].todo {
      NoEnter(clients, i, cut, k, m, short.threads[m].todo);
    }
  }

  lemma {:induction false} NoEnter(clients: seq<Client>, i: nat, cut: nat, k: nat, m: nat, todo: seq<Action>)
    requires Sensible(clients) && SpawnedAt(clients, i, cut, k) && m < |clients| && clients[i].worker < k
    requires clients[m].worker == k ==> todo == []
    requires forall a | a in todo :: a in Upto(clients, i, cut, m)
    ensures Enter(k) !in todo + Beyond(clients, i, cut, m)
  {
    var s := Staying(clients[m]);
    ClientStays(clients, m);
    EndingLeaves(clients[m], Awaited(clients));
    assert clients[m].worker != k ==> Enter(k) !in s;
  }

  /** A run, in the order in which processes start, after which thread i waits for worker k, who has
      come and gone. */
  lemma {:induction false} LeavesTooSoon(clients: seq<Client>, k: nat) returns (schedule: seq<nat>, i: nat)
    requires Sensible(clients) && Awaited(clients) <= Registering(clients)
    requires k in Awaited(clients) && k in Leaving(clients)
    ensures IsRun(Start(clients), schedule) && Forsaken(Outcome(Start(clients), schedule), i, k)
  {
    i := Waiter(clients, k);
    var cut := FindCut(clients, i, k);
    var first := ShortenedRuns(clients, i, cut, k);
    var start, short := Start(clients), Shortened(clients, i, cut);
    StartExtends(clients, i, cut);
    RunExtends(start, short, Tails(clients, i, cut), first);
    StartInv(clients);
    RunKeeps(start, first);
    var second := LastSteps(clients, i, cut, k, Outcome(short, first), Outcome(start, first));
    Joined(start, first, second);
    schedule := first + second;
  }

  // ---------- Exactly when everything can be served ----------

  ghost predicate Completes(sys: System, schedule: seq<nat>) {
    IsRun(sys, schedule) && Finished(Outcome(sys, schedule))
  }

  /** There is a way for all messages to be served. */
  ghost predicate CanBeServed(sys: System) {
    exists schedule: seq<nat> :: Completes(sys, schedule)
  }

  lemma {:induction false} CanComplete(sys: System, plan: Plan)
    requires Inv(sys) && Serves(sys, plan) && (forall k | k in plan.awaited :: k < plan.limit)
    ensures CanBeServed(sys)
  {
    var goal := Of(plan.ids, set k | k in plan.ids);
    var schedule := Chase(sys, plan, goal);
    var sys' := Outcome(sys, schedule);
    forall g | 0 <= g < |sys'.threads| ensures sys'.threads[g] == Thread({}, []) {
      assert plan.ids[g] in plan.ids && g in goal;
    }
    assert Completes(sys, schedule);
  }

  lemma {:induction false} NeverCompletes(sys: System, i: nat, k: nat)
    requires Forsaken(sys, i, k)
    ensures !CanBeServed(sys)
  {
    forall schedule | IsRun(sys, schedule) ensures !Finished(Outcome(sys, schedule)) {
      ForsakenRun(sys, schedule, i, k);
    }
  }

  /** Whatever has happened so far, all messages can still be served. */
  ghost predicate AlwaysServable(clients: seq<Client>) {
    forall schedule | IsRun(Start(clients), schedule) :: CanBeServed(Outcome(Start(clients), schedule))
  }

  lemma {:induction false} StartServes(clients: seq<Client>, plan: Plan)
    requires Sensible(clients) && Awaited(clients) <= Registering(clients) && Awaited(clients) !! Leaving(clients)
    requires Follows(Start(clients), plan) && plan.ids == Ids(clients) && plan.awaited == Awaited(clients)
    requires forall m | 0 <= m < |clients| :: plan.progs[m] == Whole(clients[m])
    ensures Serves(Start(clients), plan)
  {
    RegisteringIds(clients);
    forall m, a | 0 <= m < |clients| && a in plan.progs[m] && a.Leave? ensures a.worker !in plan.awaited {
      NoneLeaves(clients, m);
    }
  }

  lemma {:induction false} NoneLeaves(clients: seq<Client>, m: nat)
    requires Sensible(clients) && Awaited(clients) !! Leaving(clients) && m < |clients|
    ensures forall a | a in Whole(clients[m]) && a.Leave? :: a.worker !in Awaited(clients)
  {
    ClientJoins(clients, m);
    assert clients[m].leaves ==> clients[m].worker in Leaving(clients);
  }

  /** All messages can still be served from every reachable state if and only if every worker that
      some handler waits for comes to register and stays. */
  lemma {:induction false} AllServed(clients: seq<Client>)
    requires Sensible(clients)
    ensures AlwaysServable(clients) <==>
            Awaited(clients) <= Registering(clients) && Awaited(clients) !! Leaving(clients)
  {
    var start := Start(clients);
    if !(Awaited(clients) <= Registering(clients)) {
      var k :| k in Awaited(clients) && k !in Registering(clients);
      var i := StartForsaken(clients, k);
      NeverCompletes(start, i, k);
      assert IsRun(start, []) && Outcome(start, []) == start;
    } else if k :| k in Awaited(clients) && k in Leaving(clients) {
      var schedule, i := LeavesTooSoon(clients, k);
      NeverCompletes(Outcome(start, schedule), i, k);
    } else {
      var plan := StartFollows(clients);
      StartServes(clients, plan);
      forall schedule | IsRun(start, schedule) ensures CanBeServed(Outcome(start, schedule)) {
        StartInv(clients);
        RunKeeps(start, schedule);
        RunServes(start, schedule, plan);
        CanComplete(Outcome(start, schedule), plan);
      }
    }
  }
}
