/** The recorder: snapshots sent by any threads, drained by one queue thread, flushed by the thread
    that ends the recording (src/rec.rs). */
module Recorder {
  import opened Wrappers

  type Id = nat
  type Bytes = seq<nat>

  datatype Snapshot = Snapshot(id: Id, original: Bytes, modified: Option<Bytes>)

  /** What the diff of an update is computed from. */
  datatype Update = Update(id: Id, original: Bytes, modified: Bytes)

  function Entry(updates: map<Id, seq<Update>>, id: Id): seq<Update> {
    if id in updates then updates[id] else []
  }

  /** process_reference. */
  function Recorded(updates: map<Id, seq<Update>>, s: Snapshot): map<Id, seq<Update>> {
    match s.modified
    case None => updates
    case Some(m) => updates[s.id := Entry(updates, s.id) + [Update(s.id, s.original, m)]]
  }

  function RecordedAll(updates: map<Id, seq<Update>>, ss: seq<Snapshot>): map<Id, seq<Update>>
    decreases |ss|
  {
    if ss == [] then updates else RecordedAll(Recorded(updates, ss[0]), ss[1..])
  }

  /** The updates the snapshots of one id stand for: one for each that was modified, in order. */
  function Modified(ss: seq<Snapshot>, id: Id): seq<Update> {
    if ss == [] then []
    else if ss[0].id == id && ss[0].modified.Some? then
      [Update(id, ss[0].original, ss[0].modified.value)] + Modified(ss[1..], id)
    else Modified(ss[1..], id)
  }

  lemma {:induction false} ModifiedAppend(a: seq<Snapshot>, b: seq<Snapshot>, id: Id)
    ensures Modified(a + b, id) == Modified(a, id) + Modified(b, id)
  {
    if a == [] {
      assert a + b == b;
    } else {
      assert (a + b)[1..] == a[1..] + b;
      ModifiedAppend(a[1..], b, id);
    }
  }

  lemma {:induction false} RecordedEntry(updates: map<Id, seq<Update>>, ss: seq<Snapshot>, id: Id)
    requires ss != []
    ensures Entry(Recorded(updates, ss[0]), id) + Modified(ss[1..], id) == Entry(updates, id) + Modified(ss, id)
  {
    var first :=
      if ss[0].id == id && ss[0].modified.Some? then [Update(id, ss[0].original, ss[0].modified.value)] else [];
    assert Entry(Recorded(updates, ss[0]), id) == Entry(updates, id) + first;
    assert Modified(ss, id) == first + Modified(ss[1..], id);
    Regroup(Entry(updates, id), first, Modified(ss[1..], id));
  }

  lemma {:induction false} Regroup(a: seq<Update>, b: seq<Update>, c: seq<Update>)
    ensures (a + b) + c == a + (b + c)
  {
  }

  lemma {:induction false} RecordedAllEntry(updates: map<Id, seq<Update>>, ss: seq<Snapshot>, id: Id)
    ensures Entry(RecordedAll(updates, ss), id) == Entry(updates, id) + Modified(ss, id)
    decreases |ss|
  {
    if ss != [] {
      RecordedEntry(updates, ss, id);
      RecordedAllEntry(Recorded(updates, ss[0]), ss[1..], id);
    }
  }

  // ---------- The threads ----------

  /** The queue thread: about to look at the flag, about to drain, recording what it drained. */
  datatype Worker = Absent | Checking | Draining | Pushing(batch: seq<Snapshot>) | Stopped

  /** The thread that begins and ends the recording. */
  datatype Owner = Idle | Recording | Joining | Flushing(batch: seq<Snapshot>)

  datatype State = State(
    recording: bool,
    worker: Worker,
    owner: Owner,
    queue: seq<Snapshot>,
    updates: map<Id, seq<Update>>,
    sent: seq<Snapshot>,
    drained: nat)

  datatype Op =
    | Begin
    | Send(snapshot: Snapshot)
    | Rekey(id: Id)
    | WorkerStep
    | End
    | OwnerStep

  predicate Enabled(s: State, op: Op) {
    match op
    case Begin => s.owner.Idle?
    case Send(_) => true
    case Rekey(_) => true
    case WorkerStep => s.worker.Checking? || s.worker.Draining? || s.worker.Pushing?
    case End => s.owner.Recording?
    case OwnerStep => (s.owner.Joining? && s.worker.Stopped?) || s.owner.Flushing?
  }

  function Next(s: State, op: Op): State
    requires Enabled(s, op)
  {
    match op
    case Begin => s.(recording := true, worker := Checking, owner := Recording)
    case Send(snapshot) => s.(queue := s.queue + [snapshot], sent := s.sent + [snapshot])
    case Rekey(id) => s.(updates := s.updates[id := Entry(s.updates, id)])
    case WorkerStep => (
      match s.worker
      case Checking => s.(worker := if s.recording then Draining else Stopped)
      case Draining => s.(worker := Pushing(s.queue), queue := [], drained := |s.sent|)
      case Pushing(batch) =>
        if batch == [] then s.(worker := Checking)
        else s.(worker := Pushing(batch[1..]), updates := Recorded(s.updates, batch[0]))
      case _ => s)
    case End => s.(recording := false, owner := Joining)
    case OwnerStep => (
      match s.owner
      case Joining => s.(owner := Flushing(s.queue), queue := [], drained := |s.sent|)
      case Flushing(batch) =>
        if batch == [] then s.(owner := Idle)
        else s.(owner := Flushing(batch[1..]), updates := Recorded(s.updates, batch[0]))
      case _ => s)
  }

  function Start(): State {
    State(false, Absent, Idle, [], map[], [], 0)
  }

  /** What has been taken from the queue and not yet recorded. */
  function InHand(s: State): seq<Snapshot> {
    (if s.worker.Pushing? then s.worker.batch else []) + (if s.owner.Flushing? then s.owner.batch else [])
  }

  ghost predicate Inv(s: State) {
    && s.drained <= |s.sent|
    && s.queue == s.sent[s.drained..]
    && (s.owner.Idle? || s.owner.Flushing? ==> s.worker.Absent? || s.worker.Stopped?)
    && (s.owner.Recording? || s.owner.Joining? ==> !s.worker.Absent?)
    && (s.owner.Joining? ==> !s.recording)
    && (s.recording ==> s.worker.Checking? || s.worker.Draining? || s.worker.Pushing?)
    && forall id :: Entry(s.updates, id) + Modified(InHand(s), id) == Modified(s.sent[..s.drained], id)
  }

  lemma {:induction false} StepKeeps(s: State, op: Op)
    requires Inv(s) && Enabled(s, op)
    ensures Inv(Next(s, op))
  {
    var s' := Next(s, op);
    forall id ensures Entry(s'.updates, id) + Modified(InHand(s'), id) == Modified(s'.sent[..s'.drained], id) {
      StepRecords(s, op, id);
    }
  }

  lemma {:induction false} StepRecords(s: State, op: Op, id: Id)
    requires Inv(s) && Enabled(s, op)
    ensures var s' := Next(s, op);
            Entry(s'.updates, id) + Modified(InHand(s'), id) == Modified(s'.sent[..s'.drained], id)
  {
    var s' := Next(s, op);
    assert Entry(s.updates, id) + Modified(InHand(s), id) == Modified(s.sent[..s.drained], id);
    match op
    case Send(_) => assert s'.sent[..s'.drained] == s.sent[..s.drained];
    case WorkerStep => WorkerRecords(s, id);
    case OwnerStep => OwnerRecords(s, id);
    case _ =>
  }

  lemma {:induction false} WorkerRecords(s: State, id: Id)
    requires Inv(s) && Enabled(s, WorkerStep)
    ensures var s' := Next(s, WorkerStep);
            Entry(s'.updates, id) + Modified(InHand(s'), id) == Modified(s'.sent[..s'.drained], id)
  {
    var s' := Next(s, WorkerStep);
    assert Entry(s.updates, id) + Modified(InHand(s), id) == Modified(s.sent[..s.drained], id);
    if s.worker.Draining? {
      DrainRecords(s, s', id);
    } else if s.worker.Pushing? && s.worker.batch != [] {
      assert InHand(s) == s.worker.batch && InHand(s') == s.worker.batch[1..];
      RecordedEntry(s.updates, s.worker.batch, id);
    }
  }

  lemma {:induction false} OwnerRecords(s: State, id: Id)
    requires Inv(s) && Enabled(s, OwnerStep)
    ensures var s' := Next(s, OwnerStep);
            Entry(s'.updates, id) + Modified(InHand(s'), id) == Modified(s'.sent[..s'.drained], id)
  {
    var s' := Next(s, OwnerStep);
    assert Entry(s.updates, id) + Modified(InHand(s), id) == Modified(s.sent[..s.drained], id);
    if s.owner.Joining? {
      DrainRecords(s, s', id);
    } else if s.owner.batch != [] {
      assert InHand(s) == s.owner.batch && InHand(s') == s.owner.batch[1..];
      RecordedEntry(s.updates, s.owner.batch, id);
    }
  }

  lemma {:induction false} DrainRecords(s: State, s': State, id: Id)
    requires Inv(s) && InHand(s) == [] && InHand(s') == s.queue
    requires s'.updates == s.updates && s'.sent == s.sent && s'.drained == |s.sent|
    ensures Entry(s'.updates, id) + Modified(InHand(s'), id) == Modified(s'.sent[..s'.drained], id)
  {
    ModifiedAppend(s.sent[..s.drained], s.queue, id);
    assert s.sent[..s.drained] + s.queue == s.sent && s.sent[..|s.sent|] == s.sent;
    assert Entry(s.updates, id) + Modified([], id) == Modified(s.sent[..s.drained], id);
  }

  ghost predicate IsRun(states: seq<State>, ops: seq<Op>) {
    && |states| == |ops| + 1 && states[0] == Start()
    && forall k | 0 <= k < |ops| :: Enabled(states[k], ops[k]) && states[k + 1] == Next(states[k], ops[k])
  }

  lemma {:induction false} RunKeeps(states: seq<State>, ops: seq<Op>, k: nat)
    requires IsRun(states, ops) && k < |states|
    ensures Inv(states[k])
    decreases k
  {
    if k > 0 {
      RunKeeps(states, ops, k - 1);
      assert Enabled(states[k - 1], ops[k - 1]);
      StepKeeps(states[k - 1], ops[k - 1]);
    }
  }

  /** Whenever end_recording has returned, or the recording has not begun, each id has exactly one
      update for every modified snapshot sent up to the last drain, in the order of sending; the
      snapshots sent since are those in the queue. */
  lemma {:induction false} EndExact(states: seq<State>, ops: seq<Op>, k: nat, id: Id)
    requires IsRun(states, ops) && k < |states| && states[k].owner.Idle?
    ensures var s := states[k];
            && s.drained <= |s.sent|
            && Entry(s.updates, id) == Modified(s.sent[..s.drained], id)
            && s.queue == s.sent[s.drained..]
            && (s.queue == [] ==> Entry(s.updates, id) == Modified(s.sent, id))
  {
    RunKeeps(states, ops, k);
    var s := states[k];
    assert Modified(InHand(s), id) == [];
    assert s.queue == [] ==> s.sent[..s.drained] == s.sent;
  }

  ghost predicate NoSends(ops: seq<Op>, from: nat, to: nat)
    requires from <= to <= |ops|
  {
    forall i | from <= i < to :: !ops[i].Send?
  }

  /** The drain of the flush empties the queue, and without senders it stays empty. */
  lemma {:induction false} QueueStaysEmpty(states: seq<State>, ops: seq<Op>, j: nat, k: nat)
    requires IsRun(states, ops) && j <= k < |states| && NoSends(ops, j, k) && states[j].queue == []
    ensures states[k].queue == [] && states[k].sent == states[j].sent
    decreases k
  {
    if j < k {
      QueueStaysEmpty(states, ops, j, k - 1);
      assert Enabled(states[k - 1], ops[k - 1]) && !ops[k - 1].Send?;
    }
  }

  /** A recording ended with no one sending meanwhile: step j ends it, and after step k
      end_recording has returned. Every modified snapshot sent is recorded, and nothing else. */
  lemma {:induction false} NothingLost(states: seq<State>, ops: seq<Op>, j: nat, k: nat, id: Id)
    requires IsRun(states, ops) && j < k < |states|
    requires states[j].owner.Joining? && ops[j].OwnerStep? && NoSends(ops, j, k) && states[k].owner.Idle?
    ensures Entry(states[k].updates, id) == Modified(states[j].sent, id)
  {
    assert Enabled(states[j], ops[j]);
    assert states[j + 1].queue == [];
    QueueStaysEmpty(states, ops, j + 1, k);
    EndExact(states, ops, k, id);
  }

  /** end_recording comes to its end: once the flag is cleared the queue thread can go on until it
      stops, and every step it takes brings it nearer. */
  function Left(s: State): (nat, nat) {
    match s.worker
    case Draining => (2, 0)
    case Pushing(batch) => (1, |batch|)
    case Checking => (0, 1)
    case _ => (0, 0)
  }

  predicate Less(a: (nat, nat), b: (nat, nat)) {
    a.0 < b.0 || (a.0 == b.0 && a.1 < b.1)
  }

  lemma {:induction false} EndProgresses(s: State, op: Op)
    requires Inv(s) && s.owner.Joining?
    ensures Enabled(s, WorkerStep) || Enabled(s, OwnerStep)
    ensures Enabled(s, WorkerStep) ==>
              Next(s, WorkerStep).owner == s.owner
              && Less(Left(Next(s, WorkerStep)), Left(s))
    ensures Enabled(s, op) && !op.WorkerStep? && !op.OwnerStep? ==>
              Next(s, op).owner == s.owner && Left(Next(s, op)) == Left(s)
  {
  }

  predicate CanPlay(s: State, ops: seq<Op>)
    decreases |ops|
  {
    ops == [] || (Enabled(s, ops[0]) && CanPlay(Next(s, ops[0]), ops[1..]))
  }

  function Play(s: State, ops: seq<Op>): State
    requires CanPlay(s, ops)
    decreases |ops|
  {
    if ops == [] then s else Play(Next(s, ops[0]), ops[1..])
  }

  /** What is left of the flush. */
  function Rest(s: State): (nat, nat) {
    match s.owner
    case Joining => (1, 0)
    case Flushing(batch) => (0, |batch|)
    case _ => (0, 0)
  }

  /** From any state in which end_recording waits or flushes, the two threads alone bring it to its
      end. */
  lemma {:induction false} EndReturns(s: State) returns (ops: seq<Op>)
    requires Inv(s) && (s.owner.Joining? || s.owner.Flushing?)
    ensures (forall op | op in ops :: op.WorkerStep? || op.OwnerStep?) && CanPlay(s, ops) && Play(s, ops).owner.Idle?
    decreases Rest(s).0, Rest(s).1, Left(s).0, Left(s).1
  {
    var op := if Enabled(s, WorkerStep) then WorkerStep else OwnerStep;
    var s' := Next(s, op);
    StepKeeps(s, op);
    var rest := [];
    if !s'.owner.Idle? {
      rest := EndReturns(s');
    }
    ops := [op] + rest;
    assert ops[1..] == rest;
  }

  // ---------- While the recording goes on ----------

  ghost predicate Working(s: State) {
    Inv(s) && s.recording
  }

  lemma {:induction false} Played(s: State, op: Op, rest: seq<Op>)
    requires Enabled(s, op) && CanPlay(Next(s, op), rest)
    ensures CanPlay(s, [op] + rest) && Play(s, [op] + rest) == Play(Next(s, op), rest)
  {
    assert ([op] + rest)[1..] == rest;
  }

  lemma {:induction false} PlayedBoth(s: State, a: seq<Op>, b: seq<Op>)
    requires CanPlay(s, a) && CanPlay(Play(s, a), b)
    ensures CanPlay(s, a + b) && Play(s, a + b) == Play(Play(s, a), b)
    decreases |a|
  {
    if a == [] {
      assert a + b == b;
    } else {
      assert (a + b)[1..] == a[1..] + b;
      PlayedBoth(Next(s, a[0]), a[1..], b);
    }
  }

  /** The queue thread can record what it has drained and come back to the flag. */
  lemma {:induction false} BatchRecorded(s: State) returns (ops: seq<Op>)
    requires Working(s) && s.worker.Pushing?
    ensures (forall op | op in ops :: op.WorkerStep?) && CanPlay(s, ops)
    ensures var s' := Play(s, ops);
            Working(s') && s'.worker == Checking && s'.queue == s.queue && s'.sent == s.sent && s'.drained == s.drained
    decreases |s.worker.batch|
  {
    StepKeeps(s, WorkerStep);
    var s' := Next(s, WorkerStep);
    var rest := [];
    if s.worker.batch != [] {
      rest := BatchRecorded(s');
    }
    ops := [WorkerStep] + rest;
    Played(s, WorkerStep, rest);
  }

  /** With the flag set, one more round of the queue thread records all that is queued. */
  lemma {:induction false} RoundRecorded(s: State) returns (ops: seq<Op>)
    requires Working(s) && !s.worker.Pushing?
    ensures (forall op | op in ops :: op.WorkerStep?) && CanPlay(s, ops)
    ensures var s' := Play(s, ops);
            Working(s') && s'.worker == Checking && s'.queue == [] && s'.sent == s.sent && s'.drained == |s.sent|
    decreases if s.worker.Checking? then 1 else 0
  {
    StepKeeps(s, WorkerStep);
    var s' := Next(s, WorkerStep);
    var rest: seq<Op>;
    if s.worker.Checking? {
      rest := RoundRecorded(s');
    } else {
      rest := BatchRecorded(s');
    }
    ops := [WorkerStep] + rest;
    Played(s, WorkerStep, rest);
  }

  /** From any state in which the flag is set, the queue thread alone brings every
      modified snapshot sent so far into the updates, in order, and goes on recording. */
  lemma {:induction false} RecordsMeanwhile(s: State) returns (ops: seq<Op>)
    requires Working(s)
    ensures (forall op | op in ops :: op.WorkerStep?) && CanPlay(s, ops) && Working(Play(s, ops))
    ensures Play(s, ops).queue == [] && Play(s, ops).sent == s.sent
    ensures forall id :: Entry(Play(s, ops).updates, id) == Modified(s.sent, id)
  {
    if s.worker.Pushing? {
      var first := BatchRecorded(s);
      var second := RoundRecorded(Play(s, first));
      PlayedBoth(s, first, second);
      ops := first + second;
    } else {
      ops := RoundRecorded(s);
    }
    AllRecorded(Play(s, ops));
  }

  lemma {:induction false} AllRecorded(s: State)
    requires Working(s) && s.worker == Checking && s.drained == |s.sent|
    ensures forall id :: Entry(s.updates, id) == Modified(s.sent, id)
  {
    assert InHand(s) == [] && s.sent[..s.drained] == s.sent;
    forall id ensures Entry(s.updates, id) == Modified(s.sent, id) {
      assert Entry(s.updates, id) + Modified(InHand(s), id) == Modified(s.sent[..s.drained], id);
    }
  }

  // ---------- The objects ----------

  /** What the lock of the recorder protects. */
  class RecorderInner {
    var queue: seq<Snapshot>
    var updates: map<Id, seq<Update>>

    constructor ()
      ensures queue == [] && updates == map[]
    {
      queue, updates := [], map[];
    }

    method Send(snapshot: Snapshot)
      modifies this
      ensures queue == old(queue) + [snapshot] && updates == old(updates)
    {
      queue := queue + [snapshot];
    }

    /** process_queue, when no one interferes. */
    method ProcessQueue()
      modifies this
      ensures queue == [] && updates == RecordedAll(old(updates), old(queue))
      ensures forall id :: Entry(updates, id) == Entry(old(updates), id) + Modified(old(queue), id)
    {
      var rs := queue;
      queue := [];
      var i := 0;
      assert rs[0..] == rs;
      while i < |rs|
        invariant 0 <= i <= |rs| && queue == []
        invariant RecordedAll(updates, rs[i..]) == RecordedAll(old(updates), rs)
      {
        assert rs[i..][0] == rs[i] && rs[i..][1..] == rs[i + 1..];
        ProcessReference(rs[i]);
        i := i + 1;
      }
      forall id ensures Entry(updates, id) == Entry(old(updates), id) + Modified(old(queue), id) {
        RecordedAllEntry(old(updates), rs, id);
      }
    }

    method ProcessReference(r: Snapshot)
      modifies this
      ensures queue == old(queue) && updates == Recorded(old(updates), r)
    {
      if r.modified.Some? {
        var update := Update(r.id, r.original, r.modified.value);
        var list := if r.id in updates then updates[r.id] else [];
        updates := updates[r.id := list + [update]];
      }
    }
  }

  /** The memory behind one allocation. */
  class Memory {
    var data: Bytes

    constructor (data: Bytes)
      ensures this.data == data
    {
      this.data := data;
    }
  }

  /** WatchGuard: it remembers the data it started from and whether mutable access was taken. */
  class WatchGuard {
    const id: Id
    const memory: Memory
    const originalData: Bytes
    var touched: bool

    constructor (id: Id, memory: Memory)
      ensures this.id == id && this.memory == memory && originalData == memory.data && !touched
    {
      this.id := id;
      this.memory := memory;
      originalData := memory.data;
      touched := false;
    }

    /** A write through deref_mut. */
    method Write(data: Bytes)
      modifies this, memory
      ensures touched && memory.data == data
    {
      touched := true;
      memory.data := data;
    }

    /** On drop the data as it is now is sent, as modified only if mutable access was taken. */
    method Drop(recorder: RecorderInner)
      modifies recorder
      ensures recorder.updates == old(recorder.updates)
      ensures recorder.queue == old(recorder.queue)
                + [Snapshot(id, originalData, if touched then Some(memory.data) else None)]
    {
      var data := if touched then Some(memory.data) else None;
      recorder.Send(Snapshot(id, originalData, data));
    }
  }

  /** A guard and what becomes of it: however often it is written through, at least once, it leaves
      one update, from the data before it to the data at its end; unwritten, none. */
  method WatchOnce(recorder: RecorderInner, id: Id, memory: Memory, writes: seq<Bytes>)
    modifies recorder, memory
    ensures writes != [] ==> memory.data == writes[|writes| - 1]
    ensures writes == [] ==> memory.data == old(memory.data)
    ensures recorder.queue == []
    ensures forall other :: Entry(recorder.updates, other) ==
              Entry(old(recorder.updates), other) + Modified(old(recorder.queue), other)
              + (if other == id && writes != [] then [Update(id, old(memory.data), memory.data)] else [])
  {
    var guard := new WatchGuard(id, memory);
    for i := 0 to |writes|
      invariant guard.touched <==> i > 0
      invariant memory.data == if i == 0 then old(memory.data) else writes[i - 1]
      invariant recorder.queue == old(recorder.queue) && recorder.updates == old(recorder.updates)
    {
      guard.Write(writes[i]);
    }
    guard.Drop(recorder);
    ghost var snapshot := Snapshot(id, guard.originalData, if guard.touched then Some(memory.data) else None);
    recorder.ProcessQueue();
    forall other
      ensures Entry(recorder.updates, other) ==
              Entry(old(recorder.updates), other) + Modified(old(recorder.queue), other)
              + (if other == id && writes != [] then [Update(id, old(memory.data), memory.data)] else [])
    {
      LastModified(Entry(old(recorder.updates), other), old(recorder.queue), snapshot, other);
    }
  }

  lemma {:induction false} LastModified(before: seq<Update>, queue: seq<Snapshot>, s: Snapshot, id: Id)
    ensures before + Modified(queue + [s], id)
         == before + Modified(queue, id)
            + if id == s.id && s.modified.Some? then [Update(s.id, s.original, s.modified.value)] else []
  {
    ModifiedAppend(queue, [s], id);
    assert [s][1..] == [];
    Regroup(before, Modified(queue, id), Modified([s], id));
  }
}
