/** The release protocol of one counted object at the grain of single atomic instructions
    (src/sync.rs): any number of threads, freely interleaved, sequentially consistent. Only
    `upgrade` is one step. */
module FineRelease {

  /** Where a drop stands that has seen its decrement reach zero. */
  datatype Pc = FreeData | LoadWeaks | FreeRcsStrong | LoadCount | FreeRcsWeak

  /** How many drops stand at each instruction. */
  datatype Pending = Pending(freeData: nat, loadWeaks: nat, freeRcsStrong: nat, loadCount: nat, freeRcsWeak: nat)

  function At(p: Pending, pc: Pc): nat {
    match pc
    case FreeData => p.freeData
    case LoadWeaks => p.loadWeaks
    case FreeRcsStrong => p.freeRcsStrong
    case LoadCount => p.loadCount
    case FreeRcsWeak => p.freeRcsWeak
  }

  const NONE := Pending(0, 0, 0, 0, 0)

  /** `strong` and `weak` handles are alive; `pending` are the drops under way. */
  datatype Object = Object(count: nat, weaks: nat, strong: nat, weak: nat, pending: Pending,
                           dataFrees: nat, rcsFrees: nat)

  /** SubCount and SubWeaks are the decrements that begin a drop; Run is the next instruction of a
      drop that goes on. */
  datatype Action = Clone | Downgrade | Upgrade | SubCount | SubWeaks | Run(pc: Pc)

  predicate Enabled(o: Object, a: Action) {
    match a
    case Clone => o.strong > 0
    case Downgrade => o.strong > 0
    case Upgrade => o.weak > 0
    case SubCount => o.strong > 0 && o.count > 0
    case SubWeaks => o.weak > 0 && o.weaks > 0
    case Run(pc) => At(o.pending, pc) > 0
  }

  function Step(o: Object, a: Action): Object
    requires Enabled(o, a)
  {
    var p := o.pending;
    match a
    case Clone => o.(strong := o.strong + 1, count := o.count + 1)
    case Downgrade => o.(weak := o.weak + 1, weaks := o.weaks + 1)
    case Upgrade => if o.count != 0 then o.(strong := o.strong + 1, count := o.count + 1) else o
    case SubCount =>
      var o' := o.(strong := o.strong - 1, count := o.count - 1);
      if o.count <= 1 then o'.(pending := p.(freeData := p.freeData + 1)) else o'
    case SubWeaks =>
      var o' := o.(weak := o.weak - 1, weaks := o.weaks - 1);
      if o.weaks <= 1 then o'.(pending := p.(loadCount := p.loadCount + 1)) else o'
    case Run(FreeData) =>
      o.(dataFrees := o.dataFrees + 1, pending := p.(freeData := p.freeData - 1, loadWeaks := p.loadWeaks + 1))
    case Run(LoadWeaks) =>
      var p' := p.(loadWeaks := p.loadWeaks - 1);
      o.(pending := if o.weaks <= 0 then p'.(freeRcsStrong := p.freeRcsStrong + 1) else p')
    case Run(FreeRcsStrong) =>
      o.(rcsFrees := o.rcsFrees + 1, pending := p.(freeRcsStrong := p.freeRcsStrong - 1))
    case Run(LoadCount) =>
      var p' := p.(loadCount := p.loadCount - 1);
      o.(pending := if o.count == 0 then p'.(freeRcsWeak := p.freeRcsWeak + 1) else p')
    case Run(FreeRcsWeak) =>
      o.(rcsFrees := o.rcsFrees + 1, pending := p.(freeRcsWeak := p.freeRcsWeak - 1))
  }

  /** A new object with its first handle. */
  predicate IsStart(o: Object) {
    o == FIRST
  }

  const FIRST := Object(1, 0, 1, 0, NONE, 0, 0)

  predicate IsRun(o: Object, run: seq<Action>)
    decreases |run|
  {
    run == [] || (Enabled(o, run[0]) && IsRun(Step(o, run[0]), run[1..]))
  }

  function After(o: Object, run: seq<Action>): Object
    requires IsRun(o, run)
    decreases |run|
  {
    if run == [] then o else After(Step(o, run[0]), run[1..])
  }

  // ---------- No leak ----------

  ghost predicate Inv(o: Object) {
    && o.count == o.strong && o.weaks == o.weak
    && o.dataFrees + o.pending.freeData == (if o.count == 0 then 1 else 0)
    && (o.pending.loadWeaks + o.pending.freeRcsStrong + o.pending.freeRcsWeak + o.rcsFrees > 0 ==> o.count == 0)
    && (o.count == 0 && o.weaks == 0 ==> o.rcsFrees > 0 || o.pending != NONE)
  }

  lemma {:induction false} StepKeeps(o: Object, a: Action)
    requires Inv(o) && Enabled(o, a)
    ensures Inv(Step(o, a))
  {
  }

  lemma {:induction false} RunKeeps(o: Object, run: seq<Action>)
    requires Inv(o) && IsRun(o, run)
    ensures Inv(After(o, run))
    decreases |run|
  {
    if run != [] {
      StepKeeps(o, run[0]);
      RunKeeps(Step(o, run[0]), run[1..]);
    }
  }

  ghost predicate Finished(o: Object) {
    o.strong == 0 && o.weak == 0 && o.pending == NONE
  }

  /** Nothing leaks, and the data block is never freed twice or under a strong handle. */
  ghost predicate NoLeakAt(o: Object) {
    && (Finished(o) ==> o.dataFrees == 1 && o.rcsFrees >= 1)
    && o.dataFrees <= 1
    && (o.strong > 0 ==> o.dataFrees == 0 && o.rcsFrees == 0)
  }

  /** Once all handles are gone and all drops have finished, the data block has been freed exactly
      once and the counts at least once: the later of the two decrements to zero sees the other. */
  lemma {:induction false} NoLeak(start: Object, run: seq<Action>)
    requires IsStart(start) && IsRun(start, run)
    ensures NoLeakAt(After(start, run))
  {
    assert Inv(start);
    RunKeeps(start, run);
    InvMeans(After(start, run));
  }

  lemma {:induction false} InvMeans(o: Object)
    requires Inv(o)
    ensures NoLeakAt(o)
  {
  }

  // ---------- When the counts are freed too early ----------

  /** The counts have been freed although a weak handle is left that will use them. */
  predicate Premature(o: Object) {
    o.rcsFrees > 0 && o.weak > 0
  }

  /** No handle is downgraded while a weak drop is between its decrement and its load. */
  predicate Quiet(o: Object, run: seq<Action>)
    requires IsRun(o, run)
    decreases |run|
  {
    run == [] || ((run[0] == Downgrade ==> o.pending.loadCount == 0) && Quiet(Step(o, run[0]), run[1..]))
  }

  /** How many frees of the counts the strong and the weak side have made or may still make. */
  ghost predicate QuietInv(o: Object) {
    && Inv(o)
    && (o.pending.loadCount > 0 ==> o.weaks == 0)
    && (o.pending.freeRcsStrong + o.pending.freeRcsWeak + o.rcsFrees > 0 ==> o.count == 0 && o.weaks == 0)
    && (o.count > 0 ==> o.pending.loadCount <= 1)
    && (o.count == 0 && o.weaks > 0 ==> o.pending.freeData + o.pending.loadWeaks <= 1)
    && (o.count == 0 && o.weaks == 0 ==>
          o.rcsFrees + o.pending.freeData + o.pending.loadWeaks + o.pending.freeRcsStrong
          + o.pending.loadCount + o.pending.freeRcsWeak <= 2)
  }

  lemma {:induction false} QuietStepKeeps(o: Object, a: Action)
    requires QuietInv(o) && Enabled(o, a)
    requires a == Downgrade ==> o.pending.loadCount == 0
    ensures QuietInv(Step(o, a))
  {
    StepKeeps(o, a);
  }

  lemma {:induction false} QuietRunKeeps(o: Object, run: seq<Action>)
    requires QuietInv(o) && IsRun(o, run) && Quiet(o, run)
    ensures QuietInv(After(o, run))
    decreases |run|
  {
    if run != [] {
      QuietStepKeeps(o, run[0]);
      QuietRunKeeps(Step(o, run[0]), run[1..]);
    }
  }

  lemma {:induction false} StartQuiet(start: Object)
    requires IsStart(start)
    ensures QuietInv(start)
  {
  }

  /** In a quiet run the counts outlive every weak handle and are freed at most twice. */
  lemma {:induction false} QuietOutlives(start: Object, run: seq<Action>)
    requires IsStart(start) && IsRun(start, run) && Quiet(start, run)
    ensures !Premature(After(start, run)) && AtMostTwice(After(start, run))
  {
    StartQuiet(start);
    QuietRunKeeps(start, run);
    QuietMeans(After(start, run));
  }

  predicate AtMostTwice(o: Object) {
    o.rcsFrees <= 2
  }

  lemma {:induction false} QuietMeans(o: Object)
    requires QuietInv(o)
    ensures !Premature(o) && AtMostTwice(o)
  {
  }

  /** Any downgrade that is not quiet can go wrong: from there the other strong handles may be
      dropped first, and the waiting weak drop then frees the counts under the new weak handle. */
  lemma {:induction false} LoudIsUnsafe(start: Object, before: seq<Action>) returns (rest: seq<Action>)
    requires IsStart(start) && IsRun(start, before)
    requires
      var o := After(start, before);
      Enabled(o, Downgrade) && o.pending.loadCount > 0
    ensures
      var o1 := Step(After(start, before), Downgrade);
      IsRun(o1, rest) && Premature(After(o1, rest))
  {
    RunKeeps(start, before);
    var o1 := Step(After(start, before), Downgrade);
    StepKeeps(After(start, before), Downgrade);
    rest := DropStrongThenFree(o1);
  }

  lemma {:induction false} DropStrongThenFree(o: Object) returns (run: seq<Action>)
    requires Inv(o) && o.weak > 0 && o.pending.loadCount > 0
    ensures IsRun(o, run) && Premature(After(o, run))
    decreases o.strong
  {
    if o.strong > 0 {
      StepKeeps(o, SubCount);
      var rest := DropStrongThenFree(Step(o, SubCount));
      run := [SubCount] + rest;
    } else {
      var o1 := Step(o, Run(LoadCount));
      var o2 := Step(o1, Run(FreeRcsWeak));
      var last := [Run(FreeRcsWeak)];
      assert last[1..] == [];
      assert IsRun(o1, last) && After(o1, last) == o2;
      run := [Run(LoadCount)] + last;
      assert run[1..] == last;
    }
  }

  /** Such a downgrade and such a failure exist: a handle is downgraded, the weak handle's drop begins,
      the handle is downgraded again and dropped, and the waiting weak drop frees the counts. */
  lemma {:induction false} LoudExample() returns (before: seq<Action>, rest: seq<Action>)
    ensures before == [Downgrade, SubWeaks] && rest == [SubCount, Run(LoadCount), Run(FreeRcsWeak)]
    ensures IsRun(FIRST, before)
    ensures
      var o := After(FIRST, before);
      && Enabled(o, Downgrade) && o.pending.loadCount > 0
      && IsRun(Step(o, Downgrade), rest) && Premature(After(Step(o, Downgrade), rest))
  {
    before, rest := [Downgrade, SubWeaks], [SubCount, Run(LoadCount), Run(FreeRcsWeak)];
    PlayTwo(FIRST, Downgrade, SubWeaks);
    var o := Step(Step(Step(FIRST, Downgrade), SubWeaks), Downgrade);
    assert o == Object(1, 1, 1, 1, Pending(0, 0, 0, 1, 0), 0, 0);
    assert Step(o, SubCount) == Object(0, 1, 0, 1, Pending(1, 0, 0, 1, 0), 0, 0);
    PlayTwo(Step(o, SubCount), Run(LoadCount), Run(FreeRcsWeak));
    assert rest[1..] == [Run(LoadCount), Run(FreeRcsWeak)];
    assert After(o, rest) == Step(Step(Step(o, SubCount), Run(LoadCount)), Run(FreeRcsWeak));
  }

  lemma {:induction false} PlayTwo(o: Object, a: Action, b: Action)
    requires Enabled(o, a) && Enabled(Step(o, a), b)
    ensures IsRun(o, [a, b]) && After(o, [a, b]) == Step(Step(o, a), b)
  {
    var o1, o2, last, none: seq<Action> := Step(o, a), Step(Step(o, a), b), [b], [];
    assert [a, b][1..] == last && last[1..] == none;
    assert IsRun(o2, none) && After(o2, none) == o2;
    assert IsRun(o1, last) && After(o1, last) == o2;
  }

  // ---------- When the counts are freed twice ----------

  /** A strong drop is between its decrement and its load while a weak drop is so too. */
  predicate Overlap(o: Object) {
    o.pending.freeData + o.pending.loadWeaks > 0 && o.pending.loadCount > 0
  }

  /** The two drops overlap at some moment of the run. */
  predicate Overlaps(o: Object, run: seq<Action>)
    requires IsRun(o, run)
    decreases |run|
  {
    Overlap(o) || (run != [] && Overlaps(Step(o, run[0]), run[1..]))
  }

  /** Every instruction but the free of the data block reads, writes or frees the counts. */
  predicate UsesCounts(a: Action) {
    a != Run(FreeData)
  }

  /** Some instruction uses the counts after they were freed. */
  predicate UsesFreed(o: Object, run: seq<Action>)
    requires IsRun(o, run)
    decreases |run|
  {
    run != [] && ((o.rcsFrees > 0 && UsesCounts(run[0])) || UsesFreed(Step(o, run[0]), run[1..]))
  }

  /** Frees of the counts that have been made or will be, once no handle is left. */
  function Frees(o: Object): nat {
    o.rcsFrees + o.pending.freeData + o.pending.loadWeaks + o.pending.freeRcsStrong
    + o.pending.loadCount + o.pending.freeRcsWeak
  }

  /** `overlapped` and `used` tell what has happened so far. */
  ghost predicate TwiceInv(o: Object, overlapped: bool, used: bool) {
    && QuietInv(o)
    && (o.count == 0 && o.weaks == 0 ==> Frees(o) == if overlapped then 2 else 1)
    && (o.count > 0 || o.weaks > 0 ==> !overlapped)
    && (Overlap(o) ==> overlapped)
    && (used ==> overlapped)
    && (o.rcsFrees > 1 ==> used)
  }

  lemma {:induction false} TwiceStep(o: Object, a: Action, overlapped: bool, used: bool)
    requires TwiceInv(o, overlapped, used) && Enabled(o, a)
    requires a == Downgrade ==> o.pending.loadCount == 0
    ensures TwiceInv(Step(o, a), overlapped || Overlap(Step(o, a)), used || (o.rcsFrees > 0 && UsesCounts(a)))
  {
    QuietStepKeeps(o, a);
    if a.Run? {
      TwiceGoOn(o, a.pc, overlapped, used);
    } else {
      TwiceHandle(o, a, overlapped, used);
    }
  }

  lemma {:induction false} TwiceHandle(o: Object, a: Action, overlapped: bool, used: bool)
    requires TwiceInv(o, overlapped, used) && Enabled(o, a) && !a.Run? && QuietInv(Step(o, a))
    requires a == Downgrade ==> o.pending.loadCount == 0
    ensures TwiceInv(Step(o, a), overlapped || Overlap(Step(o, a)), used)
    ensures o.rcsFrees == 0
  {
  }

  /** A drop that goes on frees or leaves to free as much as before. */
  lemma {:induction false} TwiceGoOn(o: Object, pc: Pc, overlapped: bool, used: bool)
    requires TwiceInv(o, overlapped, used) && Enabled(o, Run(pc)) && QuietInv(Step(o, Run(pc)))
    ensures TwiceInv(Step(o, Run(pc)), overlapped || Overlap(Step(o, Run(pc))),
                     used || (o.rcsFrees > 0 && UsesCounts(Run(pc))))
  {
    assert o.count == 0 && o.weaks == 0 ==> Frees(Step(o, Run(pc))) == Frees(o);
  }

  lemma {:induction false} TwiceRun(o: Object, run: seq<Action>, overlapped: bool, used: bool)
    requires TwiceInv(o, overlapped, used) && IsRun(o, run) && Quiet(o, run)
    ensures TwiceInv(After(o, run), overlapped || Overlaps(o, run), used || UsesFreed(o, run))
    decreases |run|
  {
    if run != [] {
      var a, o' := run[0], Step(o, run[0]);
      TwiceStep(o, a, overlapped, used);
      TwiceRun(o', run[1..], overlapped || Overlap(o'), used || (o.rcsFrees > 0 && UsesCounts(a)));
    }
  }

  /** In a quiet run that has come to its end, the counts were freed once if the last strong and the
      last weak drop did not overlap, and twice if they did; and just then some instruction used them
      after they were freed. */
  lemma {:induction false} FreedTwiceIff(start: Object, run: seq<Action>)
    requires IsStart(start) && IsRun(start, run) && Quiet(start, run) && Finished(After(start, run))
    ensures After(start, run).rcsFrees == if Overlaps(start, run) then 2 else 1
    ensures UsesFreed(start, run) <==> Overlaps(start, run)
  {
    TwiceRun(start, run, false, false);
  }

  /** Such a run: the weak drop frees the counts, and the strong drop then loads from them and frees
      them again. */
  lemma {:induction false} TwiceExample() returns (run: seq<Action>)
    ensures IsRun(FIRST, run) && Quiet(FIRST, run) && Finished(After(FIRST, run))
    ensures Overlaps(FIRST, run) && After(FIRST, run).rcsFrees == 2
  {
    var last := [Run(LoadCount), Run(FreeRcsWeak), Run(LoadWeaks), Run(FreeRcsStrong)];
    var o1 := Step(FIRST, Downgrade);
    var o2 := Step(o1, SubCount);
    var o3 := Step(o2, Run(FreeData));
    var o4 := Step(o3, SubWeaks);
    assert last[1..] == [Run(FreeRcsWeak), Run(LoadWeaks), Run(FreeRcsStrong)];
    assert last[1..][1..] == [Run(LoadWeaks), Run(FreeRcsStrong)];
    PlayTwo(Step(Step(o4, Run(LoadCount)), Run(FreeRcsWeak)), Run(LoadWeaks), Run(FreeRcsStrong));
    QuietWithoutDowngrade(o4, last);
    var r3 := Prefixed(o3, SubWeaks, last);
    var r2 := Prefixed(o2, Run(FreeData), r3);
    var r1 := Prefixed(o1, SubCount, r2);
    run := Prefixed(FIRST, Downgrade, r1);
    FreedTwiceIff(FIRST, run);
  }

  lemma {:induction false} QuietWithoutDowngrade(o: Object, run: seq<Action>)
    requires IsRun(o, run) && Downgrade !in run
    ensures Quiet(o, run)
    decreases |run|
  {
    if run != [] {
      QuietWithoutDowngrade(Step(o, run[0]), run[1..]);
    }
  }

  /** One more action in front of a run. */
  lemma {:induction false} Prefixed(o: Object, a: Action, rest: seq<Action>) returns (run: seq<Action>)
    requires Enabled(o, a) && IsRun(Step(o, a), rest) && Quiet(Step(o, a), rest)
    requires a == Downgrade ==> o.pending.loadCount == 0
    ensures run == [a] + rest && IsRun(o, run) && Quiet(o, run) && After(o, run) == After(Step(o, a), rest)
    ensures Overlaps(Step(o, a), rest) ==> Overlaps(o, run)
  {
    run := [a] + rest;
    assert run[1..] == rest;
  }
}
