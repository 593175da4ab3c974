/** The manager's block table (src/pal/posix/server.rs): live blocks, the free list, the
    high-water mark, and the exclusive name space of the operating system behind them. */
module Blocks {
  import opened Wrappers

  type BlockId = n: nat | n < 65536
  type Word32 = n: nat | n < 0x1_0000_0000

  const LAST_BLOCK: BlockId := 65535

  /** What a block's shared memory holds: reference counts, or bytes nobody here looks into. */
  datatype Block = Plain | Rcs(count: Word32, weaks: Word32, data: BlockId)

  /** `names` are the segment names that exist, whoever owns them; `abandoned` are the ids whose
      segment could not be created, which the server never hands out again. */
  datatype State = State(live: map<BlockId, Block>, free: seq<BlockId>, next: BlockId,
                         names: set<BlockId>, abandoned: set<BlockId>)

  datatype Outcome = Granted(block: BlockId) | CreateFailed(block: BlockId) | Overflow

  ghost function ToSet(s: seq<BlockId>): set<BlockId> {
    set b | b in s
  }

  ghost predicate NoDuplicates(s: seq<BlockId>) {
    forall i, j | 0 <= i < j < |s| :: s[i] != s[j]
  }

  // ---------- Alloc ----------

  /** The id the next attempt uses: the head of the free list, else the high-water mark. */
  function Candidate(st: State): BlockId {
    if st.free == [] then st.next else st.free[0]
  }

  function Popped(st: State): State {
    if st.free == [] then st else st.(free := st.free[1..])
  }

  /** Taking the candidate moves the high-water mark past it; the mark is a checked u16. */
  predicate Overflows(st: State) {
    Candidate(st) == st.next == LAST_BLOCK
  }

  function Taken(st: State): State
    requires !Overflows(st)
  {
    var st' := Popped(st);
    if Candidate(st) == st.next then st'.(next := st.next + 1) else st'
  }

  function Measure(st: State): nat {
    |st.free| + (LAST_BLOCK - st.next)
  }

  /** The retry loop: ids whose segment name exists are passed over. `fault` says whether the
      first create that finds its name unused fails for another reason. */
  function Alloc(st: State, fault: bool): (Outcome, State)
    decreases Measure(st)
  {
    var b := Candidate(st);
    if Overflows(st) then (Overflow, Popped(st))
    else
      var st' := Taken(st);
      if b in st.names then Alloc(st'.(abandoned := st.abandoned + {b}), fault)
      else if fault then (CreateFailed(b), st'.(abandoned := st.abandoned + {b}))
      else (Granted(b), st'.(live := st.live[b := Plain], names := st.names + {b}))
  }

  /** How many segments the loop tries to create. */
  function Attempts(st: State): nat
    decreases Measure(st)
  {
    if Overflows(st) then 0
    else if Candidate(st) in st.names then 1 + Attempts(Taken(st).(abandoned := st.abandoned + {Candidate(st)}))
    else 1
  }

  lemma {:induction false} AttemptsBounded(st: State)
    ensures Attempts(st) <= Measure(st)
    decreases Measure(st)
  {
    if !Overflows(st) && Candidate(st) in st.names {
      AttemptsBounded(Taken(st).(abandoned := st.abandoned + {Candidate(st)}));
    }
  }

  // ---------- Free ----------

  /** Dropping the segment of a live block unlinks its name; the id is pushed in any case. */
  function Free(st: State, b: BlockId): State {
    st.(live := st.live - {b},
        free := st.free + [b],
        names := if b in st.live then st.names - {b} else st.names)
  }

  // ---------- Safety under any messages ----------

  ghost predicate Owned(st: State) {
    st.live.Keys <= st.names
  }

  /** An alloc reply never names a live block, and nothing already live is touched. */
  lemma {:induction false} AllocSafe(st: State, fault: bool)
    requires Owned(st)
    ensures
      var (out, st') := Alloc(st, fault);
      && Owned(st')
      && (out.Granted? ==>
            out.block !in st.names && out.block !in st.live && st'.live == st.live[out.block := Plain])
      && (!out.Granted? ==> st'.live == st.live)
    decreases Measure(st)
  {
    if !Overflows(st) {
      var b := Candidate(st);
      if b in st.names {
        AllocSafe(Taken(st).(abandoned := st.abandoned + {b}), fault);
      }
    }
  }

  /** First fit: every id passed over, from the list or above the old mark, had its name taken. */
  lemma {:induction false} AllocFirstFit(st: State, fault: bool)
    ensures
      var (out, st') := Alloc(st, fault);
      && |st'.free| <= |st.free| && st'.free == st.free[|st.free| - |st'.free|..]
      && st.next <= st'.next
      && (out.Granted? || out.CreateFailed? ==>
            && out.block !in st.names
            && (forall i | 0 <= i < |st.free| - |st'.free| :: st.free[i] == out.block || st.free[i] in st.names)
            && (forall n: BlockId | st.next <= n < st'.next :: n == out.block || n in st.names))
    decreases Measure(st)
  {
    if !Overflows(st) {
      var b := Candidate(st);
      if b in st.names {
        var st1 := Taken(st).(abandoned := st.abandoned + {b});
        AllocFirstFit(st1, fault);
        var (out, st') := Alloc(st1, fault);
        if st.free != [] {
          var d := |st.free| - |st'.free|;
          assert st.free[d..] == st1.free[d - 1..];
          assert forall i | 0 < i < d :: st.free[i] == st1.free[i - 1];
        }
      }
    }
  }

  // ---------- Which id is granted ----------

  /** The ids that a request may be given, the most wanted first: the free list from its head, then
      those from the high-water mark on. The last block is never given. */
  function Candidates(st: State): seq<BlockId> {
    st.free + seq(LAST_BLOCK - st.next, i requires 0 <= i < LAST_BLOCK - st.next => st.next + i)
  }

  /** What is on the free list was handed out once; it may be there more than once. */
  ghost predicate Below(st: State) {
    forall i | 0 <= i < |st.free| :: st.free[i] < st.next
  }

  lemma {:induction false} ConservedBelow(st: State)
    requires Conserved(st)
    ensures Below(st)
  {
    assert forall i | 0 <= i < |st.free| :: st.free[i] in ToSet(st.free);
  }

  lemma {:induction false} CandidatesTaken(st: State)
    requires Below(st)
    ensures Overflows(st) <==> Candidates(st) == []
    ensures !Overflows(st) ==> Candidates(st) == [Candidate(st)] + Candidates(Taken(st)) && Below(Taken(st))
  {
    if !Overflows(st) {
      var cs, rest := Candidates(st), Candidates(Taken(st));
      assert |cs| == 1 + |rest|;
      assert forall i | 0 < i < |cs| :: cs[i] == rest[i - 1];
      assert cs == [cs[0]] + rest;
    }
  }

  /** Candidate k is the first whose name is not taken; k is the number of all when there is none. */
  ghost predicate FirstUnused(cs: seq<BlockId>, names: set<BlockId>, k: nat) {
    k <= |cs| && (forall i | 0 <= i < k :: cs[i] in names) && (k < |cs| ==> cs[k] !in names)
  }

  /** What is left of the candidates, and who has been given up, once the first k were taken. */
  ghost predicate Gone(st: State, k: nat, abandoned: set<BlockId>, st': State)
    requires k <= |Candidates(st)|
  {
    && Candidates(st') == Candidates(st)[k..] && st'.abandoned == st.abandoned + abandoned
    && st'.free == (if k < |st.free| then st.free[k..] else [])
    && st'.next == (if k <= |st.free| then st.next else st.next + (k - |st.free|))
  }

  /** The answer that candidate k brings about, and the table after it. */
  ghost predicate Answers(st: State, fault: bool, k: nat, attempts: nat, out: Outcome, st': State)
    requires k <= |Candidates(st)|
  {
    var cs := Candidates(st);
    if k == |cs| then
      && out == Overflow && attempts == k && Gone(st, k, ToSet(cs), st')
      && st'.live == st.live && st'.names == st.names
    else if fault then
      && out == CreateFailed(cs[k]) && attempts == k + 1 && Gone(st, k + 1, ToSet(cs[..k + 1]), st')
      && st'.live == st.live && st'.names == st.names
    else
      && out == Granted(cs[k]) && attempts == k + 1 && Gone(st, k + 1, ToSet(cs[..k]), st')
      && st'.live == st.live[cs[k] := Plain] && st'.names == st.names + {cs[k]}
  }

  /** The request is answered with the first candidate whose name is not taken, or if there is none,
      and only then, with an overflow; every candidate before it is given up, and no other. */
  lemma {:induction false} AllocAnswer(st: State, fault: bool) returns (k: nat)
    requires Below(st)
    ensures FirstUnused(Candidates(st), st.names, k)
    ensures Answers(st, fault, k, Attempts(st), Alloc(st, fault).0, Alloc(st, fault).1)
    decreases Measure(st)
  {
    CandidatesTaken(st);
    if Overflows(st) || Candidate(st) !in st.names {
      k := 0;
      AnswersAtOnce(st, fault);
    } else {
      var b, cs := Candidate(st), Candidates(st);
      var st1 := Taken(st).(abandoned := st.abandoned + {b});
      assert Candidates(st1) == Candidates(Taken(st));
      var j := AllocAnswer(st1, fault);
      k := j + 1;
      FirstLater(b, Candidates(st1), cs, st.names, j);
      AnswersLater(st, st1, fault, j, Attempts(st1), Alloc(st1, fault).0, Alloc(st1, fault).1);
    }
  }

  lemma {:induction false} AnswersAtOnce(st: State, fault: bool)
    requires Below(st) && (Overflows(st) || Candidate(st) !in st.names)
    ensures Answers(st, fault, 0, Attempts(st), Alloc(st, fault).0, Alloc(st, fault).1)
  {
    CandidatesTaken(st);
    var cs := Candidates(st);
    if Overflows(st) {
      assert ToSet(cs) == {};
    } else {
      assert cs[1..] == Candidates(Taken(st)) && ToSet(cs[..1]) == {cs[0]} && ToSet(cs[..0]) == {};
    }
  }

  lemma {:induction false} AnswersLater(st: State, st1: State, fault: bool, j: nat, attempts: nat, out: Outcome,
                                        st': State)
    requires Below(st) && !Overflows(st) && st1 == Taken(st).(abandoned := st.abandoned + {Candidate(st)})
    requires Candidates(st) == [Candidate(st)] + Candidates(st1)
    requires j <= |Candidates(st1)| && Answers(st1, fault, j, attempts, out, st')
    ensures Answers(st, fault, j + 1, attempts + 1, out, st')
  {
    var cs, rest := Candidates(st), Candidates(st1);
    GoneLater(st, st1, cs, j + 1, st');
    assert rest[..|rest|] == rest && cs[..|cs|] == cs;
    assert j < |rest| ==> cs[j + 1] == rest[j];
  }

  lemma {:induction false} FirstLater(b: BlockId, rest: seq<BlockId>, cs: seq<BlockId>, names: set<BlockId>, j: nat)
    requires cs == [b] + rest && b in names && FirstUnused(rest, names, j)
    ensures FirstUnused(cs, names, j + 1)
  {
    assert forall i | 0 < i < |cs| :: cs[i] == rest[i - 1];
  }

  /** One more candidate was taken before. */
  lemma {:induction false} GoneLater(st: State, st1: State, cs: seq<BlockId>, k: nat, st': State)
    requires Below(st) && !Overflows(st) && cs == Candidates(st)
    requires cs == [cs[0]] + Candidates(st1) && 0 < k <= |cs|
    requires st1 == Taken(st).(abandoned := st.abandoned + {cs[0]})
    ensures Gone(st1, k - 1, ToSet(Candidates(st1)[..k - 1]), st') ==> Gone(st, k, ToSet(cs[..k]), st')
    ensures k < |cs| && Gone(st1, k, ToSet(Candidates(st1)[..k]), st') ==> Gone(st, k + 1, ToSet(cs[..k + 1]), st')
    ensures k < |cs| && Gone(st1, k, ToSet(Candidates(st1)[..k - 1]), st') ==> Gone(st, k + 1, ToSet(cs[..k]), st')
  {
    var rest := Candidates(st1);
    SetPrefix(cs, rest, k - 1);
    if k < |cs| {
      SetPrefix(cs, rest, k);
    }
    assert cs[k..] == rest[k - 1..] && (k < |cs| ==> cs[k + 1..] == rest[k..]);
  }

  lemma {:induction false} SetPrefix(cs: seq<BlockId>, rest: seq<BlockId>, k: nat)
    requires cs != [] && cs == [cs[0]] + rest && k <= |rest|
    ensures ToSet(cs[..k + 1]) == {cs[0]} + ToSet(rest[..k])
  {
    assert cs[..k + 1] == [cs[0]] + rest[..k];
  }

  // ---------- Conservation ----------

  /** Below the high-water mark every id is exactly one of: live, on the free list once, abandoned. */
  ghost predicate Conserved(st: State) {
    && Owned(st)
    && NoDuplicates(st.free)
    && st.live.Keys !! ToSet(st.free)
    && st.live.Keys !! st.abandoned
    && ToSet(st.free) !! st.abandoned
    && (forall n: BlockId :: n < st.next <==> n in st.live || n in ToSet(st.free) || n in st.abandoned)
  }

  lemma {:induction false} AllocConserves(st: State, fault: bool)
    requires Conserved(st)
    ensures Conserved(Alloc(st, fault).1)
    decreases Measure(st)
  {
    if !Overflows(st) {
      TakenConserves(st);
      var b := Candidate(st);
      if b in st.names {
        AllocConserves(Taken(st).(abandoned := st.abandoned + {b}), fault);
      }
    } else {
      HeadIsFree(st);
    }
  }

  lemma {:induction false} HeadIsFree(st: State)
    ensures st.free != [] ==> Candidate(st) in ToSet(st.free)
  {
  }

  /** A taken candidate is nowhere else: it may be made live or be abandoned. */
  lemma {:induction false} TakenConserves(st: State)
    requires Conserved(st) && !Overflows(st)
    ensures
      var b, st' := Candidate(st), Taken(st);
      && b !in st.live && b !in ToSet(st'.free) && b !in st.abandoned
      && Conserved(st'.(abandoned := st.abandoned + {b}))
      && (b !in st.names ==> Conserved(st'.(live := st.live[b := Plain], names := st.names + {b})))
  {
    var b, st' := Candidate(st), Taken(st);
    if st.free == [] {
      assert ToSet(st'.free) == {};
    } else {
      assert st.free == [b] + st'.free;
      assert b in ToSet(st.free);
      assert ToSet(st.free) == {b} + ToSet(st'.free);
      assert b !in ToSet(st'.free);
    }
  }

  /** Freeing keeps the accounts exactly when the message names a live block. */
  lemma {:induction false} FreeConserves(st: State, b: BlockId)
    requires Conserved(st)
    ensures Conserved(Free(st, b)) <==> b in st.live
  {
    var st' := Free(st, b);
    assert ToSet(st'.free) == ToSet(st.free) + {b};
    if b in st.live {
      assert b !in ToSet(st.free);
    } else if b in ToSet(st.free) {
      var i :| 0 <= i < |st.free| && st.free[i] == b;
      assert st'.free[i] == st'.free[|st.free|];
    } else {
      assert b in ToSet(st'.free);
    }
  }

  // ---------- Many requests ----------

  function AllocMany(st: State, n: nat): (seq<Outcome>, State) {
    if n == 0 then ([], st)
    else
      var (outs, st1) := AllocMany(st, n - 1);
      var (out, st2) := Alloc(st1, false);
      (outs + [out], st2)
  }

  function FreeMany(st: State, bs: seq<BlockId>): State {
    if bs == [] then st else Free(FreeMany(st, bs[..|bs| - 1]), bs[|bs| - 1])
  }

  /** A new server with no names taken grants the ids from 0 to 65534, in this order, and after that
      overflows. */
  lemma {:induction false} GrantsInOrder(n: nat)
    requires n <= 65535
    ensures var (outs, st) := AllocMany(Initial({}), n);
            && |outs| == n && (forall i | 0 <= i < n :: outs[i] == Granted(i))
            && st.next == n && st.free == [] && (forall b | b in st.names :: b < n)
            && Alloc(st, false).0 == if n == 65535 then Overflow else Granted(n)
  {
    if n > 0 {
      GrantsInOrder(n - 1);
    }
  }

  lemma {:induction false} FreedMany(st: State, bs: seq<BlockId>)
    requires Owned(st) && NoDuplicates(bs) && forall i | 0 <= i < |bs| :: bs[i] in st.live
    ensures var st' := FreeMany(st, bs);
            && st'.free == st.free + bs && st'.next == st.next && st'.names == st.names - ToSet(bs)
            && st'.live.Keys == st.live.Keys - ToSet(bs)
  {
    if bs == [] {
      assert st.free + [] == st.free;
    } else {
      var n := |bs| - 1;
      FreedMany(st, bs[..n]);
      assert bs == bs[..n] + [bs[n]] && ToSet(bs) == ToSet(bs[..n]) + {bs[n]};
      assert bs[n] !in ToSet(bs[..n]) by {
        assert forall i | 0 <= i < n :: bs[..n][i] != bs[n];
      }
    }
  }

  /** First in, first out: with nothing else on the free list, the blocks that were freed are granted
      again in the order in which they were freed. */
  lemma {:induction false} FreedReturn(st: State, bs: seq<BlockId>, n: nat)
    requires Conserved(st) && st.free == [] && NoDuplicates(bs) && n <= |bs|
    requires forall i | 0 <= i < |bs| :: bs[i] in st.live
    ensures var outs := AllocMany(FreeMany(st, bs), n).0;
            |outs| == n && forall i | 0 <= i < n :: outs[i] == Granted(bs[i])
  {
    FreedMany(st, bs);
    assert st.free + bs == bs;
    forall i | 0 <= i < |bs| ensures bs[i] < st.next && bs[i] in st.names {
      assert bs[i] in st.live;
    }
    GrantsList(FreeMany(st, bs), bs, n, st.names);
  }

  lemma {:induction false} GrantsList(st: State, bs: seq<BlockId>, n: nat, names: set<BlockId>)
    requires NoDuplicates(bs) && n <= |bs| && forall i | 0 <= i < |bs| :: bs[i] < st.next && bs[i] in names
    requires st.free == bs && st.names == names - ToSet(bs)
    ensures var (outs, st') := AllocMany(st, n);
            && |outs| == n && (forall i | 0 <= i < n :: outs[i] == Granted(bs[i]))
            && st'.free == bs[n..] && st'.next == st.next && st'.names == names - ToSet(bs[n..])
  {
    if n == 0 {
      assert bs[0..] == bs;
    } else {
      GrantsList(st, bs, n - 1, names);
      GrantsNext(AllocMany(st, n - 1).1, bs, n - 1, names);
    }
  }

  lemma {:induction false} GrantsNext(st: State, bs: seq<BlockId>, n: nat, names: set<BlockId>)
    requires NoDuplicates(bs) && n < |bs| && bs[n] < st.next && bs[n] in names
    requires st.free == bs[n..] && st.names == names - ToSet(bs[n..])
    ensures var (out, st') := Alloc(st, false);
            && out == Granted(bs[n]) && st'.free == bs[n + 1..] && st'.next == st.next
            && st'.names == names - ToSet(bs[n + 1..])
  {
    assert bs[n..] == [bs[n]] + bs[n + 1..];
    assert ToSet(bs[n..]) == {bs[n]} + ToSet(bs[n + 1..]);
    assert bs[n] !in ToSet(bs[n + 1..]);
  }

  // ---------- Reference counts kept in shared memory ----------

  function FetchAdd(c: Word32): Word32 {
    (c + 1) % 0x1_0000_0000
  }

  function FetchSub(c: Word32): Word32 {
    (c - 1) % 0x1_0000_0000
  }

  predicate IsRcs(st: State, r: BlockId) {
    r in st.live && st.live[r].Rcs?
  }

  function WithCount(st: State, r: BlockId, c: Word32): State
    requires IsRcs(st, r)
  {
    st.(live := st.live[r := st.live[r].(count := c)])
  }

  function WithWeaks(st: State, r: BlockId, c: Word32): State
    requires IsRcs(st, r)
  {
    st.(live := st.live[r := st.live[r].(weaks := c)])
  }

  /** The blocks that go with the last strong reference. */
  function LastStrongFrees(b: Block, r: BlockId): seq<BlockId>
    requires b.Rcs?
  {
    if b.count > 1 then [] else if b.weaks == 0 then [b.data, r] else [b.data]
  }

  function FreeAll(st: State, dead: seq<BlockId>): State {
    st.(live := st.live - (set b | b in dead),
        free := st.free + dead,
        names := st.names - (set b | b in dead))
  }

  /** Giving up one strong reference, as one abstract step. */
  function Release(st: State, r: BlockId): State
    requires IsRcs(st, r)
  {
    FreeAll(WithCount(st, r, FetchSub(st.live[r].count)), LastStrongFrees(st.live[r], r))
  }

  /** The reference counts sit in a block of their own, and while there is a strong reference the
      data block they speak of is live. */
  ghost predicate HoldsData(st: State, r: BlockId) {
    && Owned(st) && IsRcs(st, r) && st.live[r].data != r
    && st.live[r].count > 0 && st.live[r].data in st.live
  }

  /** The client's release: the handle names the data block, the counts say whether it was the
      last reference, and the blocks go back by free messages. */
  function ClientRelease(st: State, data: BlockId, r: BlockId): State
    requires IsRcs(st, r)
  {
    var b := st.live[r];
    var st1 := WithCount(st, r, FetchSub(b.count));
    if b.count > 1 then st1
    else if b.weaks > 0 then Free(st1, data)
    else Free(Free(st1, data), r)
  }

  /** The server's release: ids without a live block are ignored, the data block is the one the
      counts speak of, and it is pushed only if it was live. */
  function ServerRelease(st: State, r: BlockId): State
    requires r in st.live ==> IsRcs(st, r)
  {
    if r !in st.live then st
    else
      var b := st.live[r];
      var st1 := WithCount(st, r, FetchSub(b.count));
      if b.count > 1 then st1
      else
        var st2 := if b.data in st.live then Free(st1, b.data) else st1;
        if b.weaks > 0 then st2 else Free(st2, r)
  }

  /** Both are the one abstract step. */
  lemma {:induction false} ReleasesRefine(st: State, r: BlockId)
    requires HoldsData(st, r)
    ensures ServerRelease(st, r) == Release(st, r)
    ensures ClientRelease(st, st.live[r].data, r) == Release(st, r)
  {
    var dead := LastStrongFrees(st.live[r], r);
    var data := st.live[r].data;
    assert (set b | b in [data]) == {data};
    assert (set b | b in [data, r]) == {data, r};
    assert st.free + [data] + [r] == st.free + [data, r];
  }

  /** Giving up one weak reference: `weaks` is decremented, and the last one takes the counts along
      if there is no strong reference either. */
  function ReleaseWeak(st: State, r: BlockId): State
    requires IsRcs(st, r)
  {
    var b := st.live[r];
    var st1 := WithWeaks(st, r, FetchSub(b.weaks));
    if b.weaks <= 1 && b.count == 0 then Free(st1, r) else st1
  }

  /** A new object takes two blocks, the second one for the counts. */
  datatype NewOutcome = NoBlocks | DataOnly(data: BlockId) | Both(data: BlockId, rcs: BlockId)

  function NewObject(st: State, fault1: bool, fault2: bool): (NewOutcome, State) {
    var (out1, st1) := Alloc(st, fault1);
    if !out1.Granted? then (NoBlocks, st1)
    else
      var (out2, st2) := Alloc(st1, fault2);
      if !out2.Granted? then (DataOnly(out1.block), st2)
      else (Both(out1.block, out2.block), st2.(live := st2.live[out2.block := Rcs(1, 0, out1.block)]))
  }

  /** What an attempt to make an object leaves: nothing, a data block that nobody will free, or the two
      blocks of the object. */
  lemma {:induction false} NewObjectLeaves(st: State, fault1: bool, fault2: bool)
    requires Owned(st)
    ensures
      var (out, st') := NewObject(st, fault1, fault2);
      match out
      case NoBlocks => st'.live == st.live
      case DataOnly(d) => d !in st.live && st'.live == st.live[d := Plain]
      case Both(d, r) =>
        d !in st.live && r !in st.live && d != r && st'.live == st.live[d := Plain][r := Rcs(1, 0, d)]
  {
    AllocSafe(st, fault1);
    AllocSafe(Alloc(st, fault1).1, fault2);
  }

  /** The server's release keeps the accounts, whatever clients have done to the data block. */
  lemma {:induction false} ReleaseConserves(st: State, r: BlockId)
    requires Conserved(st) && (r in st.live ==> IsRcs(st, r) && st.live[r].data != r)
    ensures Conserved(ServerRelease(st, r))
  {
    if r in st.live {
      var b := st.live[r];
      var st1 := WithCount(st, r, FetchSub(b.count));
      assert st1.live.Keys == st.live.Keys && Conserved(st1);
      if b.count <= 1 {
        FreeConserves(st1, b.data);
        var st2 := if b.data in st.live then Free(st1, b.data) else st1;
        FreeConserves(st2, r);
      }
    }
  }

  // ---------- Runs with arbitrary messages ----------

  /** Requests in any order: frees of anything, and clients writing what they like into live blocks. */
  datatype Message = AllocMsg(fault: bool) | FreeMsg(block: BlockId) | ReleaseMsg(rcs: BlockId)
                   | Write(block: BlockId, content: Block)

  function Serve(st: State, m: Message): State {
    match m
    case AllocMsg(fault) => Alloc(st, fault).1
    case FreeMsg(b) => Free(st, b)
    case ReleaseMsg(r) => if r in st.live ==> IsRcs(st, r) then ServerRelease(st, r) else st
    case Write(b, content) => if b in st.live then st.(live := st.live[b := content]) else st
  }

  function ServeAll(st: State, ms: seq<Message>): State {
    if ms == [] then st else Serve(ServeAll(st, ms[..|ms| - 1]), ms[|ms| - 1])
  }

  function Initial(names: set<BlockId>): State {
    State(map[], [], 0, names, {})
  }

  lemma {:induction false} NamesOwned(names: set<BlockId>, ms: seq<Message>)
    ensures Owned(ServeAll(Initial(names), ms))
  {
    if ms != [] {
      var st, m := ServeAll(Initial(names), ms[..|ms| - 1]), ms[|ms| - 1];
      NamesOwned(names, ms[..|ms| - 1]);
      if m.AllocMsg? {
        AllocSafe(st, m.fault);
      }
    }
  }

  /** Whatever was freed twice or without having been allocated, no reply names a live block. */
  lemma {:induction false} NoDoubleGrant(names: set<BlockId>, ms: seq<Message>, fault: bool)
    ensures
      var st := ServeAll(Initial(names), ms);
      var (out, st') := Alloc(st, fault);
      out.Granted? ==> out.block !in st.live && st'.live == st.live[out.block := Plain]
  {
    NamesOwned(names, ms);
    AllocSafe(ServeAll(Initial(names), ms), fault);
  }

  /** An allocation id: zero, or the id of a block. */
  datatype AllocId = Zero | Id(block: BlockId)

  class Server {
    var workers: map<nat, Option<AllocId>>
    var allocations: map<BlockId, Block>
    var available: seq<BlockId>
    var nextBlockId: BlockId
    var osNames: set<BlockId>
    ghost var abandoned: set<BlockId>

    ghost function St(): State
      reads this
    {
      State(allocations, available, nextBlockId, osNames, abandoned)
    }

    /** A new server; `names` are the segments that other programs left behind. */
    constructor (names: set<BlockId>)
      ensures St() == Initial(names) && Conserved(St()) && workers == map[]
    {
      workers := map[];
      allocations, available, nextBlockId, osNames, abandoned := map[], [], 0, names, {};
    }

    /** Pop the free list or use the mark, and move the mark past the id; false when the checked
        addition overflows. */
    method TakeCandidate() returns (ok: bool, b: BlockId)
      modifies this`allocations, this`available, this`nextBlockId, this`osNames, this`abandoned
      ensures b == Candidate(old(St()))
      ensures ok <==> !Overflows(old(St()))
      ensures St() == if ok then Taken(old(St())) else Popped(old(St()))
    {
      if available == [] {
        b := nextBlockId;
      } else {
        b := available[0];
        available := available[1..];
      }
      ok := true;
      if b == nextBlockId {
        if nextBlockId == LAST_BLOCK {
          ok := false;
        } else {
          nextBlockId := nextBlockId + 1;
        }
      }
    }

    method HandleAlloc(fault: bool) returns (out: Outcome)
      modifies this`allocations, this`available, this`nextBlockId, this`osNames, this`abandoned
      ensures (out, St()) == Alloc(old(St()), fault)
    {
      ghost var goal := Alloc(St(), fault);
      var ok, b := TakeCandidate();
      while ok && b in osNames
        invariant osNames == old(osNames) && allocations == old(allocations)
        invariant !ok ==> goal == (Overflow, St())
        invariant ok && b in osNames ==> goal == Alloc(St().(abandoned := abandoned + {b}), fault)
        invariant ok && b !in osNames ==>
          goal == if fault then (CreateFailed(b), St().(abandoned := abandoned + {b}))
                  else (Granted(b), St().(live := allocations[b := Plain], names := osNames + {b}))
        decreases ok, Measure(St())
      {
        abandoned := abandoned + {b};
        ok, b := TakeCandidate();
      }
      if !ok {
        return Overflow;
      }
      if fault {
        abandoned := abandoned + {b};
        return CreateFailed(b);
      }
      osNames := osNames + {b};
      allocations := allocations[b := Plain];
      return Granted(b);
    }

    /** `allocations.remove`: dropping the owned segment unlinks its name. */
    method Remove(b: BlockId)
      modifies this`allocations, this`osNames
      ensures allocations == old(allocations) - {b}
      ensures osNames == if b in old(allocations) then old(osNames) - {b} else old(osNames)
    {
      if b in allocations {
        osNames := osNames - {b};
      }
      allocations := allocations - {b};
    }

    method HandleFree(b: BlockId)
      modifies this`allocations, this`available, this`nextBlockId, this`osNames, this`abandoned
      ensures St() == Free(old(St()), b)
    {
      Remove(b);
      available := available + [b];
    }

    method SetCount(r: BlockId, c: Word32)
      requires IsRcs(St(), r)
      modifies this`allocations
      ensures St() == WithCount(old(St()), r, c)
    {
      allocations := allocations[r := allocations[r].(count := c)];
    }

    method SetWeaks(r: BlockId, c: Word32)
      requires IsRcs(St(), r)
      modifies this`allocations
      ensures St() == WithWeaks(old(St()), r, c)
    {
      allocations := allocations[r := allocations[r].(weaks := c)];
    }

    /** The server's own release of a reference held by a worker slot; the zero id is ignored. */
    method DecrementRc(id: AllocId)
      requires id.Id? && id.block in allocations ==> IsRcs(St(), id.block) && allocations[id.block].data != id.block
      modifies this`allocations, this`available, this`osNames
      ensures St() == Released(old(St()), Some(id))
    {
      if id.Zero? {
        return;
      }
      var r := id.block;
      if r in allocations {
        var rcs := allocations[r];
        SetCount(r, FetchSub(rcs.count));
        if rcs.count <= 1 {
          if rcs.data in allocations {
            Remove(rcs.data);
            available := available + [rcs.data];
          }
          if allocations[r].weaks <= 0 {
            Remove(r);
            available := available + [r];
          }
        }
      }
    }

    /** The id a worker's slot holds, if any. */
    ghost function SlotId(k: nat): Option<AllocId>
      reads this`workers
    {
      if k in workers then workers[k] else None
    }

    ghost predicate SlotOk(k: nat)
      reads this
    {
      SlotId(k).Some? && SlotId(k).value.Id? && SlotId(k).value.block in allocations ==>
        var r := SlotId(k).value.block;
        IsRcs(St(), r) && allocations[r].data != r
    }

    /** A connection announces its worker; an entry that was there is replaced. */
    method Register(k: nat)
      modifies this`workers
      ensures workers == old(workers)[k := None]
    {
      workers := workers[k := None];
    }

    /** The new state replaces the old one before the old one is released; an unknown worker's
        message changes nothing. */
    method HandleSetWorkerState(k: nat, id: AllocId)
      requires SlotOk(k)
      modifies this
      ensures workers == if k in old(workers) then old(workers)[k := Some(id)] else old(workers)
      ensures St() == if k in old(workers) then Released(old(St()), old(SlotId(k))) else old(St())
    {
      if k in workers {
        var previous := workers[k];
        workers := workers[k := Some(id)];
        if previous.Some? {
          DecrementRc(previous.value);
        }
      }
    }

    method HandleGetWorkerState(k: nat) returns (id: Option<AllocId>)
      ensures id == SlotId(k)
    {
      if k in workers {
        id := workers[k];
      } else {
        id := None;
      }
    }

    method Disconnect(k: nat)
      requires SlotOk(k)
      modifies this
      ensures workers == old(workers) - {k}
      ensures St() == Released(old(St()), old(SlotId(k)))
    {
      if k in workers {
        var state := workers[k];
        workers := workers - {k};
        if state.Some? {
          DecrementRc(state.value);
        }
      }
    }
  }

  /** The table after the server has given up what a slot held. */
  ghost function Released(st: State, held: Option<AllocId>): State {
    if held.Some? && held.value.Id? && (held.value.block in st.live ==> IsRcs(st, held.value.block))
    then ServerRelease(st, held.value.block) else st
  }
}
