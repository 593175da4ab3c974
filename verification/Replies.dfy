/** Requests, forwarded messages and replies among any number of clients and one server: which
    closure runs on which reply (src/pal/posix/mod.rs, src/pal/posix/server.rs). */
module Replies {
  import opened Wrappers

  /** Connections are numbered in the order in which the server accepts them. */
  type Conn = nat
  /** What a client announces when it connects; clients that are not spawned announce zero. */
  type WorkerId = nat
  type Id = int
  /** Names one request of a run; the messages themselves carry only the id. */
  type Tag = nat

  datatype Kind =
    | Alloc | MapId | NewWorker | GetWorkerState | NewMutex | GetPlatformMutex
    | Free | SetWorkerState | Shutdown
    | SendWorker

  /** The kinds whose handler writes no reply. */
  predicate Silent(k: Kind) {
    k.Free? || k.SetWorkerState? || k.Shutdown?
  }

  /** The kinds whose handler writes the reply to the client's own connection. */
  predicate Direct(k: Kind) {
    !Silent(k) && !k.SendWorker?
  }

  datatype Request = Request(client: Conn, id: Id, kind: Kind, worker: WorkerId)

  /** A message in the socket of a connection, with the request it belongs to. */
  datatype Packet =
    | ToServer(conn: Conn, id: Id, tag: Tag)
    | FromWorker(conn: Conn, id: Id, tag: Tag)
    | ToWorker(conn: Conn, id: Id, tag: Tag)
    | ToClient(conn: Conn, id: Id, tag: Tag)

  /** The two directions of a connection, as the client sees them. */
  datatype Channel = In(conn: Conn) | Out(conn: Conn)

  function ChannelOf(p: Packet): Channel {
    if p.ToServer? || p.FromWorker? then Out(p.conn) else In(p.conn)
  }

  /** A closure was run: the request it was registered for, and the one the reply belongs to. */
  datatype Ran = Ran(client: Conn, closure: Tag, reply: Tag)

  /** `conns` are the worker ids announced; `workers` is the server's registry. The messages under way
      are kept in the order of writing. A client that has closed its connection is in `closed`, and in
      `left` when the server has noticed. */
  datatype State = State(
    conns: seq<WorkerId>,
    workers: map<WorkerId, Conn>,
    closed: set<Conn>,
    left: set<Conn>,
    pending: map<Conn, map<Id, Tag>>,
    net: seq<Packet>,
    sent: seq<Request>,
    ran: seq<Ran>,
    dropped: set<Tag>)

  function PendingOf(s: State, c: Conn): map<Id, Tag> {
    if c in s.pending then s.pending[c] else map[]
  }

  predicate Open(s: State, c: Conn) {
    c < |s.conns| && c !in s.closed
  }

  /** Broadcasts go to the connection; it is the last one that announced its worker id. */
  predicate Registered(s: State, c: Conn) {
    c < |s.conns| && s.conns[c] in s.workers && s.workers[s.conns[c]] == c
  }

  function RegisteredBelow(s: State, n: nat): (cs: seq<Conn>)
    ensures forall c: Conn :: c in cs <==> c < n && Registered(s, c)
    ensures forall i, j | 0 <= i < j < |cs| :: cs[i] != cs[j]
  {
    if n == 0 then []
    else RegisteredBelow(s, n - 1) + if Registered(s, n - 1) then [n - 1] else []
  }

  /** What a reply does to the closures of the client it reaches. */
  function TakeClosure(closures: map<Id, Tag>, id: Id): (r: (Option<Tag>, map<Id, Tag>)) {
    if id in closures then (Some(closures[id]), closures - {id}) else (None, closures)
  }

  // ---------- Steps ----------

  /** Join is a connection accepted; Close the end of a client; Leave its discovery by the server, when
      it has read all that was sent; Discard loses what was written to a closed connection. */
  datatype Op =
    | Send(c: Conn, id: Id, kind: Kind, worker: WorkerId)
    | ServerReads(i: nat)
    | ServerBroadcasts(i: nat)
    | WorkerReads(i: nat, answers: bool)
    | ClientReads(i: nat)
    | Discard(i: nat)
    | Join(w: WorkerId)
    | Close(c: Conn)
    | Leave(c: Conn)

  /** The message is the next to be read from its socket. */
  predicate First(net: seq<Packet>, i: nat) {
    i < |net| && forall k | 0 <= k < i :: ChannelOf(net[k]) != ChannelOf(net[i])
  }

  predicate Enabled(s: State, op: Op) {
    match op
    case Send(c, id, _, _) => Open(s, c) && id !in PendingOf(s, c)
    case ServerReads(i) => First(s.net, i) && s.net[i].ToServer? && s.net[i].tag < |s.sent|
    case ServerBroadcasts(i) => First(s.net, i) && s.net[i].FromWorker?
    case WorkerReads(i, _) => First(s.net, i) && s.net[i].ToWorker? && Open(s, s.net[i].conn)
    case ClientReads(i) => First(s.net, i) && s.net[i].ToClient? && Open(s, s.net[i].conn)
    case Discard(i) => i < |s.net| && ChannelOf(s.net[i]).In? && s.net[i].conn in s.closed
    case Join(_) => true
    case Close(c) => Open(s, c)
    case Leave(c) =>
      c < |s.conns| && c in s.closed && c !in s.left && forall k | 0 <= k < |s.net| :: ChannelOf(s.net[k]) != Out(c)
  }

  function Without(net: seq<Packet>, i: nat): seq<Packet>
    requires i < |net|
  {
    net[..i] + net[i + 1..]
  }

  /** Every registered connection gets a copy. */
  function Copies(cs: seq<Conn>, id: Id, tag: Tag): (ps: seq<Packet>)
    ensures |ps| == |cs|
    ensures forall k | 0 <= k < |ps| :: ps[k] == ToClient(cs[k], id, tag)
  {
    seq(|cs|, k requires 0 <= k < |cs| => ToClient(cs[k], id, tag))
  }

  /** What the server writes for a request. */
  function Handled(s: State, p: Packet): seq<Packet>
    requires p.ToServer? && p.tag < |s.sent|
  {
    var r := s.sent[p.tag];
    if Silent(r.kind) then []
    else if r.kind.SendWorker? then
      if r.worker in s.workers then [ToWorker(s.workers[r.worker], p.id, p.tag)] else []
    else [ToClient(p.conn, p.id, p.tag)]
  }

  /** Message i is taken and `out` written; a request with nothing left of it is dropped. */
  function Passed(s: State, i: nat, out: seq<Packet>, lost: bool): State
    requires i < |s.net|
  {
    s.(net := Without(s.net, i) + out, dropped := if lost then s.dropped + {s.net[i].tag} else s.dropped)
  }

  function Next(s: State, op: Op): State
    requires Enabled(s, op)
  {
    match op
    case Send(c, id, kind, worker) =>
      var tag := |s.sent|;
      s.(pending := s.pending[c := PendingOf(s, c)[id := tag]],
         net := s.net + [ToServer(c, id, tag)],
         sent := s.sent + [Request(c, id, kind, worker)])
    case ServerReads(i) =>
      var out := Handled(s, s.net[i]);
      Passed(s, i, out, out == [])
    case ServerBroadcasts(i) =>
      var p := s.net[i];
      Passed(s, i, Copies(RegisteredBelow(s, |s.conns|), p.id, p.tag),
             p.tag < |s.sent| && !Registered(s, s.sent[p.tag].client))
    case WorkerReads(i, answers) =>
      var p := s.net[i];
      Passed(s, i, if answers then [FromWorker(p.conn, p.id, p.tag)] else [], !answers)
    case ClientReads(i) =>
      var p := s.net[i];
      var (taken, rest) := TakeClosure(PendingOf(s, p.conn), p.id);
      s.(net := Without(s.net, i),
         pending := s.pending[p.conn := rest],
         ran := if taken.Some? then s.ran + [Ran(p.conn, taken.value, p.tag)] else s.ran)
    case Discard(i) => Passed(s, i, [], Live(s.net[i], s.sent, s.net[i].tag))
    case Join(w) => s.(conns := s.conns + [w], workers := s.workers[w := |s.conns|])
    case Close(c) => s.(closed := s.closed + {c}, pending := s.pending - {c})
    case Leave(c) => s.(left := s.left + {c}, workers := s.workers - {s.conns[c]})
  }

  // ---------- When ids can meet ----------

  /** The message can still become a reply at client d. */
  predicate Reaches(s: State, p: Packet, d: Conn) {
    match p
    case ToServer(_, _, tag) => tag < |s.sent| && s.sent[tag].kind.SendWorker? && Registered(s, d)
    case ToWorker(x, _, _) => Registered(s, d) && Open(s, x)
    case FromWorker(_, _, _) => Registered(s, d)
    case ToClient(c, _, _) => c == d
  }

  /** The handler of this message writes the reply of request t to client d. */
  predicate Yields(s: State, p: Packet, d: Conn, t: Tag) {
    p.tag == t && (p.FromWorker? || (p.ToServer? && p.conn == d && t < |s.sent| && Direct(s.sent[t].kind)))
  }

  /** The message p is a request for client d's own worker. */
  predicate ForWorkerOf(s: State, p: Packet, d: Conn) {
    p.ToServer? && p.tag < |s.sent| && d < |s.conns| && s.sent[p.tag].worker == s.conns[d]
  }

  /** Message j, or what comes of it, will be read by the server from the socket from which it reads
      message b, and after it. */
  predicate Follows(s: State, j: nat, b: nat, d: Conn)
    requires j < |s.net| && b < |s.net|
  {
    var p, x := s.net[j], s.net[b].conn;
    || (ChannelOf(p) == Out(x) && b < j)
    || (p.ToWorker? && p.conn == x)
    || (x == d && ForWorkerOf(s, p, d))
  }

  /** Before message j becomes a reply at client d, message b brings d the reply of request t. */
  predicate BlockedBy(s: State, j: nat, b: nat, d: Conn, t: Tag)
    requires j < |s.net| && b < |s.net|
  {
    || (s.net[b].ToClient? && s.net[b].conn == d && s.net[b].tag == t && (s.net[j].ToClient? ==> b < j))
    || (!s.net[j].ToClient? && Yields(s, s.net[b], d, t) && Follows(s, j, b, d))
  }

  ghost predicate Blocked(s: State, j: nat, d: Conn, t: Tag)
    requires j < |s.net|
  {
    exists b | 0 <= b < |s.net| :: BlockedBy(s, j, b, d, t)
  }

  /** The message can become a reply at client d, which keeps the closure of another request under its id. */
  predicate Strange(s: State, p: Packet, d: Conn) {
    Reaches(s, p, d) && p.id in PendingOf(s, d) && PendingOf(s, d)[p.id] != p.tag
  }

  /** Message j can run the closure of another request at client d. */
  ghost predicate Threat(s: State, j: nat, d: Conn) {
    && j < |s.net| && Strange(s, s.net[j], d)
    && !Blocked(s, j, d, PendingOf(s, d)[s.net[j].id])
  }

  /** The reply to a new request of client c, of this kind, is written before what comes of message p:
      c answers p itself, after it has sent the request. */
  predicate AnsweredFirst(s: State, p: Packet, c: Conn, kind: Kind) {
    Direct(kind) && ((p.ToWorker? && p.conn == c) || ForWorkerOf(s, p, c))
  }

  /** A message under way with the id can become a reply at client c, and not only after c's own. */
  ghost predicate Underway(s: State, c: Conn, id: Id, kind: Kind) {
    exists k | 0 <= k < |s.net| ::
      s.net[k].id == id && Reaches(s, s.net[k], c) && !AnsweredFirst(s, s.net[k], c, kind)
  }

  /** Message b brings client d the reply of request t before the answer to a new request of client c
      for this worker: it is in d's socket already, or ahead of that request or of that answer. */
  predicate OwnFirst(s: State, b: nat, d: Conn, t: Tag, c: Conn, worker: WorkerId)
    requires b < |s.net|
  {
    var p := s.net[b];
    || (p.ToClient? && p.conn == d && p.tag == t)
    || (Yields(s, p, d, t) && (p.conn == c || (p.conn == d && d < |s.conns| && worker == s.conns[d])))
  }

  /** Another client keeps a closure under the id, and a broadcast answer can reach it before its own. */
  ghost predicate KeptElsewhere(s: State, c: Conn, id: Id, worker: WorkerId) {
    exists d :: d != c && Exposed(s, d, c, id, worker)
  }

  ghost predicate Exposed(s: State, d: Conn, c: Conn, id: Id, worker: WorkerId) {
    && id in PendingOf(s, d) && Registered(s, d)
    && forall b | 0 <= b < |s.net| :: !OwnFirst(s, b, d, PendingOf(s, d)[id], c, worker)
  }

  /** A new request with this id can meet another one: its closure an answer that is under way, or, if
      its own answer is going to be broadcast, that answer a closure of another client. */
  ghost predicate CanMeet(s: State, c: Conn, id: Id, kind: Kind, worker: WorkerId) {
    Underway(s, c, id, kind) || (kind.SendWorker? && KeptElsewhere(s, c, id, worker))
  }

  ghost predicate Legal(s: State, op: Op) {
    Enabled(s, op) && (op.Send? ==> !CanMeet(s, op.c, op.id, op.kind, op.worker))
  }

  // ---------- One token for every request ----------

  /** A message that can still lead to the request's own closure. */
  predicate Live(p: Packet, sent: seq<Request>, t: Tag) {
    p.tag == t && t < |sent| && (p.ToClient? ==> p.conn == sent[t].client)
  }

  function LiveCount(net: seq<Packet>, sent: seq<Request>, t: Tag): nat {
    if net == [] then 0 else (if Live(net[0], sent, t) then 1 else 0) + LiveCount(net[1..], sent, t)
  }

  function RanCount(ran: seq<Ran>, t: Tag): nat {
    if ran == [] then 0 else (if ran[0].closure == t then 1 else 0) + RanCount(ran[1..], t)
  }

  lemma {:induction false} LiveAppend(a: seq<Packet>, b: seq<Packet>, sent: seq<Request>, t: Tag)
    ensures LiveCount(a + b, sent, t) == LiveCount(a, sent, t) + LiveCount(b, sent, t)
  {
    if a == [] {
      assert a + b == b;
    } else {
      assert (a + b)[1..] == a[1..] + b;
      LiveAppend(a[1..], b, sent, t);
    }
  }

  lemma {:induction false} RanAppend(a: seq<Ran>, b: seq<Ran>, t: Tag)
    ensures RanCount(a + b, t) == RanCount(a, t) + RanCount(b, t)
  {
    if a == [] {
      assert a + b == b;
    } else {
      assert (a + b)[1..] == a[1..] + b;
      RanAppend(a[1..], b, t);
    }
  }

  lemma {:induction false} LiveOne(p: Packet, sent: seq<Request>, t: Tag)
    ensures LiveCount([p], sent, t) == if Live(p, sent, t) then 1 else 0
  {
    assert [p][1..] == [];
  }

  lemma {:induction false} LiveWithout(net: seq<Packet>, i: nat, sent: seq<Request>, t: Tag)
    requires i < |net|
    ensures LiveCount(Without(net, i), sent, t) + (if Live(net[i], sent, t) then 1 else 0) == LiveCount(net, sent, t)
  {
    assert net == net[..i] + ([net[i]] + net[i + 1..]);
    LiveAppend(net[..i], [net[i]] + net[i + 1..], sent, t);
    LiveAppend([net[i]], net[i + 1..], sent, t);
    LiveOne(net[i], sent, t);
    LiveAppend(net[..i], net[i + 1..], sent, t);
  }

  /** Of the copies of a broadcast exactly one matters, if its client is still registered. */
  lemma {:induction false} LiveCopies(cs: seq<Conn>, id: Id, tag: Tag, sent: seq<Request>, t: Tag)
    requires forall i, j | 0 <= i < j < |cs| :: cs[i] != cs[j]
    ensures LiveCount(Copies(cs, id, tag), sent, t) == if tag == t && t < |sent| && sent[t].client in cs then 1 else 0
  {
    if cs != [] {
      var ps := Copies(cs, id, tag);
      assert ps[1..] == Copies(cs[1..], id, tag);
      LiveCopies(cs[1..], id, tag, sent, t);
      assert forall c :: c in cs <==> c == cs[0] || c in cs[1..];
    }
  }

  /** A later request changes nothing for the earlier ones. */
  lemma {:induction false} LiveLater(net: seq<Packet>, sent: seq<Request>, r: Request, t: Tag)
    requires t < |sent|
    ensures LiveCount(net, sent + [r], t) == LiveCount(net, sent, t)
  {
    if net != [] {
      LiveLater(net[1..], sent, r, t);
    }
  }

  lemma {:induction false} LiveNone(net: seq<Packet>, sent: seq<Request>, t: Tag)
    requires forall k | 0 <= k < |net| :: net[k].tag < t
    ensures LiveCount(net, sent, t) == 0
  {
    if net != [] {
      LiveNone(net[1..], sent, t);
    }
  }

  lemma {:induction false} LiveSome(net: seq<Packet>, sent: seq<Request>, t: Tag, i: nat)
    requires i < |net| && Live(net[i], sent, t)
    ensures LiveCount(net, sent, t) > 0
  {
    if i > 0 {
      LiveSome(net[1..], sent, t, i - 1);
    }
  }

  lemma {:induction false} RanNone(ran: seq<Ran>, t: Tag)
    requires forall k | 0 <= k < |ran| :: ran[k].closure < t
    ensures RanCount(ran, t) == 0
  {
    if ran != [] {
      RanNone(ran[1..], t);
    }
  }

  // ---------- Invariant ----------

  /** Every message under way belongs to a request, carries its id, and sits in a socket there is. */
  ghost predicate PacketsKnown(s: State) {
    forall k | 0 <= k < |s.net| ::
      && s.net[k].tag < |s.sent| && s.net[k].id == s.sent[s.net[k].tag].id && s.net[k].conn < |s.conns|
      && (s.net[k].ToServer? ==> s.net[k].conn == s.sent[s.net[k].tag].client)
  }

  /** A closure is kept under the id of its request, by the client that sent it, while it is open. */
  ghost predicate PendingKnown(s: State) {
    forall c, id | id in PendingOf(s, c) ::
      && Open(s, c)
      && var t := PendingOf(s, c)[id];
      t < |s.sent| && s.sent[t].client == c && s.sent[t].id == id
  }

  ghost predicate WorkersKnown(s: State) {
    forall w | w in s.workers :: s.workers[w] < |s.conns| && s.conns[s.workers[w]] == w
  }

  ghost predicate SentKnown(s: State) {
    && (forall t | 0 <= t < |s.sent| :: s.sent[t].client < |s.conns|)
    && (forall c | c in s.closed :: c < |s.conns|)
    && (forall t | t in s.dropped :: t < |s.sent|)
  }

  ghost predicate Base(s: State) {
    PacketsKnown(s) && PendingKnown(s) && WorkersKnown(s) && SentKnown(s)
  }

  /** No message can run the closure of another request. */
  ghost predicate Matched(s: State) {
    forall j: nat, d: Conn :: !Threat(s, j, d)
  }

  /** Each request is one message under way, or was answered, or dropped: exactly one of these. */
  ghost predicate Conserved(s: State) {
    forall t: Tag | t < |s.sent| ::
      LiveCount(s.net, s.sent, t) + RanCount(s.ran, t) + (if t in s.dropped then 1 else 0) == 1
  }

  /** The request's own closure is kept by its client. */
  ghost predicate Kept(s: State, t: Tag)
    requires t < |s.sent|
  {
    var r := s.sent[t];
    r.id in PendingOf(s, r.client) && PendingOf(s, r.client)[r.id] == t
  }

  /** The closures kept are those of the requests not answered, of the clients still there. */
  ghost predicate PendingExact(s: State) {
    forall t: Tag | t < |s.sent| :: Kept(s, t) <==> RanCount(s.ran, t) == 0 && s.sent[t].client !in s.closed
  }

  /** A closure runs only on the reply to its own request, at the client that sent it. */
  ghost predicate RanOnOwn(s: State) {
    forall k | 0 <= k < |s.ran| ::
      && s.ran[k].closure == s.ran[k].reply && s.ran[k].closure < |s.sent|
      && s.ran[k].client == s.sent[s.ran[k].closure].client
  }

  /** What is written only for kinds that are answered. */
  ghost predicate SilentUnanswered(s: State) {
    && (forall k | 0 <= k < |s.net| && !s.net[k].ToServer? && s.net[k].tag < |s.sent| ::
          !Silent(s.sent[s.net[k].tag].kind))
    && (forall k | 0 <= k < |s.ran| && s.ran[k].reply < |s.sent| :: !Silent(s.sent[s.ran[k].reply].kind))
  }

  ghost predicate Counts(s: State) {
    Conserved(s) && PendingExact(s) && SilentUnanswered(s) && RanOnOwn(s)
  }

  ghost predicate Inv(s: State) {
    Base(s) && Matched(s) && Counts(s)
  }

  lemma {:induction false} LiveOther(net: seq<Packet>, sent: seq<Request>, t: Tag)
    requires forall k | 0 <= k < |net| :: net[k].tag != t
    ensures LiveCount(net, sent, t) == 0
  {
    if net != [] {
      LiveOther(net[1..], sent, t);
    }
  }

  // ---------- What is passed on ----------

  ghost predicate CarriesTag(out: seq<Packet>, id: Id, tag: Tag) {
    forall k | 0 <= k < |out| :: out[k].id == id && out[k].tag == tag
  }

  /** Where a message of the new net comes from. */
  function Origin(i: nat, k: nat): nat {
    if k < i then k else k + 1
  }

  lemma {:induction false} NewNet(net: seq<Packet>, i: nat, out: seq<Packet>)
    requires i < |net|
    ensures var net' := Without(net, i) + out;
            && |net'| == |net| - 1 + |out|
            && (forall k | 0 <= k < |net| - 1 :: net'[k] == net[Origin(i, k)])
            && forall k | 0 <= k < |out| :: net'[|net| - 1 + k] == out[k]
  {
  }

  lemma {:induction false} InWithout(net: seq<Packet>, i: nat, out: seq<Packet>, k: nat)
    requires i < |net| && k < |Without(net, i) + out|
    ensures var p := (Without(net, i) + out)[k];
            (exists j | 0 <= j < |net| :: net[j] == p) || (exists j | 0 <= j < |out| :: out[j] == p)
  {
    NewNet(net, i, out);
    if k < |net| - 1 {
      assert net[Origin(i, k)] == (Without(net, i) + out)[k];
    } else {
      assert out[k - (|net| - 1)] == (Without(net, i) + out)[k];
    }
  }

  /** The step takes one message and writes `out`. */
  ghost predicate PassedOn(s: State, op: Op, i: nat, out: seq<Packet>, lost: bool) {
    && Enabled(s, op) && i < |s.net| && Next(s, op) == Passed(s, i, out, lost)
    && CarriesTag(out, s.net[i].id, s.net[i].tag)
    && (forall k | 0 <= k < |out| :: out[k].conn < |s.conns| && !out[k].ToServer?)
    && (out != [] ==> s.net[i].tag < |s.sent| && !Silent(s.sent[s.net[i].tag].kind))
    && LiveCount(out, s.sent, s.net[i].tag) + (if lost then 1 else 0)
       == (if Live(s.net[i], s.sent, s.net[i].tag) then 1 else 0)
  }

  lemma {:induction false} PassedBase(s: State, op: Op, i: nat, out: seq<Packet>, lost: bool)
    requires Base(s) && PassedOn(s, op, i, out, lost)
    ensures Base(Passed(s, i, out, lost))
  {
    var s' := Passed(s, i, out, lost);
    forall k | 0 <= k < |s'.net|
      ensures s'.net[k].tag < |s.sent| && s'.net[k].id == s.sent[s'.net[k].tag].id && s'.net[k].conn < |s.conns|
      ensures s'.net[k].ToServer? ==> s'.net[k].conn == s.sent[s'.net[k].tag].client
    {
      InWithout(s.net, i, out, k);
    }
    assert forall c :: PendingOf(s', c) == PendingOf(s, c);
  }

  lemma {:induction false} PassedConserves(s: State, op: Op, i: nat, out: seq<Packet>, lost: bool)
    requires Conserved(s) && PassedOn(s, op, i, out, lost)
    ensures Conserved(Passed(s, i, out, lost))
  {
    var tag := s.net[i].tag;
    if Live(s.net[i], s.sent, tag) {
      LiveSome(s.net, s.sent, tag, i);
    }
    forall t: Tag | t < |s.sent|
      ensures LiveCount(Without(s.net, i) + out, s.sent, t) + RanCount(s.ran, t)
              + (if t in Passed(s, i, out, lost).dropped then 1 else 0) == 1
    {
      LiveAppend(Without(s.net, i), out, s.sent, t);
      LiveWithout(s.net, i, s.sent, t);
      if t != tag {
        LiveOther(out, s.sent, t);
      }
    }
  }

  lemma {:induction false} PassedCounts(s: State, op: Op, i: nat, out: seq<Packet>, lost: bool)
    requires Base(s) && Counts(s) && PassedOn(s, op, i, out, lost)
    ensures Counts(Passed(s, i, out, lost))
  {
    var s' := Passed(s, i, out, lost);
    PassedConserves(s, op, i, out, lost);
    forall k | 0 <= k < |s'.net| && !s'.net[k].ToServer? ensures !Silent(s.sent[s'.net[k].tag].kind) {
      InWithout(s.net, i, out, k);
    }
    assert forall c :: PendingOf(s', c) == PendingOf(s, c);
    assert forall t: Tag | t < |s.sent| :: Kept(s', t) <==> Kept(s, t);
  }

  lemma {:induction false} ServerReadsOn(s: State, i: nat)
    requires Base(s) && Enabled(s, ServerReads(i))
    ensures PassedOn(s, ServerReads(i), i, Handled(s, s.net[i]), Handled(s, s.net[i]) == [])
  {
    var out := Handled(s, s.net[i]);
    if out != [] {
      assert out == [out[0]];
      LiveOne(out[0], s.sent, s.net[i].tag);
    }
  }

  lemma {:induction false} WorkerReadsOn(s: State, i: nat, answers: bool)
    requires Base(s) && SilentUnanswered(s) && Enabled(s, WorkerReads(i, answers))
    ensures var p := s.net[i];
            PassedOn(s, WorkerReads(i, answers), i, if answers then [FromWorker(p.conn, p.id, p.tag)] else [], !answers)
  {
    var p := s.net[i];
    LiveOne(FromWorker(p.conn, p.id, p.tag), s.sent, p.tag);
  }

  lemma {:induction false} CopiesOn(s: State, i: nat, cs: seq<Conn>)
    requires Base(s) && SilentUnanswered(s) && First(s.net, i) && s.net[i].FromWorker?
    requires (forall c: Conn :: c in cs <==> Registered(s, c)) && forall i, j | 0 <= i < j < |cs| :: cs[i] != cs[j]
    ensures var p, out := s.net[i], Copies(cs, s.net[i].id, s.net[i].tag);
            && CarriesTag(out, p.id, p.tag)
            && (forall k | 0 <= k < |out| :: out[k].conn < |s.conns| && !out[k].ToServer?)
            && p.tag < |s.sent| && !Silent(s.sent[p.tag].kind)
            && LiveCount(out, s.sent, p.tag) + (if !Registered(s, s.sent[p.tag].client) then 1 else 0) == 1
  {
    LiveCopies(cs, s.net[i].id, s.net[i].tag, s.sent, s.net[i].tag);
    assert forall k | 0 <= k < |cs| :: cs[k] in cs;
  }

  lemma {:induction false} ServerBroadcastsOn(s: State, i: nat)
    requires Base(s) && SilentUnanswered(s) && Enabled(s, ServerBroadcasts(i))
    ensures var p := s.net[i];
            PassedOn(s, ServerBroadcasts(i), i, Copies(RegisteredBelow(s, |s.conns|), p.id, p.tag),
                     p.tag < |s.sent| && !Registered(s, s.sent[p.tag].client))
  {
    CopiesOn(s, i, RegisteredBelow(s, |s.conns|));
  }

  lemma {:induction false} DiscardOn(s: State, i: nat)
    requires Enabled(s, Discard(i))
    ensures PassedOn(s, Discard(i), i, [], Live(s.net[i], s.sent, s.net[i].tag))
  {
    assert Without(s.net, i) + [] == Without(s.net, i);
  }

  // ---------- Sending ----------

  lemma {:induction false} SendBase(s: State, c: Conn, id: Id, kind: Kind, worker: WorkerId)
    requires Base(s) && Enabled(s, Send(c, id, kind, worker))
    ensures Base(Next(s, Send(c, id, kind, worker)))
  {
    var s' := Next(s, Send(c, id, kind, worker));
    var tag := |s.sent|;
    assert forall d :: PendingOf(s', d) == if d == c then PendingOf(s, c)[id := tag] else PendingOf(s, d);
    forall k | 0 <= k < |s'.net|
      ensures s'.net[k].tag < |s'.sent| && s'.net[k].id == s'.sent[s'.net[k].tag].id && s'.net[k].conn < |s.conns|
      ensures s'.net[k].ToServer? ==> s'.net[k].conn == s'.sent[s'.net[k].tag].client
    {
      assert k < |s.net| ==> s'.net[k] == s.net[k];
    }
  }

  lemma {:induction false} SendConserves(s: State, c: Conn, id: Id, kind: Kind, worker: WorkerId)
    requires Base(s) && Counts(s) && Enabled(s, Send(c, id, kind, worker))
    ensures Conserved(Next(s, Send(c, id, kind, worker)))
  {
    var s' := Next(s, Send(c, id, kind, worker));
    var tag := |s.sent|;
    var p := ToServer(c, id, tag);
    forall t: Tag | t < |s'.sent|
      ensures LiveCount(s'.net, s'.sent, t) + RanCount(s'.ran, t) + (if t in s'.dropped then 1 else 0) == 1
    {
      LiveAppend(s.net, [p], s'.sent, t);
      LiveOne(p, s'.sent, t);
      if t < tag {
        LiveLater(s.net, s.sent, s'.sent[tag], t);
      } else {
        LiveNone(s.net, s'.sent, t);
        RanNone(s.ran, t);
      }
    }
  }

  lemma {:induction false} SendCounts(s: State, c: Conn, id: Id, kind: Kind, worker: WorkerId)
    requires Base(s) && Counts(s) && Enabled(s, Send(c, id, kind, worker))
    ensures Counts(Next(s, Send(c, id, kind, worker)))
  {
    var s' := Next(s, Send(c, id, kind, worker));
    var tag := |s.sent|;
    SendConserves(s, c, id, kind, worker);
    RanNone(s.ran, tag);
    assert forall d :: PendingOf(s', d) == if d == c then PendingOf(s, c)[id := tag] else PendingOf(s, d);
    forall t: Tag | t < |s'.sent|
      ensures Kept(s', t) <==> RanCount(s'.ran, t) == 0 && s'.sent[t].client !in s'.closed
    {
      assert t < tag ==> s'.sent[t] == s.sent[t] && (Kept(s, t) <==> Kept(s', t));
    }
    forall k | 0 <= k < |s'.net| && !s'.net[k].ToServer? ensures !Silent(s'.sent[s'.net[k].tag].kind) {
      assert s'.net[k] == s.net[k];
    }
  }

  // ---------- Replies that arrive ----------

  lemma {:induction false} OneRan(ran: seq<Ran>, r: Ran, t: Tag)
    ensures RanCount(ran + [r], t) == RanCount(ran, t) + if r.closure == t then 1 else 0
  {
    RanAppend(ran, [r], t);
    assert [r][1..] == [];
  }

  /** A reply that reaches its own client finds its closure; a copy at another client finds none. */
  lemma {:induction false} ReplyMeets(s: State, i: nat)
    requires Inv(s) && Enabled(s, ClientReads(i))
    ensures var p := s.net[i];
            && (p.id in PendingOf(s, p.conn) <==> Live(p, s.sent, p.tag))
            && (p.id in PendingOf(s, p.conn) ==> PendingOf(s, p.conn)[p.id] == p.tag)
  {
    var p := s.net[i];
    if Live(p, s.sent, p.tag) {
      LiveSome(s.net, s.sent, p.tag, i);
      assert Kept(s, p.tag);
    } else if p.id in PendingOf(s, p.conn) {
      assert !Threat(s, i, p.conn);
      NoneBefore(s, i, PendingOf(s, p.conn)[p.id]);
    }
  }

  /** What is next in a client's socket has nothing before it. */
  lemma {:induction false} NoneBefore(s: State, i: nat, t: Tag)
    requires First(s.net, i) && s.net[i].ToClient?
    ensures !Blocked(s, i, s.net[i].conn, t)
  {
    forall b | 0 <= b < |s.net| ensures !BlockedBy(s, i, b, s.net[i].conn, t) {
      assert b < i ==> ChannelOf(s.net[b]) != ChannelOf(s.net[i]);
    }
  }

  lemma {:induction false} ClientReadsBase(s: State, i: nat)
    requires Base(s) && Enabled(s, ClientReads(i))
    ensures Base(Next(s, ClientReads(i)))
  {
    var p := s.net[i];
    var s' := Next(s, ClientReads(i));
    assert forall d :: PendingOf(s', d) == if d == p.conn then PendingOf(s, d) - {p.id} else PendingOf(s, d);
    assert s'.net == Without(s.net, i) + [];
    forall k | 0 <= k < |s'.net|
      ensures s'.net[k].tag < |s.sent| && s'.net[k].id == s.sent[s'.net[k].tag].id && s'.net[k].conn < |s.conns|
      ensures s'.net[k].ToServer? ==> s'.net[k].conn == s.sent[s'.net[k].tag].client
    {
      InWithout(s.net, i, [], k);
    }
  }

  lemma {:induction false} ClientReadsConserves(s: State, i: nat)
    requires Inv(s) && Enabled(s, ClientReads(i))
    ensures Conserved(Next(s, ClientReads(i)))
  {
    ReplyMeets(s, i);
    var p := s.net[i];
    var s' := Next(s, ClientReads(i));
    forall t: Tag | t < |s'.sent|
      ensures LiveCount(s'.net, s'.sent, t) + RanCount(s'.ran, t) + (if t in s'.dropped then 1 else 0) == 1
    {
      LiveWithout(s.net, i, s.sent, t);
      OneRan(s.ran, Ran(p.conn, p.tag, p.tag), t);
    }
  }

  lemma {:induction false} ClientReadsExact(s: State, i: nat)
    requires Inv(s) && Enabled(s, ClientReads(i))
    ensures PendingExact(Next(s, ClientReads(i))) && RanOnOwn(Next(s, ClientReads(i)))
  {
    ReplyMeets(s, i);
    var p := s.net[i];
    var s' := Next(s, ClientReads(i));
    forall t: Tag | t < |s.sent|
      ensures Kept(s', t) <==> RanCount(s'.ran, t) == 0 && s'.sent[t].client !in s'.closed
    {
      OneRan(s.ran, Ran(p.conn, p.tag, p.tag), t);
      assert Kept(s, t) <==> RanCount(s.ran, t) == 0 && s.sent[t].client !in s.closed;
      ReadKept(s, i, t);
    }
  }

  lemma {:induction false} ReadKept(s: State, i: nat, t: Tag)
    requires Enabled(s, ClientReads(i)) && t < |s.sent|
    ensures Kept(Next(s, ClientReads(i)), t) <==>
            Kept(s, t) && !(s.sent[t].client == s.net[i].conn && s.sent[t].id == s.net[i].id)
  {
  }

  lemma {:induction false} ClientReadsSilent(s: State, i: nat)
    requires PacketsKnown(s) && SilentUnanswered(s) && Enabled(s, ClientReads(i))
    ensures SilentUnanswered(Next(s, ClientReads(i)))
  {
    var s' := Next(s, ClientReads(i));
    assert s'.net == Without(s.net, i) + [];
    forall k | 0 <= k < |s'.net| && !s'.net[k].ToServer? && s'.net[k].tag < |s.sent|
      ensures !Silent(s.sent[s'.net[k].tag].kind)
    {
      InWithout(s.net, i, [], k);
    }
  }

  lemma {:induction false} ClientReadsCounts(s: State, i: nat)
    requires Inv(s) && Enabled(s, ClientReads(i))
    ensures Counts(Next(s, ClientReads(i)))
  {
    ClientReadsConserves(s, i);
    ClientReadsExact(s, i);
    ClientReadsSilent(s, i);
  }

  // ---------- Connections that come and go ----------

  lemma {:induction false} JoinKeeps(s: State, w: WorkerId)
    requires Base(s) && Counts(s)
    ensures Base(Next(s, Join(w))) && Counts(Next(s, Join(w)))
  {
    var s' := Next(s, Join(w));
    assert forall c :: PendingOf(s', c) == PendingOf(s, c);
    assert forall t: Tag | t < |s.sent| :: Kept(s', t) <==> Kept(s, t);
    assert PacketsKnown(s') && PendingKnown(s') && WorkersKnown(s') && SentKnown(s');
  }

  lemma {:induction false} CloseKeeps(s: State, c: Conn)
    requires Base(s) && Counts(s) && Open(s, c)
    ensures Base(Next(s, Close(c))) && Counts(Next(s, Close(c)))
  {
    var s' := Next(s, Close(c));
    assert forall d :: PendingOf(s', d) == if d == c then map[] else PendingOf(s, d);
    assert forall t: Tag | t < |s.sent| :: Kept(s', t) <==> Kept(s, t) && s.sent[t].client != c;
    assert PacketsKnown(s') && PendingKnown(s') && WorkersKnown(s') && SentKnown(s');
  }

  lemma {:induction false} LeaveKeeps(s: State, c: Conn)
    requires Base(s) && Counts(s) && Enabled(s, Leave(c))
    ensures Base(Next(s, Leave(c))) && Counts(Next(s, Leave(c)))
  {
    var s' := Next(s, Leave(c));
    assert forall d :: PendingOf(s', d) == PendingOf(s, d);
    assert forall t: Tag | t < |s.sent| :: Kept(s', t) <==> Kept(s, t);
    assert PacketsKnown(s') && PendingKnown(s') && WorkersKnown(s') && SentKnown(s');
  }

  // ---------- No message meets another request's closure ----------

  function Shifted(i: nat, j: nat): nat
    requires i != j
  {
    if j < i then j else j - 1
  }

  lemma {:induction false} KeepsBlocked(s: State, i: nat, out: seq<Packet>, lost: bool, j: nat, b: nat, d: Conn, t: Tag)
    requires i < |s.net| && j < |s.net| && b < |s.net| && j != i && b != i
    ensures var s' := Passed(s, i, out, lost);
            && Shifted(i, j) < |s'.net| && s'.net[Shifted(i, j)] == s.net[j]
            && Shifted(i, b) < |s'.net| && s'.net[Shifted(i, b)] == s.net[b]
            && (BlockedBy(s', Shifted(i, j), Shifted(i, b), d, t) <==> BlockedBy(s, j, b, d, t))
  {
    NewNet(s.net, i, out);
  }

  /** One message becomes another on its way to a client. */
  predicate Advances(s: State, p: Packet, q: Packet) {
    || (p.ToServer? && q.ToWorker? && p.tag < |s.sent|
        && s.sent[p.tag].worker in s.workers && q.conn == s.workers[s.sent[p.tag].worker])
    || (p.ToWorker? && q.FromWorker? && q.conn == p.conn)
    || (p.FromWorker? && q.ToClient?)
  }

  /** What is ahead of a message stays ahead of what comes of it. */
  lemma {:induction false} NewBlocked(s: State, i: nat, out: seq<Packet>, lost: bool, k: nat, b: nat, d: Conn, t: Tag)
    requires First(s.net, i) && b < |s.net| && b != i && k < |out|
    requires BlockedBy(s, i, b, d, t) && Advances(s, s.net[i], out[k]) && Registered(s, d)
    ensures var s' := Passed(s, i, out, lost);
            && |s.net| - 1 + k < |s'.net| && s'.net[|s.net| - 1 + k] == out[k]
            && Shifted(i, b) < |s'.net| && BlockedBy(s', |s.net| - 1 + k, Shifted(i, b), d, t)
  {
    NewNet(s.net, i, out);
    assert b < i ==> ChannelOf(s.net[b]) != ChannelOf(s.net[i]);
  }

  /** A message whose handler writes a client's own reply has written it. */
  ghost predicate YieldsOut(s: State, i: nat, out: seq<Packet>)
    requires i < |s.net|
  {
    forall d, t | Yields(s, s.net[i], d, t) && Registered(s, d) :: ToClient(d, s.net[i].id, t) in out
  }

  /** What is written meets the closures that the message itself could meet. */
  ghost predicate OutAdvances(s: State, i: nat, out: seq<Packet>)
    requires i < |s.net|
  {
    forall k, d | 0 <= k < |out| && Reaches(s, out[k], d) && s.net[i].id in PendingOf(s, d)
                  && PendingOf(s, d)[s.net[i].id] != s.net[i].tag ::
      Reaches(s, s.net[i], d) && Registered(s, d) && Advances(s, s.net[i], out[k])
  }

  lemma {:induction false} PassedStrange(s: State, i: nat, out: seq<Packet>, lost: bool, p: Packet, d: Conn)
    requires i < |s.net|
    ensures PendingOf(Passed(s, i, out, lost), d) == PendingOf(s, d)
    ensures Strange(Passed(s, i, out, lost), p, d) <==> Strange(s, p, d)
  {
  }

  lemma {:induction false} OldMatched(s: State, i: nat, out: seq<Packet>, lost: bool, j: nat, d: Conn)
    requires PendingKnown(s) && Matched(s) && i < |s.net| && YieldsOut(s, i, out)
    requires s.net[i].ToClient? ==> s.net[i].conn in s.closed
    requires j < |s.net| && j != i
    ensures Shifted(i, j) < |Passed(s, i, out, lost).net| && !Threat(Passed(s, i, out, lost), Shifted(i, j), d)
  {
    NewNet(s.net, i, out);
    PassedStrange(s, i, out, lost, s.net[j], d);
    if Strange(s, s.net[j], d) {
      assert !Threat(s, j, d) && Open(s, d);
      OldBlocked(s, i, out, lost, j, d, PendingOf(s, d)[s.net[j].id]);
    }
  }

  lemma {:induction false} OldBlocked(s: State, i: nat, out: seq<Packet>, lost: bool, j: nat, d: Conn, t: Tag)
    requires i < |s.net| && YieldsOut(s, i, out) && j < |s.net| && j != i
    requires Reaches(s, s.net[j], d) && d !in s.closed && Blocked(s, j, d, t)
    requires s.net[i].ToClient? ==> s.net[i].conn in s.closed
    ensures var s' := Passed(s, i, out, lost);
            Shifted(i, j) < |s'.net| && Blocked(s', Shifted(i, j), d, t)
  {
    var b :| 0 <= b < |s.net| && BlockedBy(s, j, b, d, t);
    if b != i {
      KeepsBlocked(s, i, out, lost, j, b, d, t);
      assert BlockedBy(Passed(s, i, out, lost), Shifted(i, j), Shifted(i, b), d, t);
    } else {
      BlockerRead(s, i, out, lost, j, d, t);
    }
  }

  /** When the server handles a message that was ahead, the reply it brings is ahead. */
  lemma {:induction false} BlockerRead(s: State, i: nat, out: seq<Packet>, lost: bool, j: nat, d: Conn, t: Tag)
    requires i < |s.net| && YieldsOut(s, i, out) && j < |s.net| && j != i
    requires BlockedBy(s, j, i, d, t) && Reaches(s, s.net[j], d) && d !in s.closed
    requires s.net[i].ToClient? ==> s.net[i].conn in s.closed
    ensures var s' := Passed(s, i, out, lost);
            Shifted(i, j) < |s'.net| && Blocked(s', Shifted(i, j), d, t)
  {
    var s' := Passed(s, i, out, lost);
    NewNet(s.net, i, out);
    var o :| 0 <= o < |out| && out[o] == ToClient(d, s.net[i].id, t);
    assert s'.net[|s.net| - 1 + o] == out[o];
    assert BlockedBy(s', Shifted(i, j), |s.net| - 1 + o, d, t);
  }

  lemma {:induction false} NewMatched(s: State, i: nat, out: seq<Packet>, lost: bool, k: nat, d: Conn)
    requires Matched(s) && First(s.net, i) && CarriesTag(out, s.net[i].id, s.net[i].tag) && OutAdvances(s, i, out)
    requires k < |out|
    ensures !Threat(Passed(s, i, out, lost), |s.net| - 1 + k, d)
  {
    NewNet(s.net, i, out);
    PassedStrange(s, i, out, lost, out[k], d);
    if Strange(s, out[k], d) {
      assert !Threat(s, i, d);
      StaysAhead(s, i, out, lost, k, d, PendingOf(s, d)[s.net[i].id]);
    }
  }

  lemma {:induction false} StaysAhead(s: State, i: nat, out: seq<Packet>, lost: bool, k: nat, d: Conn, t: Tag)
    requires First(s.net, i) && k < |out| && Blocked(s, i, d, t) && t != s.net[i].tag
    requires Advances(s, s.net[i], out[k]) && Registered(s, d)
    ensures |s.net| - 1 + k < |Passed(s, i, out, lost).net|
    ensures Blocked(Passed(s, i, out, lost), |s.net| - 1 + k, d, t)
  {
    var b :| 0 <= b < |s.net| && BlockedBy(s, i, b, d, t);
    assert b != i;
    NewBlocked(s, i, out, lost, k, b, d, t);
  }

  lemma {:induction false} PassedMatched(s: State, i: nat, out: seq<Packet>, lost: bool)
    requires PendingKnown(s) && Matched(s) && i < |s.net| && CarriesTag(out, s.net[i].id, s.net[i].tag)
    requires YieldsOut(s, i, out) && OutAdvances(s, i, out) && (out != [] ==> First(s.net, i))
    requires s.net[i].ToClient? ==> s.net[i].conn in s.closed
    ensures Matched(Passed(s, i, out, lost))
  {
    var s' := Passed(s, i, out, lost);
    NewNet(s.net, i, out);
    forall j: nat, d: Conn ensures !Threat(s', j, d) {
      if j < |s.net| - 1 {
        OldMatched(s, i, out, lost, Origin(i, j), d);
      } else if j < |s'.net| {
        NewMatched(s, i, out, lost, j - (|s.net| - 1), d);
      }
    }
  }

  /** While a message that matters is under way its client keeps the closure, unless it has closed. */
  lemma {:induction false} OwnKept(s: State, i: nat)
    requires Inv(s) && i < |s.net| && Live(s.net[i], s.sent, s.net[i].tag)
    ensures Kept(s, s.net[i].tag) <==> s.sent[s.net[i].tag].client !in s.closed
  {
    LiveSome(s.net, s.sent, s.net[i].tag, i);
    assert RanCount(s.ran, s.net[i].tag) == 0;
  }

  lemma {:induction false} ServerReadsKeeps(s: State, i: nat)
    requires Inv(s) && Enabled(s, ServerReads(i))
    ensures Inv(Next(s, ServerReads(i)))
  {
    var p := s.net[i];
    var out := Handled(s, p);
    ServerReadsOn(s, i);
    PassedBase(s, ServerReads(i), i, out, out == []);
    PassedCounts(s, ServerReads(i), i, out, out == []);
    OwnKept(s, i);
    assert YieldsOut(s, i, out);
    ServerAdvances(s, i);
    PassedMatched(s, i, out, out == []);
  }

  lemma {:induction false} ServerAdvances(s: State, i: nat)
    requires Base(s) && Enabled(s, ServerReads(i))
    requires Kept(s, s.net[i].tag) <==> s.sent[s.net[i].tag].client !in s.closed
    ensures OutAdvances(s, i, Handled(s, s.net[i]))
  {
  }

  lemma {:induction false} WorkerReadsKeeps(s: State, i: nat, answers: bool)
    requires Inv(s) && Enabled(s, WorkerReads(i, answers))
    ensures Inv(Next(s, WorkerReads(i, answers)))
  {
    var p := s.net[i];
    var out := if answers then [FromWorker(p.conn, p.id, p.tag)] else [];
    WorkerReadsOn(s, i, answers);
    PassedBase(s, WorkerReads(i, answers), i, out, !answers);
    PassedCounts(s, WorkerReads(i, answers), i, out, !answers);
    PassedMatched(s, i, out, !answers);
  }

  lemma {:induction false} ServerBroadcastsKeeps(s: State, i: nat)
    requires Inv(s) && Enabled(s, ServerBroadcasts(i))
    ensures Inv(Next(s, ServerBroadcasts(i)))
  {
    var p := s.net[i];
    var cs := RegisteredBelow(s, |s.conns|);
    var out := Copies(cs, p.id, p.tag);
    var lost := p.tag < |s.sent| && !Registered(s, s.sent[p.tag].client);
    ServerBroadcastsOn(s, i);
    PassedBase(s, ServerBroadcasts(i), i, out, lost);
    PassedCounts(s, ServerBroadcasts(i), i, out, lost);
    CopiesReach(s, i, cs);
    PassedMatched(s, i, out, lost);
  }

  lemma {:induction false} CopiesReach(s: State, i: nat, cs: seq<Conn>)
    requires i < |s.net| && s.net[i].FromWorker? && forall c: Conn :: c in cs <==> Registered(s, c)
    ensures YieldsOut(s, i, Copies(cs, s.net[i].id, s.net[i].tag))
    ensures OutAdvances(s, i, Copies(cs, s.net[i].id, s.net[i].tag))
  {
    var p := s.net[i];
    var out := Copies(cs, p.id, p.tag);
    forall d, t | Yields(s, p, d, t) && Registered(s, d) ensures ToClient(d, p.id, t) in out {
      var k :| 0 <= k < |cs| && cs[k] == d;
      assert out[k] == ToClient(d, p.id, t);
    }
    assert forall k | 0 <= k < |cs| :: cs[k] in cs;
  }

  lemma {:induction false} DiscardKeeps(s: State, i: nat)
    requires Inv(s) && Enabled(s, Discard(i))
    ensures Inv(Next(s, Discard(i)))
  {
    var lost := Live(s.net[i], s.sent, s.net[i].tag);
    DiscardOn(s, i);
    PassedBase(s, Discard(i), i, [], lost);
    PassedCounts(s, Discard(i), i, [], lost);
    PassedMatched(s, i, [], lost);
  }

  lemma {:induction false} ClientReadsMatched(s: State, i: nat)
    requires Base(s) && Matched(s) && Enabled(s, ClientReads(i))
    ensures Matched(Next(s, ClientReads(i)))
  {
    var p := s.net[i];
    var s' := Next(s, ClientReads(i));
    NewNet(s.net, i, []);
    assert s'.net == Without(s.net, i) + [];
    forall j: nat, d: Conn ensures !Threat(s', j, d) {
      if j < |s'.net| && Strange(s', s'.net[j], d) {
        ReadPending(s, i, d);
        var o := Origin(i, j);
        assert s'.net[j] == s.net[o] && Strange(s, s.net[o], d) && !Threat(s, o, d);
        var t := PendingOf(s, d)[s.net[o].id];
        assert s.sent[t].id == s.net[o].id && p.id == s.sent[p.tag].id;
        ReadBlocked(s, i, o, d, t);
      }
    }
  }

  lemma {:induction false} ReadPending(s: State, i: nat, d: Conn)
    requires Enabled(s, ClientReads(i))
    ensures var p := s.net[i];
            PendingOf(Next(s, ClientReads(i)), d)
            == if d == p.conn then PendingOf(s, d) - {p.id} else PendingOf(s, d)
  {
  }

  /** A reply that was ahead of a message at client d and has been read has taken the closure with it. */
  lemma {:induction false} ReadBlocked(s: State, i: nat, j: nat, d: Conn, t: Tag)
    requires Enabled(s, ClientReads(i)) && j < |s.net| && j != i && Blocked(s, j, d, t)
    ensures var s' := Next(s, ClientReads(i));
            && Shifted(i, j) < |s'.net|
            && (Blocked(s', Shifted(i, j), d, t) || (d == s.net[i].conn && t == s.net[i].tag))
  {
    var s' := Next(s, ClientReads(i));
    NewNet(s.net, i, []);
    assert s'.net == Without(s.net, i) + [];
    var b :| 0 <= b < |s.net| && BlockedBy(s, j, b, d, t);
    if b != i {
      KeepsBlocked(s, i, [], false, j, b, d, t);
      assert BlockedBy(s', Shifted(i, j), Shifted(i, b), d, t);
    }
  }

  lemma {:induction false} ClientReadsKeeps(s: State, i: nat)
    requires Inv(s) && Enabled(s, ClientReads(i))
    ensures Inv(Next(s, ClientReads(i)))
  {
    ClientReadsBase(s, i);
    ClientReadsCounts(s, i);
    ClientReadsMatched(s, i);
  }

  /** Fewer clients can be reached, and what is ahead stays ahead. */
  lemma {:induction false} FewerThreats(s: State, s': State)
    requires Base(s) && Matched(s) && s'.net == s.net && s'.sent == s.sent
    requires |s.conns| <= |s'.conns| && forall c | 0 <= c < |s.conns| :: s'.conns[c] == s.conns[c]
    requires forall c: Conn | c < |s.conns| && Registered(s', c) :: Registered(s, c)
    requires forall c: Conn | c < |s.conns| && Open(s', c) :: Open(s, c)
    requires forall d, id | id in PendingOf(s', d) ::
               id in PendingOf(s, d) && PendingOf(s', d)[id] == PendingOf(s, d)[id]
    ensures Matched(s')
  {
    forall j: nat, d: Conn ensures !Threat(s', j, d) {
      if j < |s.net| && s.net[j].id in PendingOf(s', d) {
        var p := s.net[j];
        if Reaches(s', p, d) && PendingOf(s, d)[p.id] != p.tag {
          var t := PendingOf(s, d)[p.id];
          assert Reaches(s, p, d) && !Threat(s, j, d);
          var b :| 0 <= b < |s.net| && BlockedBy(s, j, b, d, t);
          assert BlockedBy(s', j, b, d, t);
        }
      }
    }
  }

  lemma {:induction false} MembersMatched(s: State, op: Op)
    requires Base(s) && Matched(s) && Enabled(s, op) && (op.Join? || op.Close? || op.Leave?)
    ensures Matched(Next(s, op))
  {
    var s' := Next(s, op);
    assert forall d :: PendingOf(s', d) == if op.Close? && d == op.c then map[] else PendingOf(s, d);
    FewerThreats(s, s');
  }

  // ---------- A new request ----------

  lemma {:induction false} SentPending(s: State, c: Conn, id: Id, kind: Kind, worker: WorkerId)
    requires Enabled(s, Send(c, id, kind, worker))
    ensures var s' := Next(s, Send(c, id, kind, worker));
            && (forall d :: PendingOf(s', d) == if d == c then PendingOf(s, c)[id := |s.sent|] else PendingOf(s, d))
            && |s'.net| == |s.net| + 1 && s'.net[|s.net|] == ToServer(c, id, |s.sent|)
            && (forall k | 0 <= k < |s.net| :: s'.net[k] == s.net[k])
            && s'.sent[|s.sent|] == Request(c, id, kind, worker)
            && (forall t | 0 <= t < |s.sent| :: s'.sent[t] == s.sent[t])
  {
  }

  /** Messages under way are ahead of one another as before. */
  lemma {:induction false} SentBlocked(s: State, c: Conn, id: Id, kind: Kind, worker: WorkerId, j: nat, b: nat,
                                       d: Conn, t: Tag)
    requires Base(s) && Enabled(s, Send(c, id, kind, worker)) && j < |s.net| && b < |s.net|
    ensures var s' := Next(s, Send(c, id, kind, worker));
            && (t < |s.sent| ==> (BlockedBy(s', j, b, d, t) <==> BlockedBy(s, j, b, d, t)))
            && (t == |s.sent| ==> !BlockedBy(s', j, b, d, t))
            && (Reaches(s', s.net[j], d) <==> Reaches(s, s.net[j], d))
  {
    SentPending(s, c, id, kind, worker);
  }

  /** The new request itself is ahead exactly of what its client answers after sending it. */
  lemma {:induction false} SentAhead(s: State, c: Conn, id: Id, kind: Kind, worker: WorkerId, j: nat, d: Conn, t: Tag)
    requires Base(s) && Enabled(s, Send(c, id, kind, worker)) && j < |s.net|
    ensures var s' := Next(s, Send(c, id, kind, worker));
            BlockedBy(s', j, |s.net|, d, t) <==> t == |s.sent| && d == c && AnsweredFirst(s, s.net[j], c, kind)
  {
    SentPending(s, c, id, kind, worker);
  }

  /** What is ahead of the new request at another client. */
  lemma {:induction false} SentBehind(s: State, c: Conn, id: Id, kind: Kind, worker: WorkerId, b: nat, d: Conn, t: Tag)
    requires Base(s) && Enabled(s, Send(c, id, kind, worker)) && b < |s.net| && t < |s.sent| && d != c
    ensures var s' := Next(s, Send(c, id, kind, worker));
            BlockedBy(s', |s.net|, b, d, t) <==> OwnFirst(s, b, d, t, c, worker)
  {
    SentPending(s, c, id, kind, worker);
  }

  /** Among the messages under way before only those with the id can threaten, and only the new closure. */
  lemma {:induction false} OldThreat(s: State, c: Conn, id: Id, kind: Kind, worker: WorkerId, j: nat, d: Conn)
    requires Base(s) && Matched(s) && Enabled(s, Send(c, id, kind, worker)) && j < |s.net|
    ensures Threat(Next(s, Send(c, id, kind, worker)), j, d) <==>
            d == c && s.net[j].id == id && Reaches(s, s.net[j], c) && !AnsweredFirst(s, s.net[j], c, kind)
  {
    var s' := Next(s, Send(c, id, kind, worker));
    var p := s.net[j];
    SentPending(s, c, id, kind, worker);
    SentBlocked(s, c, id, kind, worker, j, 0, d, 0);
    if p.id in PendingOf(s', d) {
      var t := PendingOf(s', d)[p.id];
      if d == c && p.id == id {
        forall b | 0 <= b < |s'.net|
          ensures BlockedBy(s', j, b, d, t) <==> b == |s.net| && AnsweredFirst(s, p, c, kind)
        {
          SentAhead(s, c, id, kind, worker, j, d, t);
          if b < |s.net| {
            SentBlocked(s, c, id, kind, worker, j, b, d, t);
          }
        }
        if AnsweredFirst(s, p, c, kind) {
          assert BlockedBy(s', j, |s.net|, d, t);
        }
        assert Blocked(s', j, d, t) <==> AnsweredFirst(s, p, c, kind);
      } else {
        OldUnthreatened(s, c, id, kind, worker, j, d, t);
      }
    }
  }

  lemma {:induction false} OldUnthreatened(s: State, c: Conn, id: Id, kind: Kind, worker: WorkerId, j: nat, d: Conn,
                                           t: Tag)
    requires Base(s) && Matched(s) && Enabled(s, Send(c, id, kind, worker)) && j < |s.net|
    requires s.net[j].id in PendingOf(s, d) && PendingOf(s, d)[s.net[j].id] == t
    requires PendingOf(Next(s, Send(c, id, kind, worker)), d) == PendingOf(s, d)
             || (s.net[j].id != id
                 && PendingOf(Next(s, Send(c, id, kind, worker)), d) == PendingOf(s, d)[id := |s.sent|])
    ensures !Threat(Next(s, Send(c, id, kind, worker)), j, d)
  {
    var s' := Next(s, Send(c, id, kind, worker));
    SentPending(s, c, id, kind, worker);
    SentBlocked(s, c, id, kind, worker, j, j, d, t);
    if Reaches(s, s.net[j], d) && t != s.net[j].tag {
      assert !Threat(s, j, d);
      var b :| 0 <= b < |s.net| && BlockedBy(s, j, b, d, t);
      SentBlocked(s, c, id, kind, worker, j, b, d, t);
      assert BlockedBy(s', j, b, d, t);
    }
  }

  /** The new request threatens the closures of other clients that its broadcast answer can reach first. */
  lemma {:induction false} NewThreat(s: State, c: Conn, id: Id, kind: Kind, worker: WorkerId, d: Conn)
    requires Base(s) && Enabled(s, Send(c, id, kind, worker))
    ensures Threat(Next(s, Send(c, id, kind, worker)), |s.net|, d) <==>
            kind.SendWorker? && d != c && Exposed(s, d, c, id, worker)
  {
    var s' := Next(s, Send(c, id, kind, worker));
    SentPending(s, c, id, kind, worker);
    assert Registered(s', d) <==> Registered(s, d);
    if d != c && id in PendingOf(s, d) {
      var t := PendingOf(s, d)[id];
      forall b | 0 <= b < |s'.net|
        ensures BlockedBy(s', |s.net|, b, d, t) <==> b < |s.net| && OwnFirst(s, b, d, t, c, worker)
      {
        if b < |s.net| {
          SentBehind(s, c, id, kind, worker, b, d, t);
        }
      }
      assert Blocked(s', |s.net|, d, t) <==> exists b | 0 <= b < |s.net| :: OwnFirst(s, b, d, t, c, worker);
    }
  }

  /** A request can meet another one exactly when a message threatens a closure once it is sent. */
  lemma {:induction false} MeetThreatens(s: State, c: Conn, id: Id, kind: Kind, worker: WorkerId)
    requires Base(s) && Matched(s) && Enabled(s, Send(c, id, kind, worker))
    ensures CanMeet(s, c, id, kind, worker) <==> !Matched(Next(s, Send(c, id, kind, worker)))
  {
    var s' := Next(s, Send(c, id, kind, worker));
    SentPending(s, c, id, kind, worker);
    if Underway(s, c, id, kind) {
      var k :| 0 <= k < |s.net|
               && s.net[k].id == id && Reaches(s, s.net[k], c) && !AnsweredFirst(s, s.net[k], c, kind);
      OldThreat(s, c, id, kind, worker, k, c);
      assert Threat(s', k, c);
    } else if kind.SendWorker? && KeptElsewhere(s, c, id, worker) {
      var d :| d != c && Exposed(s, d, c, id, worker);
      NewThreat(s, c, id, kind, worker, d);
      assert Threat(s', |s.net|, d);
    } else {
      forall j: nat, d: Conn ensures !Threat(s', j, d) {
        if j < |s.net| {
          OldThreat(s, c, id, kind, worker, j, d);
        } else if j == |s.net| {
          NewThreat(s, c, id, kind, worker, d);
        }
      }
    }
  }

  lemma {:induction false} SendKeeps(s: State, c: Conn, id: Id, kind: Kind, worker: WorkerId)
    requires Inv(s) && Legal(s, Send(c, id, kind, worker))
    ensures Inv(Next(s, Send(c, id, kind, worker)))
  {
    SendBase(s, c, id, kind, worker);
    SendCounts(s, c, id, kind, worker);
    MeetThreatens(s, c, id, kind, worker);
  }

  lemma {:induction false} StepKeeps(s: State, op: Op)
    requires Inv(s) && Legal(s, op)
    ensures Inv(Next(s, op))
  {
    match op
    case Send(c, id, kind, worker) => SendKeeps(s, c, id, kind, worker);
    case ServerReads(i) => ServerReadsKeeps(s, i);
    case ServerBroadcasts(i) => ServerBroadcastsKeeps(s, i);
    case WorkerReads(i, answers) => WorkerReadsKeeps(s, i, answers);
    case ClientReads(i) => ClientReadsKeeps(s, i);
    case Discard(i) => DiscardKeeps(s, i);
    case Join(w) =>
      JoinKeeps(s, w);
      MembersMatched(s, op);
    case Close(c) =>
      CloseKeeps(s, c);
      MembersMatched(s, op);
    case Leave(c) =>
      LeaveKeeps(s, c);
      MembersMatched(s, op);
  }

  // ---------- Runs ----------

  function Start(): State {
    State([], map[], {}, {}, map[], [], [], [], {})
  }

  ghost predicate IsRun(states: seq<State>, ops: seq<Op>) {
    && |states| == |ops| + 1 && states[0] == Start()
    && forall k | 0 <= k < |ops| :: Legal(states[k], ops[k]) && states[k + 1] == Next(states[k], ops[k])
  }

  lemma {:induction false} RunKeeps(states: seq<State>, ops: seq<Op>, k: nat)
    requires IsRun(states, ops) && k < |states|
    ensures Inv(states[k])
    decreases k
  {
    if k == 0 {
      StartKeeps();
    } else {
      RunKeeps(states, ops, k - 1);
      assert Legal(states[k - 1], ops[k - 1]);
      StepKeeps(states[k - 1], ops[k - 1]);
    }
  }

  lemma {:induction false} StartKeeps()
    ensures Inv(Start())
  {
    forall j: nat, d: Conn ensures !Threat(Start(), j, d) {
    }
  }

  lemma {:induction false} RanAtMostOnce(ran: seq<Ran>, i: nat, j: nat)
    requires i < j < |ran| && ran[i].closure == ran[j].closure
    ensures RanCount(ran, ran[i].closure) >= 2
  {
    var t := ran[i].closure;
    if i == 0 {
      RanSome(ran[1..], t, j - 1);
    } else {
      RanAtMostOnce(ran[1..], i - 1, j - 1);
    }
  }

  lemma {:induction false} RanDistinct(ran: seq<Ran>, i: nat, j: nat)
    requires i < j < |ran| && RanCount(ran, ran[i].closure) <= 1
    ensures ran[i].closure != ran[j].closure
  {
    if ran[i].closure == ran[j].closure {
      RanAtMostOnce(ran, i, j);
    }
  }

  lemma {:induction false} RanSome(ran: seq<Ran>, t: Tag, j: nat)
    requires j < |ran| && ran[j].closure == t
    ensures RanCount(ran, t) >= 1
  {
    if j > 0 {
      RanSome(ran[1..], t, j - 1);
    }
  }

  lemma {:induction false} RanIff(ran: seq<Ran>, t: Tag)
    ensures (exists i | 0 <= i < |ran| :: ran[i].closure == t) <==> RanCount(ran, t) > 0
  {
    if RanCount(ran, t) > 0 {
      if ran[0].closure == t {
      } else {
        RanIff(ran[1..], t);
        var i :| 0 <= i < |ran[1..]| && ran[1..][i].closure == t;
        assert ran[i + 1].closure == t;
      }
    } else if i :| 0 <= i < |ran| && ran[i].closure == t {
      RanSome(ran, t, i);
    }
  }

  /** In every run: a closure runs at most once, only at the client that registered it and only on
      the reply to its own request; and a client keeps, while it is open, exactly the closures of its
      requests that were not answered. */
  lemma {:induction false} Correlation(states: seq<State>, ops: seq<Op>, k: nat)
    requires IsRun(states, ops) && k < |states|
    ensures var s := states[k];
            && RanOnOwn(s) && PendingKnown(s)
            && (forall i, j | 0 <= i < j < |s.ran| :: s.ran[i].closure != s.ran[j].closure)
            && (forall t: Tag | t < |s.sent| && s.sent[t].client !in s.closed ::
                  (exists i | 0 <= i < |s.ran| :: s.ran[i].closure == t) <==> !Kept(s, t))
  {
    RunKeeps(states, ops, k);
    var s := states[k];
    forall i, j | 0 <= i < j < |s.ran| ensures s.ran[i].closure != s.ran[j].closure {
      assert s.ran[i].closure < |s.sent|;
      RanDistinct(s.ran, i, j);
    }
    forall t: Tag | t < |s.sent|
      ensures (exists i | 0 <= i < |s.ran| :: s.ran[i].closure == t) <==> RanCount(s.ran, t) > 0
    {
      RanIff(s.ran, t);
    }
  }

  /** When nothing is under way, the closures still kept are those of the dropped requests of open
      clients; every request of a kind that writes no reply is among the dropped. */
  lemma {:induction false} Quiescent(states: seq<State>, ops: seq<Op>, k: nat)
    requires IsRun(states, ops) && k < |states| && states[k].net == []
    ensures var s := states[k];
            forall t: Tag | t < |s.sent| ::
              && (Kept(s, t) <==> t in s.dropped && s.sent[t].client !in s.closed)
              && (Silent(s.sent[t].kind) ==> t in s.dropped)
  {
    RunKeeps(states, ops, k);
    var s := states[k];
    forall t: Tag | t < |s.sent| && Silent(s.sent[t].kind) ensures t in s.dropped {
      SilentNotRan(s, t);
    }
  }

  /** A request of a silent kind is never answered: its closure is kept until its client closes. */
  lemma {:induction false} SilentKept(states: seq<State>, ops: seq<Op>, k: nat, t: Tag)
    requires IsRun(states, ops) && k < |states| && t < |states[k].sent| && Silent(states[k].sent[t].kind)
    ensures Kept(states[k], t) <==> states[k].sent[t].client !in states[k].closed
  {
    RunKeeps(states, ops, k);
    SilentNotRan(states[k], t);
  }

  lemma {:induction false} SilentNotRan(s: State, t: Tag)
    requires Inv(s) && t < |s.sent| && Silent(s.sent[t].kind)
    ensures RanCount(s.ran, t) == 0
  {
    RanIff(s.ran, t);
    assert forall i | 0 <= i < |s.ran| :: s.ran[i].reply == s.ran[i].closure;
  }

  // ---------- Who is registered ----------

  /** Step j accepted connection c; since then no connection with its worker id was accepted, and none
      was found closed. */
  ghost predicate LastSince(states: seq<State>, ops: seq<Op>, j: nat, k: nat, c: Conn)
    requires IsRun(states, ops) && j < k < |states|
  {
    && ops[j].Join? && |states[j].conns| == c
    && forall i | j < i < k ::
         && ops[i] != Join(ops[j].w)
         && (ops[i].Leave? && ops[i].c < |states[i].conns| ==> states[i].conns[ops[i].c] != ops[j].w)
  }

  lemma {:induction false} ConnsGrow(s: State, op: Op)
    requires Enabled(s, op)
    ensures var s' := Next(s, op);
            s'.conns == if op.Join? then s.conns + [op.w] else s.conns
  {
  }

  /** Of the connections that announced one worker id the registry knows at most the last, and it
      forgets that one as soon as any of them is found closed. */
  lemma {:induction false} RegisteredExact(states: seq<State>, ops: seq<Op>, k: nat, c: Conn)
    requires IsRun(states, ops) && k < |states|
    ensures Registered(states[k], c) <==> exists j: nat | j < k :: LastSince(states, ops, j, k, c)
    decreases k
  {
    if k > 0 {
      var n := k - 1;
      var s, op := states[n], ops[n];
      assert Legal(s, op) && states[k] == Next(s, op);
      RunKeeps(states, ops, n);
      RegisteredExact(states, ops, n, c);
      ConnsGrow(s, op);
      RegisteredNext(s, op, c);
      forall j: nat | j < n ensures SinceThen(states, ops, j, n, c) {
        LastOneMore(states, ops, j, n, c);
      }
      if Registered(states[k], c) {
        if Registered(s, c) {
          var j: nat :| j < n && LastSince(states, ops, j, n, c);
          assert SinceThen(states, ops, j, n, c);
        } else {
          assert LastSince(states, ops, n, k, c);
        }
      }
      if j: nat :| j < k && LastSince(states, ops, j, k, c) {
        assert j < n ==> SinceThen(states, ops, j, n, c);
      }
    }
  }

  /** What one more step makes of it. */
  ghost predicate SinceThen(states: seq<State>, ops: seq<Op>, j: nat, n: nat, c: Conn)
    requires IsRun(states, ops) && j < n < |ops|
  {
    && (LastSince(states, ops, j, n, c) ==> c < |states[n].conns|)
    && (LastSince(states, ops, j, n + 1, c) <==>
          && LastSince(states, ops, j, n, c) && c < |states[n].conns|
          && ops[n] != Join(states[n].conns[c])
          && (ops[n].Leave? && ops[n].c < |states[n].conns| ==> states[n].conns[ops[n].c] != states[n].conns[c]))
  }

  lemma {:induction false} LastOneMore(states: seq<State>, ops: seq<Op>, j: nat, n: nat, c: Conn)
    requires IsRun(states, ops) && j < n < |ops|
    ensures SinceThen(states, ops, j, n, c)
  {
    if ops[j].Join? && |states[j].conns| == c {
      AcceptedAs(states, ops, j, n);
    }
  }

  lemma {:induction false} RegisteredNext(s: State, op: Op, c: Conn)
    requires Base(s) && Enabled(s, op)
    ensures Registered(Next(s, op), c) <==>
            || (op.Join? && c == |s.conns|)
            || (Registered(s, c) && op != Join(s.conns[c]) && (op.Leave? ==> s.conns[op.c] != s.conns[c]))
  {
  }

  lemma {:induction false} AcceptedAs(states: seq<State>, ops: seq<Op>, j: nat, k: nat)
    requires IsRun(states, ops) && j < k < |states| && ops[j].Join?
    ensures |states[j].conns| < |states[k].conns| && states[k].conns[|states[j].conns|] == ops[j].w
    decreases k
  {
    assert Legal(states[k - 1], ops[k - 1]) && states[k] == Next(states[k - 1], ops[k - 1]);
    ConnsGrow(states[k - 1], ops[k - 1]);
    if j < k - 1 {
      AcceptedAs(states, ops, j, k - 1);
    }
  }

  // ---------- Who is answered ----------

  /** Only forwarded messages pass through a worker, and a request that was lost was either of a kind
      nobody answers, or forwarded, or its client has closed. */
  ghost predicate Losses(s: State) {
    && (forall k | 0 <= k < |s.net| && (s.net[k].ToWorker? || s.net[k].FromWorker?) && s.net[k].tag < |s.sent| ::
          s.sent[s.net[k].tag].kind == SendWorker)
    && (forall t | t in s.dropped && t < |s.sent| :: CanBeLost(s, s.sent[t]))
  }

  predicate CanBeLost(s: State, r: Request) {
    r.kind == Free || r.kind == SetWorkerState || r.kind == Shutdown || r.kind == SendWorker || r.client in s.closed
  }

  lemma {:induction false} PassedLosses(s: State, i: nat, out: seq<Packet>, lost: bool)
    requires Base(s) && Losses(s) && i < |s.net|
    requires forall k | 0 <= k < |out| ::
      out[k].tag == s.net[i].tag
      && (out[k].ToWorker? || out[k].FromWorker? ==> s.sent[s.net[i].tag].kind == SendWorker)
    requires lost ==> CanBeLost(s, s.sent[s.net[i].tag])
    ensures Losses(Passed(s, i, out, lost))
  {
    var s' := Passed(s, i, out, lost);
    forall k | 0 <= k < |s'.net| && (s'.net[k].ToWorker? || s'.net[k].FromWorker?) && s'.net[k].tag < |s.sent|
      ensures s.sent[s'.net[k].tag].kind == SendWorker
    {
      InWithout(s.net, i, out, k);
    }
  }

  lemma {:induction false} StepLosses(s: State, op: Op)
    requires Base(s) && Losses(s) && Enabled(s, op)
    ensures Losses(Next(s, op))
  {
    match op
    case Send(c, id, kind, worker) =>
      var s' := Next(s, op);
      assert forall k | 0 <= k < |s'.net| && !s'.net[k].ToServer? :: s'.net[k] == s.net[k];
    case ServerReads(i) => PassedLosses(s, i, Handled(s, s.net[i]), Handled(s, s.net[i]) == []);
    case ServerBroadcasts(i) =>
      var p := s.net[i];
      PassedLosses(s, i, Copies(RegisteredBelow(s, |s.conns|), p.id, p.tag), !Registered(s, s.sent[p.tag].client));
    case WorkerReads(i, answers) =>
      var p := s.net[i];
      PassedLosses(s, i, if answers then [FromWorker(p.conn, p.id, p.tag)] else [], !answers);
    case ClientReads(i) =>
      PassedLosses(s, i, [], false);
      assert Without(s.net, i) + [] == Without(s.net, i);
    case Discard(i) => PassedLosses(s, i, [], Live(s.net[i], s.sent, s.net[i].tag));
    case _ =>
  }

  lemma {:induction false} RunLosses(states: seq<State>, ops: seq<Op>, k: nat)
    requires IsRun(states, ops) && k < |states|
    ensures Losses(states[k])
    decreases k
  {
    if k > 0 {
      RunLosses(states, ops, k - 1);
      RunKeeps(states, ops, k - 1);
      assert Legal(states[k - 1], ops[k - 1]);
      StepLosses(states[k - 1], ops[k - 1]);
    }
  }

  /** Exactly one of the closures that ran is that of request t. */
  ghost predicate RanOnce(s: State, t: Tag) {
    exists i :: 0 <= i < |s.ran| && s.ran[i].closure == t
                && forall j | 0 <= j < |s.ran| && s.ran[j].closure == t :: j == i
  }

  lemma {:induction false} OnceCounted(s: State, t: Tag)
    requires RanCount(s.ran, t) == 1
    ensures RanOnce(s, t)
  {
    RanIff(s.ran, t);
    var i :| 0 <= i < |s.ran| && s.ran[i].closure == t;
    forall j | 0 <= j < |s.ran| && s.ran[j].closure == t ensures j == i {
      if j < i {
        RanDistinct(s.ran, j, i);
      } else if i < j {
        RanDistinct(s.ran, i, j);
      }
    }
  }

  /** When nothing is under way, every request that the manager itself answers has been answered, if
      its client is still there; one that it does not answer has been dropped. */
  lemma {:induction false} ManagerAnswers(states: seq<State>, ops: seq<Op>, k: nat, t: Tag)
    requires IsRun(states, ops) && k < |states| && states[k].net == [] && t < |states[k].sent|
    ensures var s, kind := states[k], states[k].sent[t].kind;
            && ((kind == Alloc || kind == MapId || kind == NewWorker || kind == GetWorkerState || kind == NewMutex
                || kind == GetPlatformMutex) && s.sent[t].client !in s.closed ==>
                  RanOnce(s, t) && t !in s.dropped)
            && (kind == Free || kind == SetWorkerState || kind == Shutdown ==>
                  t in s.dropped && forall i | 0 <= i < |s.ran| :: s.ran[i].closure != t)
  {
    RunKeeps(states, ops, k);
    RunLosses(states, ops, k);
    var s := states[k];
    if Silent(s.sent[t].kind) {
      SilentNotRan(s, t);
      RanIff(s.ran, t);
    } else if t !in s.dropped {
      OnceCounted(s, t);
    }
  }

  /** Nobody closes, workers answer, every connection announces an id of its own, and messages go to
      workers that are there. */
  predicate Peaceful(s: State, op: Op) {
    match op
    case Close(_) => false
    case WorkerReads(_, answers) => answers
    case Join(w) => w !in s.workers
    case Send(_, _, SendWorker, worker) => worker in s.workers
    case _ => true
  }

  ghost predicate IsPeacefulRun(states: seq<State>, ops: seq<Op>) {
    IsRun(states, ops) && forall k | 0 <= k < |ops| :: Peaceful(states[k], ops[k])
  }

  /** Everyone is registered, and no message that was forwarded is lost. */
  ghost predicate AtPeace(s: State) {
    && s.closed == {} && (forall c: Conn | c < |s.conns| :: Registered(s, c))
    && (forall t: Tag | t < |s.sent| && s.sent[t].kind == SendWorker :: s.sent[t].worker in s.workers)
    && (forall t | t in s.dropped && t < |s.sent| :: s.sent[t].kind != SendWorker)
  }

  lemma {:induction false} StepAtPeace(s: State, op: Op)
    requires Base(s) && Losses(s) && AtPeace(s) && Enabled(s, op) && Peaceful(s, op)
    ensures AtPeace(Next(s, op))
  {
    var s' := Next(s, op);
    forall c: Conn | c < |s'.conns| ensures Registered(s', c) {
      assert c < |s.conns| ==> Registered(s, c);
    }
    if op.ServerBroadcasts? {
      assert Registered(s, s.sent[s.net[op.i].tag].client);
    }
  }

  /** In a peaceful run messages to workers are answered as well: when nothing is under way, only the
      requests of the three kinds nobody answers have been dropped. */
  lemma {:induction false} AllAnswered(states: seq<State>, ops: seq<Op>, k: nat, t: Tag)
    requires IsPeacefulRun(states, ops) && k < |states| && states[k].net == [] && t < |states[k].sent|
    ensures var s, kind := states[k], states[k].sent[t].kind;
            if kind == Free || kind == SetWorkerState || kind == Shutdown then t in s.dropped else RanOnce(s, t)
  {
    ManagerAnswers(states, ops, k, t);
    RunAtPeace(states, ops, k);
    RunKeeps(states, ops, k);
    var s := states[k];
    if s.sent[t].kind == SendWorker {
      assert t !in s.dropped;
      OnceCounted(s, t);
    }
  }

  lemma {:induction false} RunAtPeace(states: seq<State>, ops: seq<Op>, k: nat)
    requires IsPeacefulRun(states, ops) && k < |states|
    ensures AtPeace(states[k])
    decreases k
  {
    if k > 0 {
      RunAtPeace(states, ops, k - 1);
      RunKeeps(states, ops, k - 1);
      RunLosses(states, ops, k - 1);
      assert Legal(states[k - 1], ops[k - 1]) && Peaceful(states[k - 1], ops[k - 1]);
      StepAtPeace(states[k - 1], ops[k - 1]);
    }
  }

  // ---------- How it goes wrong ----------

  ghost predicate CanPlay(s: State, ops: seq<Op>)
    decreases |ops|
  {
    ops == [] || (Enabled(s, ops[0]) && CanPlay(Next(s, ops[0]), ops[1..]))
  }

  ghost function Play(s: State, ops: seq<Op>): State
    requires CanPlay(s, ops)
    decreases |ops|
  {
    if ops == [] then s else Play(Next(s, ops[0]), ops[1..])
  }

  /** No further request is sent, no client goes and no message is lost. */
  predicate Mild(op: Op) {
    !op.Send? && !op.Close? && !op.Leave? && !op.Discard?
  }

  ghost predicate Quiet(ops: seq<Op>) {
    forall op | op in ops :: Mild(op)
  }

  /** From here the steps lead to a closure that runs on another request's reply. */
  ghost predicate Misleads(s: State, ops: seq<Op>) {
    Quiet(ops) && CanPlay(s, ops) && !RanOnOwn(Play(s, ops))
  }

  lemma {:induction false} MisleadsAfter(s: State, op: Op, rest: seq<Op>)
    requires Enabled(s, op) && Mild(op) && Misleads(Next(s, op), rest)
    ensures Misleads(s, [op] + rest)
  {
    var ops := [op] + rest;
    assert ops[1..] == rest;
  }

  lemma {:induction false} MisleadsNow(s: State)
    requires !RanOnOwn(s)
    ensures Misleads(s, [])
  {
  }

  ghost predicate Context(s: State) {
    Base(s) && SilentUnanswered(s)
  }

  lemma {:induction false} PassedContext(s: State, op: Op, i: nat, out: seq<Packet>, lost: bool)
    requires Context(s) && PassedOn(s, op, i, out, lost)
    ensures Context(Passed(s, i, out, lost))
  {
    var s' := Passed(s, i, out, lost);
    PassedBase(s, op, i, out, lost);
    forall k | 0 <= k < |s'.net| && !s'.net[k].ToServer? ensures !Silent(s.sent[s'.net[k].tag].kind) {
      InWithout(s.net, i, out, k);
    }
  }

  lemma {:induction false} ReadContext(s: State, i: nat)
    requires Context(s) && Enabled(s, ClientReads(i))
    ensures Context(Next(s, ClientReads(i)))
  {
    ClientReadsBase(s, i);
    ClientReadsSilent(s, i);
  }

  lemma {:induction false} JoinContext(s: State, w: WorkerId)
    requires Context(s)
    ensures Context(Next(s, Join(w)))
  {
    var s' := Next(s, Join(w));
    assert forall c :: PendingOf(s', c) == PendingOf(s, c);
    assert PacketsKnown(s') && PendingKnown(s') && WorkersKnown(s') && SentKnown(s');
  }

  /** Nothing of what is written is a client's own reply, unless the message was to bring it. */
  ghost predicate OutYields(s: State, i: nat, out: seq<Packet>)
    requires i < |s.net|
  {
    forall q | q in out :: !q.FromWorker? && !q.ToServer? && (q.ToClient? ==> Yields(s, s.net[i], q.conn, q.tag))
  }

  /** Handling what is ahead in the socket leaves the threat. */
  lemma {:induction false} ThreatStays(s: State, i: nat, out: seq<Packet>, lost: bool, j: nat, d: Conn)
    requires i < j && j < |s.net| && ChannelOf(s.net[i]) == ChannelOf(s.net[j]) && OutYields(s, i, out)
    requires Threat(s, j, d)
    ensures Threat(Passed(s, i, out, lost), j - 1, d)
  {
    NewNet(s.net, i, out);
    PassedStrange(s, i, out, lost, s.net[j], d);
    StaysFree(s, i, out, lost, j, d, PendingOf(s, d)[s.net[j].id]);
  }

  lemma {:induction false} StaysFree(s: State, i: nat, out: seq<Packet>, lost: bool, j: nat, d: Conn, t: Tag)
    requires i < j && j < |s.net| && ChannelOf(s.net[i]) == ChannelOf(s.net[j]) && OutYields(s, i, out)
    requires !Blocked(s, j, d, t)
    ensures var s' := Passed(s, i, out, lost);
            j - 1 < |s'.net| && s'.net[j - 1] == s.net[j] && !Blocked(s', j - 1, d, t)
  {
    var s', k := Passed(s, i, out, lost), j - 1;
    NewNet(s.net, i, out);
    forall b | 0 <= b < |s'.net| ensures !BlockedBy(s', k, b, d, t) {
      if b < |s.net| - 1 {
        KeepsBlocked(s, i, out, lost, j, Origin(i, b), d, t);
      } else {
        NotAhead(s, i, out, lost, j, b, d, t);
      }
    }
  }

  /** A message just written is ahead only if the one it comes from was. */
  lemma {:induction false} NotAhead(s: State, i: nat, out: seq<Packet>, lost: bool, j: nat, b: nat, d: Conn, t: Tag)
    requires i < j && j < |s.net| && ChannelOf(s.net[i]) == ChannelOf(s.net[j]) && OutYields(s, i, out)
    requires |s.net| - 1 <= b < |Passed(s, i, out, lost).net| && !BlockedBy(s, j, i, d, t)
    ensures j - 1 < |Passed(s, i, out, lost).net| && !BlockedBy(Passed(s, i, out, lost), j - 1, b, d, t)
  {
    var s' := Passed(s, i, out, lost);
    NewNet(s.net, i, out);
    var q := out[b - (|s.net| - 1)];
    assert s'.net[b] == q && q in out && s'.net[j - 1] == s.net[j];
  }

  lemma {:induction false} ThreatAfterRead(s: State, i: nat, j: nat, d: Conn)
    requires Enabled(s, ClientReads(i))
    requires i < j && j < |s.net| && ChannelOf(s.net[i]) == ChannelOf(s.net[j]) && Threat(s, j, d)
    ensures !RanOnOwn(Next(s, ClientReads(i))) || Threat(Next(s, ClientReads(i)), j - 1, d)
  {
    var p, q := s.net[i], s.net[j];
    var s' := Next(s, ClientReads(i));
    var t := PendingOf(s, d)[q.id];
    ReadPending(s, i, d);
    NewNet(s.net, i, []);
    assert s'.net == Without(s.net, i) + [];
    if d == p.conn && p.id == q.id {
      assert !BlockedBy(s, j, i, d, t);
      assert s'.ran[|s.ran|] == Ran(d, t, p.tag);
    } else {
      ReadFree(s, i, j, d, t);
    }
  }

  lemma {:induction false} ReadFree(s: State, i: nat, j: nat, d: Conn, t: Tag)
    requires Enabled(s, ClientReads(i)) && i < j && j < |s.net| && !Blocked(s, j, d, t)
    ensures var s' := Next(s, ClientReads(i));
            j - 1 < |s'.net| && s'.net[j - 1] == s.net[j] && !Blocked(s', j - 1, d, t)
  {
    var s', k := Next(s, ClientReads(i)), j - 1;
    NewNet(s.net, i, []);
    assert s'.net == Without(s.net, i) + [];
    forall b | 0 <= b < |s'.net| ensures !BlockedBy(s', k, b, d, t) {
      KeepsBlocked(s, i, [], false, j, Origin(i, b), d, t);
    }
  }

  /** The message that is next in the socket of message j. */
  lemma {:induction false} FindFirst(net: seq<Packet>, j: nat) returns (i: nat)
    requires j < |net| && !First(net, j)
    ensures i < j && First(net, i) && ChannelOf(net[i]) == ChannelOf(net[j])
  {
    i :| 0 <= i < j && ChannelOf(net[i]) == ChannelOf(net[j]);
    if !First(net, i) {
      i := FindFirst(net, i);
    }
  }

  /** Reading what is next, where workers do not answer. */
  function Reading(p: Packet, i: nat): Op {
    match p
    case ToServer(_, _, _) => ServerReads(i)
    case FromWorker(_, _, _) => ServerBroadcasts(i)
    case ToWorker(_, _, _) => WorkerReads(i, false)
    case ToClient(_, _, _) => ClientReads(i)
  }

  /** The step is taken, and what was at j is still there, and threatens unless things have gone wrong. */
  ghost predicate ReadsAhead(s: State, op: Op, j: nat, d: Conn) {
    && 0 < j < |s.net| && Enabled(s, op) && Mild(op) && Context(Next(s, op))
    && |Next(s, op).net| >= j && Next(s, op).net[j - 1] == s.net[j]
    && (!RanOnOwn(Next(s, op)) || Threat(Next(s, op), j - 1, d))
  }

  lemma {:induction false} PassAhead(s: State, op: Op, i: nat, out: seq<Packet>, lost: bool, j: nat, d: Conn)
    requires Context(s) && Mild(op) && PassedOn(s, op, i, out, lost) && OutYields(s, i, out)
    requires i < j && j < |s.net| && ChannelOf(s.net[i]) == ChannelOf(s.net[j]) && Threat(s, j, d)
    ensures ReadsAhead(s, op, j, d)
  {
    PassedContext(s, op, i, out, lost);
    NewNet(s.net, i, out);
    ThreatStays(s, i, out, lost, j, d);
  }

  lemma {:induction false} ReadAhead(s: State, i: nat, j: nat, d: Conn)
    requires Context(s) && First(s.net, i) && i < j && j < |s.net| && ChannelOf(s.net[i]) == ChannelOf(s.net[j])
    requires Threat(s, j, d)
    ensures ReadsAhead(s, Reading(s.net[i], i), j, d)
  {
    var p := s.net[i];
    var op := Reading(p, i);
    match p
    case ToServer(_, _, _) =>
      ServerReadsOn(s, i);
      PassAhead(s, op, i, Handled(s, p), Handled(s, p) == [], j, d);
    case FromWorker(_, _, _) =>
      ServerBroadcastsOn(s, i);
      PassAhead(s, op, i, Copies(RegisteredBelow(s, |s.conns|), p.id, p.tag),
                p.tag < |s.sent| && !Registered(s, s.sent[p.tag].client), j, d);
    case ToWorker(_, _, _) =>
      assert Open(s, p.conn);
      WorkerReadsOn(s, i, false);
      PassAhead(s, op, i, [], true, j, d);
    case ToClient(_, _, _) =>
      assert Open(s, p.conn);
      ReadContext(s, i);
      NewNet(s.net, i, []);
      ThreatAfterRead(s, i, j, d);
  }

  /** A copy in the socket of the client threatens as the answer did. */
  lemma {:induction false} AnswerThreatens(s: State, j: nat, d: Conn) returns (k: nat)
    requires Context(s) && Threat(s, j, d) && First(s.net, j) && s.net[j].FromWorker?
    ensures var s' := Next(s, ServerBroadcasts(j));
            Context(s') && Threat(s', k, d) && s'.net[k].ToClient?
  {
    var p := s.net[j];
    var cs := RegisteredBelow(s, |s.conns|);
    var lost := p.tag < |s.sent| && !Registered(s, s.sent[p.tag].client);
    ServerBroadcastsOn(s, j);
    PassedContext(s, ServerBroadcasts(j), j, Copies(cs, p.id, p.tag), lost);
    k := CopyThreatens(s, j, cs, lost, d);
  }

  lemma {:induction false} CopyThreatens(s: State, j: nat, cs: seq<Conn>, lost: bool, d: Conn) returns (k: nat)
    requires Threat(s, j, d) && s.net[j].FromWorker? && d in cs
    ensures var s' := Passed(s, j, Copies(cs, s.net[j].id, s.net[j].tag), lost);
            Threat(s', k, d) && s'.net[k].ToClient?
  {
    var out := Copies(cs, s.net[j].id, s.net[j].tag);
    var o :| 0 <= o < |cs| && cs[o] == d;
    assert out[o] == ToClient(d, s.net[j].id, s.net[j].tag);
    k := |s.net| - 1 + o;
    Becomes(s, j, out, lost, o, d);
  }

  /** What a message becomes threatens as it did, when nothing that was not ahead gets ahead. */
  lemma {:induction false} Becomes(s: State, j: nat, out: seq<Packet>, lost: bool, o: nat, d: Conn)
    requires Threat(s, j, d) && !s.net[j].ToClient? && CarriesTag(out, s.net[j].id, s.net[j].tag)
    requires o < |out| && Reaches(s, out[o], d) && !out[o].ToServer? && NoneOvertakes(s, j, out[o], d)
    ensures |s.net| - 1 + o < |Passed(s, j, out, lost).net|
    ensures Passed(s, j, out, lost).net[|s.net| - 1 + o] == out[o]
    ensures Threat(Passed(s, j, out, lost), |s.net| - 1 + o, d)
  {
    NewNet(s.net, j, out);
    PassedStrange(s, j, out, lost, out[o], d);
    assert Strange(s, out[o], d);
    BecomesFree(s, j, out, lost, o, d, PendingOf(s, d)[s.net[j].id]);
  }

  /** Whatever brings d a reply and is ahead of q was ahead of message j. */
  ghost predicate NoneOvertakes(s: State, j: nat, q: Packet, d: Conn)
    requires j < |s.net|
  {
    forall b, t | 0 <= b < |s.net| && !q.ToClient? && Yields(s, s.net[b], d, t) && NowFollows(s.net[b].conn, q) ::
      Follows(s, j, b, d)
  }

  lemma {:induction false} BecomesFree(s: State, j: nat, out: seq<Packet>, lost: bool, o: nat, d: Conn, t: Tag)
    requires j < |s.net| && !s.net[j].ToClient? && CarriesTag(out, s.net[j].id, s.net[j].tag) && t != s.net[j].tag
    requires o < |out| && !out[o].ToServer? && NoneOvertakes(s, j, out[o], d) && !Blocked(s, j, d, t)
    ensures |s.net| - 1 + o < |Passed(s, j, out, lost).net|
    ensures !Blocked(Passed(s, j, out, lost), |s.net| - 1 + o, d, t)
  {
    var s' := Passed(s, j, out, lost);
    var k := |s.net| - 1 + o;
    NewNet(s.net, j, out);
    forall b | 0 <= b < |s'.net| ensures !BlockedBy(s', k, b, d, t) {
      if b < |s.net| - 1 {
        assert !BlockedBy(s, j, Origin(j, b), d, t);
        StillBehind(s, j, out, lost, o, b, d, t);
      } else {
        assert s'.net[b] == out[b - (|s.net| - 1)];
      }
    }
  }

  lemma {:induction false} StillBehind(s: State, j: nat, out: seq<Packet>, lost: bool, o: nat, b: nat, d: Conn, t: Tag)
    requires j < |s.net| && !s.net[j].ToClient? && o < |out| && b < |s.net| - 1
    requires !out[o].ToServer? && !BlockedBy(s, j, Origin(j, b), d, t)
    requires out[o].ToClient? || !Yields(s, s.net[Origin(j, b)], d, t) || !NowFollows(s.net[Origin(j, b)].conn, out[o])
    ensures |s.net| - 1 + o < |Passed(s, j, out, lost).net|
    ensures !BlockedBy(Passed(s, j, out, lost), |s.net| - 1 + o, b, d, t)
  {
    var s' := Passed(s, j, out, lost);
    NewNet(s.net, j, out);
    assert s'.net[b] == s.net[Origin(j, b)] && s'.net[|s.net| - 1 + o] == out[o];
  }

  /** The server reads the message, or what comes of it, after all it is to read from x. */
  predicate NowFollows(x: Conn, q: Packet) {
    ChannelOf(q) == Out(x) || (q.ToWorker? && q.conn == x)
  }

  lemma {:induction false} ForwardThreatens(s: State, j: nat, d: Conn) returns (k: nat)
    requires Context(s) && Threat(s, j, d) && First(s.net, j) && s.net[j].ToWorker?
    ensures var op := WorkerReads(j, true);
            Enabled(s, op) && Context(Next(s, op)) && Threat(Next(s, op), k, d) && Next(s, op).net[k].FromWorker?
  {
    var p := s.net[j];
    var out := [FromWorker(p.conn, p.id, p.tag)];
    WorkerReadsOn(s, j, true);
    PassedContext(s, WorkerReads(j, true), j, out, false);
    Becomes(s, j, out, false, 0, d);
    k := |s.net| - 1;
  }

  /** The request goes to its worker: to client d if that is d's, else to the connection that has it. */
  lemma {:induction false} RequestThreatens(s: State, j: nat, d: Conn) returns (k: nat)
    requires Context(s) && Threat(s, j, d) && First(s.net, j) && s.net[j].ToServer?
    requires var w := s.sent[s.net[j].tag].worker;
             w in s.workers && Open(s, s.workers[w])
             && (s.workers[w] == d || forall b | 0 <= b < |s.net| :: s.net[b].conn != s.workers[w])
    ensures var s' := Next(s, ServerReads(j));
            Context(s') && Threat(s', k, d) && s'.net[k].ToWorker?
  {
    var p := s.net[j];
    var x := s.workers[s.sent[p.tag].worker];
    var out := [ToWorker(x, p.id, p.tag)];
    assert Handled(s, p) == out;
    ServerReadsOn(s, j);
    PassedContext(s, ServerReads(j), j, out, false);
    Becomes(s, j, out, false, 0, d);
    k := |s.net| - 1;
  }

  lemma {:induction false} ThreatAfterJoin(s: State, j: nat, d: Conn, w: WorkerId)
    requires Context(s) && Threat(s, j, d) && w != s.conns[d]
    ensures Threat(Next(s, Join(w)), j, d)
  {
    var s' := Next(s, Join(w));
    assert PendingOf(s', d) == PendingOf(s, d);
    assert Open(s, d);
    var t := PendingOf(s, d)[s.net[j].id];
    assert Reaches(s', s.net[j], d);
    forall b | 0 <= b < |s.net| ensures !BlockedBy(s', j, b, d, t) {
      assert !BlockedBy(s, j, b, d, t);
    }
  }

  function Stage(p: Packet): nat {
    match p
    case ToServer(_, _, _) => 3
    case ToWorker(_, _, _) => 2
    case FromWorker(_, _, _) => 1
    case ToClient(_, _, _) => 0
  }

  /** A message that threatens a closure can go on to run it: what is ahead is read, workers answer only
      this one, and the worker it is for may be one that connects now. */
  lemma {:induction false} ThreatMisleads(s: State, j: nat, d: Conn) returns (ops: seq<Op>)
    requires Context(s) && Threat(s, j, d)
    ensures Misleads(s, ops)
    decreases Stage(s.net[j]), j, 1
  {
    if !First(s.net, j) {
      ops := AheadMisleads(s, j, d);
    } else {
      match s.net[j]
      case ToServer(_, _, _) => ops := RequestMisleads(s, j, d);
      case ToWorker(_, _, _) =>
        var k := ForwardThreatens(s, j, d);
        ops := ThreatMisleads(Next(s, WorkerReads(j, true)), k, d);
        MisleadsAfter(s, WorkerReads(j, true), ops);
        ops := [WorkerReads(j, true)] + ops;
      case FromWorker(_, _, _) =>
        var k := AnswerThreatens(s, j, d);
        ops := ThreatMisleads(Next(s, ServerBroadcasts(j)), k, d);
        MisleadsAfter(s, ServerBroadcasts(j), ops);
        ops := [ServerBroadcasts(j)] + ops;
      case ToClient(_, _, _) =>
        ops := ReplyMisleads(s, j, d);
    }
  }

  lemma {:induction false} AheadMisleads(s: State, j: nat, d: Conn) returns (ops: seq<Op>)
    requires Context(s) && Threat(s, j, d) && !First(s.net, j)
    ensures Misleads(s, ops)
    decreases Stage(s.net[j]), j, 0
  {
    var i := FindFirst(s.net, j);
    var op := Reading(s.net[i], i);
    ReadAhead(s, i, j, d);
    if !RanOnOwn(Next(s, op)) {
      ops := [];
      MisleadsNow(Next(s, op));
    } else {
      ops := ThreatMisleads(Next(s, op), j - 1, d);
    }
    MisleadsAfter(s, op, ops);
    ops := [op] + ops;
  }

  lemma {:induction false} ReplyMisleads(s: State, j: nat, d: Conn) returns (ops: seq<Op>)
    requires Context(s) && Threat(s, j, d) && First(s.net, j) && s.net[j].ToClient?
    ensures Misleads(s, ops)
  {
    var s' := Next(s, ClientReads(j));
    assert s'.ran[|s.ran|] == Ran(d, PendingOf(s, d)[s.net[j].id], s.net[j].tag);
    MisleadsNow(s');
    MisleadsAfter(s, ClientReads(j), []);
    ops := [ClientReads(j)] + [];
  }

  lemma {:induction false} RequestMisleads(s: State, j: nat, d: Conn) returns (ops: seq<Op>)
    requires Context(s) && Threat(s, j, d) && First(s.net, j) && s.net[j].ToServer?
    ensures Misleads(s, ops)
    decreases 3, j, 0
  {
    var w := s.sent[s.net[j].tag].worker;
    assert Open(s, d);
    var s1, first := s, [];
    if w != s.conns[d] {
      ThreatAfterJoin(s, j, d, w);
      JoinContext(s, w);
      s1, first := Next(s, Join(w)), [Join(w)];
      assert First(s1.net, j);
    }
    var k := RequestThreatens(s1, j, d);
    var rest := ThreatMisleads(Next(s1, ServerReads(j)), k, d);
    MisleadsAfter(s1, ServerReads(j), rest);
    ops := [ServerReads(j)] + rest;
    if w != s.conns[d] {
      MisleadsAfter(s, Join(w), ops);
      ops := [Join(w)] + ops;
    }
  }

  /** The steps that make it go wrong after a request that can meet another one. */
  lemma {:induction false} MeetingGoesWrong(s: State, c: Conn, id: Id, kind: Kind, worker: WorkerId)
    returns (ops: seq<Op>)
    requires Inv(s) && Enabled(s, Send(c, id, kind, worker)) && CanMeet(s, c, id, kind, worker)
    ensures Misleads(Next(s, Send(c, id, kind, worker)), ops)
  {
    var s' := Next(s, Send(c, id, kind, worker));
    SendBase(s, c, id, kind, worker);
    SendCounts(s, c, id, kind, worker);
    MeetThreatens(s, c, id, kind, worker);
    var j: nat, d: Conn :| Threat(s', j, d);
    ops := ThreatMisleads(s', j, d);
  }

  lemma {:induction false} QuietKeeps(s: State, ops: seq<Op>)
    requires Inv(s) && Quiet(ops) && CanPlay(s, ops)
    ensures Inv(Play(s, ops))
    decreases |ops|
  {
    if ops != [] {
      assert Mild(ops[0]);
      StepKeeps(s, ops[0]);
      QuietKeeps(Next(s, ops[0]), ops[1..]);
    }
  }

  /** The condition is exact: in any state reached so far a request can meet another one if and only
      if, once it is sent, connections and deliveries alone, each socket in its order, can make a
      closure run on a reply that is not its own. */
  lemma {:induction false} MeetExact(s: State, c: Conn, id: Id, kind: Kind, worker: WorkerId)
    requires Inv(s) && Enabled(s, Send(c, id, kind, worker))
    ensures CanMeet(s, c, id, kind, worker) <==> exists ops :: Misleads(Next(s, Send(c, id, kind, worker)), ops)
  {
    var op := Send(c, id, kind, worker);
    if CanMeet(s, c, id, kind, worker) {
      var ops := MeetingGoesWrong(s, c, id, kind, worker);
      assert Misleads(Next(s, op), ops);
    } else {
      StepKeeps(s, op);
      forall ops ensures !Misleads(Next(s, op), ops) {
        if Quiet(ops) && CanPlay(Next(s, op), ops) {
          QuietKeeps(Next(s, op), ops);
        }
      }
    }
  }

  // ---------- A run that goes wrong ----------

  lemma {:induction false} RunMore(states: seq<State>, ops: seq<Op>, op: Op) returns (states': seq<State>)
    requires IsRun(states, ops) && Legal(states[|ops|], op)
    ensures IsRun(states', ops + [op]) && states'[|ops| + 1] == Next(states[|ops|], op)
  {
    states' := states + [Next(states[|ops|], op)];
    forall k | 0 <= k < |ops + [op]|
      ensures Legal(states'[k], (ops + [op])[k]) && states'[k + 1] == Next(states'[k], (ops + [op])[k])
    {
      assert k < |ops| ==> Legal(states[k], ops[k]);
    }
  }

  /** Two clients, announced as 0 and 1, of which the first has asked the second; `net` is under way. */
  function Asked(id: Id, net: seq<Packet>): State {
    State([0, 1], map[0 := 0, 1 := 1], {}, {}, map[0 := map[id := 0]], net, [Request(0, id, SendWorker, 1)], [], {})
  }

  lemma {:induction false} AskedReached(id: Id) returns (states: seq<State>, ops: seq<Op>)
    ensures IsRun(states, ops) && states[|ops|] == Asked(id, [ToServer(0, id, 0)])
  {
    states, ops := [Start()], [];
    states := RunMore(states, ops, Join(0));
    ops := ops + [Join(0)];
    states := RunMore(states, ops, Join(1));
    ops := ops + [Join(1)];
    assert states[|ops|] == State([0, 1], map[0 := 0, 1 := 1], {}, {}, map[], [], [], [], {});
    states := RunMore(states, ops, Send(0, id, SendWorker, 1));
    ops := ops + [Send(0, id, SendWorker, 1)];
    assert states[|ops|].net == [ToServer(0, id, 0)];
  }

  lemma {:induction false} ForwardedReached(id: Id) returns (states: seq<State>, ops: seq<Op>)
    ensures IsRun(states, ops) && states[|ops|] == Asked(id, [ToWorker(1, id, 0)])
  {
    states, ops := AskedReached(id);
    states := RunMore(states, ops, ServerReads(0));
    ops := ops + [ServerReads(0)];
    assert states[|ops|].net == [ToWorker(1, id, 0)];
  }

  lemma {:induction false} AnsweredReached(id: Id) returns (states: seq<State>, ops: seq<Op>)
    ensures IsRun(states, ops) && states[|ops|] == Asked(id, [FromWorker(1, id, 0)])
  {
    states, ops := ForwardedReached(id);
    states := RunMore(states, ops, WorkerReads(0, true));
    ops := ops + [WorkerReads(0, true)];
    assert states[|ops|].net == [FromWorker(1, id, 0)];
  }

  lemma {:induction false} BroadcastReached(id: Id) returns (states: seq<State>, ops: seq<Op>)
    ensures IsRun(states, ops) && states[|ops|] == Asked(id, [ToClient(0, id, 0), ToClient(1, id, 0)])
  {
    states, ops := AnsweredReached(id);
    var s := Asked(id, [FromWorker(1, id, 0)]);
    assert RegisteredBelow(s, 2) == [0, 1] by {
      assert RegisteredBelow(s, 0) == [];
      assert Registered(s, 0) && Registered(s, 1);
    }
    states := RunMore(states, ops, ServerBroadcasts(0));
    ops := ops + [ServerBroadcasts(0)];
    assert states[|ops|].net == [ToClient(0, id, 0), ToClient(1, id, 0)];
  }

  /** Such requests do come about, although each client draws ids it has no closure under: in this run
      client 0 asks worker 1, the answer is broadcast, and client 1 draws the same id. */
  lemma {:induction false} OwnCheckNotEnough(id: Id) returns (states: seq<State>, ops: seq<Op>)
    ensures IsRun(states, ops)
    ensures var s := states[|ops|];
            && Enabled(s, Send(1, id, Alloc, 0)) && CanMeet(s, 1, id, Alloc, 0)
            && var s' := Next(s, Send(1, id, Alloc, 0));
            Enabled(s', ClientReads(1)) && Next(s', ClientReads(1)).ran == [Ran(1, 1, 0)]
  {
    states, ops := BroadcastReached(id);
    var s := states[|ops|];
    assert s.net[1].id == id && Reaches(s, s.net[1], 1);
    var s' := Next(s, Send(1, id, Alloc, 0));
    assert s'.net[1] == ToClient(1, id, 0) && PendingOf(s', 1) == map[id := 1];
  }

  /** A closure that its client keeps for ever is harmless for others' requests with its id as long as
      their answers are not broadcast, and when the client has closed, or is no longer registered under
      its worker id, for all. */
  lemma {:induction false} KeptHarmless(s: State, c: Conn, id: Id, kind: Kind, worker: WorkerId)
    requires Base(s) && forall k | 0 <= k < |s.net| :: s.net[k].id != id
    ensures CanMeet(s, c, id, kind, worker) ==>
              kind.SendWorker? && exists d :: d != c && id in PendingOf(s, d) && Open(s, d) && Registered(s, d)
  {
    if CanMeet(s, c, id, kind, worker) {
      var d :| d != c && Exposed(s, d, c, id, worker);
      assert Open(s, d);
    }
  }

  // ---------- A client ----------

  /** The closures of one client (PosixContext.reply_closures); a closure is named by its request. */
  class Client {
    var replyClosures: map<Id, Tag>

    constructor ()
      ensures replyClosures == map[]
    {
      replyClosures := map[];
    }

    /** new_id: the first number drawn that no closure is kept under; None when the numbers given
        run out. */
    method NewId(drawn: seq<Id>) returns (id: Option<Id>)
      ensures id == FirstFree(drawn, replyClosures)
    {
      var i := 0;
      assert drawn[0..] == drawn;
      while i < |drawn| && drawn[i] in replyClosures
        invariant 0 <= i <= |drawn|
        invariant FirstFree(drawn[i..], replyClosures) == FirstFree(drawn, replyClosures)
      {
        assert drawn[i..][1..] == drawn[i + 1..];
        i := i + 1;
      }
      id := if i < |drawn| then Some(drawn[i]) else None;
    }

    /** send_wrapped_message: the closure is registered before the message is written. */
    method SendWrapped(c: Conn, drawn: seq<Id>, tag: Tag) returns (packet: Option<Packet>)
      modifies this
      ensures var id := FirstFree(drawn, old(replyClosures));
              if id.None? then packet == None && replyClosures == old(replyClosures)
              else packet == Some(ToServer(c, id.value, tag)) && replyClosures == old(replyClosures)[id.value := tag]
    {
      var id := NewId(drawn);
      match id
      case None => packet := None;
      case Some(n) =>
        replyClosures := replyClosures[n := tag];
        packet := Some(ToServer(c, n, tag));
    }

    /** handle_messages, for a message with a reply id: the closure kept under it is taken out and
        run; a second reply finds none. */
    method HandleReply(replyId: Id) returns (ran: Option<Tag>)
      modifies this
      ensures (ran, replyClosures) == TakeClosure(old(replyClosures), replyId)
    {
      if replyId in replyClosures {
        ran := Some(replyClosures[replyId]);
        replyClosures := replyClosures - {replyId};
      } else {
        ran := None;
      }
    }
  }

  function FirstFree(drawn: seq<Id>, closures: map<Id, Tag>): (r: Option<Id>)
    ensures r.Some? ==> r.value in drawn && r.value !in closures
    ensures r.None? ==> forall id | id in drawn :: id in closures
  {
    if drawn == [] then None
    else if drawn[0] !in closures then Some(drawn[0])
    else FirstFree(drawn[1..], closures)
  }

  /** The client's methods take the steps of the model: what they make of its closures is what Next
      makes of them. */
  lemma {:induction false} ClientSteps(s: State, c: Conn, drawn: seq<Id>, kind: Kind, worker: WorkerId, i: nat)
    requires Open(s, c)
    ensures var id := FirstFree(drawn, PendingOf(s, c));
            id.Some? ==>
              && Enabled(s, Send(c, id.value, kind, worker))
              && PendingOf(Next(s, Send(c, id.value, kind, worker)), c) == PendingOf(s, c)[id.value := |s.sent|]
    ensures Enabled(s, ClientReads(i)) && s.net[i].conn == c ==>
              var (ran, closures) := TakeClosure(PendingOf(s, c), s.net[i].id);
              && PendingOf(Next(s, ClientReads(i)), c) == closures
              && (ran.Some? <==> |Next(s, ClientReads(i)).ran| == |s.ran| + 1)
  {
  }
}
