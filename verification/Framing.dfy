/** Messages as lines of a byte stream that arrives in pieces: the client's loop
    (src/pal/posix/mod.rs) and the server's (src/pal/posix/server.rs). */
module Framing {
  import opened Utf8

  const NL: Byte := 10

  function Flatten<T>(pieces: seq<seq<T>>): seq<T> {
    if pieces == [] then [] else pieces[0] + Flatten(pieces[1..])
  }

  lemma {:induction false} FlattenPush<T>(pieces: seq<seq<T>>, piece: seq<T>)
    ensures Flatten(pieces + [piece]) == Flatten(pieces) + piece
  {
    if pieces == [] {
      assert [piece][1..] == [];
    } else {
      assert (pieces + [piece])[1..] == pieces[1..] + [piece];
      FlattenPush(pieces[1..], piece);
    }
  }

  lemma {:induction false} FlattenCons<T>(piece: seq<T>, pieces: seq<seq<T>>)
    ensures Flatten([piece] + pieces) == piece + Flatten(pieces)
  {
    assert ([piece] + pieces)[1..] == pieces;
  }

  // ---------- Lines of a stream ----------

  function Find<T(==)>(s: seq<T>, x: T): (i: nat)
    ensures i <= |s|
    ensures i < |s| ==> s[i] == x
    ensures forall j | 0 <= j < i :: s[j] != x
  {
    if s == [] || s[0] == x then 0 else 1 + Find(s[1..], x)
  }

  /** The complete lines, terminators included. */
  function Lines<T(==)>(s: seq<T>, nl: T): seq<seq<T>>
    decreases |s|
  {
    var i := Find(s, nl);
    if i == |s| then [] else [s[..i + 1]] + Lines(s[i + 1..], nl)
  }

  /** What follows the last terminator. */
  function Tail<T(==)>(s: seq<T>, nl: T): seq<T>
    decreases |s|
  {
    var i := Find(s, nl);
    if i == |s| then s else Tail(s[i + 1..], nl)
  }

  lemma {:induction false} FindIs<T>(s: seq<T>, x: T, i: nat)
    requires i <= |s| && (i < |s| ==> s[i] == x) && forall j | 0 <= j < i :: s[j] != x
    ensures Find(s, x) == i
  {
  }

  lemma {:induction false} LinesFirst<T>(s: seq<T>, nl: T, i: nat)
    requires i == Find(s, nl) < |s|
    ensures Lines(s, nl) == [s[..i + 1]] + Lines(s[i + 1..], nl) && Tail(s, nl) == Tail(s[i + 1..], nl)
  {
    HeadFirst(s, nl, i, s[..i + 1], s[i + 1..]);
    TailFirst(s, nl, i);
  }

  lemma {:induction false} HeadFirst<T>(s: seq<T>, nl: T, i: nat, head: seq<T>, rest: seq<T>)
    requires i == Find(s, nl) < |s| && head == s[..i + 1] && rest == s[i + 1..]
    ensures Lines(s, nl) == [head] + Lines(rest, nl)
  {
  }

  lemma {:induction false} TailFirst<T>(s: seq<T>, nl: T, i: nat)
    requires i == Find(s, nl) < |s|
    ensures Tail(s, nl) == Tail(s[i + 1..], nl)
  {
  }

  lemma {:induction false} Glue<T>(s: seq<T>, i: nat, lines: seq<seq<T>>, tail: seq<T>)
    requires i < |s| && Flatten(lines) + tail == s[i + 1..]
    ensures Flatten([s[..i + 1]] + lines) + tail == s
  {
    FlattenCons(s[..i + 1], lines);
    assert s == s[..i + 1] + s[i + 1..];
  }

  /** The lines and the tail are the stream: nothing is lost or reordered. */
  lemma {:induction false} LinesWhole<T>(s: seq<T>, nl: T)
    ensures Flatten(Lines(s, nl)) + Tail(s, nl) == s && nl !in Tail(s, nl)
    decreases |s|
  {
    var i := Find(s, nl);
    if i < |s| {
      var rest := s[i + 1..];
      LinesFirst(s, nl, i);
      LinesWhole(rest, nl);
      Glue(s, i, Lines(rest, nl), Tail(rest, nl));
    }
  }

  lemma {:induction false} FindAppend<T>(a: seq<T>, b: seq<T>, nl: T, i: nat)
    requires i == Find(a, nl) < |a|
    ensures i == Find(a + b, nl) && (a + b)[..i + 1] == a[..i + 1] && (a + b)[i + 1..] == a[i + 1..] + b
  {
    FindIs(a + b, nl, i);
  }

  /** Splitting what has arrived, then the tail with what arrives next, splits the whole. */
  lemma {:induction false} LinesAppend<T>(a: seq<T>, b: seq<T>, nl: T)
    ensures Lines(a + b, nl) == Lines(a, nl) + Lines(Tail(a, nl) + b, nl)
    ensures Tail(a + b, nl) == Tail(Tail(a, nl) + b, nl)
    decreases |a|
  {
    var i := Find(a, nl);
    if i == |a| {
      assert Lines(a, nl) == [] && Tail(a, nl) == a;
    } else {
      FindAppend(a, b, nl, i);
      LinesFirst(a, nl, i);
      LinesFirst(a + b, nl, i);
      var rest := a[i + 1..];
      LinesAppend(rest, b, nl);
      Regroup([a[..i + 1]], Lines(rest, nl), Lines(Tail(rest, nl) + b, nl));
    }
  }

  lemma {:induction false} Regroup<T>(a: seq<T>, b: seq<T>, c: seq<T>)
    ensures a + (b + c) == (a + b) + c
  {
  }

  // ---------- What is delivered ----------

  /** The characters of Unicode property White_Space. */
  predicate White(c: char) {
    var n := c as int;
    || 0x9 <= n <= 0xD || n == 0x20 || n == 0x85 || n == 0xA0 || n == 0x1680 || 0x2000 <= n <= 0x200A
    || n == 0x2028 || n == 0x2029 || n == 0x202F || n == 0x205F || n == 0x3000
  }

  function TrimStart(s: string): string {
    if s != [] && White(s[0]) then TrimStart(s[1..]) else s
  }

  function TrimEnd(s: string): string {
    if s != [] && White(s[|s| - 1]) then TrimEnd(s[..|s| - 1]) else s
  }

  function Trim(s: string): string {
    TrimEnd(TrimStart(s))
  }

  /** Blank lines are dropped, the others trimmed. */
  function Deliver(lines: seq<string>): seq<string> {
    if lines == [] then []
    else (if Trim(lines[0]) == "" then [] else [Trim(lines[0])]) + Deliver(lines[1..])
  }

  lemma {:induction false} DeliverAppend(a: seq<string>, b: seq<string>)
    ensures Deliver(a + b) == Deliver(a) + Deliver(b)
  {
    if a == [] {
      assert a + b == b;
    } else {
      assert (a + b)[1..] == a[1..] + b;
      DeliverAppend(a[1..], b);
    }
  }

  function DecodeAll(lines: seq<seq<Byte>>): (r: seq<string>)
    ensures |r| == |lines|
  {
    seq(|lines|, i requires 0 <= i < |lines| => Lossy(lines[i]))
  }

  lemma {:induction false} DecodeCons(line: seq<Byte>, rest: seq<seq<Byte>>)
    ensures DecodeAll([line] + rest) == [Lossy(line)] + DecodeAll(rest)
  {
  }

  lemma {:induction false} DeliverCons(line: string, rest: seq<string>)
    ensures Deliver([line] + rest) == (if Trim(line) == "" then [] else [Trim(line)]) + Deliver(rest)
  {
    assert ([line] + rest)[1..] == rest;
  }

  /** What a reader of the whole stream is to deliver. */
  function Delivered(stream: seq<Byte>): seq<string> {
    Deliver(DecodeAll(Lines(stream, NL)))
  }

  lemma {:induction false} DeliveredAppend(a: seq<Byte>, b: seq<Byte>)
    ensures Delivered(a + b) == Delivered(a) + Delivered(Tail(a, NL) + b)
  {
    LinesAppend(a, b, NL);
    DeliverDecodedAppend(Lines(a, NL), Lines(Tail(a, NL) + b, NL));
  }

  lemma {:induction false} DeliverDecodedAppend(x: seq<seq<Byte>>, y: seq<seq<Byte>>)
    ensures Deliver(DecodeAll(x + y)) == Deliver(DecodeAll(x)) + Deliver(DecodeAll(y))
  {
    assert DecodeAll(x + y) == DecodeAll(x) + DecodeAll(y);
    DeliverAppend(DecodeAll(x), DecodeAll(y));
  }

  /** What a connection's reads give, up to the first that gives nothing. */
  function Received(chunks: seq<seq<Byte>>): seq<seq<Byte>> {
    if chunks == [] || chunks[0] == [] then [] else [chunks[0]] + Received(chunks[1..])
  }

  /** Nothing is read after the end of the stream. */
  lemma {:induction false} EndOfStream(chunks: seq<seq<Byte>>, more: seq<seq<Byte>>)
    requires forall c | c in chunks :: c != []
    ensures Received(chunks + [[]] + more) == chunks
  {
    if chunks == [] {
      assert ([] + [[]] + more)[0] == [];
    } else {
      assert (chunks + [[]] + more)[1..] == chunks[1..] + [[]] + more && chunks[0] in chunks;
      assert forall c | c in chunks[1..] :: c in chunks;
      EndOfStream(chunks[1..], more);
    }
  }

  /** Some lines of `whole` have been delivered, the rest is pending. */
  ghost predicate Read(whole: seq<Byte>, delivered: seq<string>, pending: seq<Byte>) {
    Delivered(whole) == delivered + Delivered(pending) && Tail(pending, NL) == Tail(whole, NL)
  }

  lemma {:induction false} ReadNone(whole: seq<Byte>)
    ensures Read(whole, [], whole)
  {
    assert [] + Delivered(whole) == Delivered(whole);
  }

  lemma {:induction false} ReadLine(whole: seq<Byte>, delivered: seq<string>, pending: seq<Byte>, i: nat, line: string)
    requires Read(whole, delivered, pending) && i == Find(pending, NL) < |pending|
    requires line == Trim(Lossy(pending[..i + 1]))
    ensures Read(whole, if line == "" then delivered else delivered + [line], pending[i + 1..])
  {
    DeliveredFirst(pending, i);
    TailFirst(pending, NL, i);
    Regroup(delivered, if line == "" then [] else [line], Delivered(pending[i + 1..]));
    assert delivered + [] == delivered;
  }

  lemma {:induction false} ReadAll(whole: seq<Byte>, delivered: seq<string>, pending: seq<Byte>)
    requires Read(whole, delivered, pending) && Find(pending, NL) == |pending|
    ensures delivered == Delivered(whole) && pending == Tail(whole, NL)
  {
    assert Delivered(pending) == [];
  }

  lemma {:induction false} ReceivedNext(seen: seq<seq<Byte>>, chunks: seq<seq<Byte>>, i: nat)
    requires i < |chunks| && chunks[i] != []
    ensures seen + Received(chunks[i..]) == (seen + [chunks[i]]) + Received(chunks[i + 1..])
  {
    assert chunks[i..][0] == chunks[i] && chunks[i..][1..] == chunks[i + 1..];
  }

  lemma {:induction false} ClientNext(seen: seq<seq<Byte>>, chunk: seq<Byte>)
    ensures var tail := Tail(Flatten(seen), NL);
            && Delivered(Flatten(seen + [chunk])) == Delivered(Flatten(seen)) + Delivered(tail + chunk)
            && Tail(Flatten(seen + [chunk]), NL) == Tail(tail + chunk, NL)
  {
    FlattenPush(seen, chunk);
    DeliveredAppend(Flatten(seen), chunk);
    LinesAppend(Flatten(seen), chunk, NL);
  }

  /** The client's end of the connection (handle_messages). */
  class Client {
    var pending: seq<Byte>

    constructor ()
      ensures pending == []
    {
      pending := [];
    }

    /** One read: every line completed by it is taken out of the buffer. */
    method Receive(chunk: seq<Byte>) returns (delivered: seq<string>)
      modifies this
      ensures pending == Tail(old(pending) + chunk, NL)
      ensures delivered == Delivered(old(pending) + chunk)
    {
      ghost var whole := pending + chunk;
      pending := pending + chunk;
      delivered := [];
      ReadNone(whole);
      while Find(pending, NL) < |pending|
        invariant Read(whole, delivered, pending)
        decreases |pending|
      {
        var linePos := Find(pending, NL);
        var line := Trim(Lossy(pending[..linePos + 1]));
        ReadLine(whole, delivered, pending, linePos, line);
        pending := pending[linePos + 1..];
        if line != "" {
          delivered := delivered + [line];
        }
      }
      ReadAll(whole, delivered, pending);
    }

    /** The whole connection, for any way the stream is cut into reads. */
    method HandleMessages(chunks: seq<seq<Byte>>) returns (delivered: seq<string>)
      requires pending == []
      modifies this
      ensures delivered == Delivered(Flatten(Received(chunks)))
      ensures pending == Tail(Flatten(Received(chunks)), NL)
    {
      delivered := [];
      var i := 0;
      ghost var seen: seq<seq<Byte>> := [];
      assert chunks[0..] == chunks;
      while i < |chunks| && chunks[i] != []
        invariant 0 <= i <= |chunks| && Received(chunks) == seen + Received(chunks[i..])
        invariant delivered == Delivered(Flatten(seen)) && pending == Tail(Flatten(seen), NL)
      {
        ReceivedNext(seen, chunks, i);
        ClientNext(seen, chunks[i]);
        var more := Receive(chunks[i]);
        delivered := delivered + more;
        seen := seen + [chunks[i]];
        i := i + 1;
      }
      assert Received(chunks[i..]) == [];
      assert seen + [] == seen;
    }
  }

  lemma {:induction false} DeliverDecoded(p: seq<Byte>, i: nat, lines: seq<seq<Byte>>, rest: seq<seq<Byte>>)
    requires i < |p| && lines == [p[..i + 1]] + rest
    ensures var line := Trim(Lossy(p[..i + 1]));
            Deliver(DecodeAll(lines)) == (if line == "" then [] else [line]) + Deliver(DecodeAll(rest))
  {
    DecodeCons(p[..i + 1], rest);
    DeliverCons(Lossy(p[..i + 1]), DecodeAll(rest));
  }

  lemma {:induction false} DeliveredFirst(p: seq<Byte>, i: nat)
    requires i == Find(p, NL) < |p|
    ensures var line := Trim(Lossy(p[..i + 1]));
            Delivered(p) == (if line == "" then [] else [line]) + Delivered(p[i + 1..])
  {
    LinesFirst(p, NL, i);
    DeliverDecoded(p, i, Lines(p, NL), Lines(p[i + 1..], NL));
  }

  // ---------- The server's end ----------

  /** The text the server chunks: each piece decoded by itself. */
  function ServerText(pieces: seq<seq<Byte>>): string {
    if pieces == [] then [] else Lossy(pieces[0]) + ServerText(pieces[1..])
  }

  /** Every cut of the stream lies between characters. */
  predicate CutsBetweenCharacters(pieces: seq<seq<Byte>>) {
    pieces == [] ||
    (Boundary(pieces[0] + Flatten(pieces[1..]), |pieces[0]|) && CutsBetweenCharacters(pieces[1..]))
  }

  lemma {:induction false} ServerTextLength(pieces: seq<seq<Byte>>)
    ensures |ServerText(pieces)| >= |Lossy(Flatten(pieces))|
    ensures ServerText(pieces) == Lossy(Flatten(pieces)) <==> CutsBetweenCharacters(pieces)
  {
    if pieces != [] {
      var rest := Flatten(pieces[1..]);
      var bs := pieces[0] + rest;
      ServerTextLength(pieces[1..]);
      CutGrows(bs, |pieces[0]|);
      CutExact(bs, |pieces[0]|);
      assert bs[..|pieces[0]|] == pieces[0] && bs[|pieces[0]|..] == rest;
      if ServerText(pieces) == Lossy(bs) {
        var a, b, c := Lossy(pieces[0]), ServerText(pieces[1..]), Lossy(rest);
        assert a + b == a + c;
        assert (a + b)[|a|..] == b && (a + c)[|a|..] == c;
      }
    }
  }

  /** The server sees the text of the stream exactly when no read cuts a character. */
  lemma {:induction false} ServerSeesStream(chunks: seq<seq<Byte>>)
    ensures ServerText(chunks) == Lossy(Flatten(chunks)) <==> CutsBetweenCharacters(chunks)
  {
    ServerTextLength(chunks);
  }

  lemma {:induction false} LowByteBoundary(bs: seq<Byte>, i: nat)
    requires i < |bs| && bs[i] < 0x80
    ensures Boundary(bs, i) && Boundary(bs, i + 1)
    decreases i
  {
    if i > 0 {
      assert bs[Length(bs)..][i - Length(bs)] == bs[i];
      LowByteBoundary(bs[Length(bs)..], i - Length(bs));
    }
  }

  /** Only the byte 10 is decoded to a newline. */
  lemma {:induction false} NewlineOnlyFromByte(bs: seq<Byte>)
    requires '\n' in Lossy(bs)
    ensures NL in bs
  {
    if bs[0] != NL {
      assert Lossy(bs)[1..] == Lossy(bs[Length(bs)..]);
      NewlineOnlyFromByte(bs[Length(bs)..]);
    }
  }

  /** Splitting the decoded text at newlines is decoding the lines of the bytes. */
  lemma {:induction false} LinesDecode(bs: seq<Byte>)
    ensures Lines(Lossy(bs), '\n') == DecodeAll(Lines(bs, NL))
    ensures Tail(Lossy(bs), '\n') == Lossy(Tail(bs, NL))
    decreases |bs|
  {
    var i := Find(bs, NL);
    if i == |bs| {
      NoLineDecodes(bs);
    } else {
      var rest := bs[i + 1..];
      FirstLineDecodes(bs);
      LinesDecode(rest);
      OneLineDecodes(bs, i, rest, Lossy(bs), Find(Lossy(bs), '\n'), Lossy(rest));
    }
  }

  lemma {:induction false} OneLineDecodes(bs: seq<Byte>, i: nat, rest: seq<Byte>, text: string, j: nat,
                                          textRest: string)
    requires i == Find(bs, NL) < |bs| && rest == bs[i + 1..]
    requires j == Find(text, '\n') < |text| && textRest == text[j + 1..] && text[..j + 1] == Lossy(bs[..i + 1])
    requires Lines(textRest, '\n') == DecodeAll(Lines(rest, NL)) && Tail(textRest, '\n') == Lossy(Tail(rest, NL))
    ensures Lines(text, '\n') == DecodeAll(Lines(bs, NL)) && Tail(text, '\n') == Lossy(Tail(bs, NL))
  {
    LinesFirst(bs, NL, i);
    LinesFirst(text, '\n', j);
    DecodeCons(bs[..i + 1], Lines(rest, NL));
  }

  lemma {:induction false} NoLineDecodes(bs: seq<Byte>)
    requires Find(bs, NL) == |bs|
    ensures Lines(Lossy(bs), '\n') == DecodeAll(Lines(bs, NL)) && Tail(Lossy(bs), '\n') == Lossy(Tail(bs, NL))
  {
    if '\n' in Lossy(bs) {
      NewlineOnlyFromByte(bs);
    }
    assert Find(Lossy(bs), '\n') == |Lossy(bs)|;
  }

  lemma {:induction false} FirstLineDecodes(bs: seq<Byte>)
    requires Find(bs, NL) < |bs|
    ensures var i := Find(bs, NL);
            var t := Lossy(bs);
            var j := Find(t, '\n');
            j < |t| && t[..j + 1] == Lossy(bs[..i + 1]) && t[j + 1..] == Lossy(bs[i + 1..])
  {
    var i := Find(bs, NL);
    LowByteBoundary(bs, i);
    BoundaryDecodes(bs, i);
    BoundaryDecodes(bs, i + 1);
    var head, t := Lossy(bs[..i]), Lossy(bs);
    if '\n' in head {
      NewlineOnlyFromByte(bs[..i]);
    }
    assert bs[i..][1..] == bs[i + 1..] && Lossy(bs[i..]) == ['\n'] + Lossy(bs[i + 1..]);
    assert t == head + (['\n'] + Lossy(bs[i + 1..]));
    FindIs(t, '\n', |head|);
    assert t == Lossy(bs[..i + 1]) + Lossy(bs[i + 1..]);
    assert |Lossy(bs[..i + 1])| == |head| + 1;
    assert t[|head| + 1..] == Lossy(bs[i + 1..]);
  }

  lemma {:induction false} ServerTextPush(pieces: seq<seq<Byte>>, piece: seq<Byte>)
    ensures ServerText(pieces + [piece]) == ServerText(pieces) + Lossy(piece)
  {
    if pieces == [] {
      assert [piece][1..] == [];
    } else {
      assert (pieces + [piece])[1..] == pieces[1..] + [piece];
      ServerTextPush(pieces[1..], piece);
    }
  }

  function TextDelivered(text: string): seq<string> {
    Deliver(Lines(text, '\n'))
  }

  lemma {:induction false} TextDeliveredAppend(a: string, b: string)
    ensures TextDelivered(a + b) == TextDelivered(a) + TextDelivered(Tail(a, '\n') + b)
  {
    LinesAppend(a, b, '\n');
    DeliverAppend(Lines(a, '\n'), Lines(Tail(a, '\n') + b, '\n'));
  }

  lemma {:induction false} TextDeliveredFirst(p: string, i: nat)
    requires i == Find(p, '\n') < |p|
    ensures var line := Trim(p[..i + 1]);
            TextDelivered(p) == (if line == "" then [] else [line]) + TextDelivered(p[i + 1..])
  {
    LinesFirst(p, '\n', i);
    DeliverCons(p[..i + 1], Lines(p[i + 1..], '\n'));
  }

  ghost predicate TextRead(whole: string, delivered: seq<string>, pending: string) {
    TextDelivered(whole) == delivered + TextDelivered(pending) && Tail(pending, '\n') == Tail(whole, '\n')
  }

  lemma {:induction false} TextReadNone(whole: string)
    ensures TextRead(whole, [], whole)
  {
    assert [] + TextDelivered(whole) == TextDelivered(whole);
  }

  lemma {:induction false} TextReadLine(whole: string, delivered: seq<string>, pending: string, i: nat, line: string)
    requires TextRead(whole, delivered, pending) && i == Find(pending, '\n') < |pending|
    requires line == Trim(pending[..i + 1])
    ensures TextRead(whole, if line == "" then delivered else delivered + [line], pending[i + 1..])
  {
    TextDeliveredFirst(pending, i);
    TailFirst(pending, '\n', i);
    Regroup(delivered, if line == "" then [] else [line], TextDelivered(pending[i + 1..]));
    assert delivered + [] == delivered;
  }

  lemma {:induction false} TextReadAll(whole: string, delivered: seq<string>, pending: string)
    requires TextRead(whole, delivered, pending) && Find(pending, '\n') == |pending|
    ensures delivered == TextDelivered(whole) && pending == Tail(whole, '\n')
  {
    assert TextDelivered(pending) == [];
  }

  lemma {:induction false} ServerNext(seen: seq<seq<Byte>>, chunk: seq<Byte>)
    ensures var tail := Tail(ServerText(seen), '\n');
            && TextDelivered(ServerText(seen + [chunk]))
                == TextDelivered(ServerText(seen)) + TextDelivered(tail + Lossy(chunk))
            && Tail(ServerText(seen + [chunk]), '\n') == Tail(tail + Lossy(chunk), '\n')
  {
    ServerTextPush(seen, chunk);
    TextDeliveredAppend(ServerText(seen), Lossy(chunk));
    LinesAppend(ServerText(seen), Lossy(chunk), '\n');
  }

  /** The server's end of a connection (handle_client_messages): each read is decoded on its own. */
  class Server {
    var pending: string

    constructor ()
      ensures pending == ""
    {
      pending := "";
    }

    /** One read: the lines it completes are served, up to one that shuts the server down. */
    method Receive(chunk: seq<Byte>, stop: string -> bool) returns (delivered: seq<string>, stopped: bool)
      modifies this
      ensures delivered == UpTo(TextDelivered(old(pending) + Lossy(chunk)), stop)
      ensures stopped <==> Stops(TextDelivered(old(pending) + Lossy(chunk)), stop)
      ensures !stopped ==> pending == Tail(old(pending) + Lossy(chunk), '\n')
    {
      ghost var whole := pending + Lossy(chunk);
      pending := pending + Lossy(chunk);
      delivered, stopped := [], false;
      TextReadNone(whole);
      while Find(pending, '\n') < |pending|
        invariant TextRead(whole, delivered, pending) && !Stops(delivered, stop)
        decreases |pending|
      {
        var newlinePos := Find(pending, '\n');
        var line := Trim(pending[..newlinePos + 1]);
        TextReadLine(whole, delivered, pending, newlinePos, line);
        pending := pending[newlinePos + 1..];
        if line != "" {
          StopsAppend(delivered, [line], stop);
          delivered := delivered + [line];
          if stop(line) {
            UpToStop(delivered[..|delivered| - 1], line, TextDelivered(pending), stop);
            return delivered, true;
          }
        }
      }
      TextReadAll(whole, delivered, pending);
      UpToAll(delivered, stop);
    }

    /** The whole connection, up to its end or to a line that shuts the server down. Where no read cuts
        a character, it serves what the client's loop would deliver. */
    method HandleMessages(chunks: seq<seq<Byte>>, stop: string -> bool) returns (delivered: seq<string>)
      requires pending == ""
      modifies this
      ensures delivered == UpTo(TextDelivered(ServerText(Received(chunks))), stop)
      ensures CutsBetweenCharacters(Received(chunks)) ==>
                && delivered == UpTo(Delivered(Flatten(Received(chunks))), stop)
                && (!Stops(delivered, stop) ==> pending == Lossy(Tail(Flatten(Received(chunks)), NL)))
    {
      delivered := [];
      var i, stopped := 0, false;
      ghost var seen: seq<seq<Byte>> := [];
      assert chunks[0..] == chunks;
      while i < |chunks| && chunks[i] != [] && !stopped
        invariant 0 <= i <= |chunks| && Received(chunks) == seen + Received(chunks[i..])
        invariant Served(seen, stop, delivered, stopped)
        invariant !stopped ==> pending == Tail(ServerText(seen), '\n')
      {
        ReceivedNext(seen, chunks, i);
        ServerNext(seen, chunks[i]);
        ghost var before, tail := delivered, pending;
        var more;
        more, stopped := Receive(chunks[i], stop);
        ServedMore(seen, chunks[i], stop, before, tail, more, stopped);
        delivered := delivered + more;
        seen := seen + [chunks[i]];
        i := i + 1;
      }
      ServedAll(seen, Received(chunks[i..]), stop, delivered, stopped);
      assert stopped || Received(chunks[i..]) == [];
      assert !stopped ==> seen + [] == seen;
      WholeCharacters(Received(chunks));
    }
  }

  /** Where no character is cut, the server makes of the pieces what the client makes of the stream. */
  lemma {:induction false} WholeCharacters(pieces: seq<seq<Byte>>)
    ensures CutsBetweenCharacters(pieces) ==>
              && TextDelivered(ServerText(pieces)) == Delivered(Flatten(pieces))
              && Tail(ServerText(pieces), '\n') == Lossy(Tail(Flatten(pieces), NL))
  {
    ServerSeesStream(pieces);
    LinesDecode(Flatten(pieces));
  }

  /** The lines up to and including the first that stops the loop. */
  function UpTo(lines: seq<string>, stop: string -> bool): seq<string> {
    if lines == [] then []
    else if stop(lines[0]) then [lines[0]]
    else [lines[0]] + UpTo(lines[1..], stop)
  }

  predicate Stops(lines: seq<string>, stop: string -> bool) {
    exists l | l in lines :: stop(l)
  }

  lemma {:induction false} StopsAppend(a: seq<string>, b: seq<string>, stop: string -> bool)
    ensures Stops(a + b, stop) <==> Stops(a, stop) || Stops(b, stop)
  {
  }

  lemma {:induction false} UpToAppend(a: seq<string>, b: seq<string>, stop: string -> bool)
    ensures UpTo(a + b, stop) == if Stops(a, stop) then UpTo(a, stop) else a + UpTo(b, stop)
    ensures Stops(UpTo(a, stop), stop) <==> Stops(a, stop)
  {
    if a == [] {
      assert a + b == b;
    } else {
      assert (a + b)[1..] == a[1..] + b;
      assert a == [a[0]] + a[1..];
      UpToAppend(a[1..], b, stop);
      StopsAppend([a[0]], a[1..], stop);
      StopsAppend([a[0]], UpTo(a[1..], stop), stop);
    }
  }

  lemma {:induction false} UpToAll(a: seq<string>, stop: string -> bool)
    requires !Stops(a, stop)
    ensures UpTo(a, stop) == a
  {
    UpToAppend(a, [], stop);
    assert a + [] == a;
  }

  lemma {:induction false} UpToStop(a: seq<string>, line: string, b: seq<string>, stop: string -> bool)
    requires !Stops(a, stop) && stop(line)
    ensures UpTo(a + [line] + b, stop) == a + [line] && Stops(a + [line] + b, stop)
  {
    assert a + [line] + b == a + ([line] + b);
    UpToAppend(a, [line] + b, stop);
    assert ([line] + b)[0] == line;
    assert (a + [line] + b)[|a|] == line;
  }

  /** What has been served of the pieces seen so far. */
  ghost predicate Served(seen: seq<seq<Byte>>, stop: string -> bool, delivered: seq<string>, stopped: bool) {
    && delivered == UpTo(TextDelivered(ServerText(seen)), stop)
    && (stopped <==> Stops(TextDelivered(ServerText(seen)), stop))
  }

  lemma {:induction false} ServedMore(seen: seq<seq<Byte>>, chunk: seq<Byte>, stop: string -> bool,
                                      delivered: seq<string>, tail: string, more: seq<string>, stopped: bool)
    requires Served(seen, stop, delivered, false) && tail == Tail(ServerText(seen), '\n')
    requires more == UpTo(TextDelivered(tail + Lossy(chunk)), stop)
    requires stopped <==> Stops(TextDelivered(tail + Lossy(chunk)), stop)
    ensures Served(seen + [chunk], stop, delivered + more, stopped)
  {
    ServerNext(seen, chunk);
    UpToAppend(TextDelivered(ServerText(seen)), TextDelivered(tail + Lossy(chunk)), stop);
    UpToAll(TextDelivered(ServerText(seen)), stop);
    StopsAppend(TextDelivered(ServerText(seen)), TextDelivered(tail + Lossy(chunk)), stop);
  }

  lemma {:induction false} ServerTextAppend(a: seq<seq<Byte>>, b: seq<seq<Byte>>)
    ensures ServerText(a + b) == ServerText(a) + ServerText(b)
  {
    if a == [] {
      assert a + b == b;
    } else {
      assert (a + b)[1..] == a[1..] + b;
      ServerTextAppend(a[1..], b);
    }
  }

  /** What would still come does not matter once the loop has stopped. */
  lemma {:induction false} ServedAll(seen: seq<seq<Byte>>, rest: seq<seq<Byte>>, stop: string -> bool,
                                     delivered: seq<string>, stopped: bool)
    requires Served(seen, stop, delivered, stopped) && (stopped || rest == [])
    ensures delivered == UpTo(TextDelivered(ServerText(seen + rest)), stop)
    ensures Stops(delivered, stop) <==> stopped
  {
    var text := ServerText(seen);
    UpToAppend(TextDelivered(text), [], stop);
    if stopped {
      ServerTextAppend(seen, rest);
      TextDeliveredAppend(text, ServerText(rest));
      UpToAppend(TextDelivered(text), TextDelivered(Tail(text, '\n') + ServerText(rest)), stop);
    } else {
      assert seen + rest == seen;
    }
  }

  /** A read that ends inside a character spoils it: the two bytes of U+00E9, read apart, come out
      as two replacement characters. */
  lemma {:induction false} CutCharacterSpoiled()
    ensures Lossy([0xC3, 0xA9]) == "\U{00E9}"
    ensures ServerText([[0xC3], [0xA9]]) == "\U{FFFD}\U{FFFD}"
  {
    assert [0xC3, 0xA9][2..] == [];
    var one: seq<Byte>, two: seq<Byte> := [0xC3], [0xA9];
    assert Lossy(one) == [REPLACEMENT] && Lossy(two) == [REPLACEMENT];
    assert [one, two][1..] == [two] && [two][1..] == [];
  }

  // ---------- Messages ----------

  /** The stream a sender writes: every message with a newline after it. */
  function Sent(msgs: seq<string>): seq<Byte> {
    if msgs == [] then [] else Encode(msgs[0] + ['\n']) + Sent(msgs[1..])
  }

  ghost predicate OneLine(m: string) {
    '\n' !in m
  }

  lemma {:induction false} NewlineOnlyToByte(m: string)
    requires OneLine(m)
    ensures NL !in Encode(m)
  {
    if m != [] {
      assert m[0] in m && m[0] != '\n';
      assert forall b | b in EncodeChar(m[0]) :: b != NL;
      assert OneLine(m[1..]);
      NewlineOnlyToByte(m[1..]);
    }
  }

  lemma {:induction false} SentFirst(m: string, rest: seq<Byte>)
    requires OneLine(m)
    ensures Encode(m + ['\n']) == Encode(m) + [NL]
    ensures Find(Encode(m + ['\n']) + rest, NL) == |Encode(m)|
  {
    EncodeAppend(m, ['\n']);
    assert Encode(['\n']) == [NL] by {
      assert ['\n'][1..] == [];
    }
    NewlineOnlyToByte(m);
    FindIs(Encode(m) + [NL] + rest, NL, |Encode(m)|);
  }

  lemma {:induction false} TrimEndNewline(s: string)
    ensures TrimEnd(s + ['\n']) == TrimEnd(s)
  {
    assert (s + ['\n'])[..|s|] == s;
  }

  lemma {:induction false} TrimStartNewline(s: string)
    ensures TrimStart(s + ['\n']) == if TrimStart(s) == "" then "" else TrimStart(s) + ['\n']
  {
    if s == "" {
      assert ['\n'][1..] == "";
    } else {
      assert (s + ['\n'])[1..] == s[1..] + ['\n'];
      TrimStartNewline(s[1..]);
    }
  }

  lemma {:induction false} TrimNewline(s: string)
    ensures Trim(s + ['\n']) == Trim(s)
  {
    TrimStartNewline(s);
    TrimEndNewline(TrimStart(s));
  }

  /** Whatever one-line messages are sent, and however the stream is cut, the non-blank ones arrive,
      trimmed, in order, and nothing stays behind. */
  lemma {:induction false} SentDelivered(msgs: seq<string>)
    requires forall m | m in msgs :: OneLine(m)
    ensures Delivered(Sent(msgs)) == Deliver(msgs) && Tail(Sent(msgs), NL) == []
  {
    if msgs != [] {
      var m, rest := msgs[0], Sent(msgs[1..]);
      var stream := Encode(m + ['\n']) + rest;
      SentFirst(m, rest);
      var i := |Encode(m)|;
      DeliveredFirst(stream, i);
      assert stream[..i + 1] == Encode(m + ['\n']) && stream[i + 1..] == rest;
      LossyEncode(m + ['\n']);
      TrimNewline(m);
      SentDelivered(msgs[1..]);
    }
  }

  /** Messages that are neither blank nor padded arrive as they were sent; only those do. */
  lemma {:induction false} DeliverUnchanged(msgs: seq<string>)
    ensures Deliver(msgs) == msgs <==> forall m | m in msgs :: m != "" && Trim(m) == m
  {
    DeliverShorter(msgs);
    if msgs != [] {
      DeliverShorter(msgs[1..]);
      DeliverUnchanged(msgs[1..]);
      assert forall m :: m in msgs <==> m == msgs[0] || m in msgs[1..];
      if Deliver(msgs) == msgs {
        assert Deliver(msgs)[1..] == msgs[1..];
      }
    }
  }

  lemma {:induction false} DeliverShorter(msgs: seq<string>)
    ensures |Deliver(msgs)| <= |msgs|
  {
    if msgs != [] {
      DeliverShorter(msgs[1..]);
    }
  }

  lemma {:induction false} AllReceived(chunks: seq<seq<Byte>>)
    requires forall c | c in chunks :: c != []
    ensures Received(chunks) == chunks
  {
    if chunks != [] {
      assert chunks[0] in chunks && forall c | c in chunks[1..] :: c in chunks;
      AllReceived(chunks[1..]);
    }
  }

  /** However the stream of some messages is cut into reads, the client's loop delivers those
      messages; the server's does so too where no read cuts a character. */
  lemma {:induction false} MessagesArrive(msgs: seq<string>, chunks: seq<seq<Byte>>)
    requires forall m | m in msgs :: OneLine(m) && m != "" && Trim(m) == m
    requires Flatten(chunks) == Sent(msgs) && forall c | c in chunks :: c != []
    ensures Delivered(Flatten(Received(chunks))) == msgs && Tail(Flatten(Received(chunks)), NL) == []
    ensures CutsBetweenCharacters(chunks) ==> TextDelivered(ServerText(Received(chunks))) == msgs
  {
    AllReceived(chunks);
    SentDelivered(msgs);
    DeliverUnchanged(msgs);
    WholeCharacters(chunks);
  }

  // ---------- Messages in braces ----------

  /** A message as it is written, an object from its first brace to its last. */
  predicate InBraces(m: string) {
    |m| >= 2 && m[0] == '{' && m[|m| - 1] == '}'
  }

  predicate Blank(s: string) {
    forall c | c in s :: c == ' ' || c == '\t' || c == '\r'
  }

  lemma {:induction false} TrimStartBlank(a: string, m: string)
    requires Blank(a) && (m != "" ==> !White(m[0]))
    ensures TrimStart(a + m) == m
  {
    if a == "" {
      assert a + m == m;
    } else {
      assert a[0] in a && (a + m)[1..] == a[1..] + m;
      assert forall c | c in a[1..] :: c in a;
      TrimStartBlank(a[1..], m);
    }
  }

  lemma {:induction false} TrimEndBlank(m: string, b: string)
    requires Blank(b) && (m != "" ==> !White(m[|m| - 1]))
    ensures TrimEnd(m + b) == m
  {
    if b == "" {
      assert m + b == m;
    } else {
      var n := |b| - 1;
      assert b[n] in b && (m + b)[..|m + b| - 1] == m + b[..n];
      assert forall c | c in b[..n] :: c in b;
      TrimEndBlank(m, b[..n]);
    }
  }

  /** What is in braces loses the blanks around it and nothing else; blanks alone leave nothing. */
  lemma {:induction false} BlanksTrimmed(a: string, m: string, b: string)
    requires Blank(a) && Blank(b) && (m == "" || InBraces(m))
    ensures Trim(a + m + b) == m
  {
    if m == "" {
      assert a + m + b == a + b && (a + b) + "" == a + b;
      assert Blank(a + b);
      TrimStartBlank(a + b, "");
    } else {
      assert a + m + b == a + (m + b) && (m + b)[0] == m[0];
      TrimStartBlank(a, m + b);
      TrimEndBlank(m, b);
    }
  }

  /** Messages in braces arrive as they were sent. */
  lemma {:induction false} BracesArrive(msgs: seq<string>, chunks: seq<seq<Byte>>)
    requires forall m | m in msgs :: OneLine(m) && InBraces(m)
    requires Flatten(chunks) == Sent(msgs) && forall c | c in chunks :: c != []
    ensures Delivered(Flatten(Received(chunks))) == msgs && Tail(Flatten(Received(chunks)), NL) == []
    ensures CutsBetweenCharacters(chunks) ==> TextDelivered(ServerText(Received(chunks))) == msgs
  {
    forall m | m in msgs ensures m != "" && Trim(m) == m {
      BlanksTrimmed("", m, "");
      assert "" + m + "" == m;
    }
    MessagesArrive(msgs, chunks);
  }
}
