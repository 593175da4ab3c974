/** UTF-8 and its lossy decoding, as sockets' readers use it (src/pal/posix/mod.rs,
    src/pal/posix/server.rs). A byte sequence that is not UTF-8 becomes U+FFFD, one for each longest
    beginning of a character. */
module Utf8 {
  type Byte = b: int | 0 <= b < 256 witness 0

  const REPLACEMENT: char := '\U{FFFD}'

  predicate Continuation(b: Byte) {
    0x80 <= b < 0xC0
  }

  /** The length a character starting with b has; 0 when none does. */
  function Need(b: Byte): nat {
    if b < 0x80 then 1
    else if 0xC2 <= b < 0xE0 then 2
    else if 0xE0 <= b < 0xF0 then 3
    else if 0xF0 <= b < 0xF5 then 4
    else 0
  }

  /** What may follow the first byte: no overlong forms, no surrogates, nothing over U+10FFFF. */
  predicate Second(b: Byte, c: Byte) {
    if b == 0xE0 then 0xA0 <= c < 0xC0
    else if b == 0xED then 0x80 <= c < 0xA0
    else if b == 0xF0 then 0x90 <= c < 0xC0
    else if b == 0xF4 then 0x80 <= c < 0x90
    else Continuation(c)
  }

  /** How many bytes belong together at the start: a character, or as much of one as there is. */
  function Length(bs: seq<Byte>): (n: nat)
    requires bs != []
    ensures 1 <= n <= |bs| && n <= 4
  {
    var need := Need(bs[0]);
    if need <= 1 || |bs| < 2 || !Second(bs[0], bs[1]) then 1
    else if need == 2 || |bs| < 3 || !Continuation(bs[2]) then 2
    else if need == 3 || |bs| < 4 || !Continuation(bs[3]) then 3
    else 4
  }

  /** The six bits a continuation byte carries. */
  function Low(b: Byte): int {
    b - 0x80
  }

  function First(bs: seq<Byte>): char
    requires bs != []
  {
    var b: int := bs[0];
    var n := Length(bs);
    if n != Need(bs[0]) then REPLACEMENT
    else if n == 1 then b as char
    else if n == 2 then ((b - 0xC0) * 64 + Low(bs[1])) as char
    else if n == 3 then ((b - 0xE0) * 4096 + Low(bs[1]) * 64 + Low(bs[2])) as char
    else ((b - 0xF0) * 262144 + Low(bs[1]) * 4096 + Low(bs[2]) * 64 + Low(bs[3])) as char
  }

  /** String::from_utf8_lossy. */
  function Lossy(bs: seq<Byte>): string {
    if bs == [] then [] else [First(bs)] + Lossy(bs[Length(bs)..])
  }

  function EncodeChar(c: char): (bs: seq<Byte>)
    ensures 1 <= |bs| <= 4
  {
    var n := c as int;
    if n < 0x80 then [n]
    else if n < 0x800 then [0xC0 + n / 64, 0x80 + n % 64]
    else if n < 0x10000 then [0xE0 + n / 4096, 0x80 + n / 64 % 64, 0x80 + n % 64]
    else [0xF0 + n / 262144, 0x80 + n / 4096 % 64, 0x80 + n / 64 % 64, 0x80 + n % 64]
  }

  /** str::as_bytes. */
  function Encode(s: string): seq<Byte> {
    if s == [] then [] else EncodeChar(s[0]) + Encode(s[1..])
  }

  // ---------- Round trip ----------

  lemma {:induction false} EncodeCharFirst(c: char, rest: seq<Byte>)
    ensures Length(EncodeChar(c) + rest) == |EncodeChar(c)| && First(EncodeChar(c) + rest) == c
  {
    var n := c as int;
    assert n / 64 % 64 == n / 64 - n / 4096 * 64;
    assert n / 4096 % 64 == n / 4096 - n / 262144 * 64;
    var bs := EncodeChar(c) + rest;
    assert bs[0] == EncodeChar(c)[0];
    assert |EncodeChar(c)| > 1 ==> bs[1] == EncodeChar(c)[1];
    assert |EncodeChar(c)| > 2 ==> bs[2] == EncodeChar(c)[2];
    assert |EncodeChar(c)| > 3 ==> bs[3] == EncodeChar(c)[3];
  }

  lemma {:induction false} LossyEncode(s: string)
    ensures Lossy(Encode(s)) == s
  {
    if s != [] {
      EncodeCharFirst(s[0], Encode(s[1..]));
      LossyEncode(s[1..]);
      assert Encode(s)[|EncodeChar(s[0])|..] == Encode(s[1..]);
    }
  }

  // ---------- What is replaced ----------

  /** The first m bytes begin the encoding of the character. */
  predicate Begins(bs: seq<Byte>, m: nat, c: char)
    requires m <= |bs|
  {
    m <= |EncodeChar(c)| && bs[..m] == EncodeChar(c)[..m]
  }

  lemma {:induction false} SixBits(high: nat, low: nat)
    requires low < 64
    ensures (high * 64 + low) / 64 == high && (high * 64 + low) % 64 == low
  {
  }

  /** A sequence of the length its first byte asks for is the encoding of its character. */
  lemma {:induction false} FirstEncodes(bs: seq<Byte>)
    requires bs != [] && Length(bs) == Need(bs[0])
    ensures EncodeChar(First(bs)) == bs[..Length(bs)]
  {
    match Length(bs) {
      case 1 =>
      case 2 => SixBits(bs[0] - 0xC0, Low(bs[1]));
      case 3 => ThreeEncodes(bs);
      case _ => FourEncodes(bs);
    }
  }

  lemma {:induction false} ThreeEncodes(bs: seq<Byte>)
    requires bs != [] && Length(bs) == Need(bs[0]) == 3
    ensures EncodeChar(First(bs)) == bs[..3]
  {
    var high: nat := (bs[0] - 0xE0) * 64 + Low(bs[1]);
    var n: nat := high * 64 + Low(bs[2]);
    assert First(bs) as int == n && 0x800 <= n < 0x10000;
    SixBits(bs[0] - 0xE0, Low(bs[1]));
    SixBits(high, Low(bs[2]));
    assert n / 4096 == n / 64 / 64;
  }

  lemma {:induction false} FourEncodes(bs: seq<Byte>)
    requires bs != [] && Length(bs) == Need(bs[0]) == 4
    ensures EncodeChar(First(bs)) == bs[..4]
  {
    var high: nat := (bs[0] - 0xF0) * 64 + Low(bs[1]);
    var middle: nat := high * 64 + Low(bs[2]);
    var n: nat := middle * 64 + Low(bs[3]);
    assert First(bs) as int == n && 0x10000 <= n;
    SixBits(bs[0] - 0xF0, Low(bs[1]));
    SixBits(high, Low(bs[2]));
    SixBits(middle, Low(bs[3]));
    assert n / 4096 == n / 64 / 64 && n / 262144 == n / 64 / 64 / 64;
  }

  /** No longer beginning of the bytes begins a character. */
  lemma {:induction false} NoneLonger(bs: seq<Byte>, m: nat, c: char)
    requires 0 < m <= |bs| && Begins(bs, m, c)
    ensures m <= Length(bs)
  {
    var e := EncodeChar(c);
    EncodeCharFirst(c, []);
    assert e + [] == e;
    assert bs[0] == bs[..m][0] == e[0];
    assert m > 1 ==> bs[1] == bs[..m][1] == e[1];
    assert m > 2 ==> bs[2] == bs[..m][2] == e[2];
    assert m > 3 ==> bs[3] == bs[..m][3] == e[3];
  }

  /** What is decoded as one begins a character, or is a byte that begins none. */
  lemma {:induction false} BeginsSome(bs: seq<Byte>) returns (c: char)
    requires bs != [] && Need(bs[0]) > 0
    ensures Begins(bs, Length(bs), c)
  {
    var n, need := Length(bs), Need(bs[0]);
    var second := if bs[0] == 0xE0 then 0xA0 else if bs[0] == 0xF0 then 0x90 else 0x80;
    var rest: seq<Byte> := if n == 1 then [second, 0x80, 0x80] else [0x80, 0x80];
    var whole := (bs[..n] + rest)[..need];
    assert whole[0] == bs[0] && Length(whole) == need;
    FirstEncodes(whole);
    c := First(whole);
    assert bs[..n] == whole[..n];
  }

  /** One step of the decoding: the longest beginning that is a character gives that character; a
      longest beginning of one that is cut short, or a byte that begins none, gives U+FFFD. */
  lemma {:induction false} FirstExact(bs: seq<Byte>)
    requires bs != []
    ensures Lossy(bs) == [First(bs)] + Lossy(bs[Length(bs)..])
    ensures forall c | EncodeChar(c) == bs[..Length(bs)] :: First(bs) == c
    ensures (forall c :: EncodeChar(c) != bs[..Length(bs)]) ==> First(bs) == REPLACEMENT
    ensures forall c, m: nat | 0 < m <= |bs| && Begins(bs, m, c) :: m <= Length(bs)
    ensures Length(bs) == 1 || exists c :: Begins(bs, Length(bs), c)
  {
    var n := Length(bs);
    forall c | EncodeChar(c) == bs[..n] ensures First(bs) == c {
      EncodeCharFirst(c, bs[n..]);
      assert EncodeChar(c) + bs[n..] == bs;
    }
    if n == Need(bs[0]) {
      FirstEncodes(bs);
    }
    forall c, m: nat | 0 < m <= |bs| && Begins(bs, m, c) ensures m <= n {
      NoneLonger(bs, m, c);
    }
    if n > 1 {
      var c := BeginsSome(bs);
    }
  }

  // ---------- Decoding in pieces ----------

  /** k lies between characters, or between the sequences that are replaced. */
  predicate Boundary(bs: seq<Byte>, k: nat)
    requires k <= |bs|
    decreases k
  {
    k == 0 || (Length(bs) <= k && Boundary(bs[Length(bs)..], k - Length(bs)))
  }

  /** What follows the first character does not show in it. */
  lemma {:induction false} FirstLocal(bs: seq<Byte>, m: nat)
    requires bs != [] && Length(bs) <= m <= |bs|
    ensures Length(bs[..m]) == Length(bs) && First(bs[..m]) == First(bs)
  {
  }

  lemma {:induction false} FirstWithin(bs: seq<Byte>, n: nat, k: nat)
    requires bs != [] && n == Length(bs) <= k <= |bs|
    ensures Lossy(bs) == [First(bs)] + Lossy(bs[n..])
    ensures Lossy(bs[..k]) == [First(bs)] + Lossy(bs[n..][..k - n]) && bs[k..] == bs[n..][k - n..]
  {
    FirstLocal(bs, k);
    assert bs[..k][n..] == bs[n..][..k - n];
  }

  lemma {:induction false} BoundaryWithin(bs: seq<Byte>, n: nat, k: nat)
    requires bs != [] && n == Length(bs) <= k <= |bs|
    ensures Boundary(bs, k) <==> Boundary(bs[n..], k - n)
  {
  }

  /** How the decoding of two pieces goes on after the first character. */
  lemma {:induction false} PiecesWithin(bs: seq<Byte>, n: nat, k: nat)
    requires bs != [] && n == Length(bs) <= k <= |bs|
    ensures var rest := bs[n..];
            && Lossy(bs[..k]) + Lossy(bs[k..]) == [First(bs)] + (Lossy(rest[..k - n]) + Lossy(rest[k - n..]))
            && Lossy(bs) == [First(bs)] + Lossy(rest)
  {
    FirstWithin(bs, n, k);
    ConsAppend(First(bs), Lossy(bs[n..][..k - n]), Lossy(bs[n..][k - n..]));
  }

  lemma {:induction false} ConsAppend(c: char, s: string, t: string)
    ensures ([c] + s) + t == [c] + (s + t)
  {
  }

  lemma {:induction false} PiecesDecode(bs: seq<Byte>, n: nat, k: nat, rest: seq<Byte>)
    requires bs != [] && n == Length(bs) <= k <= |bs| && rest == bs[n..]
    requires Lossy(rest[..k - n]) + Lossy(rest[k - n..]) == Lossy(rest)
    ensures Lossy(bs[..k]) + Lossy(bs[k..]) == Lossy(bs)
  {
    PiecesWithin(bs, n, k);
  }

  lemma {:induction false} BoundaryDecodes(bs: seq<Byte>, k: nat)
    requires k <= |bs| && Boundary(bs, k)
    ensures Lossy(bs[..k]) + Lossy(bs[k..]) == Lossy(bs)
    decreases k
  {
    if k == 0 {
      assert bs[..0] == [] && bs[0..] == bs;
    } else {
      var n := Length(bs);
      var rest := bs[n..];
      BoundaryWithin(bs, n, k);
      BoundaryDecodes(rest, k - n);
      PiecesDecode(bs, n, k, rest);
    }
  }

  /** Stray continuation bytes are replaced one by one. */
  lemma {:induction false} Strays(bs: seq<Byte>, j: nat)
    requires j <= |bs| && forall i | 0 <= i < j :: Continuation(bs[i])
    ensures |Lossy(bs)| == j + |Lossy(bs[j..])|
  {
    if j > 0 {
      Strays(bs[1..], j - 1);
      assert bs[1..][j - 1..] == bs[j..];
    } else {
      assert bs[0..] == bs;
    }
  }

  /** A cut inside a character, or inside a replaced sequence, gives more characters. */
  lemma {:induction false} CutGrows(bs: seq<Byte>, k: nat)
    requires k <= |bs|
    ensures |Lossy(bs[..k]) + Lossy(bs[k..])| >= |Lossy(bs)|
    ensures !Boundary(bs, k) ==> |Lossy(bs[..k]) + Lossy(bs[k..])| > |Lossy(bs)|
    decreases k
  {
    if k == 0 {
      assert bs[..0] == [] && bs[0..] == bs;
    } else {
      var n := Length(bs);
      if n > k {
        CutInside(bs, k);
      } else {
        BoundaryWithin(bs, n, k);
        PiecesWithin(bs, n, k);
        CutGrows(bs[n..], k - n);
      }
    }
  }

  lemma {:induction false} CutInside(bs: seq<Byte>, k: nat)
    requires bs != [] && 0 < k < Length(bs)
    ensures |Lossy(bs[..k]) + Lossy(bs[k..])| > |Lossy(bs)|
  {
    var n := Length(bs);
    assert bs[k..][n - k..] == bs[n..];
    Strays(bs[k..], n - k);
    assert |Lossy(bs)| == 1 + |Lossy(bs[n..])|;
    assert |Lossy(bs[..k])| >= 1;
  }

  /** Decoding two pieces apart gives the text of the whole exactly when the cut is at a boundary. */
  lemma {:induction false} CutExact(bs: seq<Byte>, k: nat)
    requires k <= |bs|
    ensures Lossy(bs[..k]) + Lossy(bs[k..]) == Lossy(bs) <==> Boundary(bs, k)
  {
    CutGrows(bs, k);
    if Boundary(bs, k) {
      BoundaryDecodes(bs, k);
    }
  }

  /** In the encoding of a text the boundaries are where no continuation byte follows. */
  lemma {:induction false} EncodedBoundary(s: string, k: nat)
    requires k <= |Encode(s)|
    ensures Boundary(Encode(s), k) <==> (k == |Encode(s)| || !Continuation(Encode(s)[k]))
    decreases |s|
  {
    if s != [] {
      var bs, head := Encode(s), EncodeChar(s[0]);
      EncodeCharFirst(s[0], Encode(s[1..]));
      assert bs[|head|..] == Encode(s[1..]);
      if k >= |head| {
        BoundaryWithin(bs, |head|, k);
        EncodedBoundary(s[1..], k - |head|);
      } else {
        HeadBytes(s[0], k);
        assert bs[k] == head[k];
      }
    }
  }

  lemma {:induction false} HeadBytes(c: char, k: nat)
    requires k < |EncodeChar(c)|
    ensures Continuation(EncodeChar(c)[k]) <==> k > 0
  {
  }

  lemma {:induction false} EncodeAppend(s: string, t: string)
    ensures Encode(s + t) == Encode(s) + Encode(t)
  {
    if s == [] {
      assert s + t == t;
    } else {
      assert (s + t)[1..] == s[1..] + t;
      EncodeAppend(s[1..], t);
    }
  }
}
