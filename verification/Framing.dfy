/** bridge/native_host.py, `_read_native` and `_write_native`: length-prefixed frames on a byte
    stream. The four length bytes are in the machine's own order, so everything is proved for both. */
module Framing {
  import opened Records

  const LIMIT: nat := 8 * 1024 * 1024
  const WORD: nat := 0x1_0000_0000

  function Header(n: nat, little: bool): (h: seq<Byte>)
    requires n < WORD
    ensures |h| == 4
  {
    var b0, b1, b2, b3 := n % 256, n / 256 % 256, n / 65536 % 256, n / 16777216;
    if little then [b0, b1, b2, b3] else [b3, b2, b1, b0]
  }

  function Size(h: seq<Byte>, little: bool): nat
    requires |h| == 4
  {
    var b0: int, b1: int, b2: int, b3: int := h[0], h[1], h[2], h[3];
    if little then b0 + 256 * b1 + 65536 * b2 + 16777216 * b3
    else b3 + 256 * b2 + 65536 * b1 + 16777216 * b0
  }

  lemma SizeOfHeader(n: nat, little: bool)
    requires n < WORD
    ensures Size(Header(n, little), little) == n
  {
    var q := n / 256;
    assert n == 256 * q + n % 256;
    assert q == 256 * (q / 256) + q % 256 && q / 256 == n / 65536;
    assert n / 65536 == 256 * (n / 65536 / 256) + n / 65536 % 256 && n / 65536 / 256 == n / 16777216;
  }

  /** The four bytes of a length: least significant first in the little order, last in the big one. */
  lemma HeaderOrder(n: nat, little: bool)
    requires n < WORD
    ensures var h := Header(n, little); var b0: int, b1: int, b2: int, b3: int := h[0], h[1], h[2], h[3];
            n == if little then b0 + 256 * b1 + 65536 * b2 + 16777216 * b3 else 16777216 * b0 + 65536 * b1 + 256 * b2 + b3
  {
    SizeOfHeader(n, little);
  }

  /** Every four bytes are those of one length, so what is read as the length is what was written. */
  lemma HeaderOfSize(h: seq<Byte>, little: bool)
    requires |h| == 4
    ensures Size(h, little) < WORD && Header(Size(h, little), little) == h
  {
    var b0: int, b1: int, b2: int, b3: int :=
      if little then h[0] else h[3], if little then h[1] else h[2], if little then h[2] else h[1], if little then h[3] else h[0];
    var n := Size(h, little);
    assert n == b0 + 256 * (b1 + 256 * (b2 + 256 * b3));
    assert n / 256 == b1 + 256 * (b2 + 256 * b3) && n % 256 == b0;
    assert n / 65536 == n / 256 / 256 && n / 16777216 == n / 256 / 256 / 256;
  }

  function Frame(p: seq<Byte>, little: bool): seq<Byte>
    requires |p| < WORD
  {
    Header(|p|, little) + p
  }

  /** The frames of a list of payloads, one after the other. */
  function Frames(ps: seq<seq<Byte>>, little: bool): seq<Byte>
    requires forall p | p in ps :: |p| < WORD
  {
    if ps == [] then [] else Frame(ps[0], little) + Frames(ps[1..], little)
  }

  /** `Ended` is the clean end of the stream; `CutShort` is the end-of-file error, `TooBig` the value error. */
  datatype Outcome = Message(payload: seq<Byte>) | Ended | CutShort | TooBig

  /** `_read_native` on what is left of the stream. */
  function ReadOne(s: seq<Byte>, little: bool): Outcome {
    if s == [] then Ended
    else if |s| < 4 then CutShort
    else
      var size := Size(s[..4], little);
      if size > LIMIT then TooBig
      else if |s| - 4 < size then CutShort
      else Message(s[4..4 + size])
  }

  /** Reads until something else than a message comes. */
  function ReadAll(s: seq<Byte>, little: bool): (r: (seq<seq<Byte>>, Outcome))
    ensures !r.1.Message?
    decreases |s|
  {
    var one := ReadOne(s, little);
    if one.Message? then
      var rest := ReadAll(s[4 + |one.payload|..], little);
      ([one.payload] + rest.0, rest.1)
    else ([], one)
  }

  // -------------------------------------------------------------- the stream

  class NativeStream {
    const little: bool
    var data: seq<Byte>
    var pos: nat

    ghost predicate Valid()
      reads this
    {
      pos <= |data|
    }

    ghost function Left(): seq<Byte>
      requires Valid()
      reads this
    {
      data[pos..]
    }

    constructor (little: bool)
      ensures Valid() && data == [] && this.little == little
    {
      this.little, data, pos := little, [], 0;
    }

    /** `read(n)`: up to n bytes. */
    method Read(n: nat) returns (bytes: seq<Byte>)
      requires Valid()
      modifies this`pos
      ensures Valid() && |bytes| == if n <= |old(Left())| then n else |old(Left())|
      ensures bytes == old(Left())[..|bytes|] && Left() == old(Left())[|bytes|..]
    {
      var stop := if pos + n <= |data| then pos + n else |data|;
      bytes := data[pos..stop];
      pos := stop;
    }

    method ReadNative() returns (r: Outcome)
      requires Valid()
      modifies this`pos
      ensures Valid() && r == ReadOne(old(Left()), little)
      ensures r.Message? ==> Left() == old(Left())[4 + |r.payload|..]
      ensures r.Ended? ==> Left() == []
    {
      var header := Read(4);
      if header == [] { return Ended; }
      if |header| != 4 { return CutShort; }
      var size := Size(header, little);
      if size > LIMIT { return TooBig; }
      ghost var s := old(Left());
      assert header == s[..4] && Left() == s[4..];
      var payload := Read(size);
      if |payload| != size { return CutShort; }
      assert payload == s[4..4 + size] && Left() == s[4 + size..];
      r := Message(payload);
    }

    /** False stands for the packing error; nothing is written then. */
    method WriteNative(payload: seq<Byte>) returns (ok: bool)
      requires Valid()
      modifies this`data
      ensures Valid() && (ok <==> |payload| < WORD)
      ensures data == if ok then old(data) + Frame(payload, little) else old(data)
    {
      if |payload| >= WORD { return false; }
      data := data + Header(|payload|, little);
      data := data + payload;
      ok := true;
    }

    /** The message loop around the reader. */
    method Drain() returns (messages: seq<seq<Byte>>, last: Outcome)
      requires Valid()
      modifies this`pos
      ensures Valid() && (messages, last) == ReadAll(old(Left()), little)
    {
      ghost var all := ReadAll(Left(), little);
      messages := [];
      assert [] + all.0 == all.0;
      last := ReadNative();
      ghost var left := old(Left());
      while last.Message?
        invariant Valid() && last == ReadOne(left, little)
        invariant last.Message? ==> Left() == left[4 + |last.payload|..]
        invariant all == (messages + ReadAll(left, little).0, ReadAll(left, little).1)
        decreases |left|
      {
        ReadAllNext(messages, left, little);
        messages := messages + [last.payload];
        left := Left();
        last := ReadNative();
      }
      assert messages + [] == messages;
    }
  }

  /** A message read goes from what is left to what has been read. */
  lemma ReadAllNext(messages: seq<seq<Byte>>, s: seq<Byte>, little: bool)
    requires ReadOne(s, little).Message?
    ensures var p := ReadOne(s, little).payload;
            var rest := ReadAll(s[4 + |p|..], little);
            (messages + ReadAll(s, little).0, ReadAll(s, little).1) == (messages + [p] + rest.0, rest.1)
  {
    var p := ReadOne(s, little).payload;
    var rest := ReadAll(s[4 + |p|..], little);
    assert messages + ([p] + rest.0) == messages + [p] + rest.0;
  }

  // --------------------------------------------------------------- theorems

  /** A stream of at least four bytes starts with the header of one length. */
  lemma StartsWithHeader(s: seq<Byte>, little: bool)
    requires |s| >= 4
    ensures var n := Size(s[..4], little); n < WORD && Header(n, little) <= s
  {
    HeaderOfSize(s[..4], little);
  }

  lemma HeaderIsSize(s: seq<Byte>, little: bool, n: nat)
    requires n < WORD && Header(n, little) <= s
    ensures |s| >= 4 && Size(s[..4], little) == n
  {
    SizeOfHeader(n, little);
    assert s[..4] == Header(n, little);
  }

  /** One read refuses a stream exactly if it starts with the four bytes of a length over 8 MiB. */
  lemma RefusesExactly(s: seq<Byte>, little: bool)
    ensures ReadOne(s, little) == TooBig <==> exists n :: 8388608 < n < WORD && Header(n, little) <= s
  {
    if |s| >= 4 { StartsWithHeader(s, little); }
    forall n | 8388608 < n < WORD && Header(n, little) <= s ensures ReadOne(s, little) == TooBig {
      HeaderIsSize(s, little, n);
    }
  }

  /** One read yields a message exactly if the stream starts with its frame and it is at most 8 MiB long; the
      clean end exactly if the stream is empty; and the end-of-file error if none of these is so and the
      stream is not refused. */
  lemma ReadsExactly(s: seq<Byte>, little: bool, p: seq<Byte>)
    ensures ReadOne(s, little) == Message(p) <==> |p| <= 8388608 && Header(|p|, little) + p <= s
    ensures ReadOne(s, little) == Ended <==> s == []
  {
    if ReadOne(s, little) == Message(p) {
      StartsWithHeader(s, little);
      assert s[..4 + |p|] == Header(|p|, little) + p;
    }
    if |p| <= 8388608 && Header(|p|, little) + p <= s {
      HeaderIsSize(s, little, |p|);
      assert s[4..4 + |p|] == (Header(|p|, little) + p)[4..];
    }
  }

  predicate Fit(ps: seq<seq<Byte>>) { forall p | p in ps :: |p| <= LIMIT }

  predicate Packable(ps: seq<seq<Byte>>) { forall p | p in ps :: |p| < WORD }

  /** What the reader makes of a stream that starts with a whole frame. */
  lemma ReadFrame(p: seq<Byte>, rest: seq<Byte>, little: bool)
    requires |p| < WORD
    ensures |p| <= LIMIT ==> ReadOne(Frame(p, little) + rest, little) == Message(p)
    ensures |p| <= LIMIT ==> (Frame(p, little) + rest)[4 + |p|..] == rest
    ensures |p| > LIMIT ==> ReadOne(Frame(p, little) + rest, little) == TooBig
  {
    var s := Frame(p, little) + rest;
    assert s[..4] == Header(|p|, little);
    SizeOfHeader(|p|, little);
    if |p| <= LIMIT { assert s[4..4 + |p|] == p; }
  }

  /** What the reader makes of a stream cut off inside its first frame. */
  lemma ReadCut(p: seq<Byte>, n: nat, little: bool)
    requires |p| <= LIMIT && n < 4 + |p|
    ensures ReadOne(Frame(p, little)[..n], little) == if n == 0 then Ended else CutShort
  {
    var s := Frame(p, little)[..n];
    if n >= 4 {
      assert s[..4] == Header(|p|, little);
      SizeOfHeader(|p|, little);
    }
  }

  function FirstTooBig(ps: seq<seq<Byte>>): (k: nat)
    ensures k <= |ps| && (forall i | 0 <= i < k :: |ps[i]| <= LIMIT) && (k < |ps| ==> |ps[k]| > LIMIT)
  {
    if ps == [] || |ps[0]| > LIMIT then 0 else 1 + FirstTooBig(ps[1..])
  }

  lemma FirstFits(ps: seq<seq<Byte>>, little: bool)
    requires Packable(ps) && ps != [] && |ps[0]| <= LIMIT
    ensures var rest := ReadAll(Frames(ps[1..], little), little);
            ReadAll(Frames(ps, little), little) == ([ps[0]] + rest.0, rest.1)
  {
    ReadAllFrame(ps[0], Frames(ps[1..], little), little);
  }

  lemma FirstTooBigLater(ps: seq<seq<Byte>>)
    requires ps != [] && |ps[0]| <= LIMIT
    ensures FirstTooBig(ps) == 1 + FirstTooBig(ps[1..])
    ensures ps[..FirstTooBig(ps)] == [ps[0]] + ps[1..][..FirstTooBig(ps[1..])]
  {
  }

  lemma FirstOver(ps: seq<seq<Byte>>, little: bool)
    requires Packable(ps) && ps != [] && |ps[0]| > LIMIT
    ensures ReadAll(Frames(ps, little), little) == ([], TooBig)
  {
    ReadFrame(ps[0], Frames(ps[1..], little), little);
  }

  /** Written messages are read back up to the first one over the limit, which the writer does not
      check and the reader refuses. */
  lemma {:induction false} ReadsUpToLimit(ps: seq<seq<Byte>>, little: bool)
    requires Packable(ps)
    ensures ReadAll(Frames(ps, little), little)
            == (ps[..FirstTooBig(ps)], if FirstTooBig(ps) == |ps| then Ended else TooBig)
  {
    if ps == [] {
      assert ps[..0] == [];
    } else if |ps[0]| <= LIMIT {
      FirstFits(ps, little);
      FirstTooBigLater(ps);
      ReadsUpToLimit(ps[1..], little);
    } else {
      FirstOver(ps, little);
      assert ps[..0] == [];
    }
  }

  /** The round trip holds exactly for messages within the limit. */
  lemma RoundTrip(ps: seq<seq<Byte>>, little: bool)
    requires Packable(ps)
    ensures ReadAll(Frames(ps, little), little) == (ps, Ended) <==> Fit(ps)
  {
    ReadsUpToLimit(ps, little);
    var k := FirstTooBig(ps);
    if k == |ps| {
      assert ps[..k] == ps;
    } else {
      assert ps[k] in ps;
    }
  }

  /** How many whole frames the first n bytes hold. */
  function Whole(ps: seq<seq<Byte>>, n: nat): (k: nat)
    ensures k <= |ps|
  {
    if ps == [] || n < 4 + |ps[0]| then 0 else 1 + Whole(ps[1..], n - 4 - |ps[0]|)
  }

  function Length(ps: seq<seq<Byte>>): nat {
    if ps == [] then 0 else 4 + |ps[0]| + Length(ps[1..])
  }

  lemma {:induction false} WholeIs(ps: seq<seq<Byte>>, n: nat)
    ensures var k := Whole(ps, n);
            Length(ps[..k]) <= n && (k < |ps| ==> n < Length(ps[..k + 1]))
  {
    var k := Whole(ps, n);
    if k == 0 {
      assert ps[..0] == [];
      if |ps| > 0 { assert ps[..1] == [ps[0]] + [] && ps[..1][1..] == []; }
    } else {
      WholeIs(ps[1..], n - 4 - |ps[0]|);
      assert ps[..k][1..] == ps[1..][..k - 1];
      if k < |ps| { assert ps[..k + 1][1..] == ps[1..][..k]; }
    }
  }

  lemma {:induction false} FramesLength(ps: seq<seq<Byte>>, little: bool)
    requires Packable(ps)
    ensures |Frames(ps, little)| == Length(ps)
  {
    if ps != [] { FramesLength(ps[1..], little); }
  }

  lemma ReadAllFrame(p: seq<Byte>, rest: seq<Byte>, little: bool)
    requires |p| <= LIMIT
    ensures ReadAll(Frame(p, little) + rest, little) == ([p] + ReadAll(rest, little).0, ReadAll(rest, little).1)
  {
    ReadFrame(p, rest, little);
  }

  /** The end of a stream after the first k messages. */
  function CutEnd(ps: seq<seq<Byte>>, n: nat): Outcome {
    if n == Length(ps[..Whole(ps, n)]) then Ended else CutShort
  }

  lemma CutInFirst(ps: seq<seq<Byte>>, little: bool, n: nat)
    requires Fit(ps) && ps != [] && n < 4 + |ps[0]|
    ensures n <= |Frames(ps, little)|
    ensures ReadAll(Frames(ps, little)[..n], little) == ([], CutEnd(ps, n))
  {
    assert Frames(ps, little)[..n] == Frame(ps[0], little)[..n];
    ReadCut(ps[0], n, little);
    assert ps[..0] == [];
  }

  lemma CutLater(ps: seq<seq<Byte>>, little: bool, n: nat, m: nat)
    requires Fit(ps) && ps != [] && n == m + 4 + |ps[0]| && n <= |Frames(ps, little)|
    ensures m <= |Frames(ps[1..], little)|
    ensures var rest := ReadAll(Frames(ps[1..], little)[..m], little);
            ReadAll(Frames(ps, little)[..n], little) == ([ps[0]] + rest.0, rest.1)
  {
    assert Frames(ps, little)[..n] == Frame(ps[0], little) + Frames(ps[1..], little)[..m];
    ReadAllFrame(ps[0], Frames(ps[1..], little)[..m], little);
  }

  lemma WholeLater(ps: seq<seq<Byte>>, n: nat, m: nat)
    requires ps != [] && n == m + 4 + |ps[0]|
    ensures ps[..Whole(ps, n)] == [ps[0]] + ps[1..][..Whole(ps[1..], m)] && CutEnd(ps, n) == CutEnd(ps[1..], m)
  {
    var k := Whole(ps, n);
    assert ps[..k][1..] == ps[1..][..k - 1];
  }

  lemma {:induction false} TruncatedReads(ps: seq<seq<Byte>>, little: bool, n: nat)
    requires Fit(ps) && n <= |Frames(ps, little)|
    ensures ReadAll(Frames(ps, little)[..n], little) == (ps[..Whole(ps, n)], CutEnd(ps, n))
    decreases |ps|
  {
    if ps == [] {
      assert ps[..0] == [];
    } else if n < 4 + |ps[0]| {
      CutInFirst(ps, little, n);
      assert ps[..0] == [];
    } else {
      var m := n - 4 - |ps[0]|;
      CutLater(ps, little, n, m);
      WholeLater(ps, n, m);
      TruncatedReads(ps[1..], little, m);
    }
  }

  /** The first n bytes of the stream hold the first k frames and part of the next, and read as such. */
  ghost predicate CutAt(ps: seq<seq<Byte>>, little: bool, n: nat, k: nat)
    requires Packable(ps) && n <= |Frames(ps, little)|
  {
    && k <= |ps| && Length(ps[..k]) <= n && (k < |ps| ==> n < Length(ps[..k + 1]))
    && ReadAll(Frames(ps, little)[..n], little) == (ps[..k], if n == Length(ps[..k]) then Ended else CutShort)
  }

  /** A stream cut off anywhere yields the messages whose frames are whole, then a clean end exactly
      if the cut is between two frames, and the end-of-file error otherwise. */
  lemma Truncated(ps: seq<seq<Byte>>, little: bool, n: nat)
    requires Fit(ps) && n <= |Frames(ps, little)|
    ensures exists k: nat :: CutAt(ps, little, n, k)
  {
    WholeIs(ps, n);
    TruncatedReads(ps, little, n);
    assert CutAt(ps, little, n, Whole(ps, n));
  }
}
