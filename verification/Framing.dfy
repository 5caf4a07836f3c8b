/** Length-prefixed gRPC messages over arbitrary byte chunks.

    `Decode` is the reference: it reads a whole byte stream frame by frame.  The
    assembler, the receive loop and the outbound chunker work incrementally and are
    proved against it. */
module Framing {
  import opened Words

  type byte = x: int | 0 <= x < 256

  const HEADER := 5

  datatype Status = NeedMore | MessageReady | ErrorCompressed | ErrorOversize

  // --- The reference decoder --------------------------------------------------

  function MakeHeader(n: nat): (h: seq<byte>)
    requires n < TWO_32
    ensures |h| == HEADER && h[0] == 0
  {
    [0, n / 0x100_0000 % 256, n / 0x1_0000 % 256, n / 0x100 % 256, n % 256]
  }

  /** The big-endian length in a header. */
  function Length(h: seq<byte>): (n: nat)
    requires |h| >= HEADER
    ensures n < TWO_32
  {
    h[1] as int * 0x100_0000 + h[2] as int * 0x1_0000 + h[3] as int * 0x100 + h[4]
  }

  lemma HeaderRoundTrip(n: nat)
    requires n < TWO_32
    ensures Length(MakeHeader(n)) == n
  {
    var a := n / 0x100;
    var b := a / 0x100;
    assert n / 0x1_0000 == b && n / 0x100_0000 == b / 0x100;
  }

  /** Lengths go most significant byte first, after the flag. */
  lemma BigEndian(flag: byte, a: byte, b: byte, c: byte, d: byte)
    ensures Length([flag, a, b, c, d]) == ((a as int * 256 + b as int) * 256 + c as int) * 256 + d as int
  {
  }

  datatype Parsed = Incomplete | Frame(payload: seq<byte>) | Bad(why: Status)

  /** The first frame of `s`, for a receiver whose buffer holds `cap` bytes. */
  function ParseOne(cap: nat, s: seq<byte>): (r: Parsed)
    ensures r.Frame? ==> HEADER + |r.payload| <= |s|
    ensures r.Bad? ==> r.why == ErrorCompressed || r.why == ErrorOversize
  {
    if |s| < HEADER then Incomplete
    else if s[0] != 0 then Bad(ErrorCompressed)
    else if Length(s) > cap then Bad(ErrorOversize)
    else if |s| < HEADER + Length(s) then Incomplete
    else Frame(s[HEADER..HEADER + Length(s)])
  }

  /** A header is refused exactly if its flag is set, or its length exceeds the buffer. */
  lemma RefusedIff(cap: nat, s: seq<byte>)
    ensures ParseOne(cap, s) == Bad(ErrorCompressed) <==> |s| >= 5 && s[0] != 0
    ensures ParseOne(cap, s) == Bad(ErrorOversize) <==> |s| >= 5 && s[0] == 0 && Length(s) > cap
    ensures ParseOne(cap, s).Frame? <==> |s| >= 5 && s[0] == 0 && Length(s) <= cap && |s| >= 5 + Length(s)
  {
  }

  /** Where decoding stops: bytes of an unfinished frame, or the offset just past the
      first illegal header. */
  datatype End = Rest(bytes: seq<byte>) | Failed(why: Status, at: nat)

  datatype Decoded = Decoded(messages: seq<seq<byte>>, end: End)

  function After(p: seq<seq<byte>>, skipped: nat, d: Decoded): Decoded {
    Decoded(p + d.messages, if d.end.Rest? then d.end else d.end.(at := d.end.at + skipped))
  }

  function Decode(cap: nat, s: seq<byte>): (d: Decoded)
    ensures d.end.Rest? ==> |d.end.bytes| <= |s|
    decreases |s|
  {
    match ParseOne(cap, s)
    case Incomplete => Decoded([], Rest(s))
    case Bad(why) => Decoded([], Failed(why, HEADER))
    case Frame(p) => After([p], HEADER + |p|, Decode(cap, s[HEADER + |p|..]))
  }

  function Encode(p: seq<byte>): seq<byte>
    requires |p| < TWO_32
  {
    MakeHeader(|p|) + p
  }

  ghost predicate Sendable(ps: seq<seq<byte>>) {
    forall p <- ps :: |p| < TWO_32
  }

  function EncodeAll(ps: seq<seq<byte>>): seq<byte>
    requires Sendable(ps)
  {
    if ps == [] then [] else Encode(ps[0]) + EncodeAll(ps[1..])
  }

  lemma EncodeLength(p: seq<byte>)
    requires |p| < TWO_32
    ensures |Encode(p)| == HEADER + |p|
  {
  }

  lemma ParseExtends(cap: nat, a: seq<byte>, b: seq<byte>)
    requires !ParseOne(cap, a).Incomplete?
    ensures ParseOne(cap, a + b) == ParseOne(cap, a)
  {
    assert (a + b)[..|a|] == a;
    if ParseOne(cap, a).Frame? {
      var n := Length(a);
      assert (a + b)[HEADER..HEADER + n] == a[HEADER..HEADER + n];
    }
  }

  lemma ParseEncoded(cap: nat, p: seq<byte>, rest: seq<byte>)
    requires |p| <= cap && |p| < TWO_32
    ensures ParseOne(cap, Encode(p) + rest) == Frame(p)
  {
    var s := Encode(p) + rest;
    HeaderRoundTrip(|p|);
    assert s[..HEADER] == MakeHeader(|p|);
    assert Length(s) == Length(MakeHeader(|p|)) by {
      forall i | 0 <= i < HEADER ensures s[i] == MakeHeader(|p|)[i] {
        assert s[i] == s[..HEADER][i];
      }
    }
    assert s[HEADER..HEADER + |p|] == p;
  }

  lemma LengthRoundTrip(h: seq<byte>)
    requires |h| >= HEADER && h[0] == 0
    ensures MakeHeader(Length(h)) == h[..HEADER]
  {
    var n := Length(h);
    var a: int := h[1] as int * 0x1_0000 + h[2] as int * 0x100 + h[3];
    assert n == a * 0x100 + h[4];
    assert n / 0x100 == a && n % 256 == h[4];
    var b: int := h[1] as int * 0x100 + h[2];
    assert a == b * 0x100 + h[3];
    assert a / 0x100 == b && a % 256 == h[3];
    assert b / 0x100 == h[1] && b % 256 == h[2];
    assert n / 0x1_0000 == b && n / 0x100_0000 == h[1];
  }

  /** Legal frames decode to their payloads, whatever follows. */
  lemma {:induction false} DecodeEncoded(cap: nat, ps: seq<seq<byte>>, rest: seq<byte>)
    requires Sendable(ps) && forall p <- ps :: |p| <= cap
    ensures Decode(cap, EncodeAll(ps) + rest) == After(ps, |EncodeAll(ps)|, Decode(cap, rest))
    decreases |ps|
  {
    hide ParseOne, Encode, After;
    if ps == [] {
      assert EncodeAll(ps) + rest == rest;
      AfterNothing(Decode(cap, rest));
    } else {
      var p := ps[0];
      var tail := EncodeAll(ps[1..]) + rest;
      assert EncodeAll(ps) + rest == Encode(p) + tail;
      ParseEncoded(cap, p, tail);
      EncodeLength(p);
      assert (Encode(p) + tail)[HEADER + |p|..] == tail;
      DecodeEncoded(cap, ps[1..], rest);
      AfterTwice([p], HEADER + |p|, ps[1..], |EncodeAll(ps[1..])|, Decode(cap, rest));
      assert [p] + ps[1..] == ps;
    }
  }

  lemma AfterNothing(d: Decoded)
    ensures After([], 0, d) == d
  {
    assert [] + d.messages == d.messages;
  }

  lemma AfterTwice(a: seq<seq<byte>>, m: nat, b: seq<seq<byte>>, n: nat, d: Decoded)
    ensures After(a, m, After(b, n, d)) == After(a + b, m + n, d)
  {
    assert a + (b + d.messages) == (a + b) + d.messages;
  }

  lemma ParsedIsEncoded(cap: nat, s: seq<byte>)
    requires ParseOne(cap, s).Frame?
    ensures var p := ParseOne(cap, s).payload;
            |p| <= cap && |p| < TWO_32 && s == Encode(p) + s[HEADER + |p|..]
  {
    LengthRoundTrip(s);
  }

  /** What is delivered is exactly the legal frames at the head of the stream: the
      stream is those frames, then an unfinished frame or an illegal header. */
  lemma {:induction false} DecodeIsPrefix(cap: nat, s: seq<byte>)
    ensures var d := Decode(cap, s);
            && Sendable(d.messages) && (forall p <- d.messages :: |p| <= cap)
            && EncodeAll(d.messages) <= s
            && var rest := s[|EncodeAll(d.messages)|..];
               match d.end
               case Rest(bytes) => bytes == rest && ParseOne(cap, rest).Incomplete?
               case Failed(why, at) => ParseOne(cap, rest) == Bad(why) && at == |EncodeAll(d.messages)| + HEADER
    decreases |s|
  {
    hide ParseOne, Encode;
    var r := ParseOne(cap, s);
    if r.Frame? {
      var p := r.payload;
      var tail := s[HEADER + |p|..];
      DecodeIsPrefix(cap, tail);
      var ms := Decode(cap, tail).messages;
      ParsedIsEncoded(cap, s);
      EncodeLength(p);
      assert s == Encode(p) + tail;
      assert ([p] + ms)[1..] == ms;
      assert EncodeAll([p] + ms) == Encode(p) + EncodeAll(ms);
      assert s[|EncodeAll([p] + ms)|..] == tail[|EncodeAll(ms)|..];
    }
  }

  /** Decoding can be resumed at any cut. */
  lemma {:induction false} DecodeResumes(cap: nat, a: seq<byte>, b: seq<byte>)
    ensures var d := Decode(cap, a);
            Decode(cap, a + b) ==
              if d.end.Rest? then After(d.messages, |a| - |d.end.bytes|, Decode(cap, d.end.bytes + b)) else d
    decreases |a|
  {
    hide ParseOne;
    var r := ParseOne(cap, a);
    match r
    case Incomplete =>
    case Bad(why) => ParseExtends(cap, a, b);
    case Frame(p) =>
      ParseExtends(cap, a, b);
      var n := HEADER + |p|;
      assert (a + b)[n..] == a[n..] + b;
      DecodeResumes(cap, a[n..], b);
      var d := Decode(cap, a[n..]);
      if d.end.Rest? {
        var e := Decode(cap, d.end.bytes + b);
        assert [p] + (d.messages + e.messages) == ([p] + d.messages) + e.messages;
      }
  }

  // --- The assembler ----------------------------------------------------------

  class FrameAssembler {
    const buf: array<byte>
    const cap: nat
    const header: array<byte>
    var headerFilled: nat
    var msgLen: nat
    var msgFilled: nat
    var inPayload: bool
    var poisoned: bool

    ghost predicate Valid()
      reads this, buf, header
    {
      && buf != header && cap <= buf.Length && header.Length == HEADER && headerFilled < HEADER
      && (inPayload ==>
            && !poisoned && headerFilled == 0 && header[0] == 0
            && msgLen == Length(header[..]) && msgLen <= cap && msgFilled < msgLen)
      && (poisoned ==> headerFilled == 0)
    }

    /** The bytes of the frame being assembled. */
    ghost function Pending(): seq<byte>
      requires Valid()
      reads this, buf, header
    {
      if inPayload then header[..] + buf[..msgFilled] else header[..headerFilled]
    }

    constructor (buffer: array<byte>, capacity: nat)
      requires capacity <= buffer.Length
      ensures Valid() && buf == buffer && cap == capacity && fresh(header)
      ensures !poisoned && Pending() == []
    {
      buf, cap := buffer, capacity;
      header := new byte[HEADER](_ => 0);
      headerFilled, msgLen, msgFilled := 0, 0, 0;
      inPayload, poisoned := false, false;
    }

    method CopyIn(data: seq<byte>, from: nat, take: nat)
      requires Valid() && inPayload && msgFilled + take <= msgLen && from + take <= |data|
      modifies buf
      ensures header[..] == old(header[..])
      ensures buf[..msgFilled + take] == old(buf[..msgFilled]) + data[from..from + take]
    {
      for i := 0 to take
        invariant header[..] == old(header[..])
        invariant buf[..msgFilled + i] == old(buf[..msgFilled]) + data[from..from + i]
      {
        buf[msgFilled + i] := data[from + i];
      }
    }

    /** One more header byte; `done` when it completes or spoils the frame. */
    method TakeHeaderByte(b: byte) returns (status: Status, done: bool)
      requires Valid() && !poisoned && !inPayload
      modifies this, header
      ensures Valid()
      ensures match ParseOne(cap, old(Pending()) + [b])
              case Incomplete => !done && !poisoned && Pending() == old(Pending()) + [b]
              case Frame(p) =>
                done && status == MessageReady && !poisoned && Pending() == [] && p == [] && msgLen == 0
              case Bad(why) => done && status == why && poisoned
      ensures done ==> |old(Pending())| + 1 == HEADER
    {
      header[headerFilled] := b;
      headerFilled := headerFilled + 1;
      assert header[..headerFilled] == old(Pending()) + [b];
      if headerFilled < HEADER {
        return NeedMore, false;
      }
      headerFilled := 0;
      assert header[..] == old(Pending()) + [b];
      if header[0] != 0 {
        poisoned := true;
        return ErrorCompressed, true;
      }
      msgLen := Length(header[..]);
      if msgLen > cap {
        poisoned := true;
        return ErrorOversize, true;
      }
      msgFilled := 0;
      inPayload := true;
      if msgLen == 0 {
        inPayload := false;
        return MessageReady, true;
      }
      return NeedMore, false;
    }

    /** As much of the payload as `data[from..]` holds. */
    method TakePayload(data: seq<byte>, from: nat) returns (take: nat, done: bool)
      requires Valid() && inPayload && from < |data|
      modifies this`msgFilled, this`inPayload, buf
      ensures Valid() && !poisoned && 0 < take && from + take <= |data|
      ensures !done ==> from + take == |data|
      ensures match ParseOne(cap, old(Pending()) + data[from..from + take])
              case Incomplete => !done && Pending() == old(Pending()) + data[from..from + take]
              case Frame(p) =>
                && done && Pending() == [] && msgLen == |p| && msgLen <= cap && buf[..msgLen] == p
                && |old(Pending())| + take == HEADER + |p|
              case Bad(why) => false
    {
      var want := msgLen - msgFilled;
      var avail := |data| - from;
      take := if avail < want then avail else want;
      CopyIn(data, from, take);
      msgFilled := msgFilled + take;
      assert header[..] + buf[..msgFilled] == old(Pending()) + data[from..from + take];
      done := msgFilled == msgLen;
      if done {
        inPayload := false;
        ParseFrame(cap, header[..], buf[..msgFilled]);
      }
    }

    /** One turn of the loop: a header byte or a run of payload. */
    method TakeSome(data: seq<byte>, from: nat) returns (status: Status, take: nat, done: bool)
      requires Valid() && !poisoned && from < |data|
      modifies this, buf, header
      ensures Valid() && 0 < take && from + take <= |data|
      ensures match ParseOne(cap, old(Pending()) + data[from..from + take])
              case Incomplete => !done && !poisoned && Pending() == old(Pending()) + data[from..from + take]
              case Frame(p) =>
                && done && status == MessageReady && !poisoned && Pending() == []
                && |old(Pending())| + take == HEADER + |p|
                && msgLen == |p| && msgLen <= cap && buf[..msgLen] == p
              case Bad(why) => done && status == why && poisoned && |old(Pending())| + take == HEADER
    {
      hide ParseOne, Length;
      if !inPayload {
        status, done := TakeHeaderByte(data[from]);
        take := 1;
        assert data[from..from + 1] == [data[from]];
      } else {
        take, done := TakePayload(data, from);
        status := MessageReady;
      }
    }

    /** Consume bytes up to the end of the frame being assembled.  A call that is not
        refused makes progress on any input. */
    method Push(data: seq<byte>) returns (status: Status, consumed: nat)
      requires Valid()
      modifies this, buf, header
      ensures Valid() && consumed <= |data|
      ensures old(poisoned) ==> poisoned && consumed == 0 && status == ErrorOversize
      ensures !old(poisoned) && data != [] ==> consumed > 0
      ensures !old(poisoned) ==>
                match ParseOne(cap, old(Pending()) + data)
                case Incomplete =>
                  && status == NeedMore && !poisoned && consumed == |data|
                  && Pending() == old(Pending()) + data
                case Frame(p) =>
                  && status == MessageReady && !poisoned && Pending() == []
                  && |old(Pending())| + consumed == HEADER + |p|
                  && msgLen == |p| && msgLen <= cap && buf[..msgLen] == p
                case Bad(why) =>
                  status == why && poisoned && |old(Pending())| + consumed == HEADER
    {
      hide ParseOne, Length;
      consumed := 0;
      if poisoned {
        return ErrorOversize, 0;
      }
      ghost var seen := Pending();
      SeenStart(seen, data);
      PendingIncomplete();
      while consumed < |data|
        invariant consumed <= |data| && Valid() && !poisoned
        invariant Pending() == seen && |seen| == |old(Pending())| + consumed
        invariant seen + data[consumed..] == old(Pending()) + data
        invariant ParseOne(cap, seen).Incomplete?
      {
        var take, done;
        status, take, done := TakeSome(data, consumed);
        SeenGrows(seen, data, consumed, consumed + take);
        seen := seen + data[consumed..consumed + take];
        consumed := consumed + take;
        if done {
          ParseExtends(cap, seen, data[consumed..]);
          return;
        }
      }
      SeenAll(seen, data);
      status := NeedMore;
    }

    lemma PendingIncomplete()
      requires Valid()
      ensures ParseOne(cap, Pending()).Incomplete?
    {
      if inPayload {
        assert Pending()[..HEADER] == header[..];
      }
    }

    method Reset()
      requires Valid()
      modifies this
      ensures Valid() && !poisoned && Pending() == []
    {
      headerFilled, msgLen, msgFilled := 0, 0, 0;
      inPayload, poisoned := false, false;
    }
  }

  lemma SeenStart(seen: seq<byte>, data: seq<byte>)
    ensures seen + data[0..] == seen + data
  {
    assert data[0..] == data;
  }

  lemma SeenGrows(seen: seq<byte>, data: seq<byte>, i: nat, j: nat)
    requires i <= j <= |data|
    ensures (seen + data[i..j]) + data[j..] == seen + data[i..]
  {
    assert data[i..j] + data[j..] == data[i..];
    assert (seen + data[i..j]) + data[j..] == seen + (data[i..j] + data[j..]);
  }

  lemma SeenAll(seen: seq<byte>, data: seq<byte>)
    ensures seen + data[|data|..] == seen
  {
  }

  lemma ParseFrame(cap: nat, h: seq<byte>, p: seq<byte>)
    requires |h| == HEADER && h[0] == 0 && Length(h) == |p| <= cap
    ensures ParseOne(cap, h + p) == Frame(p)
  {
    assert (h + p)[HEADER..HEADER + |p|] == p;
  }
}
