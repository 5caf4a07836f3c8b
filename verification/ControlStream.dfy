/** The two ends of the control stream: the receive loop over the frame assembler,
    and the outbound chunker that lets the transport read frames in pieces of any
    size. */
module ControlStream {
  import opened Framing
  import opened Words

  // --- Receiving ----------------------------------------------------------------

  /** A receiver: bytes of the frame being assembled, whether an illegal header has
      stopped it, and the messages delivered. */
  datatype Receiver = Receiver(pending: seq<byte>, poisoned: bool, inbox: seq<seq<byte>>)

  const Listening := Receiver([], false, [])

  function Stopped(d: Decoded, inbox: seq<seq<byte>>): Receiver {
    Receiver(if d.end.Rest? then d.end.bytes else [], d.end.Failed?, inbox + d.messages)
  }

  function Receive(cap: nat, rx: Receiver, chunk: seq<byte>): Receiver {
    if rx.poisoned then rx else Stopped(Decode(cap, rx.pending + chunk), rx.inbox)
  }

  function ReceiveAll(cap: nat, chunks: seq<seq<byte>>): Receiver {
    if chunks == [] then Listening
    else Receive(cap, ReceiveAll(cap, chunks[..|chunks| - 1]), chunks[|chunks| - 1])
  }

  function Concat(chunks: seq<seq<byte>>): seq<byte> {
    if chunks == [] then [] else Concat(chunks[..|chunks| - 1]) + chunks[|chunks| - 1]
  }

  /** However the bytes are cut into chunks, what is delivered, what is held back and
      whether the receiver has stopped depend only on the bytes. */
  lemma {:induction false} ChunkingIsIrrelevant(cap: nat, chunks: seq<seq<byte>>)
    ensures ReceiveAll(cap, chunks) == Stopped(Decode(cap, Concat(chunks)), [])
    decreases |chunks|
  {
    hide Decode;
    if chunks == [] {
      NothingDecodes(cap);
    } else {
      var front, last := chunks[..|chunks| - 1], chunks[|chunks| - 1];
      ChunkingIsIrrelevant(cap, front);
      var d := Decode(cap, Concat(front));
      DecodeResumes(cap, Concat(front), last);
      if d.end.Rest? {
        assert [] + d.messages == d.messages;
        var e := Decode(cap, d.end.bytes + last);
        assert [] + (d.messages + e.messages) == d.messages + e.messages;
      }
    }
  }

  lemma NothingDecodes(cap: nat)
    ensures Decode(cap, []) == Decoded([], Rest([]))
  {
  }

  /** If chunk `i` is the one that stops the receiver, it stops at the byte where the
      whole stream first goes wrong, and nothing is delivered after it. */
  lemma FirstErrorPoint(cap: nat, chunks: seq<seq<byte>>, i: nat)
    requires i < |chunks|
    requires Decode(cap, Concat(chunks[..i])).end.Rest?
    requires var rx := ReceiveAll(cap, chunks[..i]); Decode(cap, rx.pending + chunks[i]).end.Failed?
    ensures var rx := ReceiveAll(cap, chunks[..i]);
            var here := Decode(cap, rx.pending + chunks[i]).end;
            var all := Decode(cap, Concat(chunks));
            && all.end.Failed? && all.end.why == here.why
            && all.end.at == |Concat(chunks[..i])| + here.at - |rx.pending|
            && ReceiveAll(cap, chunks) == ReceiveAll(cap, chunks[..i + 1])
  {
    hide Decode;
    var a := chunks[..i];
    ChunkingIsIrrelevant(cap, a);
    var rx := ReceiveAll(cap, a);
    DecodeResumes(cap, Concat(a), chunks[i]);
    assert chunks[..i + 1][..i] == a;
    var upto := Decode(cap, Concat(chunks[..i + 1]));
    assert upto.end.Failed?;
    ConcatSplits(chunks, i + 1);
    DecodeResumes(cap, Concat(chunks[..i + 1]), Concat(chunks[i + 1..]));
    ChunkingIsIrrelevant(cap, chunks);
    ChunkingIsIrrelevant(cap, chunks[..i + 1]);
  }

  lemma {:induction false} ConcatSplits(chunks: seq<seq<byte>>, i: nat)
    requires i <= |chunks|
    ensures Concat(chunks) == Concat(chunks[..i]) + Concat(chunks[i..])
    decreases |chunks|
  {
    if i == |chunks| {
      assert chunks[..i] == chunks;
    } else {
      var front := chunks[..|chunks| - 1];
      ConcatSplits(front, i);
      assert front[..i] == chunks[..i];
      assert chunks[i..][..|chunks| - i - 1] == front[i..];
    }
  }

  // --- Sending --------------------------------------------------------------------

  const MAX_OUT_PAYLOAD := 507
  const OUT_QUEUE_DEPTH := 8

  /** The outbound side: frames waiting, and the frame being read with its offset. */
  datatype Sender = Sender(queue: seq<seq<byte>>, current: seq<byte>, off: nat, hasCurrent: bool) {
    predicate Valid() { off <= |current| }

    /** Bytes still to go out, in order. */
    function Remaining(): seq<byte>
      requires Valid()
    {
      (if hasCurrent then current[off..] else []) + Concat(queue)
    }
  }

  const Quiet := Sender([], [], 0, false)

  /** Queue one message; an oversize message, a link that is down or a full queue drops
      it. */
  function Enqueue(s: Sender, up: bool, p: seq<byte>): (Sender, bool) {
    if |p| <= MAX_OUT_PAYLOAD && up && |s.queue| < OUT_QUEUE_DEPTH
    then (s.(queue := s.queue + [Encode(p)]), true)
    else (s, false)
  }

  function HandOff(s: Sender): Sender {
    if !s.hasCurrent && s.queue != []
    then Sender(s.queue[1..], s.queue[0], 0, true)
    else s
  }

  /** The transport reads at most `n` bytes; with no frame in flight it is deferred. */
  function Read(s: Sender, n: nat): (Sender, seq<byte>)
    requires s.Valid()
  {
    if !s.hasCurrent then (s, [])
    else
      var remain := |s.current| - s.off;
      var take := if n < remain then n else remain;
      var bytes := s.current[s.off..s.off + take];
      if s.off + take == |s.current| then (s.(off := 0, hasCurrent := false), bytes)
      else (s.(off := s.off + take), bytes)
  }

  lemma {:induction false} ConcatPrepends(x: seq<byte>, q: seq<seq<byte>>)
    ensures Concat([x] + q) == x + Concat(q)
  {
    ConcatSplits([x] + q, 1);
    assert ([x] + q)[..1] == [x] && ([x] + q)[1..] == q;
    assert Concat([x]) == x by {
      assert [x][..0] == [];
    }
  }

  lemma HandOffKeeps(s: Sender)
    requires s.Valid()
    ensures HandOff(s).Valid() && HandOff(s).Remaining() == s.Remaining()
  {
    if !s.hasCurrent && s.queue != [] {
      assert s.queue == [s.queue[0]] + s.queue[1..];
      ConcatPrepends(s.queue[0], s.queue[1..]);
    }
  }

  lemma ReadTakesFront(s: Sender, n: nat)
    requires s.Valid()
    ensures var (s', bytes) := Read(s, n);
            s'.Valid() && bytes + s'.Remaining() == s.Remaining()
  {
  }

  lemma ConcatAppends(q: seq<seq<byte>>, x: seq<byte>)
    ensures Concat(q + [x]) == Concat(q) + x
  {
    assert (q + [x])[..|q|] == q;
  }

  lemma EnqueueAppends(s: Sender, up: bool, p: seq<byte>)
    requires s.Valid()
    ensures var (s', ok) := Enqueue(s, up, p);
            s'.Valid() && s'.Remaining() == s.Remaining() + (if ok then Encode(p) else [])
  {
    hide Encode, Concat;
    if Enqueue(s, up, p).1 {
      ConcatAppends(s.queue, Encode(p));
      var head := if s.hasCurrent then s.current[s.off..] else [];
      assert head + (Concat(s.queue) + Encode(p)) == head + Concat(s.queue) + Encode(p);
    } else {
      assert s.Remaining() + [] == s.Remaining();
    }
  }

  /** A sender, what it accepted, and what the transport has read from it. */
  datatype Link = Link(sender: Sender, accepted: seq<seq<byte>>, wire: seq<byte>)

  datatype LinkOp = SendMessage(up: bool, payload: seq<byte>) | PumpQueue | TransportRead(n: nat)

  function LinkStep(l: Link, op: LinkOp): (r: Link)
    requires l.sender.Valid()
    ensures r.sender.Valid()
  {
    match op
    case SendMessage(up, p) =>
      var (s, ok) := Enqueue(l.sender, up, p);
      Link(s, if ok then l.accepted + [p] else l.accepted, l.wire)
    case PumpQueue => l.(sender := HandOff(l.sender))
    case TransportRead(n) =>
      var (s, bytes) := Read(l.sender, n);
      Link(s, l.accepted, l.wire + bytes)
  }

  ghost predicate InOrder(l: Link) {
    && l.sender.Valid()
    && (forall p <- l.accepted :: |p| <= MAX_OUT_PAYLOAD)
    && l.wire + l.sender.Remaining() == EncodeAll(l.accepted)
  }

  lemma {:induction false} EncodeAllAppends(ps: seq<seq<byte>>, p: seq<byte>)
    requires Sendable(ps) && |p| < TWO_32
    ensures EncodeAll(ps + [p]) == EncodeAll(ps) + Encode(p)
    decreases |ps|
  {
    hide Encode;
    if ps == [] {
      assert [] + [p] == [p] && [p][1..] == [];
      assert Encode(p) + [] == Encode(p);
    } else {
      assert (ps + [p])[1..] == ps[1..] + [p];
      EncodeAllAppends(ps[1..], p);
    }
  }

  lemma LinkKeepsOrder(l: Link, op: LinkOp)
    requires InOrder(l)
    ensures InOrder(LinkStep(l, op))
  {
    hide Encode, EncodeAll;
    match op
    case SendMessage(up, p) =>
      EnqueueAppends(l.sender, up, p);
      var (s, ok) := Enqueue(l.sender, up, p);
      if ok {
        EncodeAllAppends(l.accepted, p);
        assert l.wire + (l.sender.Remaining() + Encode(p)) == (l.wire + l.sender.Remaining()) + Encode(p);
      } else {
        assert l.sender.Remaining() + [] == l.sender.Remaining();
      }
    case PumpQueue => HandOffKeeps(l.sender);
    case TransportRead(n) =>
      ReadTakesFront(l.sender, n);
      var (s, bytes) := Read(l.sender, n);
      assert l.wire + (bytes + s.Remaining()) == (l.wire + bytes) + s.Remaining();
  }

  function LinkRun(ops: seq<LinkOp>): (l: Link)
    ensures l.sender.Valid()
  {
    if ops == [] then Link(Quiet, [], []) else LinkStep(LinkRun(ops[..|ops| - 1]), ops[|ops| - 1])
  }

  /** Whatever the order of sends, hand-offs and reads, and whatever the read sizes,
      the bytes read plus the bytes still held are the accepted frames in order. */
  lemma {:induction false} WireIsFrames(ops: seq<LinkOp>)
    ensures InOrder(LinkRun(ops))
    decreases |ops|
  {
    if ops != [] {
      WireIsFrames(ops[..|ops| - 1]);
      LinkKeepsOrder(LinkRun(ops[..|ops| - 1]), ops[|ops| - 1]);
    }
  }

  /** Any list of payloads that fit the receiver's buffer, framed and cut into any
      chunks, is delivered as exactly that list, leaving a clean frame boundary. */
  lemma FramesRoundTrip(cap: nat, ps: seq<seq<byte>>, chunks: seq<seq<byte>>)
    requires Sendable(ps) && (forall p <- ps :: |p| <= cap) && Concat(chunks) == EncodeAll(ps)
    ensures ReceiveAll(cap, chunks) == Receiver([], false, ps)
  {
    hide Decode, EncodeAll;
    FramesDecode(cap, ps);
    ChunkingIsIrrelevant(cap, chunks);
    assert [] + ps == ps;
  }

  lemma FramesDecode(cap: nat, ps: seq<seq<byte>>)
    requires Sendable(ps) && forall p <- ps :: |p| <= cap
    ensures Decode(cap, EncodeAll(ps)) == Decoded(ps, Rest([]))
  {
    hide EncodeAll;
    DecodeEncoded(cap, ps, []);
    assert EncodeAll(ps) + [] == EncodeAll(ps);
    assert ps + [] == ps;
  }

  /** The whole link: messages sent in any way, read by the transport in any sizes
      and received in any other chunking arrive as exactly the accepted messages, in
      order.  While some bytes are still held back, a prefix of them has arrived. */
  lemma RoundTrip(cap: nat, ops: seq<LinkOp>, chunks: seq<seq<byte>>)
    requires var l := LinkRun(ops);
             (forall p <- l.accepted :: |p| <= cap) && Concat(chunks) == l.wire
    ensures var l := LinkRun(ops);
            var rx := ReceiveAll(cap, chunks);
            && !rx.poisoned && rx.inbox <= l.accepted
            && (l.sender.Remaining() == [] ==> rx == Receiver([], false, l.accepted))
  {
    hide Decode, EncodeAll, LinkRun;
    WireIsFrames(ops);
    var l := LinkRun(ops);
    var rest := l.sender.Remaining();
    FramesDecode(cap, l.accepted);
    ChunkingIsIrrelevant(cap, chunks);
    DecodeResumes(cap, l.wire, rest);
    var d := Decode(cap, l.wire);
    assert [] + d.messages == d.messages;
    if rest == [] {
      assert l.wire + [] == l.wire;
    }
  }

  // --- Everything goes out ------------------------------------------------------------

  /** A message is taken while connected, up to 507 bytes, with fewer than 8 waiting. */
  lemma AcceptedIff(s: Sender, up: bool, p: seq<byte>)
    ensures Enqueue(s, up, p).1 <==> up && |p| <= 507 && |s.queue| < 8
  {
  }

  /** A frame in flight has bytes left, and so has each one waiting. */
  predicate Lively(s: Sender) {
    s.Valid() && (s.hasCurrent ==> s.off < |s.current|) && forall i | 0 <= i < |s.queue| :: |s.queue[i]| > 0
  }

  lemma StepLively(l: Link, op: LinkOp)
    requires Lively(l.sender)
    ensures Lively(LinkStep(l, op).sender)
  {
    hide Concat;
    if op.SendMessage? && Enqueue(l.sender, op.up, op.payload).1 {
      EncodeLength(op.payload);
    }
    hide Encode;
  }

  lemma {:induction false} RunLively(ops: seq<LinkOp>)
    ensures Lively(LinkRun(ops).sender)
    decreases |ops|
  {
    hide LinkStep;
    if ops != [] {
      RunLively(ops[..|ops| - 1]);
      StepLively(LinkRun(ops[..|ops| - 1]), ops[|ops| - 1]);
    }
  }

  lemma LinkNext(ops: seq<LinkOp>, op: LinkOp)
    ensures LinkRun(ops + [op]) == LinkStep(LinkRun(ops), op)
  {
    hide LinkStep;
    assert (ops + [op])[..|ops|] == ops;
  }

  /** Hand over and read, once for each size. */
  function Rounds(sizes: seq<nat>): seq<LinkOp> {
    if sizes == [] then []
    else Rounds(sizes[..|sizes| - 1]) + [PumpQueue] + [TransportRead(sizes[|sizes| - 1])]
  }

  lemma HandOffStarts(s: Sender)
    requires Lively(s) && s.Remaining() != []
    ensures Lively(HandOff(s)) && HandOff(s).hasCurrent
  {
    assert s.queue == [] ==> Concat(s.queue) == [];
    hide Concat;
  }

  /** One round moves at least a byte while any is left. */
  lemma RoundMoves(l: Link, n: nat)
    requires Lively(l.sender) && n > 0
    ensures var r := LinkStep(LinkStep(l, PumpQueue), TransportRead(n));
            && Lively(r.sender) && r.accepted == l.accepted
            && |r.sender.Remaining()| <= |l.sender.Remaining()|
            && (l.sender.Remaining() != [] ==> |r.sender.Remaining()| < |l.sender.Remaining()|)
  {
    hide Concat;
    var s := HandOff(l.sender);
    HandOffKeeps(l.sender);
    StepLively(l, PumpQueue);
    StepLively(LinkStep(l, PumpQueue), TransportRead(n));
    ReadTakesFront(s, n);
    ReadMoves(s, n);
    if l.sender.Remaining() != [] {
      HandOffStarts(l.sender);
    }
  }

  lemma ReadMoves(s: Sender, n: nat)
    requires Lively(s) && n > 0
    ensures s.hasCurrent ==> |Read(s, n).1| > 0
  {
  }

  /** However messages were sent, as many rounds of reads of any positive sizes as bytes
      are held empty the link; with `RoundTrip`, every accepted message arrives. */
  lemma {:induction false} EverythingGoesOut(ops: seq<LinkOp>, sizes: seq<nat>)
    requires forall n <- sizes :: n > 0
    ensures var l, r := LinkRun(ops), LinkRun(ops + Rounds(sizes));
            && r.accepted == l.accepted
            && |r.sender.Remaining()| <= (if |sizes| >= |l.sender.Remaining()| then 0
                                          else |l.sender.Remaining()| - |sizes|)
    decreases |sizes|
  {
    hide LinkRun, LinkStep;
    if sizes == [] {
      assert ops + [] == ops;
    } else {
      var front, n := sizes[..|sizes| - 1], sizes[|sizes| - 1];
      assert n in sizes && forall x <- front :: x in sizes;
      EverythingGoesOut(ops, front);
      var q := ops + Rounds(front);
      LinkNext(q, PumpQueue);
      LinkNext(q + [PumpQueue], TransportRead(n));
      assert ops + Rounds(sizes) == q + [PumpQueue] + [TransportRead(n)];
      RunLively(q);
      RoundMoves(LinkRun(q), n);
    }
  }

  lemma NextFrame(cap: nat, s: seq<byte>, rest: seq<byte>, msgs: seq<seq<byte>>, skipped: nat)
    requires ParseOne(cap, s).Frame? && |s| == HEADER + |ParseOne(cap, s).payload| + |rest|
    requires s[HEADER + |ParseOne(cap, s).payload|..] == rest
    ensures var p := ParseOne(cap, s).payload;
            After(msgs, skipped, Decode(cap, s)) == After(msgs + [p], skipped + HEADER + |p|, Decode(cap, rest))
  {
    hide ParseOne, After;
    var p := ParseOne(cap, s).payload;
    AfterTwice(msgs, skipped, [p], HEADER + |p|, Decode(cap, rest));
  }

  lemma LastFrame(cap: nat, s: seq<byte>, msgs: seq<seq<byte>>, skipped: nat)
    requires !ParseOne(cap, s).Frame?
    ensures After(msgs, skipped, Decode(cap, s)) ==
              Decoded(msgs, match ParseOne(cap, s)
                            case Incomplete => Rest(s)
                            case Bad(why) => Failed(why, skipped + HEADER))
  {
    hide ParseOne;
    assert msgs + [] == msgs;
  }

  // --- The object -----------------------------------------------------------------

  class ControlSession {
    const assembler: FrameAssembler
    var inbox: seq<seq<byte>>
    var closed: bool
    var queue: seq<seq<byte>>
    var current: seq<byte>
    var currentOff: nat
    var hasCurrent: bool
    var connected: bool

    ghost predicate Valid()
      reads this, assembler, assembler.buf, assembler.header
    {
      assembler.Valid() && currentOff <= |current|
    }

    ghost function Receiving(): Receiver
      requires Valid()
      reads this, assembler, assembler.buf, assembler.header
    {
      Receiver(assembler.Pending(), assembler.poisoned, inbox)
    }

    function Sending(): Sender
      reads this
    {
      Sender(queue, current, currentOff, hasCurrent)
    }

    constructor (buffer: array<byte>)
      ensures Valid() && Receiving() == Listening && Sending() == Quiet && !closed && !connected
      ensures assembler.buf == buffer && assembler.cap == buffer.Length
      ensures fresh(assembler) && fresh(assembler.header)
    {
      assembler := new FrameAssembler(buffer, buffer.Length);
      inbox, closed := [], false;
      queue, current, currentOff, hasCurrent := [], [], 0, false;
      connected := false;
    }

    /** A chunk of stream data; chunks of other streams are ignored.  `off` is how far
        into the chunk the loop got. */
    method OnDataChunk(ours: bool, data: seq<byte>) returns (ok: bool, off: nat)
      requires Valid()
      modifies this`inbox, this`closed, assembler, assembler.buf, assembler.header
      ensures Valid()
      ensures !ours ==> ok && Receiving() == old(Receiving()) && closed == old(closed)
      ensures ours ==> Receiving() == Receive(assembler.cap, old(Receiving()), data)
      ensures ours ==> (ok <==> !assembler.poisoned || data == []) && closed == (old(closed) || !ok)
      ensures ours && !old(assembler.poisoned) && !ok ==>
                var d := Decode(assembler.cap, old(assembler.Pending()) + data);
                d.end.Failed? && |old(assembler.Pending())| + off == d.end.at
    {
      off := 0;
      if !ours {
        return true, 0;
      }
      if assembler.poisoned {
        if data != [] {
          var st, n := assembler.Push(data);
          closed := true;
          return false, n;
        }
        return true, 0;
      }
      ok, off := Deliver(data);
    }

    /** The receive loop on an assembler that has not failed. */
    method Deliver(data: seq<byte>) returns (ok: bool, off: nat)
      requires Valid() && !assembler.poisoned
      modifies this`inbox, this`closed, assembler, assembler.buf, assembler.header
      ensures Valid() && Receiving() == Receive(assembler.cap, old(Receiving()), data)
      ensures (ok <==> !assembler.poisoned) && closed == (old(closed) || !ok)
      ensures !ok ==>
                var d := Decode(assembler.cap, old(assembler.Pending()) + data);
                d.end.Failed? && |old(assembler.Pending())| + off == d.end.at
    {
      hide ParseOne, Decode, After;
      off := 0;
      ghost var cap, start := assembler.cap, old(assembler.Pending());
      ghost var msgs: seq<seq<byte>> := [];
      ghost var skipped: nat := 0;
      assert start + data[0..] == start + data;
      AfterNothing(Decode(cap, start + data));
      while off < |data|
        invariant off <= |data| && Valid() && assembler.cap == cap && closed == old(closed) && !assembler.poisoned
        invariant inbox == old(inbox) + msgs && skipped + |assembler.Pending()| == |start| + off
        invariant Decode(cap, start + data) == After(msgs, skipped, Decode(cap, assembler.Pending() + data[off..]))
      {
        ghost var s := assembler.Pending() + data[off..];
        var st, consumed := assembler.Push(data[off..]);
        off := off + consumed;
        if st == MessageReady {
          ghost var p := ParseOne(cap, s).payload;
          inbox := inbox + [assembler.buf[..assembler.msgLen]];
          NextFrame(cap, s, [] + data[off..], msgs, skipped);
          msgs, skipped := msgs + [p], skipped + HEADER + |p|;
        } else if st == ErrorCompressed || st == ErrorOversize {
          closed := true;
          LastFrame(cap, s, msgs, skipped);
          return false, off;
        } else {
          assert assembler.Pending() + data[off..] == s;
        }
      }
      assert assembler.Pending() + data[off..] == assembler.Pending();
      assembler.PendingIncomplete();
      LastFrame(cap, assembler.Pending(), msgs, skipped);
      ok := true;
    }

    method SendEnvelope(payload: seq<byte>) returns (accepted: bool)
      requires Valid()
      modifies this`queue
      ensures Valid() && (Sending(), accepted) == Enqueue(old(Sending()), connected, payload)
    {
      if |payload| > MAX_OUT_PAYLOAD {
        return false;
      }
      var frame := MakeHeader(|payload|) + payload;
      if !connected {
        return false;
      }
      if |queue| >= OUT_QUEUE_DEPTH {
        return false;
      }
      queue := queue + [frame];
      return true;
    }

    method PumpOutbound()
      requires Valid()
      modifies this
      ensures Valid() && Sending() == HandOff(old(Sending()))
      ensures inbox == old(inbox) && closed == old(closed) && connected == old(connected)
    {
      if !hasCurrent && queue != [] {
        current, queue := queue[0], queue[1..];
        currentOff := 0;
        hasCurrent := true;
      }
    }

    /** The data provider; `deferred` when no frame is in flight. */
    method DataRead(length: nat) returns (deferred: bool, bytes: seq<byte>)
      requires Valid()
      modifies this`currentOff, this`hasCurrent
      ensures Valid() && (Sending(), bytes) == Read(old(Sending()), length)
      ensures deferred <==> !old(hasCurrent)
    {
      if !hasCurrent {
        return true, [];
      }
      var remain := |current| - currentOff;
      var take := if length < remain then length else remain;
      bytes := current[currentOff..currentOff + take];
      currentOff := currentOff + take;
      if currentOff == |current| {
        hasCurrent := false;
        currentOff := 0;
      }
      deferred := false;
    }
  }
}
