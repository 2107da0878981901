/** Length-prefixed frames over a byte stream: what one Connection sends is what the other hands out. */
module Connection {
  import opened Wrappers
  import opened ByteOrder

  // ---- Frames ----

  // sizeof(NetHeadPacket): the version, a byte of alignment and the length.
  const HEAD_SIZE: nat := 6

  // SendNetMessage's bytes; the version byte is whatever the sender stores there.
  function Frame(version: bv8, body: bytes): (f: bytes)
    ensures |f| == 6 + |body|
  {
    [version, 0] + U32Bytes(|body| % U32) + body
  }

  function Frames(version: bv8, bodies: seq<bytes>): bytes {
    if bodies == [] then [] else Frames(version, bodies[..|bodies| - 1]) + Frame(version, bodies[|bodies| - 1])
  }

  // The first body in a buffer and the bytes after it, if the whole frame is there.
  function FirstFrame(buf: bytes): (r: Option<(bytes, bytes)>)
    ensures r.Some? ==> |r.value.0| + |r.value.1| + HEAD_SIZE == |buf|
  {
    if |buf| < HEAD_SIZE then None
    else
      var len := U32Of(buf[2..6]);
      if |buf| < len + HEAD_SIZE then None
      else Some((buf[HEAD_SIZE..HEAD_SIZE + len], buf[HEAD_SIZE + len..]))
  }

  lemma FrameHead(version: bv8, body: bytes, rest: bytes)
    ensures |Frame(version, body) + rest| >= HEAD_SIZE
    ensures U32Of((Frame(version, body) + rest)[2..6]) == |body| % U32
  {
    hide U32Of, U32Bytes;
    U32RoundTrip(|body| % U32);
    assert (Frame(version, body) + rest)[2..6] == U32Bytes(|body| % U32);
  }

  /** A frame is taken apart again just when its body is shorter than 2^32 bytes. */
  lemma FrameRoundTrip(version: bv8, body: bytes, rest: bytes)
    ensures FirstFrame(Frame(version, body) + rest) == Some((body, rest)) <==> |body| < U32
  {
    hide U32Of, U32Bytes;
    FrameHead(version, body, rest);
    var f := Frame(version, body) + rest;
    if |body| < U32 {
      assert f[HEAD_SIZE..HEAD_SIZE + |body|] == body && f[HEAD_SIZE + |body|..] == rest;
    }
  }

  /** A frame is the version, a zero byte, the four bytes of the length with the highest first, and the body. */
  lemma FrameAt(version: bv8, body: bytes)
    requires |body| < U32
    ensures var f, n := Frame(version, body), |body|;
            && f[0] == version && f[1] == 0 && f[6..] == body
            && ValueOf(f[2]) == n / 0x100_0000 && ValueOf(f[3]) == n / 0x1_0000 % 0x100
            && ValueOf(f[4]) == n / 0x100 % 0x100 && ValueOf(f[5]) == n % 0x100
  {
    hide ByteOf, ValueOf;
    var n := |body|;
    assert n % U32 == n;
    ByteRoundTrip(n / 0x100_0000);
    ByteRoundTrip(n / 0x1_0000 % 0x100);
    ByteRoundTrip(n / 0x100 % 0x100);
    ByteRoundTrip(n % 0x100);
  }

  // ---- A connection ----

  const CHUNK: nat := 1024

  class Conn {
    const version: bv8
    var readBuf: bytes
    var writeBuf: bytes
    var readBufList: seq<bytes>

    constructor (version: bv8)
      ensures this.version == version && readBuf == [] && writeBuf == [] && readBufList == []
    {
      this.version := version;
      readBuf, writeBuf, readBufList := [], [], [];
    }

    // evbuffer_remove: at most len bytes leave the front of the read buffer.
    method GetReadBuffer(len: nat) returns (data: bytes)
      modifies this`readBuf
      ensures data + readBuf == old(readBuf)
      ensures |data| == if len <= |old(readBuf)| then len else |old(readBuf)|
    {
      var n := if len <= |readBuf| then len else |readBuf|;
      data := readBuf[..n];
      readBuf := readBuf[n..];
    }

    /** RecvNetMessage: one whole frame moves to the list, in chunks; short of that, nothing changes. */
    method RecvNetMessage() returns (ok: bool)
      modifies this`readBuf, this`readBufList
      ensures ok == FirstFrame(old(readBuf)).Some?
      ensures (readBuf, readBufList) == Received(old(readBuf), old(readBufList))
    {
      hide U32Of;
      var readBufLen := |readBuf|;
      if readBufLen < HEAD_SIZE {
        return false;
      }
      var head := readBuf[..HEAD_SIZE];
      var pktLen := U32Of(head[2..6]);
      assert head[2..6] == readBuf[2..6];
      if readBufLen < pktLen + HEAD_SIZE {
        return false;
      }
      ghost var start := readBuf;
      var len := pktLen;
      var dropped := GetReadBuffer(HEAD_SIZE);
      var pktBody: bytes := [];
      while pktLen > 0
        invariant 0 <= pktLen <= len && |start| >= HEAD_SIZE + len
        invariant pktBody == start[HEAD_SIZE..HEAD_SIZE + len - pktLen]
        invariant readBuf == start[HEAD_SIZE + len - pktLen..]
        invariant readBufList == old(readBufList)
      {
        var want := if CHUNK <= pktLen then CHUNK else pktLen;
        var read := GetReadBuffer(want);
        if |read| == 0 {
          break;
        }
        ghost var at := HEAD_SIZE + len - pktLen;
        assert read == start[at..at + want];
        assert start[at..][want..] == start[at + want..];
        pktLen := pktLen - want;
        pktBody := pktBody + read;
      }
      readBufList := readBufList + [pktBody];
      return true;
    }

    /** ProcessReadEvent; notified tells whether the notifier's handler is called. */
    method ProcessReadEvent() returns (notified: bool)
      modifies this`readBuf, this`readBufList
      ensures notified == FirstFrame(old(readBuf)).Some?
      ensures (readBuf, readBufList) == Received(old(readBuf), old(readBufList))
    {
      notified := RecvNetMessage();
    }

    /** SendNetMessage, the buffer taking what it is given. */
    method SendNetMessage(buffer: bytes) returns (ok: bool)
      modifies this`writeBuf
      ensures ok && writeBuf == old(writeBuf) + Frame(version, buffer)
    {
      var head := [version, 0] + U32Bytes(|buffer| % U32);
      writeBuf := writeBuf + head;
      writeBuf := writeBuf + buffer;
      return true;
    }

    /** GetNetMessage. */
    method GetNetMessage() returns (ok: bool, packet: bytes)
      modifies this`readBufList
      ensures ok == (old(readBufList) != [])
      ensures ok ==> [packet] + readBufList == old(readBufList)
      ensures !ok ==> readBufList == old(readBufList)
    {
      if readBufList == [] {
        return false, [];
      }
      packet := readBufList[0];
      readBufList := readBufList[1..];
      return true, packet;
    }
  }

  // What a read event makes of the read buffer and the list.
  function Received(buf: bytes, list: seq<bytes>): (bytes, seq<bytes>) {
    match FirstFrame(buf)
    case None => (buf, list)
    case Some((body, rest)) => (rest, list + [body])
  }

  // ---- A sender, a stream and a receiver ----

  // Ghost history: everything sent and everything popped. inFlight is the sender's write buffer and the network.
  datatype Link = Link(sent: seq<bytes>, inFlight: bytes, unread: bytes, queued: seq<bytes>, popped: seq<bytes>)

  datatype Event = Send(body: bytes) | Deliver(count: nat) | Read | Pop

  const START := Link([], [], [], [], [])

  function Step(version: bv8, l: Link, e: Event): Link {
    match e
    case Send(body) => l.(sent := l.sent + [body], inFlight := l.inFlight + Frame(version, body))
    case Deliver(count) =>
      var n := if count <= |l.inFlight| then count else |l.inFlight|;
      l.(inFlight := l.inFlight[n..], unread := l.unread + l.inFlight[..n])
    case Read =>
      var (buf, list) := Received(l.unread, l.queued);
      l.(unread := buf, queued := list)
    case Pop =>
      if l.queued == [] then l else l.(queued := l.queued[1..], popped := l.popped + [l.queued[0]])
  }

  function Run(version: bv8, l: Link, events: seq<Event>): Link {
    if events == [] then l else Step(version, Run(version, l, events[..|events| - 1]), events[|events| - 1])
  }

  // Bodies are short enough for their length to be written down.
  predicate Sendable(e: Event) { e.Send? ==> |e.body| < U32 }

  // Nothing lost, added or reordered: the bodies out are a prefix of those in, and the stream holds the others.
  ghost predicate Conserved(version: bv8, l: Link) {
    var out := l.popped + l.queued;
    && out <= l.sent
    && (forall k :: 0 <= k < |l.sent| ==> |l.sent[k]| < U32)
    && l.unread + l.inFlight == Frames(version, l.sent[|out|..])
  }

  lemma {:induction false} FramesFirst(version: bv8, bodies: seq<bytes>)
    requires bodies != []
    ensures Frames(version, bodies) == Frame(version, bodies[0]) + Frames(version, bodies[1..])
  {
    var n := |bodies| - 1;
    if n > 0 {
      FramesFirst(version, bodies[..n]);
      assert bodies[..n][1..] == bodies[1..][..n - 1];
    }
  }

  lemma {:induction false} FramesConcat(version: bv8, a: seq<bytes>, b: seq<bytes>)
    ensures Frames(version, a + b) == Frames(version, a) + Frames(version, b)
  {
    hide Frame, Frames;
    FramesNone(version);
    if b == [] {
      assert a + b == a;
    } else {
      var n := |b| - 1;
      FramesConcat(version, a, b[..n]);
      assert (a + b)[..|a + b| - 1] == a + b[..n] && (a + b)[|a + b| - 1] == b[n];
      FramesLast(version, a + b);
      FramesLast(version, b);
      var x, y, z := Frames(version, a), Frames(version, b[..n]), Frame(version, b[n]);
      assert (x + y) + z == x + (y + z);
    }
  }

  lemma FramesNone(version: bv8)
    ensures Frames(version, []) == []
  {
  }

  lemma FramesLast(version: bv8, bodies: seq<bytes>)
    requires bodies != []
    ensures var n := |bodies| - 1;
            Frames(version, bodies) == Frames(version, bodies[..n]) + Frame(version, bodies[n])
  {
  }

  /** A read event takes a body exactly when the next one has arrived in full, and then it is that one. */
  lemma ReadTakesNext(version: bv8, l: Link)
    requires Conserved(version, l)
    ensures var k := |l.popped + l.queued|; var first := FirstFrame(l.unread);
            && (first.Some? <==> k < |l.sent| && HEAD_SIZE + |l.sent[k]| <= |l.unread|)
            && (first.Some? ==> first.value.0 == l.sent[k]
                                && first.value.1 + l.inFlight == Frames(version, l.sent[k + 1..]))
  {
    hide U32Of, U32Bytes, Frame;
    var k := |l.popped + l.queued|;
    var left := l.sent[k..];
    var stream := l.unread + l.inFlight;
    if left != [] {
      FramesFirst(version, left);
      assert left[1..] == l.sent[k + 1..];
      var rest := Frames(version, left[1..]);
      FrameHead(version, left[0], rest);
      FrameRoundTrip(version, left[0], rest);
      assert stream == Frame(version, left[0]) + rest;
      if |l.unread| >= HEAD_SIZE {
        assert l.unread[2..6] == stream[2..6];
        var n := HEAD_SIZE + |left[0]|;
        if |l.unread| >= n {
          assert l.unread[HEAD_SIZE..n] == stream[HEAD_SIZE..n];
          assert l.unread[n..] + l.inFlight == stream[n..];
        }
      }
    }
  }

  lemma SendConserves(version: bv8, l: Link, body: bytes)
    requires Conserved(version, l) && |body| < U32
    ensures Conserved(version, Step(version, l, Send(body)))
  {
    hide Frame;
    var left := l.sent[|l.popped + l.queued|..];
    var l' := Step(version, l, Send(body));
    FramesConcat(version, left, [body]);
    assert [body][..0] == [];
    assert Frames(version, [body]) == Frame(version, body);
    assert l'.sent[|l.popped + l.queued|..] == left + [body];
    assert l'.unread + l'.inFlight == (l.unread + l.inFlight) + Frame(version, body);
  }

  lemma ReadConserves(version: bv8, l: Link)
    requires Conserved(version, l)
    ensures var l' := Step(version, l, Read); var out := l.popped + l.queued;
            && Conserved(version, l') && l'.sent == l.sent && l'.inFlight == l.inFlight
            && l'.popped + l'.queued == if FirstFrame(l.unread).None? then out else out + [l.sent[|out|]]
  {
    hide Frame, FirstFrame, Frames;
    ReadTakesNext(version, l);
    var out := l.popped + l.queued;
    if FirstFrame(l.unread).Some? {
      var l' := Step(version, l, Read);
      assert l'.popped + l'.queued == out + [l.sent[|out|]];
    }
  }

  lemma StepConserves(version: bv8, l: Link, e: Event)
    requires Conserved(version, l) && Sendable(e)
    ensures Conserved(version, Step(version, l, e))
  {
    hide Frame, FirstFrame, Frames;
    match e
    case Send(body) =>
      SendConserves(version, l, body);
    case Deliver(count) =>
      var l' := Step(version, l, e);
      assert l'.unread + l'.inFlight == l.unread + l.inFlight;
    case Read =>
      ReadConserves(version, l);
    case Pop =>
      var l' := Step(version, l, e);
      assert l'.popped + l'.queued == l.popped + l.queued;
  }

  /** In every run of sends, deliveries, read events and pops: the bodies popped and queued are the first ones
      sent, in order, and the bytes unread and in flight are the frames of all the others. */
  lemma {:induction false} RunConserves(version: bv8, events: seq<Event>)
    requires forall k :: 0 <= k < |events| ==> Sendable(events[k])
    ensures Conserved(version, Run(version, START, events))
  {
    if events != [] {
      RunConserves(version, events[..|events| - 1]);
      StepConserves(version, Run(version, START, events[..|events| - 1]), events[|events| - 1]);
    }
  }

  /** Re-framing what is out, followed by the stream, is the whole sent stream. */
  lemma StreamReassembled(version: bv8, l: Link)
    requires Conserved(version, l)
    ensures Frames(version, l.popped + l.queued) + l.unread + l.inFlight == Frames(version, l.sent)
  {
    var out := l.popped + l.queued;
    FramesConcat(version, out, l.sent[|out|..]);
    assert out + l.sent[|out|..] == l.sent;
    assert Frames(version, out) + l.unread + l.inFlight == Frames(version, out) + (l.unread + l.inFlight);
  }

  function Reads(n: nat): (r: seq<Event>)
    ensures |r| == n
  {
    seq(n, _ => Read)
  }

  /** Each read event takes one body: with everything delivered, as many events as bodies are missing
      take them all, and fewer leave exactly the rest. */
  lemma {:induction false} ReadsDrain(version: bv8, l: Link, n: nat)
    requires Conserved(version, l) && l.inFlight == []
    ensures var l' := Run(version, l, Reads(n));
            var have, all := |l.popped + l.queued|, |l.sent|;
            && Conserved(version, l') && l'.inFlight == [] && l'.sent == l.sent
            && |l'.popped + l'.queued| == if have + n <= all then have + n else all
  {
    hide FirstFrame, Frame, Step;
    if n > 0 {
      ReadsDrain(version, l, n - 1);
      assert Reads(n)[..n - 1] == Reads(n - 1);
      var mid := Run(version, l, Reads(n - 1));
      ReadConserves(version, mid);
      ReadTakesNext(version, mid);
      NextHasArrived(version, mid);
    }
  }

  lemma NextHasArrived(version: bv8, l: Link)
    requires Conserved(version, l) && l.inFlight == []
    ensures var k := |l.popped + l.queued|; k < |l.sent| ==> HEAD_SIZE + |l.sent[k]| <= |l.unread|
  {
    hide Frame;
    var k := |l.popped + l.queued|;
    if k < |l.sent| {
      FramesFirst(version, l.sent[k..]);
      assert |l.unread| == |l.unread + l.inFlight|;
    }
  }
}
