/** The length-prefixed tunnel between a local WireGuard socket and a websocket.

    Two goroutines write to the websocket under one mutex: one frames datagrams, one sends
    zero-length keepalive frames. The peer reads whatever chunks arrive. The module shows
    that every interleaving of the writers and every chunking of the stream decodes to the
    datagrams, in order. */
module WireGuardFraming {

  newtype byte = x: int | 0 <= x < 256

  type Bytes = seq<byte>

  /** Size of the payload part of both buffers. */
  const MAX_PAYLOAD: int := 64 * 1024

  // ------------------------------------------------------------- the format

  function BigEndian(n: nat): Bytes
    requires n < 0x1_0000_0000
  {
    [(n / 0x100_0000) as byte, (n / 0x1_0000 % 0x100) as byte,
     (n / 0x100 % 0x100) as byte, (n % 0x100) as byte]
  }

  function FromBigEndian(b: Bytes): nat
    requires |b| == 4
  {
    ((b[0] as int * 0x100 + b[1] as int) * 0x100 + b[2] as int) * 0x100 + b[3] as int
  }

  lemma BigEndianRoundTrip(n: nat)
    requires n < 0x1_0000_0000
    ensures FromBigEndian(BigEndian(n)) == n
  {
    assert n / 0x1_0000 == n / 0x100_0000 * 0x100 + n / 0x1_0000 % 0x100;
    assert n / 0x100 == n / 0x1_0000 * 0x100 + n / 0x100 % 0x100;
    assert n == n / 0x100 * 0x100 + n % 0x100;
  }

  type Payload = p: Bytes | |p| <= MAX_PAYLOAD

  /** A keepalive is the frame of the empty payload. */
  function Frame(p: Payload): Bytes {
    BigEndian(|p|) + p
  }

  function Encode(payloads: seq<Payload>): Bytes {
    if payloads == [] then [] else Encode(payloads[..|payloads| - 1]) + Frame(payloads[|payloads| - 1])
  }

  function NonEmpty(payloads: seq<Payload>): seq<Payload> {
    if payloads == [] then []
    else (if payloads[0] == [] then [] else [payloads[0]]) + NonEmpty(payloads[1..])
  }

  // ----------------------------------------------- writers sharing one mutex

  datatype Writer = DatagramWriter | KeepaliveWriter

  /** `wire` holds the bytes the websocket took. While the mutex is held for a write, `frame`
      is the buffer passed to it and `sent` how much was taken. `accepted` logs the payloads
      in the order the writers obtained the mutex. A websocket whose write failed takes
      nothing more. */
  datatype Link = Link(
    wire: Bytes,
    holder: Lock,
    broken: bool,
    accepted: seq<Payload>)

  datatype Lock = Free | Held(writer: Writer, frame: Bytes, sent: nat)

  datatype Event =
    | LockForDatagram(datagram: Bytes)     // a datagram was read and the mutex obtained
    | LockForKeepalive(idle: bool)         // a tick obtained the mutex; idle: lastIO over a second ago
    | Taken(count: nat)                    // the websocket takes part of the write in progress
    | WriteFails                           // the write in progress returns an error
    | Unlock                               // the write is complete

  /** ReadFrom fills at most the payload part of the buffer. */
  function Read(datagram: Bytes): Payload {
    if |datagram| <= MAX_PAYLOAD then datagram else datagram[..MAX_PAYLOAD]
  }

  /** One step of any goroutine; an event that the current state rules out changes nothing. */
  function Step(s: Link, e: Event): Link {
    match e
    case LockForDatagram(d) =>
      if s.holder.Free? then Begin(s, DatagramWriter, Read(d)) else s
    case LockForKeepalive(idle) =>
      if s.holder.Free? && idle then Begin(s, KeepaliveWriter, []) else s
    case Taken(n) =>
      if s.holder.Held? && !s.broken && s.holder.sent <= s.holder.sent + n <= |s.holder.frame| then
        s.(wire := s.wire + s.holder.frame[s.holder.sent..s.holder.sent + n],
           holder := s.holder.(sent := s.holder.sent + n))
      else s
    case WriteFails =>
      if s.holder.Held? then s.(holder := Free, broken := true) else s
    case Unlock =>
      if s.holder.Held? && s.holder.sent == |s.holder.frame| then s.(holder := Free) else s
  }

  /** Obtaining the mutex and starting the write. */
  function Begin(s: Link, writer: Writer, p: Payload): Link {
    if s.broken then s
    else s.(holder := Held(writer, Frame(p), 0), accepted := s.accepted + [p])
  }

  function Steps(s: Link, events: seq<Event>): Link {
    if events == [] then s
    else Step(Steps(s, events[..|events| - 1]), events[|events| - 1])
  }

  const START := Link([], Free, false, [])

  /** Whole frames, then at most one unfinished frame: the one being written under the mutex
      or the one whose write failed. */
  ghost predicate WholeFrames(s: Link) {
    match s.holder
    case Held(_, frame, sent) =>
      !s.broken && s.accepted != [] && sent <= |frame|
      && frame == Frame(s.accepted[|s.accepted| - 1])
      && s.wire == Encode(s.accepted[..|s.accepted| - 1]) + frame[..sent]
    case Free =>
      if s.broken then
        s.accepted != [] && exists sent :: Cut(s, sent)
      else s.wire == Encode(s.accepted)
  }

  ghost predicate Cut(s: Link, sent: nat)
    requires s.accepted != []
  {
    var frame := Frame(s.accepted[|s.accepted| - 1]);
    sent <= |frame| && s.wire == Encode(s.accepted[..|s.accepted| - 1]) + frame[..sent]
  }

  lemma BeginKeepsWholeFrames(s: Link, writer: Writer, p: Payload)
    requires WholeFrames(s) && s.holder.Free?
    ensures WholeFrames(Begin(s, writer, p))
  {
    assert (s.accepted + [p])[..|s.accepted|] == s.accepted;
    assert Frame(p)[..0] == [];
    assert s.wire + [] == s.wire;
  }

  lemma TakenKeepsWholeFrames(s: Link, n: nat)
    requires WholeFrames(s) && s.holder.Held? && s.holder.sent + n <= |s.holder.frame|
    ensures WholeFrames(Step(s, Taken(n)))
  {
    var frame, k, init := s.holder.frame, s.holder.sent, Encode(s.accepted[..|s.accepted| - 1]);
    assert frame[..k] + frame[k..k + n] == frame[..k + n];
    assert init + frame[..k] + frame[k..k + n] == init + (frame[..k] + frame[k..k + n]);
  }

  lemma StepKeepsWholeFrames(s: Link, e: Event)
    requires WholeFrames(s)
    ensures WholeFrames(Step(s, e))
  {
    var t := Step(s, e);
    match e
    case LockForDatagram(d) =>
      if s.holder.Free? { BeginKeepsWholeFrames(s, DatagramWriter, Read(d)); }
    case LockForKeepalive(idle) =>
      if s.holder.Free? { BeginKeepsWholeFrames(s, KeepaliveWriter, []); }
    case Taken(n) =>
      if t != s { TakenKeepsWholeFrames(s, n); }
    case WriteFails =>
      if s.holder.Held? { assert Cut(t, s.holder.sent); }
    case Unlock =>
      if t != s { assert s.holder.frame[..s.holder.sent] == s.holder.frame; }
  }

  /** After any interleaving the stream is whole frames in lock order, plus at most one
      unfinished frame; it is only whole frames whenever no write is in progress or failed. */
  lemma {:induction false} EveryInterleavingKeepsFrames(events: seq<Event>)
    ensures var s := Steps(START, events);
            && WholeFrames(s)
            && (s.holder.Free? && !s.broken ==> s.wire == Encode(s.accepted))
  {
    if events != [] {
      EveryInterleavingKeepsFrames(events[..|events| - 1]);
      StepKeepsWholeFrames(Steps(START, events[..|events| - 1]), events[|events| - 1]);
    }
  }

  // ------------------------------------------------------- one frame, spelled out

  lemma NetworkOrder(n: nat)
    requires n < 0x1_0000_0000
    ensures var b := BigEndian(n);
            |b| == 4 && b[0] as int * 16777216 + b[1] as int * 65536 + b[2] as int * 256 + b[3] as int == n
  {
    BigEndianRoundTrip(n);
  }

  /** A datagram of at most 65536 bytes whose writer gets the mutex, is let write and unlocks: its
      length in network order, then its bytes, go out, and nothing else. */
  lemma DatagramGoesOut(s: Link, d: Bytes)
    requires s.holder.Free? && !s.broken && |d| <= 65536
    ensures var t := Step(Step(Step(s, LockForDatagram(d)), Taken(|d| + 4)), Unlock);
            && t.holder.Free? && !t.broken && t.accepted == s.accepted + [d]
            && |t.wire| == |s.wire| + 4 + |d| && t.wire[..|s.wire|] == s.wire && t.wire[|s.wire| + 4..] == d
            && var b := t.wire[|s.wire|..|s.wire| + 4];
               b[0] as int * 16777216 + b[1] as int * 65536 + b[2] as int * 256 + b[3] as int == |d|
  {
    NetworkOrder(|d|);
    var frame := Frame(d);
    assert frame[0..|d| + 4] == frame && |frame| == |d| + 4;
    var t := Step(Step(Step(s, LockForDatagram(d)), Taken(|d| + 4)), Unlock);
    assert t.wire == s.wire + frame;
    assert t.wire[|s.wire|..|s.wire| + 4] == BigEndian(|d|);
    hide BigEndian;
  }

  /** An idle tick sends four zero bytes; a tick that is not idle sends nothing. */
  lemma KeepaliveGoesOut(s: Link)
    requires s.holder.Free? && !s.broken
    ensures Step(s, LockForKeepalive(false)) == s
    ensures var t := Step(Step(Step(s, LockForKeepalive(true)), Taken(4)), Unlock);
            t.holder.Free? && !t.broken && t.wire == s.wire + [0, 0, 0, 0]
  {
    assert Frame([]) == [0, 0, 0, 0];
    assert Frame([])[0..4] == Frame([]);
  }

  /** While one writer has the mutex the other gets nowhere, and unlocking waits for the whole frame. */
  lemma MutexExcludes(s: Link, e: Event)
    requires s.holder.Held? && (e.LockForDatagram? || e.LockForKeepalive? || (e.Unlock? && s.holder.sent < |s.holder.frame|))
    ensures Step(s, e) == s
  {
  }

  // ------------------------------------------------------------- the reader

  /** What a reader made of the bytes so far. `rest` waits for more bytes. */
  datatype Decoded = Decoded(payloads: seq<Payload>, rest: Bytes, cancelled: bool)

  function Decode(stream: Bytes): Decoded
    decreases |stream|
  {
    if |stream| < 4 then Decoded([], stream, false)
    else
      var length := FromBigEndian(stream[..4]);
      if length > MAX_PAYLOAD then Decoded([], stream, true)
      else if |stream| < 4 + length then Decoded([], stream, false)
      else
        var more := Decode(stream[4 + length..]);
        if length == 0 then more
        else more.(payloads := [stream[4..4 + length]] + more.payloads)
  }

  /** A frame of up to 65536 bytes is read; a longer one ends the connection. */
  lemma ReadsExactly(stream: Bytes)
    requires |stream| >= 4
    ensures var length := stream[0] as int * 16777216 + stream[1] as int * 65536 + stream[2] as int * 256 + stream[3] as int;
            && (length > 65536 ==> Decode(stream) == Decoded([], stream, true))
            && (0 < length <= 65536 && |stream| >= 4 + length ==>
                  Decode(stream).payloads != [] && Decode(stream).payloads[0] == stream[4..4 + length])
  {
  }

  /** The reader's state after one more chunk has arrived. */
  function Feed(d: Decoded, chunk: Bytes): Decoded {
    if d.cancelled then d.(rest := d.rest + chunk)
    else
      var more := Decode(d.rest + chunk);
      more.(payloads := d.payloads + more.payloads)
  }

  function FeedAll(chunks: seq<Bytes>): Decoded {
    if chunks == [] then Decoded([], [], false)
    else Feed(FeedAll(chunks[..|chunks| - 1]), chunks[|chunks| - 1])
  }

  function Concat(chunks: seq<Bytes>): Bytes {
    if chunks == [] then [] else Concat(chunks[..|chunks| - 1]) + chunks[|chunks| - 1]
  }

  lemma {:induction false} DecodeResumes(a: Bytes, b: Bytes)
    ensures Decode(a + b) == Feed(Decode(a), b)
    decreases |a|
  {
    hide FromBigEndian;
    var s := a + b;
    if |a| >= 4 {
      assert s[..4] == a[..4];
      var length := FromBigEndian(a[..4]);
      if length <= MAX_PAYLOAD && 4 + length <= |a| {
        assert s[4 + length..] == a[4 + length..] + b;
        assert s[4..4 + length] == a[4..4 + length];
        DecodeResumes(a[4 + length..], b);
      }
    }
  }

  /** How the stream is cut into chunks makes no difference. */
  lemma {:induction false} ChunkingIrrelevant(chunks: seq<Bytes>)
    ensures FeedAll(chunks) == Decode(Concat(chunks))
  {
    if chunks != [] {
      ChunkingIrrelevant(chunks[..|chunks| - 1]);
      DecodeResumes(Concat(chunks[..|chunks| - 1]), chunks[|chunks| - 1]);
    }
  }

  lemma FramePrefix(p: Payload, n: nat)
    requires n <= |Frame(p)|
    ensures n < |Frame(p)| ==> Decode(Frame(p)[..n]) == Decoded([], Frame(p)[..n], false)
    ensures Decode(Frame(p)) == Decoded(NonEmpty([p]), [], false)
  {
    var f := Frame(p);
    BigEndianRoundTrip(|p|);
    assert f[..4] == BigEndian(|p|) && f[4..4 + |p|] == p && f[4 + |p|..] == [];
    if 4 <= n {
      assert f[..n][..4] == f[..4];
    }
    assert [p][1..] == [];
  }

  lemma {:induction false} NonEmptyAppend(a: seq<Payload>, b: seq<Payload>)
    ensures NonEmpty(a + b) == NonEmpty(a) + NonEmpty(b)
  {
    if a == [] {
      assert a + b == b;
    } else {
      assert (a + b)[1..] == a[1..] + b;
      NonEmptyAppend(a[1..], b);
    }
  }

  lemma {:induction false} DecodeWholeFrames(payloads: seq<Payload>)
    ensures Decode(Encode(payloads)) == Decoded(NonEmpty(payloads), [], false)
  {
    if payloads != [] {
      var init, p := payloads[..|payloads| - 1], payloads[|payloads| - 1];
      DecodeWholeFrames(init);
      FramePrefix(p, 0);
      DecodeResumes(Encode(init), Frame(p));
      assert init + [p] == payloads;
      NonEmptyAppend(init, [p]);
      assert [] + Frame(p) == Frame(p);
    }
  }

  /** The round trip under concurrency. For every interleaving of datagram and keepalive
      writes, broken off or not, and every chunking of what the websocket took, the reader
      has exactly the non-empty datagrams in the order they obtained the mutex, except that
      the one still being written, or cut off by a failed write, may be missing. */
  lemma RoundTrip(events: seq<Event>, chunks: seq<Bytes>)
    requires Concat(chunks) == Steps(START, events).wire
    ensures var s, d := Steps(START, events), FeedAll(chunks);
            && !d.cancelled
            && (s.holder.Free? && !s.broken ==> d == Decoded(NonEmpty(s.accepted), [], false))
            && (d.payloads == NonEmpty(s.accepted)
                || (s.accepted != [] && d.payloads == NonEmpty(s.accepted[..|s.accepted| - 1])))
  {
    var s := Steps(START, events);
    ChunkingIrrelevant(chunks);
    EveryInterleavingKeepsFrames(events);
    DecodeWholeFrames(s.accepted);
    if s.holder.Held? {
      UnfinishedFrame(s, s.holder.sent);
    } else if s.broken {
      var sent :| Cut(s, sent);
      UnfinishedFrame(s, sent);
    }
  }

  lemma DecodeUnfinished(init: seq<Payload>, p: Payload, sent: nat)
    requires sent <= |Frame(p)|
    ensures var d := Decode(Encode(init) + Frame(p)[..sent]);
            !d.cancelled
            && d.payloads == NonEmpty(init) + (if sent == |Frame(p)| then NonEmpty([p]) else [])
  {
    var part := Frame(p)[..sent];
    DecodeWholeFrames(init);
    DecodeResumes(Encode(init), part);
    FramePrefix(p, sent);
    hide Encode, NonEmpty, Frame;
    assert [] + part == part;
    assert sent == |Frame(p)| ==> part == Frame(p);
  }

  lemma UnfinishedFrame(s: Link, sent: nat)
    requires s.accepted != [] && Cut(s, sent)
    ensures var d := Decode(s.wire);
            !d.cancelled && (d.payloads == NonEmpty(s.accepted)
                             || d.payloads == NonEmpty(s.accepted[..|s.accepted| - 1]))
  {
    var init, p := s.accepted[..|s.accepted| - 1], s.accepted[|s.accepted| - 1];
    assert init + [p] == s.accepted;
    DecodeUnfinished(init, p, sent);
    NonEmptyAppend(init, [p]);
    hide Decode, Encode, NonEmpty, Frame;
    assert NonEmpty(init) + [] == NonEmpty(init);
  }

  lemma KeepaliveIsSilent()
    ensures NonEmpty([[]]) == []
  {
    var keepalive: seq<Payload> := [[]];
    assert keepalive[1..] == [];
  }

  /** Every datagram of at most 64 KiB is accepted as it is; the log keeps their order. */
  lemma {:induction false} AcceptedAreTheDatagrams(events: seq<Event>)
    ensures NonEmpty(Steps(START, events).accepted) == NonEmpty(Obtained(START, events))
  {
    if events != [] {
      var init, e := events[..|events| - 1], events[|events| - 1];
      AcceptedAreTheDatagrams(init);
      var s := Steps(START, init);
      assert Obtained(START, init) + [] == Obtained(START, init);
      if e.LockForKeepalive? && s.holder.Free? && e.idle && !s.broken {
        NonEmptyAppend(s.accepted, [[]]);
        KeepaliveIsSilent();
      } else if e.LockForDatagram? && s.holder.Free? && !s.broken {
        NonEmptyAppend(s.accepted, [Read(e.datagram)]);
        NonEmptyAppend(Obtained(START, init), [Read(e.datagram)]);
      }
    }
  }

  /** The datagrams whose writer obtained the mutex of a working websocket. */
  function Obtained(s: Link, events: seq<Event>): seq<Payload> {
    if events == [] then []
    else
      var init, e := events[..|events| - 1], events[|events| - 1];
      var before := Steps(s, init);
      Obtained(s, init)
      + (if e.LockForDatagram? && before.holder.Free? && !before.broken then [Read(e.datagram)] else [])
  }

  // ------------------------------------------------------ the reading loop

  /** The frames handed on: those read while a local peer address was known. */
  function Delivered(payloads: seq<Payload>, known: nat -> bool): seq<Payload> {
    if payloads == [] then []
    else Delivered(payloads[..|payloads| - 1], known)
         + (if known(|payloads| - 1) then [payloads[|payloads| - 1]] else [])
  }

  /** All of them while one always is, none while none ever is. */
  lemma {:induction false} DeliveredMeans(payloads: seq<Payload>, known: nat -> bool)
    ensures (forall k: nat :: k < |payloads| ==> known(k)) ==> Delivered(payloads, known) == payloads
    ensures (forall k: nat :: k < |payloads| ==> !known(k)) ==> Delivered(payloads, known) == []
  {
    if payloads != [] {
      DeliveredMeans(payloads[..|payloads| - 1], known);
      assert payloads[..|payloads| - 1] + [payloads[|payloads| - 1]] == payloads;
    }
  }

  function LengthAt(stream: Bytes, position: nat): nat
    requires position + 4 <= |stream|
  {
    FromBigEndian(stream[position..position + 4])
  }

  /** A whole frame stands at this position of the stream. */
  predicate FrameAt(stream: Bytes, position: nat) {
    position + 4 <= |stream|
    && LengthAt(stream, position) <= MAX_PAYLOAD
    && position + 4 + LengthAt(stream, position) <= |stream|
  }

  lemma DecodeAt(stream: Bytes, position: nat)
    requires position <= |stream|
    ensures var here := Decode(stream[position..]);
            if FrameAt(stream, position) then
              var length := LengthAt(stream, position);
              var next := position + 4 + length;
              var more := Decode(stream[next..]);
              here == if length == 0 then more
                      else more.(payloads := [stream[position + 4..next]] + more.payloads)
            else here.payloads == [] && here.rest == stream[position..]
  {
    var left := stream[position..];
    if position + 4 <= |stream| {
      assert left[..4] == stream[position..position + 4];
      var length := FromBigEndian(left[..4]);
      if FrameAt(stream, position) {
        assert left[4..4 + length] == stream[position + 4..position + 4 + length];
        assert left[4 + length..] == stream[position + 4 + length..];
      }
    }
  }

  /** `read` are the payloads of the frames before `position`. */
  ghost predicate ReadUpTo(stream: Bytes, position: nat, read: seq<Payload>) {
    position <= |stream|
    && Decode(stream).payloads == read + Decode(stream[position..]).payloads
    && Decode(stream).rest == Decode(stream[position..]).rest
  }

  lemma ReadOneFrame(stream: Bytes, position: nat, length: nat, read: seq<Payload>)
    requires ReadUpTo(stream, position, read) && FrameAt(stream, position)
    requires length == LengthAt(stream, position)
    ensures length == 0 ==> ReadUpTo(stream, position + 4, read)
    ensures length > 0 ==>
              ReadUpTo(stream, position + 4 + length, read + [stream[position + 4..position + 4 + length]])
  {
    DecodeAt(stream, position);
    var payload := stream[position + 4..position + 4 + length];
    var later := Decode(stream[position + 4 + length..]).payloads;
    assert read + ([payload] + later) == (read + [payload]) + later;
  }

  lemma ReadNoMore(stream: Bytes, position: nat, read: seq<Payload>)
    requires ReadUpTo(stream, position, read) && !FrameAt(stream, position)
    ensures Decode(stream).payloads == read && Decode(stream).rest == stream[position..]
  {
    DecodeAt(stream, position);
    assert read + [] == read;
  }

  lemma DeliverOneMore(read: seq<Payload>, payload: Payload, known: nat -> bool)
    ensures Delivered(read + [payload], known)
         == Delivered(read, known) + (if known(|read|) then [payload] else [])
  {
    assert (read + [payload])[..|read|] == read;
  }

  /** websocketToWireGuard over the bytes that arrive before the connection ends: reads a
      length, drops a keepalive, refuses an oversized frame, forwards a payload to the last
      known peer. `known(k)` says whether one was known when payload k had been read. */
  method WebsocketToWireGuard(stream: Bytes, known: nat -> bool)
    returns (udp: seq<Payload>, position: nat)
    ensures udp == Delivered(Decode(stream).payloads, known)
    ensures position <= |stream| && stream[position..] == Decode(stream).rest
  {
    udp, position := [], 0;
    var count := 0;
    ghost var read: seq<Payload> := [];
    assert stream[0..] == stream && [] + Decode(stream).payloads == Decode(stream).payloads;
    hide Decode, FromBigEndian;
    while FrameAt(stream, position)
      invariant ReadUpTo(stream, position, read) && count == |read|
      invariant udp == Delivered(read, known)
      decreases |stream| - position
    {
      var length := LengthAt(stream, position);
      ReadOneFrame(stream, position, length, read);
      if length > 0 {
        var payload := stream[position + 4..position + 4 + length];
        DeliverOneMore(read, payload, known);
        if known(count) {
          udp := udp + [payload];
        }
        read, count := read + [payload], count + 1;
      }
      position := position + 4 + length;
    }
    ReadNoMore(stream, position, read);
  }
}
