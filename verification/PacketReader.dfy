/** The incremental reader of src/transceiver/packet_reader.rs. */
module PacketReaders {
  import opened Wrappers
  import opened ByteIo
  import opened Packets
  import opened RoundTrips
  import opened Transports
  import Codec

  const MAX_PACKET_SIZE: nat := 512_000_000

  /** Total size of a packet, and the offset at which its body starts. */
  datatype SizeInfo = SizeInfo(size: nat, startOffset: nat)

  // ----- Splitting a stream that is entirely available -----

  function ParseSize(s: seq<byte>): (r: Result<Option<SizeInfo>, DecodeError>)
    ensures r.Ok? && r.value.Some? ==> 2 <= r.value.value.startOffset <= |s|
    ensures r.Ok? && r.value.Some? ==> r.value.value.startOffset <= r.value.value.size <= MAX_PACKET_SIZE
  {
    match ParseLength(s, 1)
    case None => Ok(None)
    case Some((len, end)) =>
      if len + end > MAX_PACKET_SIZE then Err(ReachedMaxSize) else Ok(Some(SizeInfo(len + end, end)))
  }

  /** `s` starts with a whole packet of `n` bytes. */
  predicate StartsWithFrame(s: seq<byte>, n: nat) {
    ParseSize(s).Ok? && ParseSize(s).value.Some? && ParseSize(s).value.value.size == n <= |s|
  }

  /** One packet and nothing else. */
  predicate IsFrame(f: seq<byte>) {
    StartsWithFrame(f, |f|)
  }

  function Flatten(fs: seq<seq<byte>>): seq<byte> {
    if fs == [] then [] else Flatten(fs[..|fs| - 1]) + fs[|fs| - 1]
  }

  /** The packets of a stream and the bytes that follow the last whole one. */
  function Split(s: seq<byte>): (r: (seq<seq<byte>>, seq<byte>))
    decreases |s|
  {
    match ParseSize(s)
    case Ok(Some(info)) =>
      if info.size <= |s| then
        var (fs, rest) := Split(s[info.size..]);
        ([s[..info.size]] + fs, rest)
      else ([], s)
    case _ => ([], s)
  }

  function DecodeFrame(f: seq<byte>): Result<Packet, DecodeError>
    requires IsFrame(f)
  {
    match ClientDecode(f[0], f[ParseSize(f).value.value.startOffset..])
    case Ok((p, _)) => Ok(p)
    case Err(e) => Err(e)
  }

  // ----- Facts about the length field -----

  lemma {:induction false} ParseLengthStable(s: seq<byte>, more: seq<byte>, pos: nat)
    requires ParseLength(s, pos).Some?
    ensures ParseLength(s + more, pos) == ParseLength(s, pos)
    decreases |s| - pos
  {
    if s[pos] >= 128 {
      ParseLengthStable(s, more, pos + 1);
    }
  }

  lemma {:induction false} ParseLengthLocal(s: seq<byte>, more: seq<byte>, pos: nat)
    requires ParseLength(s + more, pos).Some? && ParseLength(s + more, pos).value.1 <= |s|
    ensures ParseLength(s, pos) == ParseLength(s + more, pos)
    decreases |s| - pos
  {
    if s[pos] >= 128 {
      ParseLengthLocal(s, more, pos + 1);
    }
  }

  /** Once the size is known, further bytes do not change it. */
  lemma ParseSizeStable(s: seq<byte>, more: seq<byte>)
    requires ParseSize(s).Ok? && ParseSize(s).value.Some?
    ensures ParseSize(s + more) == ParseSize(s)
  {
    ParseLengthStable(s, more, 1);
  }

  /** Cutting a whole packet off keeps its size readable. */
  lemma FrameIsLocal(s: seq<byte>, n: nat)
    requires StartsWithFrame(s, n)
    ensures IsFrame(s[..n]) && ParseSize(s[..n]) == ParseSize(s)
  {
    assert s == s[..n] + s[n..];
    ParseLengthLocal(s[..n], s[n..], 1);
  }

  /** With at most five bytes, as the reader holds when it parses, four length bytes cannot
  exceed the limit: the "maximum packet size" error is unreachable. */
  lemma SizeLimitUnreachable(s: seq<byte>)
    requires |s| <= MAX_HEADER_SIZE
    ensures ParseSize(s).Ok?
    ensures ParseSize(s).value.Some? ==> ParseSize(s).value.value.size < MAX_BODY + MAX_HEADER_SIZE
  {
    if ParseLength(s, 1).Some? {
      ParseLengthBound(s, 1);
      assert Pow128(1) == 128 && Pow128(2) == 16384 && Pow128(3) == 2097152 && Pow128(4) == MAX_BODY;
      assert 1 <= ParseLength(s, 1).value.1 - 1 <= 4;
    }
  }

  function Pow128(n: nat): nat {
    if n == 0 then 1 else 128 * Pow128(n - 1)
  }

  lemma {:induction false} ParseLengthBound(s: seq<byte>, pos: nat)
    requires ParseLength(s, pos).Some?
    ensures ParseLength(s, pos).value.0 < Pow128(ParseLength(s, pos).value.1 - pos)
    decreases |s| - pos
  {
    if s[pos] >= 128 {
      ParseLengthBound(s, pos + 1);
    }
  }

  /** Incomplete within five bytes means that the buffer is short or that every length byte
  carries the continuation bit. */
  lemma {:induction false} IncompleteMeansContinuation(s: seq<byte>, pos: nat)
    ensures ParseLength(s, pos).None? <==> forall i :: pos <= i < |s| ==> s[i] >= 128
    decreases |s| - pos
  {
    if pos < |s| {
      IncompleteMeansContinuation(s, pos + 1);
    }
  }

  // ----- The splitter -----

  lemma {:induction false} FlattenAppend(fs: seq<seq<byte>>, gs: seq<seq<byte>>)
    ensures Flatten(fs + gs) == Flatten(fs) + Flatten(gs)
    decreases |gs|
  {
    if gs == [] {
      assert fs + gs == fs;
    } else {
      var n := |gs| - 1;
      assert (fs + gs)[..|fs + gs| - 1] == fs + gs[..n];
      FlattenAppend(fs, gs[..n]);
      Assoc(Flatten(fs), Flatten(gs[..n]), gs[n]);
    }
  }

  lemma SplitOne(f: seq<byte>, s: seq<byte>)
    requires IsFrame(f)
    ensures Split(f + s) == ([f] + Split(s).0, Split(s).1)
  {
    ParseSizeStable(f, s);
    assert (f + s)[..|f|] == f && (f + s)[|f|..] == s;
  }

  /** Whole packets at the front come out unchanged and in order. */
  lemma {:induction false} SplitFrames(fs: seq<seq<byte>>, s: seq<byte>)
    requires forall f <- fs :: IsFrame(f)
    ensures Split(Flatten(fs) + s) == (fs + Split(s).0, Split(s).1)
    decreases |fs|
  {
    if fs == [] {
      assert Flatten(fs) + s == s && fs + Split(s).0 == Split(s).0;
    } else {
      var n := |fs| - 1;
      Assoc(Flatten(fs[..n]), fs[n], s);
      SplitFrames(fs[..n], fs[n] + s);
      SplitOne(fs[n], s);
      assert fs[..n] + ([fs[n]] + Split(s).0) == fs + Split(s).0;
    }
  }

  /** A stream made of whole packets splits into exactly those packets. */
  lemma SplitInvertsFlatten(fs: seq<seq<byte>>)
    requires forall f <- fs :: IsFrame(f)
    ensures Split(Flatten(fs)) == (fs, [])
  {
    SplitFrames(fs, []);
    assert Flatten(fs) + [] == Flatten(fs) && fs + [] == fs;
  }

  /** A wire image is one frame, and it decodes to the packet that was encoded. */
  lemma WireIsFrame(p: WirePacket)
    ensures IsFrame(Wire(p)) && ParseSize(Wire(p)).value.value.startOffset <= MAX_HEADER_SIZE
    ensures ForClient(p) ==> DecodeFrame(Wire(p)) == Ok(Normal(p))
  {
    var body := Body(p);
    var len := RemainingLength(|body|);
    var w := Wire(p);
    LengthFieldSize(|body|);
    assert w[1..1 + |len|] == len;
    ParseInvertsLength(|body|, w, 1);
    assert w[1 + |len|..] == body;
    if ForClient(p) {
      ClientRoundTrip(p);
    }
  }

  // ----- The reader -----

  datatype ReadState = Incoming(packet: Packet) | ConnectionClosed | NeedMoreData

  /** The loop over the length field. */
  method ParseLengthField(bytes: seq<byte>) returns (r: Option<(nat, nat)>)
    ensures r == ParseLength(bytes, 1)
  {
    var pos: nat, ret: nat, weight: nat := 1, 0, 1;
    while pos < |bytes| && bytes[pos] >= 128
      invariant 1 <= pos
      invariant ParseLength(bytes, 1) == Shifted(ret, weight, ParseLength(bytes, pos))
      decreases |bytes| - pos
    {
      LengthTurn(bytes, pos, ret, weight);
      ret, pos, weight := ret + Scaled(bytes[pos] - 128, weight), pos + 1, weight * 128;
    }
    r := if pos < |bytes| then Some((ret + Scaled(bytes[pos], weight), pos + 1)) else None;
  }

  function Scaled(digit: nat, weight: nat): nat {
    digit * weight
  }

  /** One turn of that loop. */
  lemma LengthTurn(bytes: seq<byte>, pos: nat, ret: nat, weight: nat)
    requires pos < |bytes| && bytes[pos] >= 128
    ensures Shifted(ret, weight, ParseLength(bytes, pos)) ==
            Shifted(ret + Scaled(bytes[pos] - 128, weight), weight * 128, ParseLength(bytes, pos + 1))
  {
    ShiftStep(ret, weight, bytes[pos] - 128, ParseLength(bytes, pos + 1));
  }

  method ParsePacketSize(bytes: seq<byte>) returns (r: Result<Option<SizeInfo>, DecodeError>)
    ensures r == ParseSize(bytes)
  {
    var field := ParseLengthField(bytes);
    if field.None? {
      return Ok(None);
    }
    var (len, end) := field.value;
    if len + end > MAX_PACKET_SIZE {
      return Err(ReachedMaxSize);
    }
    r := Ok(Some(SizeInfo(len + end, end)));
  }

  ghost function Shifted(ret: nat, weight: nat, rest: Option<(nat, nat)>): Option<(nat, nat)> {
    match rest case None => None case Some((v, end)) => Some((ret + Scaled(v, weight), end))
  }

  lemma ShiftStep(ret: nat, weight: nat, digit: nat, rest: Option<(nat, nat)>)
    ensures rest.Some? ==>
              Shifted(ret, weight, Some((digit + 128 * rest.value.0, rest.value.1))) ==
              Shifted(ret + digit * weight, weight * 128, rest)
  {
    if rest.Some? {
      var v := rest.value.0;
      calc {
        (digit + 128 * v) * weight;
        digit * weight + 128 * v * weight;
        digit * weight + v * (weight * 128);
      }
    }
  }

  /** Frames whose length field has at most four bytes, as section 2.2.3 of MQTT 3.1.1 has it. */
  ghost predicate WellFramed(fs: seq<seq<byte>>) {
    forall f <- fs :: IsFrame(f) && ParseSize(f).value.value.startOffset <= MAX_HEADER_SIZE
  }

  class PacketReader {
    var bytes: seq<byte>
    var size: Option<SizeInfo>
    ghost var consumed: seq<byte>  // everything read from the transport
    ghost var frames: seq<seq<byte>>  // every packet cut out so far

    ghost predicate Valid()
      reads this
    {
      && consumed == Flatten(frames) + bytes
      && WellFramed(frames)
      && ParseSize(bytes) == Ok(size)
      && (size.None? ==> |bytes| <= MAX_HEADER_SIZE)
      && (size.Some? ==> size.value.startOffset <= MAX_HEADER_SIZE)
      && (size.Some? ==> |bytes| <= MAX_HEADER_SIZE || |bytes| <= size.value.size)
    }

    constructor ()
      ensures Valid() && consumed == [] && frames == [] && bytes == []
    {
      bytes := [];
      size := None;
      consumed := [];
      frames := [];
    }

    /** No whole packet is waiting in the buffer. */
    ghost predicate Settled()
      reads this
    {
      size.Some? ==> |bytes| < size.value.size
    }

    /** Four length bytes, all with the continuation bit. */
    ghost predicate Stuck()
      reads this
    {
      size.None? && |bytes| == MAX_HEADER_SIZE
    }

    /** Reads up to `n` further bytes; true means that the connection was closed. */
    method RecvN(transport: Transport, n: nat) returns (r: IoResult<bool>)
      modifies this`bytes, this`consumed, transport`incoming
      ensures r != Ok(false) || n == 0 ==>
                bytes == old(bytes) && consumed == old(consumed) && transport.incoming == old(transport.incoming)
      ensures r == Ok(false) && n > 0 ==>
                exists chunk: seq<byte> ::
                  && 0 < |chunk| <= n && bytes == old(bytes) + chunk && consumed == old(consumed) + chunk
                  && old(transport.incoming) == chunk + transport.incoming
      ensures n == 0 ==> r == Ok(false)
      ensures r.Err? ==> !r.error.Undecodable?
    {
      if n <= 0 {
        return Ok(false);
      }
      var read := transport.Read(n);
      match read {
        case Err(e) => return Err(e);
        case Ok(chunk) =>
          if |chunk| == 0 {
            assert transport.incoming == [] + transport.incoming;
            return Ok(true);
          }
          bytes := bytes + chunk;
          consumed := consumed + chunk;
          return Ok(false);
      }
    }

    /** Cuts the first packet off the buffer and decodes it. */
    method Emit() returns (r: Result<Packet, DecodeError>)
      requires Valid() && size.Some? && size.value.size <= |bytes|
      modifies this
      ensures Valid() && consumed == old(consumed)
      ensures |bytes| == |old(bytes)| - old(size).value.size && old(size).value.size >= 2
      ensures frames == old(frames) + [old(bytes)[..old(size).value.size]]
      ensures IsFrame(frames[|frames| - 1]) && r == DecodeFrame(frames[|frames| - 1])
    {
      var info := size.value;
      ghost var frame := bytes[..info.size];
      FrameIsLocal(bytes, info.size);
      assert frame[info.startOffset..] == bytes[info.startOffset..info.size];
      var rd := new ByteReader(bytes[info.startOffset..info.size]);
      r := Codec.FromBytes(rd, bytes[0]);
      assert bytes == frame + bytes[info.size..];
      Assoc(Flatten(frames), frame, bytes[info.size..]);
      frames := frames + [frame];
      assert frames[..|frames| - 1] == old(frames);
      if |bytes| > info.size {
        bytes := bytes[info.size..];  // copy_within and truncate
        SizeLimitUnreachable(bytes);
        var parsed := ParsePacketSize(bytes);
        size := parsed.value;
      } else {
        bytes := [];
        size := None;
      }
    }

    /** Every outcome keeps the account of the stream: bytes read are the packets emitted
    plus the buffer. Blocked or closed calls change nothing, and are reached only when no
    whole packet is waiting. */
    method Recv(transport: Transport) returns (r: IoResult<ReadState>)
      requires Valid()
      modifies this, transport`incoming
      ensures Valid()
      ensures consumed + transport.incoming == old(consumed + transport.incoming)
      ensures |consumed| + |transport.incoming| == old(|consumed| + |transport.incoming|)
      ensures r == Ok(NeedMoreData) || r == Ok(ConnectionClosed) || r == Err(WouldBlock) || r == Err(Failed) ==>
                frames == old(frames)
      ensures r.Ok? && r.value.Incoming? ==>
                && |frames| == |old(frames)| + 1 && frames[..|frames| - 1] == old(frames)
                && DecodeFrame(frames[|frames| - 1]) == Ok(r.value.packet)
      ensures r.Err? && r.error.Undecodable? ==>
                && |frames| == |old(frames)| + 1 && frames[..|frames| - 1] == old(frames)
                && DecodeFrame(frames[|frames| - 1]) == Err(r.error.why)
      ensures r == Ok(ConnectionClosed) || r == Err(WouldBlock) || r == Err(Failed) ==>
                Settled() && bytes == old(bytes) && transport.incoming == old(transport.incoming)
      // Progress, and the one state without it.
      ensures r == Ok(NeedMoreData) ==> (|transport.incoming| < |old(transport.incoming)| <==> !old(Stuck()))
      ensures old(Stuck()) ==> r == Ok(NeedMoreData) && Stuck()
      ensures r.Ok? && r.value.Incoming? ==>
                || |transport.incoming| < |old(transport.incoming)|
                || (transport.incoming == old(transport.incoming) && |bytes| + 2 <= |old(bytes)|)
    {
      if size.Some? {
        var info := size.value;
        if |bytes| < info.size {
          var closed := RecvN(transport, info.size - |bytes|);
          if closed.Err? {
            return Err(closed.error);
          }
          if closed.value {
            return Ok(ConnectionClosed);
          }
          ghost var chunk :| 0 < |chunk| <= info.size - |old(bytes)| && bytes == old(bytes) + chunk
            && consumed == old(consumed) + chunk && old(transport.incoming) == chunk + transport.incoming;
          ParseSizeStable(old(bytes), chunk);
          Assoc(Flatten(frames), old(bytes), chunk);
          Assoc(old(consumed), chunk, transport.incoming);
        }
        if |bytes| >= info.size {
          var p := Emit();
          return if p.Ok? then Ok(Incoming(p.value)) else Err(Undecodable(p.error));
        }
      } else {
        var n := MAX_HEADER_SIZE - |bytes|;  // never underflows
        var closed := RecvN(transport, n);
        if closed.Err? {
          return Err(closed.error);
        }
        if closed.value {
          return Ok(ConnectionClosed);
        }
        if n > 0 {
          ghost var chunk :| 0 < |chunk| <= n && bytes == old(bytes) + chunk
            && consumed == old(consumed) + chunk && old(transport.incoming) == chunk + transport.incoming;
          Assoc(Flatten(frames), old(bytes), chunk);
          Assoc(old(consumed), chunk, transport.incoming);
        }
        SizeLimitUnreachable(bytes);
        var parsed := ParsePacketSize(bytes);
        size := parsed.value;
      }
      r := Ok(NeedMoreData);
    }
  }

  // ----- Whole runs -----

  /** Between reads, the reader has cut out what the batch splitter finds in all the bytes
  read so far, and buffers what the splitter leaves over. */
  lemma ReaderRefinesSplit(rd: PacketReader)
    requires rd.Valid()
    ensures Split(rd.consumed) == (rd.frames + Split(rd.bytes).0, Split(rd.bytes).1)
    ensures rd.Settled() ==> Split(rd.consumed) == (rd.frames, rd.bytes)
  {
    SplitFrames(rd.frames, rd.bytes);
    assert rd.frames + [] == rd.frames;
  }

  /** However the transport cut the stream, the same bytes give the same packets. */
  lemma ChunkingIndependence(a: PacketReader, b: PacketReader)
    requires a.Valid() && b.Valid() && a.Settled() && b.Settled()
    requires a.consumed == b.consumed
    ensures a.frames == b.frames && a.bytes == b.bytes && a.size == b.size
  {
    ReaderRefinesSplit(a);
    ReaderRefinesSplit(b);
  }

  /** On a stream of well-formed packets, with bytes behind them that are no packet, the reader emits
  those packets, in order and no others. It never gets stuck. */
  lemma EmitsBefore(rd: PacketReader, fs: seq<seq<byte>>, t: seq<byte>)
    requires rd.Valid() && WellFramed(fs) && Split(t).0 == [] && |t| < MAX_HEADER_SIZE
    requires rd.consumed <= Flatten(fs) + t
    ensures rd.frames <= fs && !rd.Stuck()
  {
    var tail := Remaining(rd, fs, t);
    if Split(tail).0 == [] {
      assert fs == rd.frames + [] == rd.frames;
      SameLength(Flatten(fs), t, tail);
    } else {
      SplitHead(tail);
      assert Split(tail).0[0] == fs[|rd.frames|];
    }
    StuckBefore(rd, tail);
  }

  lemma SameLength(a: seq<byte>, b: seq<byte>, c: seq<byte>)
    requires a + b == a + c
    ensures |b| == |c|
  {
    assert |a + b| == |a + c|;
  }

  /** The first packet of a stream has the size the stream announces. */
  lemma SplitHead(s: seq<byte>)
    requires Split(s).0 != []
    ensures IsFrame(Split(s).0[0]) && ParseSize(Split(s).0[0]) == ParseSize(s)
  {
    FrameIsLocal(s, ParseSize(s).value.value.size);
  }

  /** What the reader still has to cut, with the bytes that have not been read. */
  lemma Remaining(rd: PacketReader, fs: seq<seq<byte>>, t: seq<byte>) returns (tail: seq<byte>)
    requires rd.Valid() && WellFramed(fs) && Split(t).0 == [] && rd.consumed <= Flatten(fs) + t
    ensures rd.bytes <= tail && Flatten(fs) + t == Flatten(rd.frames) + tail && fs == rd.frames + Split(tail).0
  {
    var stream := Flatten(fs) + t;
    var unread := stream[|rd.consumed|..];
    tail := rd.bytes + unread;
    assert stream == rd.consumed + unread;
    Assoc(Flatten(rd.frames), rd.bytes, unread);
    SplitFrames(fs, t);
    SplitFrames(rd.frames, tail);
    assert fs + [] == fs;
  }

  /** No packet with a length field of at most four bytes starts where the reader is stuck. */
  lemma StuckBefore(rd: PacketReader, tail: seq<byte>)
    requires rd.Valid() && rd.bytes <= tail
    ensures rd.Stuck() ==> |tail| >= MAX_HEADER_SIZE
    ensures rd.Stuck() && ParseSize(tail).Ok? && ParseSize(tail).value.Some? ==>
              ParseSize(tail).value.value.startOffset > MAX_HEADER_SIZE
  {
    if rd.Stuck() {
      IncompleteMeansContinuation(rd.bytes, 1);
      assert tail == rd.bytes + tail[|rd.bytes|..];
      NoFrameStartsSo(rd.bytes, tail[|rd.bytes|..]);
    }
  }

  /** On a stream of well-formed packets the reader emits those packets, in order, never
  more than have arrived, and all of them once everything has been read. It never gets
  stuck. */
  lemma EmitsTheStream(rd: PacketReader, fs: seq<seq<byte>>)
    requires rd.Valid() && WellFramed(fs)
    requires rd.consumed <= Flatten(fs)
    ensures rd.frames <= fs
    ensures rd.consumed == Flatten(fs) && rd.Settled() ==> rd.frames == fs && rd.bytes == []
    ensures !rd.Stuck()
  {
    assert Flatten(fs) + [] == Flatten(fs);
    EmitsBefore(rd, fs, []);
    if rd.consumed == Flatten(fs) {
      SplitInvertsFlatten(fs);
      ReaderRefinesSplit(rd);
    }
  }

  /** The state without progress is exactly the one in which the buffer is full of length
  bytes that all announce another one; a peer reaches it with five bytes. */
  lemma StuckExactly(rd: PacketReader)
    requires rd.Valid()
    ensures rd.Stuck() <==> |rd.bytes| == MAX_HEADER_SIZE && forall i :: 1 <= i < MAX_HEADER_SIZE ==> rd.bytes[i] >= 128
    ensures ParseSize([48, 128, 128, 128, 128]) == Ok(None)
  {
    IncompleteMeansContinuation(rd.bytes, 1);
    IncompleteMeansContinuation([48, 128, 128, 128, 128], 1);
    assert rd.size.Some? && |rd.bytes| == MAX_HEADER_SIZE ==> exists i :: 1 <= i < MAX_HEADER_SIZE && rd.bytes[i] < 128;
  }

  lemma NoFrameStartsSo(s: seq<byte>, more: seq<byte>)
    requires |s| == MAX_HEADER_SIZE && forall i :: 1 <= i < |s| ==> s[i] >= 128
    ensures ParseSize(s + more).Ok? && ParseSize(s + more).value.Some? ==>
              ParseSize(s + more).value.value.startOffset > MAX_HEADER_SIZE
  {
    var t := s + more;
    assert ParseLength(t, 1) == Shifted(t[1] - 128, 128, ParseLength(t, 2));
    assert ParseLength(t, 2) == Shifted(t[2] - 128, 128, ParseLength(t, 3));
    assert ParseLength(t, 3) == Shifted(t[3] - 128, 128, ParseLength(t, 4));
    assert ParseLength(t, 4) == Shifted(t[4] - 128, 128, ParseLength(t, 5));
  }

  /** Five such bytes after any packets stop the reader, however they were cut. */
  lemma ContinuationSticks(rd: PacketReader, fs: seq<seq<byte>>, h: seq<byte>)
    requires rd.Valid() && rd.Settled() && WellFramed(fs)
    requires |h| == MAX_HEADER_SIZE && forall i :: 1 <= i < |h| ==> h[i] >= 128
    requires rd.consumed == Flatten(fs) + h
    ensures rd.Stuck() && rd.frames == fs
  {
    IncompleteMeansContinuation(h, 1);
    SplitFrames(fs, h);
    assert fs + [] == fs;
    ReaderRefinesSplit(rd);
  }

  /** A reader that comes to this point: a new one, after one call that took the five bytes. */
  method ReadContinuation(transport: Transport) returns (rd: PacketReader, r: IoResult<ReadState>)
    requires transport.incoming == [48, 128, 128, 128, 128]
    modifies transport`incoming
    ensures fresh(rd) && rd.Valid()
    ensures transport.incoming == [] ==> r == Ok(NeedMoreData) && rd.Stuck()
  {
    ghost var h := transport.incoming;
    rd := new PacketReader();
    IncompleteMeansContinuation(h, 1);
    r := rd.Recv(transport);
    if transport.incoming == [] {
      assert rd.consumed == rd.consumed + transport.incoming == [] + h == h;
      NothingIn(rd, h);
    }
  }

  /** In five such bytes there is no packet. */
  lemma NothingIn(rd: PacketReader, h: seq<byte>)
    requires rd.Valid() && rd.consumed == h && ParseSize(h) == Ok(None)
    ensures rd.frames == [] && rd.bytes == h
  {
    ReaderRefinesSplit(rd);
    assert Split(h) == ([], h);
    assert Flatten([]) + rd.bytes == rd.bytes;
  }

  /** The inner read loop, on any stream: it ends, with what it hands over the decoding of the
  packets cut out, in order, or it comes to the stuck state, where the source spins for ever.
  On a stream of well-formed packets `fs` it never does. */
  method DrainReads(rd: PacketReader, transport: Transport, ghost fs: seq<seq<byte>>)
    returns (packets: seq<Packet>, outcome: IoResult<ReadState>)
    requires rd.Valid()
    modifies rd, transport`incoming
    ensures rd.Valid() && old(rd.frames) <= rd.frames
    ensures rd.consumed + transport.incoming == old(rd.consumed + transport.incoming)
    ensures outcome == Ok(NeedMoreData) ==> rd.Stuck()
    ensures outcome.Ok? ==> !outcome.value.Incoming?
    ensures !Fatal(outcome) ==> rd.Settled() && |old(rd.frames)| + |packets| == |rd.frames|
    ensures |old(rd.frames)| + |packets| <= |rd.frames|
    ensures forall i :: 0 <= i < |packets| ==>
              IsFrame(rd.frames[|old(rd.frames)| + i]) && DecodeFrame(rd.frames[|old(rd.frames)| + i]) == Ok(packets[i])
    ensures WellFramed(fs) && old(rd.consumed + transport.incoming) <= Flatten(fs) ==>
              rd.frames <= fs && outcome != Ok(NeedMoreData)
  {
    packets, outcome := [], Ok(NeedMoreData);
    ghost var (first, stream) := (rd.frames, rd.consumed + transport.incoming);
    while outcome.Ok? && outcome.value != ConnectionClosed && !(rd.size.None? && |rd.bytes| == MAX_HEADER_SIZE)
      invariant rd.Valid() && rd.consumed + transport.incoming == stream
      invariant first <= rd.frames && |first| + |packets| <= |rd.frames|
      invariant !Fatal(outcome) ==> |rd.frames| == |first| + |packets|
      invariant outcome == Ok(ConnectionClosed) || outcome == Err(WouldBlock) || outcome == Err(Failed) ==> rd.Settled()
      invariant Decodes(rd.frames, |first|, packets)
      decreases outcome.Ok? && outcome.value != ConnectionClosed, |transport.incoming|, |rd.bytes|
    {
      ghost var before := rd.frames;
      outcome := rd.Recv(transport);
      if outcome.Ok? && outcome.value.Incoming? {
        DecodesNext(before, rd.frames, |first|, packets, outcome.value.packet);
        packets := packets + [outcome.value.packet];
      } else {
        DecodesStill(before, rd.frames, |first|, packets);
      }
    }
    if outcome.Ok? && outcome.value != ConnectionClosed {
      outcome := Ok(NeedMoreData);
    }
    if WellFramed(fs) && stream <= Flatten(fs) {
      EmitsTheStream(rd, fs);
    }
  }

  /** The packets are the decodings of the frames from `n` on. */
  ghost predicate Decodes(frames: seq<seq<byte>>, n: nat, packets: seq<Packet>) {
    && n + |packets| <= |frames|
    && forall i :: 0 <= i < |packets| ==> DecodesTo(frames[n + i], packets[i])
  }

  ghost predicate DecodesTo(f: seq<byte>, p: Packet) {
    IsFrame(f) && DecodeFrame(f) == Ok(p)
  }

  lemma DecodesStill(frames: seq<seq<byte>>, more: seq<seq<byte>>, n: nat, packets: seq<Packet>)
    requires Decodes(frames, n, packets) && frames <= more
    ensures Decodes(more, n, packets)
  {
    forall i | 0 <= i < |packets| ensures DecodesTo(more[n + i], packets[i]) {
      assert DecodesTo(frames[n + i], packets[i]);
    }
  }

  lemma DecodesNext(frames: seq<seq<byte>>, more: seq<seq<byte>>, n: nat, packets: seq<Packet>, p: Packet)
    requires Decodes(frames, n, packets) && |frames| == n + |packets|
    requires |more| == |frames| + 1 && more[..|frames|] == frames
    requires DecodesTo(more[|frames|], p)
    ensures Decodes(more, n, packets + [p])
  {
    var all := packets + [p];
    forall i | 0 <= i < |all| ensures DecodesTo(more[n + i], all[i]) {
      if i < |packets| {
        assert DecodesTo(frames[n + i], packets[i]) && more[..|frames|][n + i] == more[n + i];
      } else {
        assert n + i == |frames|;
      }
    }
  }

  /** A packet that does not decode ends the task. */
  predicate Fatal(outcome: IoResult<ReadState>) {
    outcome.Err? && outcome.error.Undecodable?
  }
}
