/** The encoders and decoders of src/transceiver/packets.rs as they run: cursors over a
buffer, loops over topics and results. Each is specified by the functions of `Packets`. */
module Codec {
  import opened Wrappers
  import opened ByteIo
  import opened Packets
  import opened RoundTrips

  // ----- Fixed header -----

  /** Fills `dst[from..]`; running out of room is a panic in the source. */
  method EncodePacketSize(size: nat, dst: array<byte>, from: nat) returns (n: nat)
    requires from + |RemainingLength(size)| <= dst.Length
    modifies dst
    ensures n == |RemainingLength(size)|
    ensures dst[from..from + n] == RemainingLength(size)
    ensures dst[..from] == old(dst[..from])
  {
    var sz := size;
    ghost var field := RemainingLength(size);
    n := 0;
    while true
      invariant n < |field| && RemainingLength(sz) == field[n..]
      invariant dst[..from] == old(dst[..from])
      invariant dst[from..from + n] == field[..n]
      decreases sz
    {
      assert field[n] == field[n..][0];
      assert field[..n + 1] == field[..n] + [field[n]];
      if sz / 128 == 0 {
        dst[from + n] := sz % 128;
        n := n + 1;
        return;
      }
      dst[from + n] := sz % 128 + 128;
      assert field[n + 1..] == field[n..][1..];
      n := n + 1;
      sz := sz / 128;
    }
  }

  // ----- Sizes -----

  lemma {:induction false} FilterBytesGrow(filters: seq<(seq<byte>, QoS)>, i: nat)
    requires i <= |filters| && forall f <- filters :: |f.0| < 65536
    ensures |FilterBytes(filters[..i])| <= |FilterBytes(filters)|
    decreases |filters|
  {
    if i < |filters| {
      var front := filters[..|filters| - 1];
      assert front[..i] == filters[..i];
      FilterBytesGrow(front, i);
    } else {
      assert filters[..i] == filters;
    }
  }

  lemma {:induction false} TopicBytesGrow(topics: seq<seq<byte>>, i: nat)
    requires i <= |topics| && forall t <- topics :: |t| < 65536
    ensures |TopicBytes(topics[..i])| <= |TopicBytes(topics)|
    decreases |topics|
  {
    if i < |topics| {
      var front := topics[..|topics| - 1];
      assert front[..i] == topics[..i];
      TopicBytesGrow(front, i);
    } else {
      assert topics[..i] == topics;
    }
  }

  method SubscribeSize(filters: seq<(seq<byte>, QoS)>) returns (n: nat)
    requires forall f <- filters :: |f.0| < 65536
    ensures n == 2 + |FilterBytes(filters)|
  {
    n := 2;
    for i := 0 to |filters|
      invariant n == 2 + |FilterBytes(filters[..i])|
    {
      assert filters[..i + 1][..i] == filters[..i];
      n := n + 2 + |filters[i].0|;
      n := n + 1;
    }
    assert filters[..|filters|] == filters;
  }

  method UnsubscribeSize(topics: seq<seq<byte>>) returns (n: nat)
    requires forall t <- topics :: |t| < 65536
    ensures n == 2 + |TopicBytes(topics)|
  {
    n := 2;
    for i := 0 to |topics|
      invariant n == 2 + |TopicBytes(topics[..i])|
    {
      assert topics[..i + 1][..i] == topics[..i];
      n := n + 2 + |topics[i]|;
    }
    assert topics[..|topics|] == topics;
  }

  method ConnectSize(c: ConnectInfo) returns (n: nat)
    requires WellFormed(ConnectPacket(c))
    ensures n == |Body(ConnectPacket(c))|
  {
    n := 10 + 2 + |c.clientId|;
    if c.will.Some? {
      n := n + 2 + |c.will.value.topic|;
      n := n + 2 + |c.will.value.message|;
    }
    if c.username.Some? {
      n := n + 2 + |c.username.value|;
    }
    if c.password.Some? {
      n := n + 2 + |c.password.value|;
    }
  }

  method ComputeSize(p: Packet) returns (n: nat)
    requires WellFormed(p)
    ensures n == |Body(p)|
  {
    match p
    case ConnectPacket(c) =>
      n := ConnectSize(c);
    case PublishPacket(m) =>
      n := 2 + |m.topic|;
      if m.qos != AtMostOnce {
        n := n + 2;
      }
      n := n + |m.payload|;
    case SubscribePacket(_, filters) =>
      n := SubscribeSize(filters);
    case UnsubscribePacket(_, topics) =>
      n := UnsubscribeSize(topics);
    case SubAckPacket(_, results) =>
      n := 2 + |results.Results()|;
    case PingReqPacket => n := 0;
    case PingRespPacket => n := 0;
    case DisconnectPacket => n := 0;
    case _ => n := 2;
  }

  // ----- Encoders -----

  method ConnectFlagBits(c: ConnectInfo) returns (flags: byte)
    ensures flags == ConnectFlags(c)
  {
    var f: int := 0;
    if c.cleanSession {
      f := f + 2;
    }
    if c.will.Some? {
      f := f + 4;
      f := f + c.will.value.qos.Code() as int * 8;
      if c.will.value.retain {
        f := f + 32;
      }
    }
    if c.password.Some? {
      f := f + 64;
    }
    if c.username.Some? {
      f := f + 128;
    }
    flags := f;
  }

  method EncodeConnect(c: ConnectInfo, wr: ByteWriter)
    requires WellFormed(ConnectPacket(c))
    requires wr.Valid() && wr.pos + |Body(ConnectPacket(c))| <= wr.buf.Length
    modifies wr, wr.buf
    ensures wr.Valid() && wr.done == old(wr.done) + Body(ConnectPacket(c))
  {
    ghost var start := wr.done;
    var flags := ConnectFlagBits(c);
    wr.WriteBytesNoLen(PROTOCOL + [flags] + BigEndian(c.keepAlive));
    wr.WriteBytes(c.clientId);
    EncodeWill(c.will, wr);
    EncodeOpt(c.username, wr);
    EncodeOpt(c.password, wr);
    Regroup(start, ConnectHeader(c), Prefixed(c.clientId), WillBytes(c.will), OptBytes(c.username),
            OptBytes(c.password));
  }

  method EncodeWill(will: Option<LastWill>, wr: ByteWriter)
    requires will.Some? ==> |will.value.topic| < 65536 && |will.value.message| < 65536
    requires wr.Valid() && wr.pos + |WillBytes(will)| <= wr.buf.Length
    modifies wr, wr.buf
    ensures wr.Valid() && wr.done == old(wr.done) + WillBytes(will)
  {
    if will.Some? {
      wr.WriteBytes(will.value.topic);
      wr.WriteBytes(will.value.message);
      Assoc(old(wr.done), Prefixed(will.value.topic), Prefixed(will.value.message));
    }
  }

  method EncodeOpt(o: Option<seq<byte>>, wr: ByteWriter)
    requires o.Some? ==> |o.value| < 65536
    requires wr.Valid() && wr.pos + |OptBytes(o)| <= wr.buf.Length
    modifies wr, wr.buf
    ensures wr.Valid() && wr.done == old(wr.done) + OptBytes(o)
  {
    if o.Some? {
      wr.WriteBytes(o.value);
    }
  }

  lemma Regroup<T>(a: seq<T>, b: seq<T>, c: seq<T>, d: seq<T>, e: seq<T>, f: seq<T>)
    ensures a + b + c + d + e + f == a + (b + (c + (d + (e + f))))
  {
  }

  lemma AppendTo<T>(a: seq<T>, b: seq<T>, c: seq<T>, d: seq<T>, e: seq<T>)
    ensures a + (b + c) + d + e == a + (b + (c + (d + e)))
    ensures a + (b + c) + d == a + (b + (c + d))
  {
  }

  method EncodePublish(m: Message, wr: ByteWriter)
    requires WellFormed(PublishPacket(m))
    requires wr.Valid() && wr.pos + |Body(PublishPacket(m))| <= wr.buf.Length
    modifies wr, wr.buf
    ensures wr.Valid() && wr.done == old(wr.done) + Body(PublishPacket(m))
  {
    ghost var start, id := wr.done, if m.qos.AtMostOnce? then [] else BigEndian(m.id);
    wr.WriteBytes(m.topic);
    if m.qos != AtMostOnce {
      wr.WriteU16(m.id);
    }
    assert wr.done == start + Prefixed(m.topic) + id;
    wr.WriteBytesNoLen(m.payload);
    Assoc(start, Prefixed(m.topic), id);
    Assoc(start, Prefixed(m.topic) + id, m.payload);
  }

  method EncodeSubscribe(id: u16, filters: seq<(seq<byte>, QoS)>, wr: ByteWriter)
    requires WellFormed(SubscribePacket(id, filters))
    requires wr.Valid() && wr.pos + 2 + |FilterBytes(filters)| <= wr.buf.Length
    modifies wr, wr.buf
    ensures wr.Valid() && wr.done == old(wr.done) + (BigEndian(id) + FilterBytes(filters))
  {
    ghost var start := wr.done;
    wr.WriteU16(id);
    for i := 0 to |filters|
      invariant wr.Valid()
      invariant wr.done == start + (BigEndian(id) + FilterBytes(filters[..i]))
    {
      var (topic, qos) := filters[i];
      assert filters[..i + 1][..i] == filters[..i];
      FilterBytesGrow(filters, i + 1);
      ghost var before := FilterBytes(filters[..i]);
      wr.WriteBytes(topic);
      wr.WriteU8(qos.Code());
      AppendTo(start, BigEndian(id), before, Prefixed(topic), [qos.Code()]);
    }
    assert filters[..|filters|] == filters;
  }

  method EncodeUnsubscribe(id: u16, topics: seq<seq<byte>>, wr: ByteWriter)
    requires WellFormed(UnsubscribePacket(id, topics))
    requires wr.Valid() && wr.pos + 2 + |TopicBytes(topics)| <= wr.buf.Length
    modifies wr, wr.buf
    ensures wr.Valid() && wr.done == old(wr.done) + (BigEndian(id) + TopicBytes(topics))
  {
    ghost var start := wr.done;
    wr.WriteU16(id);
    for i := 0 to |topics|
      invariant wr.Valid()
      invariant wr.done == start + (BigEndian(id) + TopicBytes(topics[..i]))
    {
      assert topics[..i + 1][..i] == topics[..i];
      TopicBytesGrow(topics, i + 1);
      wr.WriteBytes(topics[i]);
      AppendTo(start, BigEndian(id), TopicBytes(topics[..i]), Prefixed(topics[i]), []);
    }
    assert topics[..|topics|] == topics;
  }

  method EncodeSubAck(id: u16, list: SubscriptionResultList, wr: ByteWriter)
    requires list.Valid()
    requires wr.Valid() && wr.pos + 2 + |list.Results()| <= wr.buf.Length
    modifies wr, wr.buf
    ensures wr.Valid() && wr.done == old(wr.done) + (BigEndian(id) + ResultBytes(list.Results()))
  {
    ghost var start := wr.done;
    wr.WriteU16(id);
    var results := list.Results();
    for i := 0 to |results|
      invariant wr.Valid()
      invariant wr.done == start + (BigEndian(id) + ResultBytes(results)[..i])
    {
      var code: byte := match results[i] case Ok(qos) => qos.Code() case Err(_) => 128;
      wr.WriteU8(code);
      assert ResultBytes(results)[..i + 1] == ResultBytes(results)[..i] + [code];
      AppendTo(start, BigEndian(id), ResultBytes(results)[..i], [code], []);
    }
  }

  /** `Encode::encode`: writes the body and returns the control flags. */
  method Encode(p: Packet, wr: ByteWriter) returns (flags: byte)
    requires WellFormed(p)
    requires wr.Valid() && wr.pos + |Body(p)| <= wr.buf.Length
    modifies wr, wr.buf
    ensures wr.Valid() && wr.done == old(wr.done) + Body(p)
    ensures flags == p.Flags()
    ensures !p.PublishPacket? ==>
              flags == if p.PubRelPacket? || p.SubscribePacket? || p.UnsubscribePacket? then 2 else 0
  {
    flags := p.Flags();
    match p
    case ConnectPacket(c) => EncodeConnect(c, wr);
    case ConnAckPacket(reply) => wr.WriteBytesNoLen(ReplyBytes(reply));
    case PublishPacket(m) => EncodePublish(m, wr);
    case SubscribePacket(id, filters) => EncodeSubscribe(id, filters, wr);
    case SubAckPacket(id, results) => EncodeSubAck(id, results, wr);
    case UnsubscribePacket(id, topics) => EncodeUnsubscribe(id, topics, wr);
    case PingReqPacket =>
    case PingRespPacket =>
    case DisconnectPacket =>
    case PubAckPacket(id) => wr.WriteU16(id);
    case PubRecPacket(id) => wr.WriteU16(id);
    case PubRelPacket(id) => wr.WriteU16(id);
    case PubCompPacket(id) => wr.WriteU16(id);
    case UnsubAckPacket(id) => wr.WriteU16(id);
  }

  /** The computed size, the bytes written and the buffer agree, so that neither the
  "not enough space left" nor the "uninitialized bytes left" assertion can fire. */
  method MakePacket(p: WirePacket) returns (bytes: array<byte>)
    ensures fresh(bytes) && bytes[..] == Wire(p)
  {
    var header := new byte[MAX_HEADER_SIZE](_ => 0);
    var contentSize := ComputeSize(p);
    LengthFieldSize(contentSize);
    var headerSize := EncodePacketSize(contentSize, header, 1);
    headerSize := headerSize + 1;
    var flags;
    bytes, flags := FillBody(p, headerSize, contentSize);
    WriteControl(p, flags, header, headerSize);
    CopyHeader(header, bytes, headerSize);
  }

  method WriteControl(p: Packet, flags: byte, header: array<byte>, n: nat)
    requires 1 <= n <= header.Length && flags == p.Flags()
    modifies header
    ensures header[..n] == [Control(p)] + old(header[1..n])
  {
    header[0] := p.Type().Code() * 16 + flags;
    assert header[..n] == [header[0]] + header[1..n];
  }

  method FillBody(p: WirePacket, headerSize: nat, contentSize: nat) returns (bytes: array<byte>, flags: byte)
    requires contentSize == |Body(p)|
    ensures fresh(bytes) && bytes.Length == headerSize + contentSize
    ensures bytes[headerSize..] == Body(p) && flags == p.Flags()
  {
    bytes := new byte[headerSize + contentSize](_ => 0);
    var wr := new ByteWriter(bytes, headerSize);
    flags := Encode(p, wr);
    assert wr.pos == bytes.Length;  // finish_and_check
    assert bytes[headerSize..] == wr.done[headerSize..];
  }

  method CopyHeader(header: array<byte>, bytes: array<byte>, n: nat)
    requires n <= header.Length && n <= bytes.Length && header != bytes
    modifies bytes
    ensures bytes[..] == header[..n] + old(bytes[n..])
  {
    for i := 0 to n
      invariant bytes[..i] == header[..i] && bytes[n..] == old(bytes[n..])
    {
      bytes[i] := header[i];
    }
    assert bytes[..] == bytes[..n] + bytes[n..];
  }

  // ----- Decoders -----

  method ReadPublish(rd: ByteReader, flags: byte) returns (r: Result<Packet, DecodeError>)
    requires flags < 16
    modifies rd
    ensures match DecodePublish(flags, old(rd.rest))
            case Ok((p, rest)) => r == Ok(p) && rd.rest == rest
            case Err(e) => r == Err(e)
  {
    var qos := QosOf((flags as int / 2) % 4);
    if qos.None? {
      return Err(MalformedPacket);
    }
    var topic := rd.ReadUtf8();
    if topic.Err? {
      return Err(topic.error);
    }
    var id: u16 := 0;
    if qos.value != AtMostOnce {
      var word := rd.ReadU16();
      if word.Err? {
        return Err(word.error);
      }
      id := word.value;
    }
    var payload := rd.ReadRemaining();
    r := Ok(PublishPacket(Message(HasBit(flags, 8), qos.value, HasBit(flags, 1), topic.value, id, payload)));
  }

  lemma {:induction false} DecodeResultsPrefix(s: seq<byte>, i: nat)
    requires i <= |s| && DecodeResults(s[..i]).Err?
    ensures DecodeResults(s) == DecodeResults(s[..i])
    decreases |s|
  {
    if i == |s| {
      assert s[..i] == s;
    } else {
      assert s[..|s| - 1][..i] == s[..i];
      DecodeResultsPrefix(s[..|s| - 1], i);
    }
  }

  method ParseStatic(codes: seq<byte>) returns (r: Result<SubscriptionResultList, DecodeError>)
    requires |codes| <= MAX_STATIC_SUBS
    ensures r == match DecodeResults(codes) case Ok(results) => Ok(ResultList(results)) case Err(e) => Err(e)
  {
    var num := |codes|;
    assert codes[..num] == codes;
    var values := new SubscriptionResult[MAX_STATIC_SUBS](_ => Err(()));
    for i := 0 to num
      invariant DecodeResults(codes[..i]) == Ok(values[..i])
      invariant forall j :: i <= j < MAX_STATIC_SUBS ==> values[j] == Err(())
    {
      assert codes[..i + 1][..i] == codes[..i];
      var x := ParseResult(codes[i]);
      if x.Err? {
        DecodeResultsPrefix(codes, i + 1);
        return Err(x.error);
      }
      values[i] := x.value;
      assert values[..i + 1] == values[..i] + [x.value];
    }
    assert values[..] == values[..num] + seq(MAX_STATIC_SUBS - num, _ => Err(()));
    r := Ok(Static(num, values[..]));
  }

  method ParseDynamic(codes: seq<byte>) returns (r: Result<SubscriptionResultList, DecodeError>)
    requires |codes| > MAX_STATIC_SUBS
    ensures r == match DecodeResults(codes) case Ok(results) => Ok(ResultList(results)) case Err(e) => Err(e)
  {
    assert codes[..|codes|] == codes;
    var values: seq<SubscriptionResult> := [];
    for i := 0 to |codes|
      invariant |values| == i && DecodeResults(codes[..i]) == Ok(values)
    {
      assert codes[..i + 1][..i] == codes[..i];
      var x := ParseResult(codes[i]);
      if x.Err? {
        DecodeResultsPrefix(codes, i + 1);
        return Err(x.error);
      }
      values := values + [x.value];
    }
    r := Ok(Dynamic(values));
  }

  /** Few results go to a fixed array, many to a growing vector. */
  method ReadSubAck(rd: ByteReader) returns (r: Result<Packet, DecodeError>)
    modifies rd
    ensures match DecodeSubAck(old(rd.rest))
            case Ok((p, rest)) => r == Ok(p) && rd.rest == rest
            case Err(e) => r == Err(e)
  {
    var id := rd.ReadU16();
    if id.Err? {
      return Err(id.error);
    }
    var codes := rd.ReadRemaining();
    var list;
    if |codes| <= MAX_STATIC_SUBS {
      list := ParseStatic(codes);
    } else {
      list := ParseDynamic(codes);
    }
    r := if list.Ok? then Ok(SubAckPacket(id.value, list.value)) else Err(list.error);
  }

  method ReadReply(rd: ByteReader) returns (r: Result<Packet, DecodeError>)
    modifies rd
    ensures match DecodeReply(old(rd.rest))
            case Ok((p, rest)) => r == Ok(p) && rd.rest == rest
            case Err(e) => r == Err(e)
  {
    if |rd.rest| < 2 {
      return Err(ReachedEndUnexpectedly);
    }
    var ackFlags, code := rd.rest[0], rd.rest[1];
    rd.rest := rd.rest[2..];
    var reply: Result<bool, ServerConnectError>;
    if code == 0 { reply := Ok(HasBit(ackFlags, 1)); }
    else if code == 1 { reply := Err(UnacceptableProtocolVersion); }
    else if code == 2 { reply := Err(IdentifierRejected); }
    else if code == 3 { reply := Err(ServerUnavailable); }
    else if code == 4 { reply := Err(BadUserNameOrPassword); }
    else if code == 5 { reply := Err(NotAuthorized); }
    else { reply := Err(Unknown(code)); }
    r := Ok(ConnAckPacket(reply));
  }

  /** `IncomingPacket::from_bytes` of the client. */
  method FromBytes(rd: ByteReader, control: byte) returns (r: Result<Packet, DecodeError>)
    modifies rd
    ensures match ClientDecode(control, old(rd.rest))
            case Ok((p, rest)) => r == Ok(p) && rd.rest == rest
            case Err(e) => r == Err(e)
  {
    var code: byte := control as int / 16;
    if code == 2 {
      r := ReadReply(rd);
    } else if code == 9 {
      r := ReadSubAck(rd);
    } else if code == 3 {
      r := ReadPublish(rd, control as int % 16);
    } else if IsIdCode(code) {
      var id := rd.ReadU16();
      r := if id.Ok? then Ok(IdPacket(code, id.value)) else Err(id.error);
    } else if code == 13 {
      r := Ok(PingRespPacket);
    } else {
      r := Err(InvalidPacketId(code));
    }
  }

  ghost function Continue<T>(acc: seq<T>, rest: Result<seq<T>, DecodeError>): Result<seq<T>, DecodeError> {
    match rest case Ok(more) => Ok(acc + more) case Err(e) => Err(e)
  }

  lemma ContinueLaws<T>(acc: seq<T>, x: T, rest: Result<seq<T>, DecodeError>)
    ensures Continue([], rest) == rest
    ensures Continue(acc, Ok([])) == Ok(acc)
    ensures Continue(acc, Continue([x], rest)) == Continue(acc + [x], rest)
  {
    assert acc + [] == acc;
    if rest.Ok? {
      assert [] + rest.value == rest.value;
      assert acc + ([x] + rest.value) == (acc + [x]) + rest.value;
    }
  }

  /** The loop of `IncomingSubscribePacket::decode`. */
  method ReadFilters(rd: ByteReader) returns (r: Result<seq<(seq<byte>, QoS)>, DecodeError>)
    modifies rd
    ensures r == DecodeFilters(old(rd.rest))
    ensures r.Ok? ==> rd.rest == []
  {
    var topics: seq<(seq<byte>, QoS)> := [];
    ContinueLaws(topics, ([], AtMostOnce), DecodeFilters(rd.rest));
    while |rd.rest| > 0
      invariant Continue(topics, DecodeFilters(rd.rest)) == DecodeFilters(old(rd.rest))
      decreases |rd.rest|
    {
      var topic := rd.ReadUtf8();
      if topic.Err? {
        return Err(topic.error);
      }
      var code := rd.ReadU8();
      if code.Err? {
        return Err(code.error);
      }
      var qos := QosOf(code.value);
      if qos.None? {
        return Err(AssertionFailed);
      }
      ContinueLaws(topics, (topic.value, qos.value), DecodeFilters(rd.rest));
      topics := topics + [(topic.value, qos.value)];
    }
    ContinueLaws(topics, ([], AtMostOnce), Ok([]));
    r := Ok(topics);
  }

  /** The loop of `IncomingUnsubPacket::decode`. */
  method ReadTopics(rd: ByteReader) returns (r: Result<seq<seq<byte>>, DecodeError>)
    modifies rd
    ensures r == DecodeTopics(old(rd.rest))
    ensures r.Ok? ==> rd.rest == []
  {
    var topics: seq<seq<byte>> := [];
    ContinueLaws(topics, [], DecodeTopics(rd.rest));
    while |rd.rest| > 0
      invariant Continue(topics, DecodeTopics(rd.rest)) == DecodeTopics(old(rd.rest))
      decreases |rd.rest|
    {
      var topic := rd.ReadUtf8();
      if topic.Err? {
        return Err(topic.error);
      }
      ContinueLaws(topics, topic.value, DecodeTopics(rd.rest));
      topics := topics + [topic.value];
    }
    ContinueLaws(topics, [], Ok([]));
    r := Ok(topics);
  }
}
