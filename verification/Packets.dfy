/** The packets of src/transceiver/packets.rs: their wire images and the pure meaning of the
decoders. Bit masks and shifts are written as the arithmetic they perform on a byte. */
module Packets {
  import opened Wrappers
  import opened ByteIo

  const MAX_HEADER_SIZE: nat := 5
  const MAX_STATIC_SUBS: nat := 16  // (size_of::<Vec>() - size_of::<usize>()) / 1 on 64-bit targets
  const MAX_BODY: nat := 0x1000_0000  // what four remaining-length bytes can carry, plus one

  datatype QoS = AtMostOnce | AtLeastOnce | ExactlyOnce {
    function Code(): (c: byte)
      ensures c < 3
    {
      match this case AtMostOnce => 0 case AtLeastOnce => 1 case ExactlyOnce => 2
    }
  }

  function QosOf(code: byte): (r: Option<QoS>)
    ensures r.Some? <==> code < 3
    ensures r.Some? ==> r.value.Code() == code
  {
    if code == 0 then Some(AtMostOnce) else if code == 1 then Some(AtLeastOnce)
    else if code == 2 then Some(ExactlyOnce) else None
  }

  datatype PacketType =
    | Connect | ConnAck | Publish | PubAck | PubRec | PubRel | PubComp
    | Subscribe | SubAck | Unsubscribe | UnsubAck | PingReq | PingResp | Disconnect
  {
    function Code(): (c: byte)
      ensures 1 <= c < 15
    {
      match this
      case Connect => 1 case ConnAck => 2 case Publish => 3 case PubAck => 4 case PubRec => 5
      case PubRel => 6 case PubComp => 7 case Subscribe => 8 case SubAck => 9
      case Unsubscribe => 10 case UnsubAck => 11 case PingReq => 12 case PingResp => 13
      case Disconnect => 14
    }
  }

  datatype LastWill = LastWill(topic: seq<byte>, message: seq<byte>, retain: bool, qos: QoS)

  datatype ConnectInfo = ConnectInfo(
    cleanSession: bool, keepAlive: u16, clientId: seq<byte>, will: Option<LastWill>,
    username: Option<seq<byte>>, password: Option<seq<byte>>)

  datatype ServerConnectError =
    | UnacceptableProtocolVersion | IdentifierRejected | ServerUnavailable
    | BadUserNameOrPassword | NotAuthorized | Unknown(code: byte) | ProtocolError

  /** A publish packet: its flags, topic, packet identifier and payload. */
  datatype Message = Message(
    dup: bool, qos: QoS, retain: bool, topic: seq<byte>, id: u16, payload: seq<byte>)

  type SubscriptionResult = Result<QoS, ()>

  /** Results of a SUBACK, held inline when few and in a vector otherwise. */
  datatype SubscriptionResultList =
    | Static(len: nat, values: seq<SubscriptionResult>)
    | Dynamic(list: seq<SubscriptionResult>)
  {
    predicate Valid() {
      Static? ==> |values| == MAX_STATIC_SUBS && len <= MAX_STATIC_SUBS
    }

    function Results(): seq<SubscriptionResult>
      requires Valid()
    {
      match this case Static(len, values) => values[..len] case Dynamic(list) => list
    }
  }

  datatype Packet =
    | ConnectPacket(info: ConnectInfo)
    | ConnAckPacket(reply: Result<bool, ServerConnectError>)
    | PublishPacket(msg: Message)
    | PubAckPacket(id: u16)
    | PubRecPacket(id: u16)
    | PubRelPacket(id: u16)
    | PubCompPacket(id: u16)
    | SubscribePacket(id: u16, filters: seq<(seq<byte>, QoS)>)
    | SubAckPacket(id: u16, results: SubscriptionResultList)
    | UnsubscribePacket(id: u16, topics: seq<seq<byte>>)
    | UnsubAckPacket(id: u16)
    | PingReqPacket
    | PingRespPacket
    | DisconnectPacket
  {
    function Type(): PacketType {
      match this
      case ConnectPacket(_) => Connect
      case ConnAckPacket(_) => ConnAck
      case PublishPacket(_) => Publish
      case PubAckPacket(_) => PubAck
      case PubRecPacket(_) => PubRec
      case PubRelPacket(_) => PubRel
      case PubCompPacket(_) => PubComp
      case SubscribePacket(_, _) => Subscribe
      case SubAckPacket(_, _) => SubAck
      case UnsubscribePacket(_, _) => Unsubscribe
      case UnsubAckPacket(_) => UnsubAck
      case PingReqPacket => PingReq
      case PingRespPacket => PingResp
      case DisconnectPacket => Disconnect
    }

    /** The low four bits of the control field. */
    function Flags(): (f: byte)
      ensures f < 16
    {
      match this
      case PublishPacket(m) => PublishFlags(m)
      case PubRelPacket(_) => 2
      case SubscribePacket(_, _) => 2
      case UnsubscribePacket(_, _) => 2
      case _ => 0
    }
  }

  // ----- Bits -----

  function Bit(on: bool, weight: byte): (b: byte)
    ensures b == if on then weight else 0
  {
    if on then weight else 0
  }

  predicate HasBit(b: byte, weight: byte)
    requires weight > 0
  {
    (b as int / weight as int) % 2 == 1
  }

  /** DUP is bit 3, the quality of service bits 1-2, RETAIN bit 0. */
  function PublishFlags(m: Message): (f: byte)
    ensures f < 16
  {
    Bit(m.dup, 8) + m.qos.Code() * 2 + Bit(m.retain, 1)
  }

  /** `first | PublishFlags::DUP`, applied to the first byte of a packet being re-sent. */
  function WithDup(first: byte): (b: byte)
    ensures HasBit(b, 8)
    ensures b as int == if HasBit(first, 8) then first as int else first as int + 8
  {
    if HasBit(first, 8) then first else first + 8
  }

  function ConnectFlags(c: ConnectInfo): (f: byte) {
    Bit(c.username.Some?, 128) + Bit(c.password.Some?, 64)
    + (if c.will.Some? then Bit(c.will.value.retain, 32) + c.will.value.qos.Code() * 8 + 4 else 0)
    + Bit(c.cleanSession, 2)
  }

  // ----- Bodies: variable header and payload -----

  const PROTOCOL: seq<byte> := [0, 4, 77, 81, 84, 84, 4]  // "MQTT", protocol level 4

  function ConnectHeader(c: ConnectInfo): (s: seq<byte>)
    ensures |s| == 10
  {
    PROTOCOL + [ConnectFlags(c)] + BigEndian(c.keepAlive)
  }

  function OptBytes(o: Option<seq<byte>>): (s: seq<byte>)
    requires o.Some? ==> |o.value| < 65536
  {
    if o.Some? then Prefixed(o.value) else []
  }

  function WillBytes(w: Option<LastWill>): (s: seq<byte>)
    requires w.Some? ==> |w.value.topic| < 65536 && |w.value.message| < 65536
  {
    if w.Some? then Prefixed(w.value.topic) + Prefixed(w.value.message) else []
  }

  function OneFilter(topic: seq<byte>, qos: QoS): (s: seq<byte>)
    requires |topic| < 65536
    ensures |s| == 3 + |topic|
  {
    Prefixed(topic) + [qos.Code()]
  }

  function FilterBytes(filters: seq<(seq<byte>, QoS)>): seq<byte>
    requires forall f <- filters :: |f.0| < 65536
  {
    if filters == [] then []
    else FilterBytes(filters[..|filters| - 1]) + OneFilter(filters[|filters| - 1].0, filters[|filters| - 1].1)
  }

  function TopicBytes(topics: seq<seq<byte>>): seq<byte>
    requires forall t <- topics :: |t| < 65536
  {
    if topics == [] then [] else TopicBytes(topics[..|topics| - 1]) + Prefixed(topics[|topics| - 1])
  }

  function ResultCode(r: SubscriptionResult): byte {
    match r case Ok(qos) => qos.Code() case Err(_) => 128
  }

  function ResultBytes(results: seq<SubscriptionResult>): (s: seq<byte>)
    ensures |s| == |results|
    ensures forall i :: 0 <= i < |s| ==> s[i] == ResultCode(results[i])
  {
    seq(|results|, i requires 0 <= i < |results| => ResultCode(results[i]))
  }

  function ReplyBytes(reply: Result<bool, ServerConnectError>): seq<byte> {
    match reply
    case Ok(present) => [Bit(present, 1), 0]
    case Err(UnacceptableProtocolVersion) => [0, 1]
    case Err(IdentifierRejected) => [0, 2]
    case Err(ServerUnavailable) => [0, 3]
    case Err(BadUserNameOrPassword) => [0, 4]
    case Err(NotAuthorized) => [0, 5]
    case Err(Unknown(code)) => [0, code]
    case Err(ProtocolError) => []  // never sent
  }

  /** What the encoders demand: 16-bit lengths, and strings that are strings. */
  predicate WellFormed(p: Packet) {
    match p
    case ConnectPacket(c) =>
      && |c.clientId| < 65536 && Utf8(c.clientId)
      && (c.will.Some? ==> |c.will.value.topic| < 65536 && Utf8(c.will.value.topic) && |c.will.value.message| < 65536)
      && (c.username.Some? ==> |c.username.value| < 65536 && Utf8(c.username.value))
      && (c.password.Some? ==> |c.password.value| < 65536)
    case ConnAckPacket(r) => r.Err? ==> r.error != ProtocolError && (r.error.Unknown? ==> r.error.code > 5)
    case PublishPacket(m) => |m.topic| < 65536 && Utf8(m.topic) && (m.qos.AtMostOnce? ==> m.id == 0)
    case SubscribePacket(_, filters) => forall f <- filters :: |f.0| < 65536 && Utf8(f.0)
    case SubAckPacket(_, results) => results.Valid()
    case UnsubscribePacket(_, topics) => forall t <- topics :: |t| < 65536 && Utf8(t)
    case _ => true
  }

  /** `SubAckPacket::new`: unused inline slots hold `Err(())`. */
  function ResultList(results: seq<SubscriptionResult>): (l: SubscriptionResultList)
    ensures l.Valid() && l.Results() == results
  {
    if |results| <= MAX_STATIC_SUBS then
      Static(|results|, results + seq(MAX_STATIC_SUBS - |results|, _ => Err(())))
    else Dynamic(results)
  }

  /** The bytes after the fixed header. */
  function Body(p: Packet): seq<byte>
    requires WellFormed(p)
  {
    match p
    case ConnectPacket(c) =>
      ConnectHeader(c)
      + (Prefixed(c.clientId) + (WillBytes(c.will) + (OptBytes(c.username) + OptBytes(c.password))))
    case ConnAckPacket(reply) => ReplyBytes(reply)
    case PublishPacket(m) =>
      Prefixed(m.topic) + (if m.qos.AtMostOnce? then [] else BigEndian(m.id)) + m.payload
    case PubAckPacket(id) => BigEndian(id)
    case PubRecPacket(id) => BigEndian(id)
    case PubRelPacket(id) => BigEndian(id)
    case PubCompPacket(id) => BigEndian(id)
    case SubscribePacket(id, filters) => BigEndian(id) + FilterBytes(filters)
    case SubAckPacket(id, results) => BigEndian(id) + ResultBytes(results.Results())
    case UnsubscribePacket(id, topics) => BigEndian(id) + TopicBytes(topics)
    case UnsubAckPacket(id) => BigEndian(id)
    case PingReqPacket => []
    case PingRespPacket => []
    case DisconnectPacket => []
  }

  // ----- Frames -----

  /** The remaining-length field: base 128, least significant digit first, continuation bit
  on every digit but the last (section 2.2.3 of MQTT 3.1.1). */
  function RemainingLength(size: nat): (s: seq<byte>)
    ensures |s| >= 1
  {
    if size < 128 then [size] else [size % 128 + 128] + RemainingLength(size / 128)
  }

  /** `make_packet` panics on anything else. */
  predicate Encodable(p: Packet) {
    WellFormed(p) && |Body(p)| < MAX_BODY
  }

  type WirePacket = p: Packet | Encodable(p) witness PingReqPacket

  function Control(p: Packet): byte {
    p.Type().Code() * 16 + p.Flags()
  }

  function Wire(p: WirePacket): (s: seq<byte>)
    ensures |s| >= 2
  {
    [Control(p)] + RemainingLength(|Body(p)|) + Body(p)
  }

  // ----- Decoders -----

  /** The packets that carry nothing but an identifier. */
  predicate IsIdCode(code: byte) { 4 <= code <= 7 || code == 11 }

  function IdPacket(code: byte, id: u16): Packet
    requires IsIdCode(code)
  {
    if code == 4 then PubAckPacket(id) else if code == 5 then PubRecPacket(id)
    else if code == 6 then PubRelPacket(id) else if code == 7 then PubCompPacket(id)
    else UnsubAckPacket(id)
  }

  function DecodeId(code: byte, s: seq<byte>): Taken<Packet>
    requires IsIdCode(code)
  {
    match TakeU16(s) case Err(e) => Err(e) case Ok((id, rest)) => Ok((IdPacket(code, id), rest))
  }

  function DecodePublish(flags: byte, s: seq<byte>): Taken<Packet>
    requires flags < 16
  {
    match QosOf((flags as int / 2) % 4)
    case None => Err(MalformedPacket)
    case Some(qos) =>
      match TakeUtf8(s)
      case Err(e) => Err(e)
      case Ok((topic, s1)) =>
        if qos.AtMostOnce? then
          Ok((PublishPacket(Message(HasBit(flags, 8), qos, HasBit(flags, 1), topic, 0, s1)), []))
        else
          match TakeU16(s1)
          case Err(e) => Err(e)
          case Ok((id, s2)) =>
            Ok((PublishPacket(Message(HasBit(flags, 8), qos, HasBit(flags, 1), topic, id, s2)), []))
  }

  function DecodeReply(s: seq<byte>): Taken<Packet> {
    if |s| < 2 then Err(ReachedEndUnexpectedly)
    else
      var reply :=
        if s[1] == 0 then Ok(HasBit(s[0], 1))
        else if s[1] == 1 then Err(UnacceptableProtocolVersion)
        else if s[1] == 2 then Err(IdentifierRejected)
        else if s[1] == 3 then Err(ServerUnavailable)
        else if s[1] == 4 then Err(BadUserNameOrPassword)
        else if s[1] == 5 then Err(NotAuthorized)
        else Err(Unknown(s[1]));
      Ok((ConnAckPacket(reply), s[2..]))
  }

  function ParseResult(code: byte): (r: Result<SubscriptionResult, DecodeError>)
    ensures r.Ok? <==> code < 3 || code == 128
    ensures r.Ok? ==> ResultCode(r.value) == code
  {
    if code == 128 then Ok(Err(()))
    else match QosOf(code) case Some(qos) => Ok(Ok(qos)) case None => Err(MalformedPacket)
  }

  function DecodeResults(s: seq<byte>): (r: Result<seq<SubscriptionResult>, DecodeError>)
    ensures r.Ok? ==> |r.value| == |s|
  {
    if s == [] then Ok([])
    else
      match DecodeResults(s[..|s| - 1])
      case Err(e) => Err(e)
      case Ok(front) =>
        match ParseResult(s[|s| - 1]) case Err(e) => Err(e) case Ok(x) => Ok(front + [x])
  }

  function DecodeSubAck(s: seq<byte>): Taken<Packet> {
    match TakeU16(s)
    case Err(e) => Err(e)
    case Ok((id, rest)) =>
      match DecodeResults(rest)
      case Err(e) => Err(e)
      case Ok(results) => Ok((SubAckPacket(id, ResultList(results)), []))
  }

  /** `IncomingPacket::from_bytes`: the packets a client accepts. */
  function ClientDecode(control: byte, s: seq<byte>): Taken<Packet> {
    var code: byte := control as int / 16;
    if code == 2 then DecodeReply(s)
    else if code == 9 then DecodeSubAck(s)
    else if code == 3 then DecodePublish(control as int % 16, s)
    else if IsIdCode(code) then DecodeId(code, s)
    else if code == 13 then Ok((PingRespPacket, s))
    else Err(InvalidPacketId(code))
  }

  function DecodeOpt(present: bool, s: seq<byte>, text: bool): Taken<Option<seq<byte>>> {
    if !present then Ok((None, s))
    else
      match (if text then TakeUtf8(s) else TakeByteArray(s))
      case Err(e) => Err(e)
      case Ok((a, rest)) => Ok((Some(a), rest))
  }

  function DecodeWill(flags: byte, s: seq<byte>): Taken<Option<LastWill>> {
    if !HasBit(flags, 4) then Ok((None, s))
    else
      match TakeUtf8(s)
      case Err(e) => Err(e)
      case Ok((topic, s1)) =>
        match TakeByteArray(s1)
        case Err(e) => Err(e)
        case Ok((message, s2)) =>
          match QosOf((flags as int / 8) % 4)
          case None => Err(AssertionFailed)
          case Some(qos) => Ok((Some(LastWill(topic, message, HasBit(flags, 32), qos)), s2))
  }

  function DecodeConnect(s: seq<byte>): Taken<Packet> {
    if |s| < 10 then Err(ReachedEndUnexpectedly)
    else if s[..7] != PROTOCOL then Err(AssertionFailed)
    else
      var flags := s[7];
      match TakeUtf8(s[10..])
      case Err(e) => Err(e)
      case Ok((clientId, s1)) =>
        match DecodeWill(flags, s1)
        case Err(e) => Err(e)
        case Ok((will, s2)) =>
          match DecodeOpt(HasBit(flags, 128), s2, true)
          case Err(e) => Err(e)
          case Ok((username, s3)) =>
            match DecodeOpt(HasBit(flags, 64), s3, false)
            case Err(e) => Err(e)
            case Ok((password, s4)) =>
              var c := ConnectInfo(HasBit(flags, 2), Word(s[8], s[9]), clientId, will, username, password);
              Ok((ConnectPacket(c), s4))
  }

  function DecodeFilters(s: seq<byte>): (r: Result<seq<(seq<byte>, QoS)>, DecodeError>)
    decreases |s|
  {
    if s == [] then Ok([])
    else
      match TakeUtf8(s)
      case Err(e) => Err(e)
      case Ok((topic, s1)) =>
        match TakeU8(s1)
        case Err(e) => Err(e)
        case Ok((code, s2)) =>
          match QosOf(code)
          case None => Err(AssertionFailed)
          case Some(qos) =>
            match DecodeFilters(s2) case Err(e) => Err(e) case Ok(rest) => Ok([(topic, qos)] + rest)
  }

  function DecodeTopics(s: seq<byte>): (r: Result<seq<seq<byte>>, DecodeError>)
    decreases |s|
  {
    if s == [] then Ok([])
    else
      match TakeUtf8(s)
      case Err(e) => Err(e)
      case Ok((topic, s1)) =>
        match DecodeTopics(s1) case Err(e) => Err(e) case Ok(rest) => Ok([topic] + rest)
  }

  function DecodeSubscribe(s: seq<byte>): Taken<Packet> {
    match TakeU16(s)
    case Err(e) => Err(e)
    case Ok((id, rest)) =>
      match DecodeFilters(rest)
      case Err(e) => Err(e)
      case Ok(filters) => Ok((SubscribePacket(id, filters), []))
  }

  function DecodeUnsubscribe(s: seq<byte>): Taken<Packet> {
    match TakeU16(s)
    case Err(e) => Err(e)
    case Ok((id, rest)) =>
      match DecodeTopics(rest)
      case Err(e) => Err(e)
      case Ok(topics) => Ok((UnsubscribePacket(id, topics), []))
  }

  /** The packets the test broker accepts; its decoders assert the reserved flag bits. */
  function BrokerDecode(control: byte, s: seq<byte>): Taken<Packet> {
    var code: byte := control as int / 16;
    var flags: byte := control as int % 16;
    if code == 1 then if flags == 0 then DecodeConnect(s) else Err(AssertionFailed)
    else if code == 8 then if flags == 2 then DecodeSubscribe(s) else Err(AssertionFailed)
    else if code == 3 then DecodePublish(flags, s)
    else if 4 <= code <= 7 then DecodeId(code, s)
    else if code == 10 then if flags == 2 then DecodeUnsubscribe(s) else Err(AssertionFailed)
    else if code == 12 then if flags == 0 then Ok((PingReqPacket, s)) else Err(AssertionFailed)
    else if code == 14 then if flags == 0 then Ok((DisconnectPacket, s)) else Err(AssertionFailed)
    else Err(InvalidPacketId(code))
  }
}
