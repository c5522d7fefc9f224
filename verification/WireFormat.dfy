/** The bytes that go out, packet by packet, as MQTT 3.1.1 lays them out: the control bytes of
tables 2.1 and 2.2, the remaining length of section 2.2.3, and the variable header and payload of
chapter 3. Nothing here refers to a decoder. */
module WireFormat {
  import opened Wrappers
  import opened ByteIo
  import opened Packets

  // ----- The layout -----

  /** The control byte of every packet but PUBLISH, whose flags vary. */
  ghost function ControlByte(p: Packet): byte
    requires !p.PublishPacket?
  {
    match p
    case ConnectPacket(_) => 0x10
    case ConnAckPacket(_) => 0x20
    case PubAckPacket(_) => 0x40
    case PubRecPacket(_) => 0x50
    case PubRelPacket(_) => 0x62
    case PubCompPacket(_) => 0x70
    case SubscribePacket(_, _) => 0x82
    case SubAckPacket(_, _) => 0x90
    case UnsubscribePacket(_, _) => 0xA2
    case UnsubAckPacket(_) => 0xB0
    case PingReqPacket => 0xC0
    case PingRespPacket => 0xD0
    case DisconnectPacket => 0xE0
  }

  ghost function QosBits(qos: QoS): byte {
    match qos case AtMostOnce => 0 case AtLeastOnce => 1 case ExactlyOnce => 2
  }

  /** 0x3, then DUP, two bits of quality of service, RETAIN. */
  ghost predicate IsPublishByte(b: byte, m: Message) {
    && b as int / 16 == 0x3
    && (b as int / 8 % 2 == 1 <==> m.dup)
    && b as int / 2 % 4 == QosBits(m.qos) as int
    && (b as int % 2 == 1 <==> m.retain)
  }

  /** Base 128, least significant digit first. */
  ghost function LengthValue(s: seq<byte>): nat {
    if s == [] then 0 else s[0] as int % 128 + 128 * LengthValue(s[1..])
  }

  /** A remaining-length field for `n`: a continuation bit on every byte but the last, and no more bytes
  than needed. */
  ghost predicate IsLength(s: seq<byte>, n: nat) {
    && s != [] && LengthValue(s) == n
    && (forall i :: 0 <= i < |s| ==> (s[i] >= 128 <==> i < |s| - 1))
    && (|s| > 1 ==> s[|s| - 1] != 0)
  }

  /** A 16-bit word, most significant byte first. */
  ghost function Word16(n: u16): seq<byte> {
    [n / 256, n % 256]
  }

  /** A string or binary field: its length, then its bytes. */
  ghost function Field(a: seq<byte>): seq<byte>
    requires |a| < 65536
  {
    Word16(|a|) + a
  }

  ghost function OptField(o: Option<seq<byte>>): seq<byte>
    requires o.Some? ==> |o.value| < 65536
  {
    match o case None => [] case Some(a) => Field(a)
  }

  ghost function Fields(topics: seq<seq<byte>>): seq<byte>
    requires forall t <- topics :: |t| < 65536
  {
    if topics == [] then [] else Field(topics[0]) + Fields(topics[1..])
  }

  ghost function FilterFields(filters: seq<(seq<byte>, QoS)>): seq<byte>
    requires forall f <- filters :: |f.0| < 65536
  {
    if filters == [] then [] else Field(filters[0].0) + [QosBits(filters[0].1)] + FilterFields(filters[1..])
  }

  ghost function ReturnCode(reply: Result<bool, ServerConnectError>): byte
    requires reply.Err? ==> reply.error != ProtocolError
  {
    match reply
    case Ok(_) => 0
    case Err(UnacceptableProtocolVersion) => 1
    case Err(IdentifierRejected) => 2
    case Err(ServerUnavailable) => 3
    case Err(BadUserNameOrPassword) => 4
    case Err(NotAuthorized) => 5
    case Err(Unknown(code)) => code
  }

  ghost predicate IsSubAckCode(b: byte, r: SubscriptionResult) {
    match r case Ok(qos) => b == QosBits(qos) case Err(_) => b == 0x80
  }

  /** From the lowest bit: reserved, clean session, will, two bits of will quality of service, will
  retain, password, user name. */
  ghost predicate IsConnectFlags(b: byte, c: ConnectInfo) {
    && b as int % 2 == 0
    && (b as int / 2 % 2 == 1 <==> c.cleanSession)
    && (b as int / 4 % 2 == 1 <==> c.will.Some?)
    && b as int / 8 % 4 == (if c.will.Some? then QosBits(c.will.value.qos) as int else 0)
    && (b as int / 32 % 2 == 1 <==> c.will.Some? && c.will.value.retain)
    && (b as int / 64 % 2 == 1 <==> c.password.Some?)
    && (b as int / 128 == 1 <==> c.username.Some?)
  }

  /** "MQTT", level 4, the flags, the keep-alive interval; then identifier, will, user name and password. */
  ghost predicate IsConnect(s: seq<byte>, c: ConnectInfo)
    requires WellFormed(ConnectPacket(c))
  {
    && |s| >= 10 && s[..7] == [0, 4, 0x4D, 0x51, 0x54, 0x54, 4] && IsConnectFlags(s[7], c)
    && s[8..10] == Word16(c.keepAlive)
    && s[10..] == Field(c.clientId)
                  + (if c.will.Some? then Field(c.will.value.topic) + Field(c.will.value.message) else [])
                  + OptField(c.username) + OptField(c.password)
  }

  /** What follows the fixed header. */
  ghost predicate IsBody(s: seq<byte>, p: Packet)
    requires WellFormed(p)
  {
    match p
    case ConnectPacket(c) => IsConnect(s, c)
    case ConnAckPacket(reply) => s == [if reply == Ok(true) then 1 else 0, ReturnCode(reply)]
    case PublishPacket(m) =>
      s == Field(m.topic) + (if m.qos.AtMostOnce? then [] else Word16(m.id)) + m.payload
    case SubscribePacket(id, filters) => s == Word16(id) + FilterFields(filters)
    case SubAckPacket(id, results) =>
      && |s| == 2 + |results.Results()| && s[..2] == Word16(id)
      && forall i :: 0 <= i < |results.Results()| ==> IsSubAckCode(s[2 + i], results.Results()[i])
    case UnsubscribePacket(id, topics) => s == Word16(id) + Fields(topics)
    case PingReqPacket => s == []
    case PingRespPacket => s == []
    case DisconnectPacket => s == []
    case _ => s == Word16(p.id)
  }

  /** A packet on the wire: control byte, remaining length, body. */
  ghost predicate IsImage(s: seq<byte>, p: Packet, n: nat)
    requires WellFormed(p)
  {
    && 1 < n <= |s|
    && (if p.PublishPacket? then IsPublishByte(s[0], p.msg) else s[0] == ControlByte(p))
    && IsLength(s[1..n], |s| - n) && IsBody(s[n..], p)
  }

  // ----- The encoders meet it -----

  lemma {:induction false} LengthIsBase128(size: nat)
    ensures IsLength(RemainingLength(size), size)
  {
    if size >= 128 {
      LengthIsBase128(size / 128);
      var (s, rest) := (RemainingLength(size), RemainingLength(size / 128));
      assert s[1..] == rest;
      assert s[|s| - 1] == rest[|rest| - 1];
      assert |rest| == 1 ==> rest[0] == size / 128;
      forall i | 0 <= i < |s| ensures s[i] >= 128 <==> i < |s| - 1 {
        if i > 0 { assert s[i] == rest[i - 1]; }
      }
    } else {
      assert RemainingLength(size)[1..] == [];
    }
  }

  lemma {:induction false} FieldsInOrder(topics: seq<seq<byte>>)
    requires forall t <- topics :: |t| < 65536
    ensures TopicBytes(topics) == Fields(topics)
  {
    if topics != [] {
      var last := |topics| - 1;
      FieldsInOrder(topics[..last]);
      FieldsSnoc(topics[..last], topics[last]);
      assert topics == topics[..last] + [topics[last]];
    }
  }

  lemma {:induction false} FieldsSnoc(topics: seq<seq<byte>>, t: seq<byte>)
    requires |t| < 65536 && forall u <- topics :: |u| < 65536
    ensures Fields(topics + [t]) == Fields(topics) + Field(t)
  {
    var more := topics + [t];
    if topics == [] {
      assert more[1..] == [];
    } else {
      assert more[1..] == topics[1..] + [t] && more[0] == topics[0];
      FieldsSnoc(topics[1..], t);
    }
  }

  lemma {:induction false} FilterFieldsInOrder(filters: seq<(seq<byte>, QoS)>)
    requires forall f <- filters :: |f.0| < 65536
    ensures FilterBytes(filters) == FilterFields(filters)
  {
    if filters != [] {
      var last := |filters| - 1;
      FilterFieldsInOrder(filters[..last]);
      FilterFieldsSnoc(filters[..last], filters[last]);
      assert filters == filters[..last] + [filters[last]];
    }
  }

  lemma {:induction false} FilterFieldsSnoc(filters: seq<(seq<byte>, QoS)>, f: (seq<byte>, QoS))
    requires |f.0| < 65536 && forall g <- filters :: |g.0| < 65536
    ensures FilterFields(filters + [f]) == FilterFields(filters) + (Field(f.0) + [QosBits(f.1)])
  {
    var more := filters + [f];
    if filters == [] {
      assert more[1..] == [];
    } else {
      assert more[1..] == filters[1..] + [f] && more[0] == filters[0];
      FilterFieldsSnoc(filters[1..], f);
    }
  }

  lemma FlagDigits(clean: int, will: int, qos: int, retain: int, password: int, username: int)
    requires 0 <= clean < 2 && 0 <= will < 2 && 0 <= qos < 4
    requires 0 <= retain < 2 && 0 <= password < 2 && 0 <= username < 2
    ensures var b := username * 128 + password * 64 + retain * 32 + qos * 8 + will * 4 + clean * 2;
            && 0 <= b < 256 && b % 2 == 0 && b / 2 % 2 == clean && b / 4 % 2 == will && b / 8 % 4 == qos
            && b / 32 % 2 == retain && b / 64 % 2 == password && b / 128 == username
  {
  }

  ghost function One(on: bool): int {
    if on then 1 else 0
  }

  lemma ConnectFlagBits(c: ConnectInfo)
    ensures IsConnectFlags(ConnectFlags(c), c)
  {
    var qos := if c.will.Some? then QosBits(c.will.value.qos) else 0;
    var retain := c.will.Some? && c.will.value.retain;
    FlagDigits(One(c.cleanSession), One(c.will.Some?), qos, One(retain), One(c.password.Some?), One(c.username.Some?));
  }

  ghost function ConnectPayload(c: ConnectInfo): seq<byte>
    requires WellFormed(ConnectPacket(c))
  {
    Prefixed(c.clientId) + (WillBytes(c.will) + (OptBytes(c.username) + OptBytes(c.password)))
  }

  lemma PayloadLayout(c: ConnectInfo)
    requires WellFormed(ConnectPacket(c))
    ensures ConnectPayload(c) ==
            Field(c.clientId)
            + (if c.will.Some? then Field(c.will.value.topic) + Field(c.will.value.message) else [])
            + OptField(c.username) + OptField(c.password)
  {
  }

  lemma ConnectLayout(c: ConnectInfo)
    requires WellFormed(ConnectPacket(c))
    ensures IsConnect(Body(ConnectPacket(c)), c)
  {
    ConnectFlagBits(c);
    var (s, rest) := (Body(ConnectPacket(c)), ConnectPayload(c));
    assert s[..7] == PROTOCOL && s[8..10] == BigEndian(c.keepAlive) && s[10..] == rest;
    PayloadLayout(c);
  }

  lemma BodyLayout(p: Packet)
    requires WellFormed(p)
    ensures IsBody(Body(p), p)
  {
    match p
    case ConnectPacket(c) => ConnectLayout(c);
    case SubscribePacket(_, filters) => FilterFieldsInOrder(filters);
    case UnsubscribePacket(_, topics) => FieldsInOrder(topics);
    case _ =>
  }

  lemma ControlLayout(p: Packet)
    ensures if p.PublishPacket? then IsPublishByte(Control(p), p.msg) else Control(p) == ControlByte(p)
  {
  }

  /** Every packet the client or its peer sends has the bytes the standard prescribes. */
  lemma WireLayout(p: WirePacket)
    ensures IsImage(Wire(p), p, 1 + |RemainingLength(|Body(p)|)|)
  {
    var (s, field, body) := (Wire(p), RemainingLength(|Body(p)|), Body(p));
    assert s[1..1 + |field|] == field && s[1 + |field|..] == body;
    LengthIsBase128(|body|);
    ControlLayout(p);
    BodyLayout(p);
  }

  // ----- The layout leaves the encoder no choice -----

  lemma {:induction false} LengthUnique(a: seq<byte>, b: seq<byte>, n: nat)
    requires IsLength(a, n) && IsLength(b, n)
    ensures a == b
    decreases |a|
  {
    if |a| == 1 && |b| == 1 {
      assert a[1..] == [] && b[1..] == [];
      assert a == [a[0]] && b == [b[0]];
    } else {
      LengthTail(a, n);
      LengthTail(b, n);
      assert |a| > 1 && |b| > 1;
      LengthUnique(a[1..], b[1..], n / 128);
      assert a == [a[0]] + a[1..] && b == [b[0]] + b[1..];
    }
  }

  lemma LengthTail(a: seq<byte>, n: nat)
    requires IsLength(a, n)
    ensures n % 128 == a[0] as int % 128
    ensures |a| == 1 <==> n < 128
    ensures |a| > 1 ==> IsLength(a[1..], n / 128)
  {
    if |a| == 1 {
      assert a[1..] == [];
    } else {
      LengthPositive(a[1..]);
    }
  }

  lemma {:induction false} LengthPositive(a: seq<byte>)
    requires a != [] && a[|a| - 1] != 0 && a[|a| - 1] < 128
    ensures LengthValue(a) > 0
  {
    if |a| == 1 {
      assert a[1..] == [];
    } else {
      LengthPositive(a[1..]);
    }
  }

  /** Halving twice, or quartering: what is left of a byte when digits are taken off its low end. */
  lemma DigitsOff(b: int)
    requires 0 <= b < 256
    ensures b == 2 * (b / 2) + b % 2 && b / 2 == 2 * (b / 4) + b / 2 % 2 && b / 4 == 2 * (b / 8) + b / 4 % 2
    ensures b / 8 == 4 * (b / 32) + b / 8 % 4 && b / 32 == 2 * (b / 64) + b / 32 % 2
    ensures b / 64 == 2 * (b / 128) + b / 64 % 2 && 0 <= b / 128 < 2
  {
    assert b / 2 / 2 == b / 4 && b / 4 / 2 == b / 8 && b / 8 / 4 == b / 32;
    assert b / 32 / 2 == b / 64 && b / 64 / 2 == b / 128;
  }

  lemma FlagsUnique(a: byte, b: byte, c: ConnectInfo)
    requires IsConnectFlags(a, c) && IsConnectFlags(b, c)
    ensures a == b
  {
    SameDigits(a, b);
  }

  lemma SameDigits(a: int, b: int)
    requires 0 <= a < 256 && 0 <= b < 256 && a % 2 == b % 2 && a / 2 % 2 == b / 2 % 2 && a / 4 % 2 == b / 4 % 2
    requires a / 8 % 4 == b / 8 % 4 && a / 32 % 2 == b / 32 % 2 && a / 64 % 2 == b / 64 % 2 && a / 128 == b / 128
    ensures a == b
  {
    DigitsOff(a);
    DigitsOff(b);
  }

  lemma BodyUnique(a: seq<byte>, b: seq<byte>, p: Packet)
    requires WellFormed(p) && IsBody(a, p) && IsBody(b, p)
    ensures a == b
  {
    match p
    case ConnectPacket(c) =>
      FlagsUnique(a[7], b[7], c);
      assert a == a[..7] + [a[7]] + a[8..10] + a[10..] && b == b[..7] + [b[7]] + b[8..10] + b[10..];
    case SubAckPacket(_, results) =>
      forall i | 0 <= i < |a| ensures a[i] == b[i] {
        if i < 2 {
          assert a[i] == a[..2][i] && b[i] == b[..2][i];
        } else {
          assert IsSubAckCode(a[2 + (i - 2)], results.Results()[i - 2]);
          assert IsSubAckCode(b[2 + (i - 2)], results.Results()[i - 2]);
        }
      }
    case _ =>
  }

  /** The layout determines the bytes: `Wire` is the only encoding that has it. */
  lemma ImageUnique(a: seq<byte>, b: seq<byte>, p: Packet, n: nat, k: nat)
    requires WellFormed(p) && IsImage(a, p, n) && IsImage(b, p, k)
    ensures a == b
  {
    BodyUnique(a[n..], b[k..], p);
    LengthUnique(a[1..n], b[1..k], |a| - n);
    assert a == [a[0]] + a[1..n] + a[n..] && b == [b[0]] + b[1..k] + b[k..];
    if p.PublishPacket? {
      PublishByteUnique(a[0], b[0], p.msg);
    }
  }

  lemma PublishByteUnique(a: byte, b: byte, m: Message)
    requires IsPublishByte(a, m) && IsPublishByte(b, m)
    ensures a == b
  {
    NibbleDigits(a);
    NibbleDigits(b);
  }

  lemma NibbleDigits(b: int)
    requires 0 <= b < 256
    ensures b == 2 * (b / 2) + b % 2 && b / 2 == 4 * (b / 8) + b / 2 % 4 && b / 8 == 2 * (b / 16) + b / 8 % 2
  {
    assert b / 2 / 4 == b / 8 && b / 8 / 2 == b / 16;
  }

  /** The packets that carry an identifier only, in full. */
  lemma IdImage(p: WirePacket)
    requires p.PubAckPacket? || p.PubRecPacket? || p.PubRelPacket? || p.PubCompPacket? || p.UnsubAckPacket?
    ensures Wire(p) == [if p.PubAckPacket? then 0x40 else if p.PubRecPacket? then 0x50 else if p.PubRelPacket? then 0x62
                        else if p.PubCompPacket? then 0x70 else 0xB0, 2, p.id / 256, p.id % 256]
  {
  }
}
