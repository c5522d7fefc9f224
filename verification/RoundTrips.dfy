/** Decoding inverts encoding, for every packet kind. */
module RoundTrips {
  import opened Wrappers
  import opened ByteIo
  import opened Packets

  // ----- Remaining length -----

  /** The value and the position after the field, or None if bytes are missing. */
  function ParseLength(s: seq<byte>, pos: nat): (r: Option<(nat, nat)>)
    decreases |s| - pos
    ensures r.Some? ==> pos < r.value.1 <= |s|
  {
    if pos >= |s| then None
    else if s[pos] < 128 then Some((s[pos], pos + 1))
    else
      match ParseLength(s, pos + 1)
      case None => None
      case Some((high, end)) => Some((s[pos] - 128 + 128 * high, end))
  }

  /** Parsing inverts encoding after any prefix and before any suffix. */
  lemma {:induction false} ParseInvertsLength(size: nat, s: seq<byte>, pos: nat)
    requires pos + |RemainingLength(size)| <= |s|
    requires s[pos..pos + |RemainingLength(size)|] == RemainingLength(size)
    ensures ParseLength(s, pos) == Some((size, pos + |RemainingLength(size)|))
  {
    var field := s[pos..pos + |RemainingLength(size)|];
    assert s[pos] == field[0];
    if size >= 128 {
      assert s[pos + 1..pos + 1 + |RemainingLength(size / 128)|] == field[1..];
      ParseInvertsLength(size / 128, s, pos + 1);
    }
  }

  /** Every proper prefix of the field asks for more bytes. */
  lemma {:induction false} ProperPrefixIncomplete(size: nat, s: seq<byte>, pos: nat)
    requires pos <= |s| < pos + |RemainingLength(size)|
    requires s[pos..] == RemainingLength(size)[..|s| - pos]
    ensures ParseLength(s, pos).None?
  {
    if pos < |s| {
      assert s[pos] == s[pos..][0] == RemainingLength(size)[0];
      assert s[pos + 1..] == s[pos..][1..];
      ProperPrefixIncomplete(size / 128, s, pos + 1);
    }
  }

  /** Four bytes are enough exactly below 2^28, as section 2.2.3 of MQTT 3.1.1 tabulates. */
  lemma LengthFieldSize(size: nat)
    ensures |RemainingLength(size)| <= 4 <==> size < MAX_BODY
    ensures size < MAX_BODY ==>
              |RemainingLength(size)| ==
              (if size < 128 then 1 else if size < 16384 then 2 else if size < 2097152 then 3 else 4)
  {
    var a := size / 128;
    var b := a / 128;
    var c := b / 128;
    if size >= 128 {
      assert |RemainingLength(size)| == 1 + |RemainingLength(a)|;
      if a >= 128 {
        assert |RemainingLength(a)| == 1 + |RemainingLength(b)|;
        if b >= 128 {
          assert |RemainingLength(b)| == 1 + |RemainingLength(c)|;
        }
      }
    }
  }

  /** The field has no continuation bit on its last byte only. */
  lemma {:induction false} LengthFieldShape(size: nat, i: nat)
    requires i < |RemainingLength(size)|
    ensures RemainingLength(size)[i] < 128 <==> i == |RemainingLength(size)| - 1
  {
    if size >= 128 && i > 0 {
      LengthFieldShape(size / 128, i - 1);
    }
  }

  // ----- Publish -----

  lemma FlagsRoundTrip(m: Message)
    ensures var f: int := PublishFlags(m) as int;
            && (f / 2) % 4 == m.qos.Code() as int
            && HasBit(PublishFlags(m), 8) == m.dup && HasBit(PublishFlags(m), 1) == m.retain
  {
  }

  lemma PublishRoundTrip(m: Message)
    requires WellFormed(PublishPacket(m))
    ensures DecodePublish(PublishFlags(m), Body(PublishPacket(m))) == Ok((PublishPacket(m), []))
  {
    FlagsRoundTrip(m);
    var tail := (if m.qos.AtMostOnce? then [] else BigEndian(m.id)) + m.payload;
    assert Body(PublishPacket(m)) == Prefixed(m.topic) + tail;
    TakeUtf8Inverts(m.topic, tail);
    if m.qos.AtMostOnce? {
      assert tail == m.payload;
    } else {
      TakeU16Inverts(m.id, m.payload);
    }
  }

  /** Four bits are their DUP, quality of service and RETAIN parts. */
  lemma FlagsSplit(flags: byte)
    requires flags < 16
    ensures flags == Bit(HasBit(flags, 8), 8) + (flags as int / 2) % 4 * 2 + Bit(HasBit(flags, 1), 1)
  {
  }

  lemma PublishFlagsSound(flags: byte, m: Message)
    requires flags < 16 && QosOf((flags as int / 2) % 4) == Some(m.qos)
    requires m.dup == HasBit(flags, 8) && m.retain == HasBit(flags, 1)
    ensures flags == PublishFlags(m)
  {
    FlagsSplit(flags);
  }

  /** The decoder accepts nothing but images of the encoder, and returns their source. */
  lemma PublishDecodeSound(flags: byte, s: seq<byte>)
    requires flags < 16
    requires DecodePublish(flags, s).Ok?
    ensures var (p, rest) := DecodePublish(flags, s).value;
            p.PublishPacket? && rest == [] && WellFormed(p) && s == Body(p) && flags == PublishFlags(p.msg)
  {
    var (topic, s1) := TakeUtf8(s).value;
    var m := DecodePublish(flags, s).value.0.msg;
    PublishFlagsSound(flags, m);
    if m.qos.AtMostOnce? {
      assert s == Prefixed(topic) + [] + s1;
    } else {
      var (id, s2) := TakeU16(s1).value;
      Assoc(Prefixed(topic), BigEndian(id), s2);
    }
  }

  // ----- Lists -----

  lemma {:induction false} FilterBytesFront(filters: seq<(seq<byte>, QoS)>)
    requires filters != [] && forall f <- filters :: |f.0| < 65536
    ensures FilterBytes(filters) == OneFilter(filters[0].0, filters[0].1) + FilterBytes(filters[1..])
  {
    var n := |filters| - 1;
    var front, rest := filters[..n], filters[1..];
    if n > 0 {
      FilterBytesFront(front);
      assert front[1..] == rest[..n - 1];
      Assoc(OneFilter(filters[0].0, filters[0].1), FilterBytes(rest[..n - 1]), OneFilter(filters[n].0, filters[n].1));
    }
  }

  lemma {:induction false} FiltersRoundTrip(filters: seq<(seq<byte>, QoS)>)
    requires forall f <- filters :: |f.0| < 65536 && Utf8(f.0)
    ensures DecodeFilters(FilterBytes(filters)) == Ok(filters)
  {
    if filters != [] {
      var first, rest := filters[0], filters[1..];
      FilterBytesFront(filters);
      FiltersRoundTrip(rest);
      DecodeOneFilter(first.0, first.1, FilterBytes(rest), rest);
      assert filters == [(first.0, first.1)] + rest;
    }
  }

  lemma DecodeOneFilter(topic: seq<byte>, qos: QoS, tail: seq<byte>, rest: seq<(seq<byte>, QoS)>)
    requires |topic| < 65536 && Utf8(topic)
    requires DecodeFilters(tail) == Ok(rest)
    ensures DecodeFilters(OneFilter(topic, qos) + tail) == Ok([(topic, qos)] + rest)
  {
    assert OneFilter(topic, qos) + tail == Prefixed(topic) + ([qos.Code()] + tail);
    TakeUtf8Inverts(topic, [qos.Code()] + tail);
    assert ([qos.Code()] + tail)[1..] == tail;
  }

  lemma {:induction false} TopicBytesFront(topics: seq<seq<byte>>)
    requires topics != [] && forall t <- topics :: |t| < 65536
    ensures TopicBytes(topics) == Prefixed(topics[0]) + TopicBytes(topics[1..])
  {
    var n := |topics| - 1;
    if n == 0 {
      assert topics[..0] == [];
    } else {
      TopicBytesFront(topics[..n]);
      assert topics[..n][1..] == topics[1..][..n - 1];
      assert topics[1..][n - 1] == topics[n];
      Assoc(Prefixed(topics[0]), TopicBytes(topics[1..][..n - 1]), Prefixed(topics[n]));
    }
  }

  lemma {:induction false} TopicsRoundTrip(topics: seq<seq<byte>>)
    requires forall t <- topics :: |t| < 65536 && Utf8(t)
    ensures DecodeTopics(TopicBytes(topics)) == Ok(topics)
  {
    if topics != [] {
      TopicBytesFront(topics);
      TakeUtf8Inverts(topics[0], TopicBytes(topics[1..]));
      TopicsRoundTrip(topics[1..]);
      assert topics == [topics[0]] + topics[1..];
    }
  }

  lemma {:induction false} ResultsRoundTrip(results: seq<SubscriptionResult>)
    ensures DecodeResults(ResultBytes(results)) == Ok(results)
  {
    if results != [] {
      var n := |results| - 1;
      assert ResultBytes(results)[..n] == ResultBytes(results[..n]);
      ResultsRoundTrip(results[..n]);
      assert results[n].Err? ==> results[n].error == ();
      assert results == results[..n] + [results[n]];
    }
  }

  lemma SubscribeRoundTrip(id: u16, filters: seq<(seq<byte>, QoS)>)
    requires WellFormed(SubscribePacket(id, filters))
    ensures DecodeSubscribe(Body(SubscribePacket(id, filters))) == Ok((SubscribePacket(id, filters), []))
  {
    TakeU16Inverts(id, FilterBytes(filters));
    FiltersRoundTrip(filters);
  }

  lemma UnsubscribeRoundTrip(id: u16, topics: seq<seq<byte>>)
    requires WellFormed(UnsubscribePacket(id, topics))
    ensures DecodeUnsubscribe(Body(UnsubscribePacket(id, topics))) == Ok((UnsubscribePacket(id, topics), []))
  {
    TakeU16Inverts(id, TopicBytes(topics));
    TopicsRoundTrip(topics);
  }

  /** Whichever form held the results, the decoded packet holds the same results, inline
  exactly when there are at most MAX_STATIC_SUBS of them. */
  lemma SubAckRoundTrip(id: u16, list: SubscriptionResultList)
    requires list.Valid()
    ensures DecodeSubAck(Body(SubAckPacket(id, list))) == Ok((SubAckPacket(id, ResultList(list.Results())), []))
    ensures list == ResultList(list.Results()) ==>
      DecodeSubAck(Body(SubAckPacket(id, list))) == Ok((SubAckPacket(id, list), []))
  {
    TakeU16Inverts(id, ResultBytes(list.Results()));
    ResultsRoundTrip(list.Results());
  }

  // ----- Connect -----

  lemma ConnectFlagsRoundTrip(c: ConnectInfo)
    ensures var f := ConnectFlags(c);
            && HasBit(f, 128) == c.username.Some? && HasBit(f, 64) == c.password.Some?
            && HasBit(f, 4) == c.will.Some? && HasBit(f, 2) == c.cleanSession
            && (c.will.Some? ==> HasBit(f, 32) == c.will.value.retain
                                 && (f as int / 8) % 4 == c.will.value.qos.Code() as int)
  {
  }

  lemma WillRoundTrip(c: ConnectInfo, rest: seq<byte>)
    requires WellFormed(ConnectPacket(c))
    ensures DecodeWill(ConnectFlags(c), WillBytes(c.will) + rest) == Ok((c.will, rest))
  {
    ConnectFlagsRoundTrip(c);
    match c.will
    case None =>
      assert WillBytes(c.will) + rest == rest;
    case Some(w) =>
      assert WillBytes(c.will) + rest == Prefixed(w.topic) + (Prefixed(w.message) + rest);
      TakeUtf8Inverts(w.topic, Prefixed(w.message) + rest);
      TakeByteArrayInverts(w.message, rest);
  }

  lemma OptRoundTrip(o: Option<seq<byte>>, text: bool, rest: seq<byte>)
    requires o.Some? ==> |o.value| < 65536 && (text ==> Utf8(o.value))
    ensures DecodeOpt(o.Some?, OptBytes(o) + rest, text) == Ok((o, rest))
  {
    match o
    case None =>
      assert OptBytes(o) + rest == rest;
    case Some(a) =>
      TakeByteArrayInverts(a, rest);
      if text {
        TakeUtf8Inverts(a, rest);
      }
  }

  lemma ConnectHeaderSplits(c: ConnectInfo, rest: seq<byte>)
    ensures var s := ConnectHeader(c) + rest;
            s[..7] == PROTOCOL && s[7] == ConnectFlags(c) && Word(s[8], s[9]) == c.keepAlive && s[10..] == rest
  {
    var header := ConnectHeader(c);
    assert (header + rest)[..7] == header[..7] == PROTOCOL;
    assert header[8..] == BigEndian(c.keepAlive);
    assert header[8] == header[8..][0] && header[9] == header[8..][1];
  }

  lemma ConnectRoundTrip(c: ConnectInfo)
    requires WellFormed(ConnectPacket(c))
    ensures DecodeConnect(Body(ConnectPacket(c))) == Ok((ConnectPacket(c), []))
  {
    var s3 := OptBytes(c.password);
    var s2 := OptBytes(c.username) + s3;
    var s1 := WillBytes(c.will) + s2;
    ConnectHeaderSplits(c, Prefixed(c.clientId) + s1);
    ConnectFlagsRoundTrip(c);
    TakeUtf8Inverts(c.clientId, s1);
    WillRoundTrip(c, s2);
    OptRoundTrip(c.username, true, s3);
    OptRoundTrip(c.password, false, []);
    assert s3 + [] == s3;
  }

  lemma ReplyRoundTrip(reply: Result<bool, ServerConnectError>)
    requires WellFormed(ConnAckPacket(reply))
    ensures DecodeReply(Body(ConnAckPacket(reply))) == Ok((ConnAckPacket(reply), []))
  {
    assert Body(ConnAckPacket(reply))[2..] == [];
  }

  // ----- All packets -----

  predicate ForClient(p: Packet) {
    p.ConnAckPacket? || p.PublishPacket? || p.SubAckPacket? || p.PingRespPacket? || IsIdCode(p.Type().Code())
  }

  predicate ForBroker(p: Packet) {
    || p.ConnectPacket? || p.PublishPacket? || p.SubscribePacket? || p.UnsubscribePacket? || p.PingReqPacket?
    || p.DisconnectPacket? || 4 <= p.Type().Code() <= 7
  }

  /** The packet with its result list in the form `SubAckPacket::new` gives it. */
  function Normal(p: Packet): Packet
    requires WellFormed(p)
  {
    if p.SubAckPacket? then SubAckPacket(p.id, ResultList(p.results.Results())) else p
  }

  lemma IdRoundTrip(p: Packet)
    requires IsIdCode(p.Type().Code())
    ensures WellFormed(p) && DecodeId(p.Type().Code(), Body(p)) == Ok((p, []))
  {
    assert Body(p) == BigEndian(p.id) + [];
    TakeU16Inverts(p.id, []);
  }

  lemma ControlSplits(p: Packet)
    ensures Control(p) as int / 16 == p.Type().Code() as int && Control(p) as int % 16 == p.Flags() as int
  {
  }

  /** Which decoder each control byte selects. */
  lemma ClientSelects(p: Packet, s: seq<byte>)
    requires ForClient(p)
    ensures p.ConnAckPacket? ==> ClientDecode(Control(p), s) == DecodeReply(s)
    ensures p.PublishPacket? ==> ClientDecode(Control(p), s) == DecodePublish(p.Flags(), s)
    ensures p.SubAckPacket? ==> ClientDecode(Control(p), s) == DecodeSubAck(s)
    ensures p.PingRespPacket? ==> ClientDecode(Control(p), s) == Ok((p, s))
    ensures IsIdCode(p.Type().Code()) ==> ClientDecode(Control(p), s) == DecodeId(p.Type().Code(), s)
  {
    ControlSplits(p);
  }

  lemma BrokerSelects(p: Packet, s: seq<byte>)
    requires ForBroker(p)
    ensures p.ConnectPacket? ==> BrokerDecode(Control(p), s) == DecodeConnect(s)
    ensures p.PublishPacket? ==> BrokerDecode(Control(p), s) == DecodePublish(p.Flags(), s)
    ensures p.SubscribePacket? ==> BrokerDecode(Control(p), s) == DecodeSubscribe(s)
    ensures p.UnsubscribePacket? ==> BrokerDecode(Control(p), s) == DecodeUnsubscribe(s)
    ensures p.PingReqPacket? || p.DisconnectPacket? ==> BrokerDecode(Control(p), s) == Ok((p, s))
    ensures 4 <= p.Type().Code() <= 7 ==> BrokerDecode(Control(p), s) == DecodeId(p.Type().Code(), s)
  {
    ControlSplits(p);
  }

  /** Whatever a broker encodes, the client decodes, leaving no bytes. */
  lemma ClientRoundTrip(p: Packet)
    requires WellFormed(p) && ForClient(p)
    ensures ClientDecode(Control(p), Body(p)) == Ok((Normal(p), []))
  {
    ClientSelects(p, Body(p));
    if p.ConnAckPacket? {
      ReplyRoundTrip(p.reply);
    } else if p.PublishPacket? {
      PublishRoundTrip(p.msg);
    } else if p.SubAckPacket? {
      SubAckRoundTrip(p.id, p.results);
    } else if !p.PingRespPacket? {
      IdRoundTrip(p);
    }
  }

  /** Whatever the client encodes, the test broker decodes, leaving no bytes. */
  lemma BrokerRoundTrip(p: Packet)
    requires WellFormed(p) && ForBroker(p)
    ensures BrokerDecode(Control(p), Body(p)) == Ok((p, []))
  {
    BrokerSelects(p, Body(p));
    if p.ConnectPacket? {
      ConnectRoundTrip(p.info);
    } else if p.PublishPacket? {
      PublishRoundTrip(p.msg);
    } else if p.SubscribePacket? {
      SubscribeRoundTrip(p.id, p.filters);
    } else if p.UnsubscribePacket? {
      UnsubscribeRoundTrip(p.id, p.topics);
    } else if !p.PingReqPacket? && !p.DisconnectPacket? {
      IdRoundTrip(p);
    }
  }

  /** What the wire carries when the first byte is or-ed with DUP (try_send_packet). */
  function Image(bytes: seq<byte>, setDup: bool): (s: seq<byte>)
    requires |bytes| > 0
    ensures |s| == |bytes|
  {
    if setDup then [WithDup(bytes[0])] + bytes[1..] else bytes
  }

  /** The packet a receiver sees after that. */
  function Marked(p: Packet, setDup: bool): Packet {
    if setDup && p.PublishPacket? then PublishPacket(p.msg.(dup := true)) else p
  }

  /** Setting the bit in the first byte changes `is_dup` and nothing else. */
  lemma DupImage(p: WirePacket)
    requires p.PublishPacket?
    ensures Encodable(Marked(p, true))
    ensures Image(Wire(p), true) == Wire(Marked(p, true))
  {
    var q := Marked(p, true);
    assert Body(q) == Body(p);
    ControlSplits(p);
    assert WithDup(Control(p)) == Control(q);
    assert Wire(p)[1..] == RemainingLength(|Body(p)|) + Body(p);
  }
}
