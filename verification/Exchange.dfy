/** What the transceiver does with every packet, command and tick, said once more as tables: the answers
of section 4.3 of MQTT 3.1.1, what goes out of flight, what is logged, who is woken. The tables do not
refer to the state machine; the lemmas say that the state machine does exactly that and no more. */
module Exchange {
  import opened Wrappers
  import opened ByteIo
  import opened Packets
  import opened Subscriptions
  import opened Topics
  import opened SubscriptionSets
  import opened Protocol
  import opened ProtocolProofs

  // ----- The tables -----

  /** The answer a packet calls for. */
  ghost function Reply(p: Packet): seq<Packet> {
    match p
    case PublishPacket(m) =>
      (match m.qos
       case AtMostOnce => []
       case AtLeastOnce => [PubAckPacket(m.id)]
       case ExactlyOnce => [PubRecPacket(m.id)])
    case PubRecPacket(id) => [PubRelPacket(id)]
    case PubRelPacket(id) => [PubCompPacket(id)]
    case _ => []
  }

  /** Where the answer is kept, to be repeated until it is acknowledged. */
  ghost function Keeps(p: Packet): Option<Key> {
    match p
    case PublishPacket(m) => if m.qos.ExactlyOnce? then Some(Key(PubRec, m.id)) else None
    case PubRecPacket(id) => Some(Key(PubRel, id))
    case _ => None
  }

  /** The packet in flight that a packet acknowledges. */
  ghost function Settles(p: Packet): Option<Key> {
    match p
    case PubAckPacket(id) => Some(Key(Publish, id))
    case PubRecPacket(id) => Some(Key(Publish, id))
    case PubRelPacket(id) => Some(Key(PubRec, id))
    case PubCompPacket(id) => Some(Key(PubRel, id))
    case UnsubAckPacket(id) => Some(Key(Unsubscribe, id))
    case _ => None
  }

  /** The stage of a publish that an acknowledgement completes. */
  ghost function Completes(p: Packet): Option<Stage> {
    match p
    case PubAckPacket(_) => Some(AckStage)
    case PubRecPacket(_) => Some(RecStage)
    case PubCompPacket(_) => Some(CompStage)
    case _ => None
  }

  ghost function Plain(ps: seq<Packet>): seq<Handed> {
    if ps == [] then [] else [Handed(ps[0], false)] + Plain(ps[1..])
  }

  // ----- One packet -----

  /** It is answered as the table says, at once and without DUP. */
  ghost predicate Replied(s: State, s': State, p: Packet) {
    s'.sent == s.sent + Plain(Reply(p))
  }

  /** The answer is kept if the table says so, the packet it acknowledges is out of flight, and nothing else
  changes there; a timeout begins exactly for a new entry. */
  ghost predicate Flown(s: State, s': State, p: Packet, now: int) {
    && (forall k :: k in s'.pending <==> Some(k) != Settles(p) && (k in s.pending || Some(k) == Keeps(p)))
    && (forall k <- s'.pending ::
          if Some(k) == Keeps(p) then Reply(p) == [s'.pending[k]] else s'.pending[k] == s.pending[k])
    && (forall id :: id in s'.pendingSubs <==> id in s.pendingSubs && !(p.SubAckPacket? && p.id == id))
    && (forall id <- s'.pendingSubs :: s'.pendingSubs[id] == s.pendingSubs[id])
    && s'.timeouts ==
       s.timeouts + (if Keeps(p).Some? && Keeps(p).value !in s.pending then [Timeout(now, Keeps(p).value)] else [])
  }

  /** An acknowledgement counts while its packet is in flight: then it is logged, and whoever waits for it is
  taken out of the map and woken. */
  ghost predicate Counts(s: State, p: Packet) {
    Completes(p).Some? && Settles(p).value in s.pending
  }

  ghost predicate Notified(s: State, s': State, p: Packet) {
    if Counts(s, p) then
      var k := (Completes(p).value, Settles(p).value.id);
      && s'.log == s.log + [Acked(k.0, k.1)]
      && s'.shared.notify == s.shared.notify - {k}
      && s'.woken ==
         s.woken + (if k in s.shared.notify && s.shared.notify[k].WithWaker? then {s.shared.notify[k].waker} else {})
    else s'.shared.notify == s.shared.notify
  }

  /** A message is handed to exactly its subscribers, unless its identifier is already being answered. */
  ghost predicate Dispatched(s: State, s': State, m: Message, net: Network) {
    if m.qos.ExactlyOnce? && Key(PubRec, m.id) in s.pending then s'.log == s.log && s'.tree == s.tree
    else
      && |s'.log| == |s.log| + 1 && s.log <= s'.log
      && s'.log[|s.log|].Delivered? && s'.log[|s.log|].msg == m
      && HandedOut(s.tree, Levels(m.topic), net, s'.log[|s.log|].takers)
      && PrunedTree(s.tree, s'.tree, Levels(m.topic), net)
  }

  /** The first result decides on a pending subscription: granted, it has its recipient; either way its
  waiting futures wake. */
  ghost predicate Decided(s: State, s': State, id: u16, results: seq<SubscriptionResult>) {
    if id !in s.pendingSubs || results == [] then
      s'.tree == s.tree && s'.shared == s.shared && s'.woken == s.woken
    else
      var sub := s.pendingSubs[id];
      && (if results[0].Ok? then
            && TreeGains(s.tree, s'.tree, sub.topic, sub.kind)
            && s'.shared == s.shared.(subs := s.shared.subs[sub.topic := Existing(results[0].value)])
          else s'.tree == s.tree && s'.shared == s.shared.(subs := s.shared.subs - {sub.topic}))
      && s'.woken == s.woken + Waiting(s.shared.subs, sub.topic)
  }

  ghost function Waiting(subs: map<seq<byte>, SubscriptionState>, topic: seq<byte>): set<Waker> {
    if topic in subs && subs[topic].Awaited? then set o <- subs[topic].wakers | o.Some? :: o.value else {}
  }

  /** Everything but what the clauses above speak of. */
  ghost predicate RestKept(s: State, s': State, p: Packet) {
    && s'.signal == s.signal && s'.shared.nextId == s.shared.nextId
    && (!p.SubAckPacket? ==> s'.shared.subs == s.shared.subs)
    && (!p.SubAckPacket? && !p.PublishPacket? ==> s'.tree == s.tree)
    && (!p.SubAckPacket? && !Counts(s, p) ==> s'.woken == s.woken)
    && (p.PubRelPacket? ==> s'.log == s.log + [Released(p.id)])
    && (!p.PubRelPacket? && !p.PublishPacket? && !Counts(s, p) ==> s'.log == s.log)
  }

  ghost predicate Exchanged(s: State, s': State, p: Packet, now: int, net: Network)
    requires p.SubAckPacket? ==> p.results.Valid()
  {
    && Replied(s, s', p) && Flown(s, s', p, now) && Notified(s, s', p) && RestKept(s, s', p)
    && (p.PublishPacket? ==> Dispatched(s, s', p.msg, net))
    && (p.SubAckPacket? ==> Decided(s, s', p.id, p.results.Results()))
  }

  lemma PublishExchanged(s: State, m: Message, now: int, net: Network)
    requires Shapes(s) && TreeInv(s.tree)
    ensures Exchanged(s, OnPublish(s, m, now, net), PublishPacket(m), now, net)
  {
    var s1 := Answered(s, m, now);
    AnsweredExchanged(s, m, now);
    if !IsRepeat(s, m) {
      DispatchHandsOut(s1.tree, Levels(m.topic), net);
    }
  }

  lemma AnsweredExchanged(s: State, m: Message, now: int)
    requires Shapes(s)
    ensures var (s', p) := (Answered(s, m, now), PublishPacket(m));
            Replied(s, s', p) && Flown(s, s', p, now) && s'.log == s.log && s'.tree == s.tree && s'.shared == s.shared
            && s'.woken == s.woken && s'.signal == s.signal
  {
    assert s.sent + [] == s.sent && s.timeouts + [] == s.timeouts;
  }

  lemma PubRecExchanged(s: State, id: u16, now: int, net: Network)
    requires Shapes(s)
    ensures Exchanged(s, OnPubRec(s, id, now), PubRecPacket(id), now, net)
  {
    ReleasingExact(s, id, now);
    var s1 := Releasing(s, id, now);
    AcknowledgedExact(s1, Key(Publish, id), RecStage);
    assert Key(Publish, id) in s1.pending <==> Key(Publish, id) in s.pending;
  }

  lemma ReleasingExact(s: State, id: u16, now: int)
    requires Shapes(s)
    ensures var (s', key) := (Releasing(s, id, now), Key(PubRel, id));
            s' == s.(sent := s.sent + [Handed(PubRelPacket(id), false)], pending := s.pending[key := PubRelPacket(id)],
                     timeouts := s.timeouts + (if key in s.pending then [] else [Timeout(now, key)]))
  {
    var key := Key(PubRel, id);
    assert s.timeouts + [] == s.timeouts;
    if key in s.pending {
      assert s.pending[key := PubRelPacket(id)] == s.pending;
    }
  }

  lemma AcknowledgedExact(s: State, key: Key, stage: Stage)
    ensures var (s', k) := (Acknowledge(s, key, stage), (stage, key.id));
            && s' == s.(pending := s'.pending, log := s'.log, shared := s.shared.(notify := s'.shared.notify),
                        woken := s'.woken)
            && s'.pending == s.pending - {key}
            && (key !in s.pending ==> s' == s)
            && (key in s.pending ==>
                  && s'.log == s.log + [Acked(stage, key.id)] && s'.shared.notify == s.shared.notify - {k}
                  && s'.woken == s.woken + (if k in s.shared.notify && s.shared.notify[k].WithWaker?
                                            then {s.shared.notify[k].waker} else {}))
  {
    if key !in s.pending {
      assert s.pending - {key} == s.pending;
    } else if (stage, key.id) !in s.shared.notify {
      assert s.shared.notify - {(stage, key.id)} == s.shared.notify;
    }
  }

  lemma PubRelExchanged(s: State, id: u16, now: int, net: Network)
    ensures Exchanged(s, OnPubRel(s, id), PubRelPacket(id), now, net)
  {
    assert s.timeouts + [] == s.timeouts;
  }

  lemma AckExchanged(s: State, p: Packet, now: int, net: Network)
    requires p.PubAckPacket? || p.PubCompPacket?
    ensures Exchanged(s, Acknowledge(s, Settles(p).value, Completes(p).value), p, now, net)
  {
    assert s.sent + [] == s.sent && s.timeouts + [] == s.timeouts;
    AcknowledgedExact(s, Settles(p).value, Completes(p).value);
  }

  lemma SubAckExchanged(s: State, id: u16, results: SubscriptionResultList, now: int, net: Network)
    requires TreeInv(s.tree) && results.Valid()
    ensures Exchanged(s, OnSubAck(s, id, results.Results()), SubAckPacket(id, results), now, net)
  {
    assert s.sent + [] == s.sent && s.timeouts + [] == s.timeouts;
    if id in s.pendingSubs {
      SubscribedTree(s.tree, s.pendingSubs[id].topic, s.pendingSubs[id].kind);
    }
  }

  lemma OtherExchanged(s: State, p: Packet, now: int, net: Network)
    requires s.signal.Some? && Reply(p) == [] && Completes(p).None? && !p.PublishPacket? && !p.SubAckPacket?
    ensures Exchanged(s, OnPacket(s, p, now, net).0, p, now, net)
  {
    assert s.sent + [] == s.sent && s.timeouts + [] == s.timeouts;
  }

  /** Once the connection has been answered, every packet has exactly the effect the tables give. */
  lemma PacketExact(s: State, p: Packet, now: int, net: Network)
    requires Shapes(s) && TreeInv(s.tree) && s.signal.Some? && (p.SubAckPacket? ==> p.results.Valid())
    ensures Exchanged(s, OnPacket(s, p, now, net).0, p, now, net) && !OnPacket(s, p, now, net).1
  {
    match p
    case PublishPacket(m) => PublishExchanged(s, m, now, net);
    case PubAckPacket(id) => AckExchanged(s, p, now, net);
    case PubRecPacket(id) => PubRecExchanged(s, id, now, net);
    case PubRelPacket(id) => PubRelExchanged(s, id, now, net);
    case PubCompPacket(id) => AckExchanged(s, p, now, net);
    case SubAckPacket(id, results) => SubAckExchanged(s, id, results, now, net);
    case _ => OtherExchanged(s, p, now, net);
  }

  /** The first packet decides the connection: a CONNACK as it says, anything else as an error. */
  lemma FirstPacketExact(s: State, p: Packet, now: int, net: Network)
    requires s.signal.None? && (p.SubAckPacket? ==> p.results.Valid())
    ensures var (s', stop) := OnPacket(s, p, now, net);
            && s' == s.(signal := s'.signal)
            && (p.ConnAckPacket? ==> s'.signal == Some(p.reply))
            && (!p.ConnAckPacket? ==> s'.signal == Some(Err(ProtocolError)))
            && (stop <==> !(p.ConnAckPacket? && p.reply.Ok?))
  {
  }

  /** A step that is cut short has answered as the table says; of the rest, only what precedes the answer
  has happened. */
  lemma CutExact(s: State, p: Packet, now: int)
    requires Shapes(s) && CallsForAnswer(s, p)
    ensures var s' := OnPacketCut(s, p, now);
            && Replied(s, s', p)
            && s' == s.(sent := s'.sent, pending := s'.pending, timeouts := s'.timeouts, log := s'.log)
            && s'.log == s.log + (if p.PubRelPacket? then [Released(p.id)] else [])
            && (forall k :: k in s'.pending <==>
                  (k in s.pending || Some(k) == Keeps(p)) && !(p.PubRelPacket? && k == Key(PubRec, p.id)))
            && (forall k <- s'.pending ::
                  if Some(k) == Keeps(p) then Reply(p) == [s'.pending[k]] else s'.pending[k] == s.pending[k])
  {
    assert s.log + [] == s.log;
  }

  // ----- One command -----

  /** A packet is handed over for the first time and kept until it is acknowledged. */
  ghost predicate Begins(s: State, s': State, key: Key, p: Packet, now: int) {
    && s'.sent == s.sent + [Handed(p, false)] && s'.pending == s.pending[key := p]
    && s'.timeouts == if key in s.pending then s.timeouts else s.timeouts + [Timeout(now, key)]
  }

  /** A publish goes out as it is; above QoS 0 it is kept under its identifier. */
  lemma PublishExact(s: State, m: Message, now: int)
    ensures var s' := OnCommand(s, PublishCommand(m), now);
            if m.qos.AtMostOnce? then s' == s.(sent := s.sent + [Handed(PublishPacket(m), false)])
            else
              && s' == s.(sent := s'.sent, pending := s'.pending, timeouts := s'.timeouts)
              && Begins(s, s', Key(Publish, m.id), PublishPacket(m), now)
  {
  }

  ghost predicate Allocates(s: State, s': State) {
    s'.shared.nextId == (s.shared.nextId + 1) % 65536
  }

  /** SUBSCRIBE for this topic with this quality of service has been sent and is kept with its recipient
  under the identifier taken. */
  ghost predicate Requested(s: State, s': State, topic: seq<byte>, qos: QoS, kind: SubscriptionKind, now: int) {
    var id := s.shared.nextId;
    var p := SubscribePacket(id, [(topic, qos)]);
    && s' == s.(shared := s'.shared, pendingSubs := s'.pendingSubs, sent := s'.sent, timeouts := s'.timeouts)
    && Allocates(s, s') && s'.shared == s.shared.(nextId := s'.shared.nextId)
    && s'.sent == s.sent + [Handed(p, false)]
    && s'.pendingSubs == s.pendingSubs[id := PendingSub(topic, kind, p)]
    && s'.timeouts == s.timeouts + [Timeout(now, Key(Subscribe, id))]
  }

  /** A pattern that is subscribed gets one more recipient and nothing is sent. Otherwise the broker is
  asked for this topic with this quality of service, and the request is kept with its recipient under
  the identifier taken; unless the pattern is found invalid. */
  lemma SubscribeExact(s: State, topic: seq<byte>, qos: QoS, kind: SubscriptionKind, now: int)
    requires TreeInv(s.tree)
    ensures var s' := OnCommand(s, SubscribeCommand(topic, qos, kind), now);
            if Leaf(s.tree, Levels(topic)).subscribed then
              s' == s.(tree := s'.tree) && TreeGains(s.tree, s'.tree, topic, kind)
            else if HitsHash(s.tree, Levels(topic)) then s' == s
            else Requested(s, s', topic, qos, kind, now)
  {
    var levels := Levels(topic);
    HashHidesLeaf(s.tree, levels);
    if Leaf(s.tree, levels).subscribed {
      SharedGains(s.tree, topic, kind);
    } else {
      AskedExact(s, topic, qos, kind, now);
    }
  }

  lemma AskedExact(s: State, topic: seq<byte>, qos: QoS, kind: SubscriptionKind, now: int)
    ensures Requested(s, Asked(s, topic, qos, kind, now), topic, qos, kind, now)
  {
  }

  lemma SharedGains(tree: Node, topic: seq<byte>, kind: SubscriptionKind)
    requires TreeInv(tree) && Leaf(tree, Levels(topic)).subscribed
    ensures TreeGains(tree, SetLeaf(tree, Levels(topic), Added(LeafAt(tree, Levels(topic)).value, kind)), topic, kind)
  {
    var (p, leaf) := (Levels(topic), LeafAt(tree, Levels(topic)).value);
    LeafMeansValid(tree, p);
    AddedGains(leaf, kind);
    AddedValid(leaf, kind);
    assert leaf == leaf.(subscribed := true);
    SetLeafTree(tree, p, Added(leaf, kind));
  }

  /** Removing a callback takes it out of the leaf of its topic; nothing else changes and nothing is sent. */
  lemma RemoveCallbackExact(s: State, topic: seq<byte>, id: CallbackId, now: int)
    requires TreeInv(s.tree)
    ensures var s' := OnCommand(s, UnsubCommand(topic, RemoveCallback(id)), now);
            && s' == s.(tree := s'.tree)
            && Loses(Leaf(s.tree, Levels(topic)), Leaf(s'.tree, Levels(topic)), id)
            && (forall q :: q != Levels(topic) ==> Leaf(s'.tree, q) == Leaf(s.tree, q))
  {
    var levels := Levels(topic);
    HashHidesLeaf(s.tree, levels);
    if LeafAt(s.tree, levels).Some? {
      var leaf := LeafAt(s.tree, levels).value;
      assert leaf == Leaf(s.tree, levels);
      RemoveUnique(leaf.callbacks, id);
      WithoutLoses(leaf, id);
      SetLeafTree(s.tree, levels, leaf.(callbacks := WithoutCallback(leaf.callbacks, id)));
    } else {
      assert forall r :: Held(EMPTY, r) == 0;
    }
  }

  /** Unsubscribing from a subscribed pattern empties its leaf, forgets the shared entry, and sends UNSUBSCRIBE
  for this topic, kept under the identifier taken; from any other, it does nothing. */
  lemma UnsubscribeExact(s: State, topic: seq<byte>, now: int)
    requires TreeInv(s.tree)
    ensures var s' := OnCommand(s, UnsubCommand(topic, Immediate), now);
            if !Leaf(s.tree, Levels(topic)).subscribed then s' == s
            else
              var id := s.shared.nextId;
              && s' == s.(tree := s'.tree, shared := s'.shared, sent := s'.sent, pending := s'.pending,
                          timeouts := s'.timeouts)
              && Leaf(s'.tree, Levels(topic)) == EMPTY
              && (forall q :: q != Levels(topic) ==> Leaf(s'.tree, q) == Leaf(s.tree, q))
              && Allocates(s, s')
              && s'.shared == Shared(s'.shared.nextId, s.shared.notify, s.shared.subs - {topic})
              && Begins(s, s', Key(Unsubscribe, id), UnsubscribePacket(id, [topic]), now)
  {
    var levels := Levels(topic);
    HashHidesLeaf(s.tree, levels);
    if Leaf(s.tree, levels).subscribed {
      SetLeafTree(s.tree, levels, EMPTY);
    }
  }
}
