/** The transceiver task of src/transceiver/mod.rs as it runs: a class whose methods update its
maps, its queue and the transport. Every method does what the function of `Protocol` with the
same purpose says, and if the transport fails half-way, what the function for the cut step says;
the theorems over runs are about those functions. */
module Transceivers {
  import opened Wrappers
  import opened ByteIo
  import opened Packets
  import opened Transports
  import opened Outgoing
  import opened Subscriptions
  import opened Topics
  import opened SubscriptionSets
  import opened Protocol
  import opened ProtocolProofs
  import opened ClientFutures
  import Codec

  // ----- Wire images -----

  /** `image` gives every packet that can be encoded its bytes, and no other packet any. */
  ghost predicate Faithful(image: Packet -> seq<byte>) {
    forall p {:trigger Encodable(p)} :: image(p) == if Encodable(p) then Wire(p) else []
  }

  lemma OneFilterBytes(topic: seq<byte>, qos: QoS)
    requires |topic| < 65536
    ensures |FilterBytes([(topic, qos)])| == 3 + |topic|
  {
    var filters := [(topic, qos)];
    assert filters[..0] == [];
  }

  lemma OneTopicBytes(topic: seq<byte>)
    requires |topic| < 65536
    ensures |TopicBytes([topic])| == 2 + |topic|
  {
    var topics := [topic];
    assert topics[..0] == [];
  }

  method MakePacket(p: Packet, ghost image: Packet -> seq<byte>) returns (bytes: seq<byte>)
    requires Faithful(image) && Encodable(p)
    ensures bytes == image(p) && |bytes| > 0
  {
    var a := Codec.MakePacket(p);
    bytes := a[..];
  }

  /** The packets that carry an identifier or nothing always encode. */
  method MakeSmallPacket(p: Packet, ghost image: Packet -> seq<byte>) returns (bytes: seq<byte>)
    requires Faithful(image) && (IsIdCode(p.Type().Code()) || p.PingReqPacket?)
    ensures bytes == image(p) && |bytes| > 0
  {
    bytes := MakePacket(p, image);
  }

  method MakeSubscribe(id: u16, topic: seq<byte>, qos: QoS, ghost image: Packet -> seq<byte>) returns (bytes: seq<byte>)
    requires Faithful(image) && |topic| < 65536 && Utf8(topic)
    ensures bytes == image(SubscribePacket(id, [(topic, qos)])) && |bytes| > 0
  {
    OneFilterBytes(topic, qos);
    bytes := MakePacket(SubscribePacket(id, [(topic, qos)]), image);
  }

  method MakeUnsubscribe(id: u16, topic: seq<byte>, ghost image: Packet -> seq<byte>) returns (bytes: seq<byte>)
    requires Faithful(image) && |topic| < 65536 && Utf8(topic)
    ensures bytes == image(UnsubscribePacket(id, [topic])) && |bytes| > 0
  {
    OneTopicBytes(topic);
    bytes := MakePacket(UnsubscribePacket(id, [topic]), image);
  }

  /** The bytes handed to the outgoing queue are the images of the packets sent. */
  ghost predicate Linked(enqueued: seq<InternalPacket>, sent: seq<Handed>, image: Packet -> seq<byte>) {
    && |enqueued| == |sent|
    && forall i :: 0 <= i < |sent| ==> enqueued[i] == InternalPacket(image(sent[i].packet), sent[i].setDup)
  }

  lemma DisconnectWire(image: Packet -> seq<byte>)
    requires Faithful(image)
    ensures image(DisconnectPacket) == GOODBYE
  {
    assert Encodable(DisconnectPacket);
    assert Wire(DisconnectPacket) == GOODBYE;
  }

  lemma WireFirst(p: Packet)
    requires Encodable(p) && p != DisconnectPacket
    ensures Wire(p)[0] != 0xE0
  {
  }

  /** Then nothing that was handed over begins like it. */
  lemma NoGoodbyeSent(enqueued: seq<InternalPacket>, sent: seq<Handed>, image: Packet -> seq<byte>)
    requires Faithful(image) && Linked(enqueued, sent, image) && AllNonEmpty(enqueued) && NoDisconnect(sent)
    ensures NoGoodbye(enqueued)
  {
    forall q | q in enqueued ensures |q.bytes| > 0 && q.bytes[0] != 0xE0 {
      var i :| 0 <= i < |enqueued| && enqueued[i] == q;
      var p := sent[i].packet;
      assert sent[i] in sent && Encodable(p);
      WireFirst(p);
    }
  }

  datatype StoredSub = StoredSub(topic: seq<byte>, kind: SubscriptionKind, bytes: seq<byte>)

  /** The bytes kept for re-transmission are the images of the packets in flight. */
  ghost predicate Stored(bytes: map<Key, seq<byte>>, pending: map<Key, Packet>, image: Packet -> seq<byte>) {
    && bytes.Keys == pending.Keys
    && forall k <- pending :: bytes[k] == image(pending[k]) && |bytes[k]| > 0
  }

  ghost predicate StoredSubs(subs: map<u16, StoredSub>, pending: map<u16, PendingSub>, image: Packet -> seq<byte>) {
    && subs.Keys == pending.Keys
    && forall id <- pending ::
         && subs[id] == StoredSub(pending[id].topic, pending[id].kind, image(pending[id].packet))
         && |subs[id].bytes| > 0
  }

  /** Turns the leaf of a pattern into a subscription with one more recipient. */
  method AddSubscription(subscriptions: SubscriptionSet, topic: seq<byte>, kind: SubscriptionKind)
    requires subscriptions.Valid()
    modifies subscriptions
    ensures subscriptions.Valid() && subscriptions.root == Subscribed(old(subscriptions.root), topic, kind)
    ensures TreeGains(old(subscriptions.root), subscriptions.root, topic, kind)
  {
    SubscribedTree(subscriptions.root, topic, kind);
    var leaf := subscriptions.GetOrCreate(topic);
    if leaf.Ok? {
      var s := Add(leaf.value.(subscribed := true), kind);
      subscriptions.Write(topic, s);
    } else if LeafAt(subscriptions.root, Levels(topic)).Some? {
      LeafMeansValid(subscriptions.root, Levels(topic));
    }
  }

  // ----- The alarm loop, turn by turn -----

  /** The front entry has a packet to be handed over, so that its turn can fail. */
  ghost predicate CanFail(s: State) {
    s.timeouts != [] && Live(s, s.timeouts[0].key)
  }

  /** Then the entry is off the queue and the packet handed over. */
  ghost function FailedTurn(s: State): State {
    if CanFail(s) then
      Queue(s, InFlight(s, s.timeouts[0].key), s.timeouts[0].key.ty == Publish).(timeouts := s.timeouts[1..])
    else s
  }

  ghost predicate Due(s: State, now: int, delay: int) {
    s.timeouts != [] && now - s.timeouts[0].t >= delay
  }

  /** Turn `i` of a pass that reads the clock from `k` on. */
  ghost predicate Leads(states: seq<State>, i: nat, delay: int, clock: nat -> int, k: nat)
    requires i + 1 < |states|
  {
    Due(states[i], clock(k + 2 * i), delay) && states[i + 1] == Turned(states[i], clock(k + 2 * i + 1))
  }

  /** The states a pass of at most `n` turns goes through. */
  ghost predicate IsPass(states: seq<State>, n: nat, delay: int, clock: nat -> int, k: nat) {
    && 0 < |states| <= n + 1
    && (forall i :: 0 <= i < |states| - 1 ==> Leads(states, i, delay, clock, k))
    && (|states| <= n ==>
          var last := states[|states| - 1]; last.timeouts != [] && !Due(last, clock(k + 2 * (|states| - 1)), delay))
  }

  /** They are those after each number of turns, and the i-th entry has come to the front of the i-th. */
  ghost predicate Follows(s: State, states: seq<State>, delay: int, clock: nat -> int, k: nat) {
    && |states| <= |s.timeouts| + 1
    && forall i :: 0 <= i < |states| ==>
         && states[i] == AlarmPass(s, i, delay, clock, k)
         && SameButSent(s, states[i]) && s.timeouts[i..] <= states[i].timeouts
  }

  lemma TurnedFront(s: State, now: int)
    requires s.timeouts != []
    ensures SameButSent(s, Turned(s, now)) && s.timeouts[1..] <= Turned(s, now).timeouts
  {
  }

  lemma PassCons(s: State, rest: seq<State>, n: nat, delay: int, clock: nat -> int, k: nat)
    requires n > 0 && Due(s, clock(k), delay) && IsPass(rest, n - 1, delay, clock, k + 2)
    requires rest[0] == Turned(s, clock(k + 1))
    ensures IsPass([s] + rest, n, delay, clock, k)
  {
    var states := [s] + rest;
    forall i | 0 <= i < |states| - 1 ensures Leads(states, i, delay, clock, k) {
      if i > 0 {
        assert Leads(rest, i - 1, delay, clock, k + 2);
        assert k + 2 + 2 * (i - 1) == k + 2 * i;
      }
    }
    assert k + 2 + 2 * (|rest| - 1) == k + 2 * (|states| - 1);
  }

  lemma FollowsCons(s: State, rest: seq<State>, delay: int, clock: nat -> int, k: nat)
    requires Due(s, clock(k), delay) && Follows(Turned(s, clock(k + 1)), rest, delay, clock, k + 2)
    requires |rest| <= |s.timeouts|
    ensures Follows(s, [s] + rest, delay, clock, k)
  {
    var (next, states) := (Turned(s, clock(k + 1)), [s] + rest);
    TurnedFront(s, clock(k + 1));
    forall i | 0 <= i < |states|
      ensures states[i] == AlarmPass(s, i, delay, clock, k)
      ensures SameButSent(s, states[i]) && s.timeouts[i..] <= states[i].timeouts
    {
      if i > 0 {
        TurnLeads(s, i - 1, delay, clock, k);
        assert states[i] == rest[i - 1];
        assert s.timeouts[i..] == s.timeouts[1..][i - 1..] <= next.timeouts[i - 1..];
      }
    }
  }

  /** The states of a pass from `s` to where it ends. */
  ghost predicate PassOf(s: State, states: seq<State>, n: nat, delay: int, clock: nat -> int, k: nat)
    requires n <= |s.timeouts|
  {
    && IsPass(states, n, delay, clock, k) && Follows(s, states, delay, clock, k)
    && states[0] == s && states[|states| - 1] == AlarmPass(s, n, delay, clock, k)
  }

  lemma NoTurn(s: State, n: nat, delay: int, clock: nat -> int, k: nat)
    requires n <= |s.timeouts| && (n == 0 || !Due(s, clock(k), delay))
    ensures PassOf(s, [s], n, delay, clock, k)
  {
    assert AlarmPass(s, 0, delay, clock, k) == s;
  }

  lemma OneTurn(s: State, next: State, rest: seq<State>, n: nat, delay: int, clock: nat -> int, k: nat)
    requires 0 < n <= |s.timeouts| && Due(s, clock(k), delay) && next == Turned(s, clock(k + 1))
    requires n - 1 <= |next.timeouts| && PassOf(next, rest, n - 1, delay, clock, k + 2)
    ensures PassOf(s, [s] + rest, n, delay, clock, k)
  {
    PassCons(s, rest, n, delay, clock, k);
    FollowsCons(s, rest, delay, clock, k);
    EndCons(s, rest, n, delay, clock, k);
  }

  lemma EndCons(s: State, rest: seq<State>, n: nat, delay: int, clock: nat -> int, k: nat)
    requires 0 < n <= |s.timeouts| && Due(s, clock(k), delay) && n - 1 <= |Turned(s, clock(k + 1)).timeouts|
    requires rest != [] && rest[|rest| - 1] == AlarmPass(Turned(s, clock(k + 1)), n - 1, delay, clock, k + 2)
    ensures ([s] + rest)[|rest|] == AlarmPass(s, n, delay, clock, k)
  {
    TurnLeads(s, n - 1, delay, clock, k);
  }

  lemma {:induction false} PassStates(s: State, n: nat, delay: int, clock: nat -> int,
                                      k: nat) returns (states: seq<State>)
    requires n <= |s.timeouts|
    ensures PassOf(s, states, n, delay, clock, k)
    decreases n
  {
    if n == 0 || !Due(s, clock(k), delay) {
      NoTurn(s, n, delay, clock, k);
      return [s];
    }
    TurnedFront(s, clock(k + 1));
    var next := Turned(s, clock(k + 1));
    var rest := PassStates(next, n - 1, delay, clock, k + 2);
    OneTurn(s, next, rest, n, delay, clock, k);
    return [s] + rest;
  }

  /** The turns so far were due. */
  lemma DueSoFar(s: State, states: seq<State>, n: nat, delay: int, clock: nat -> int)
    requires n < |states| && IsPass(states, |s.timeouts|, delay, clock, 0) && Follows(s, states, delay, clock, 0)
    ensures forall i :: 0 <= i < n ==> clock(2 * i) - s.timeouts[i].t >= delay
  {
    forall i | 0 <= i < n ensures clock(2 * i) - s.timeouts[i].t >= delay {
      assert Leads(states, i, delay, clock, 0);
      assert states[i].timeouts[0] == s.timeouts[i..][0];
    }
  }

  /** A turn that fails cuts the alarm branch short. */
  lemma AlarmStops(s: State, ping: bool, delay: int, clock: nat -> int, states: seq<State>, n: nat)
    requires s.signal.Some? && 0 < n < |states| && IsPass(states, |s.timeouts|, delay, clock, 0)
    requires Follows(Pinged(s, ping), states, delay, clock, 0) && CanFail(states[n - 1])
    ensures CutsAt(s, ping, delay, clock, n)
    ensures FailedTurn(states[n - 1]) == OnAlarmCut(s, ping, delay, clock, n)
  {
    var (now, s1) := (states[n - 1], Pinged(s, ping));
    DueSoFar(s1, states, n, delay, clock);
    assert Leads(states, n - 1, delay, clock, 0) && 2 * (n - 1) + 1 == 2 * n - 1;
    LastTurn(now, clock(2 * n - 1));
    assert now.timeouts[0] == s1.timeouts[n - 1..][0];
  }

  /** The state a failed turn leaves is that of a good one without the entry it puts back. */
  lemma LastTurn(s: State, now: int)
    requires CanFail(s)
    ensures FailedTurn(s) == Turned(s, now).(timeouts := Front(Turned(s, now).timeouts))
  {
    assert Turned(s, now).timeouts == s.timeouts[1..] + [Timeout(now, s.timeouts[0].key)];
    assert Front(Turned(s, now).timeouts) == s.timeouts[1..];
  }

  class Transceiver {
    const shared: ClientShared
    const tx: TxQueue
    const subscriptions: SubscriptionSet
    const packetResendDelay: int
    const pingInterval: int
    var signal: Option<Result<bool, ServerConnectError>>
    var pendingPackets: map<Key, seq<byte>>
    var pendingSubs: map<u16, StoredSub>
    var timeouts: seq<Timeout>

    ghost const image: Packet -> seq<byte>
    ghost var inFlight: map<Key, Packet>  // what the stored bytes are the images of
    ghost var subsInFlight: map<u16, PendingSub>
    ghost var woken: set<Waker>
    ghost var sent: seq<Handed>
    ghost var log: seq<Log>

    ghost function View(): State
      reads this, shared, subscriptions
    {
      State(signal, inFlight, subsInFlight, timeouts, subscriptions.root, shared.View(), woken, sent, log)
    }

    /** What holds whatever the transport did: the peer has seen a prefix of the packets sent, and the
    stored bytes are those of the packets in flight. */
    ghost predicate Sound()
      reads this, tx, tx.transport
    {
      && Faithful(image) && tx.PrefixSent() && Linked(tx.enqueued, sent, image)
      && Stored(pendingPackets, inFlight, image) && StoredSubs(pendingSubs, subsInFlight, image)
    }

    /** Everything but the subscription tree, while the connection is good. */
    ghost predicate Consistent()
      reads this, tx, tx.transport
    {
      Sound() && tx.Valid()
    }

    /** What a method leaves: everything in order, or a queue in which the last send has failed. */
    ghost predicate Left(ok: bool)
      reads this, tx, tx.transport
    {
      Sound() && if ok then tx.Valid() else tx.Failed()
    }

    ghost predicate Valid()
      reads this, subscriptions, tx, tx.transport
    {
      Consistent() && subscriptions.Valid()
    }

    constructor (transport: Transport, shared: ClientShared, now: int, resendDelay: int, ping: int)
      requires transport.accepted == []
      ensures this.shared == shared && tx.transport == transport && fresh(tx) && fresh(subscriptions)
      ensures Valid()
      ensures View() == State(None, map[], map[], [], EMPTY_NODE, shared.View(), {}, [], [])
    {
      this.shared := shared;
      tx := new TxQueue(transport, now);
      subscriptions := new SubscriptionSet();
      packetResendDelay, pingInterval := resendDelay, ping;
      signal, pendingPackets, pendingSubs, timeouts := None, map[], map[], [];
      image := p => if Encodable(p) then Wire(p) else [];
      inFlight, subsInFlight, woken, sent, log := map[], map[], {}, [], [];
      new;
      assert tx.done + [] + [] == [] && Stream(tx.done) + [] == [];
    }

    /** Starts the transmission of the CONNECT packet. */
    method Bootstrap(connect: ConnectInfo) returns (r: IoResult<()>)
      requires Consistent() && Encodable(ConnectPacket(connect))
      requires View() == State(None, map[], map[], [], EMPTY_NODE, Shared(1, map[], map[]), {}, [], [])
      modifies tx`txPkt, tx`queue, tx`enqueued, tx`done, tx.transport`accepted, this`sent
      ensures Left(r.Ok?) && View() == Protocol.Init(connect)
    {
      var bytes := MakePacket(ConnectPacket(connect), image);
      r := QueueInternalPacket(bytes, false, ConnectPacket(connect));
    }

    /** Hands the bytes of packet `p` to the outgoing queue. */
    method QueueInternalPacket(bytes: seq<byte>, setDup: bool, ghost p: Packet) returns (r: IoResult<()>)
      requires Consistent() && bytes == image(p) && |bytes| > 0
      modifies tx`txPkt, tx`queue, tx`enqueued, tx`done, tx.transport`accepted, this`sent
      ensures Left(r.Ok?) && View() == Queue(old(View()), p, setDup)
    {
      r := tx.QueueInternalPacket(bytes, setDup);
      sent := sent + [Handed(p, setDup)];
    }

    method QueueInternalPacketWithTimeout(bytes: seq<byte>, key: Key, now: int,
                                          ghost p: Packet) returns (r: IoResult<()>)
      requires Consistent() && bytes == image(p) && |bytes| > 0
      modifies tx`txPkt, tx`queue, tx`enqueued, tx`done, tx.transport`accepted
      modifies this`sent, this`pendingPackets, this`inFlight, this`timeouts
      ensures Left(r.Ok?) && View() == Insert(old(View()), key, p, now)
    {
      if key !in pendingPackets {
        timeouts := timeouts + [Timeout(now, key)];
      }
      pendingPackets := pendingPackets[key := bytes];
      inFlight := inFlight[key := p];
      r := QueueInternalPacket(bytes, false, p);
    }

    method ClearPacketTimeout(key: Key) returns (cleared: bool)
      requires Consistent()
      modifies this`pendingPackets, this`inFlight
      ensures Consistent() && cleared == (key in old(inFlight)) && View() == Remove(old(View()), key)
    {
      cleared := key in pendingPackets;
      pendingPackets := pendingPackets - {key};
      inFlight := inFlight - {key};
    }

    /** Clears a packet and wakes the future that awaits it. */
    method Acknowledged(key: Key, stage: Stage)
      requires Consistent()
      modifies this`pendingPackets, this`inFlight, this`log, this`woken, shared`notify
      ensures Consistent() && View() == Acknowledge(old(View()), key, stage)
    {
      var cleared := ClearPacketTimeout(key);
      if cleared {
        log := log + [Acked(stage, key.id)];
        NotifyWaiter(stage, key.id);
      } else {
        assert inFlight == old(inFlight);
      }
    }

    /** Takes the notifier entry out and wakes whoever waits on it. */
    method NotifyWaiter(stage: Stage, id: u16)
      requires Consistent()
      modifies this`woken, shared`notify
      ensures Consistent() && View() == Notify(old(View()), stage, id)
    {
      if (stage, id) in shared.notify {
        var entry := shared.notify[(stage, id)];
        shared.notify := shared.notify - {(stage, id)};
        if entry.WithWaker? {
          woken := woken + {entry.waker};
        }
      }
    }

    /** The end of the task: DISCONNECT is handed over if the connection was answered, also after a send
    that failed with `n` bytes of its packet out. `k` bytes of it are taken now. */
    method Disconnect(ghost n: nat) returns (r: IoResult<()>, ghost k: nat)
      requires Sound() && (tx.Valid() || tx.Stalled() || tx.FailedAt(n))
      modifies tx`txPkt, tx`queue, tx`enqueued, tx`done, tx.transport`accepted, this`sent
      ensures View() == if signal.Some? then Queue(old(View()), DisconnectPacket, false) else old(View())
      ensures Linked(tx.enqueued, sent, image)
      ensures k <= 2 && tx.transport.accepted == old(tx.transport.accepted) + GOODBYE[..k]
      ensures signal.None? || old(tx.Valid() || tx.Stalled()) ==> tx.PrefixSent()
      ensures signal.Some? && old(tx.FailedAt(n)) && NoDisconnect(old(sent)) ==>
                (tx.PrefixSent() <==> Continues(old(tx.enqueued)[|old(tx.done)|], n, old(tx.queue), k))
    {
      if signal.None? {
        assert GOODBYE[..0] == [];
        return Ok(()), 0;
      }
      DisconnectWire(image);
      if NoDisconnect(sent) {
        NoGoodbyeSent(tx.enqueued, sent, image);
      }
      r, k := tx.SendDisconnect(n);
      sent := sent + [Handed(DisconnectPacket, false)];
    }

    // ----- Incoming packets -----

    /** The answer to a PUBLISH; `repeated` if its identifier is already being answered. */
    method AnswerPublish(m: Message, now: int) returns (r: IoResult<()>, repeated: bool)
      requires Consistent()
      modifies tx`txPkt, tx`queue, tx`enqueued, tx`done, tx.transport`accepted
      modifies this`sent, this`pendingPackets, this`inFlight, this`timeouts
      ensures repeated == IsRepeat(old(View()), m) && (r.Err? ==> !m.qos.AtMostOnce?)
      ensures Left(r.Ok?) && View() == Answered(old(View()), m, now)
    {
      r, repeated := Ok(()), false;
      match m.qos {
        case AtMostOnce =>
        case AtLeastOnce =>
          var bytes := MakeSmallPacket(PubAckPacket(m.id), image);
          r := QueueInternalPacket(bytes, false, PubAckPacket(m.id));
        case ExactlyOnce =>
          var key := Key(PubRec, m.id);
          repeated := key in pendingPackets;
          if repeated {
            r := QueueInternalPacket(pendingPackets[key], false, inFlight[key]);
          } else {
            var bytes := MakeSmallPacket(PubRecPacket(m.id), image);
            r := QueueInternalPacketWithTimeout(bytes, key, now, PubRecPacket(m.id));
          }
      }
    }

    method Dispatch(m: Message, net: Network)
      requires Valid()
      modifies this`log, subscriptions
      ensures Valid() && View() == Deliver(old(View()), m, net)
    {
      var takers := subscriptions.Dispatch(m.topic, net);
      log := log + [Delivered(m, takers)];
    }

    method OnPublish(m: Message, now: int, net: Network) returns (r: IoResult<()>)
      requires Valid()
      modifies tx`txPkt, tx`queue, tx`enqueued, tx`done, tx.transport`accepted, subscriptions
      modifies this`sent, this`pendingPackets, this`inFlight, this`timeouts, this`log
      ensures Left(r.Ok?) && subscriptions.Valid()
      ensures View() == if r.Ok? then Protocol.OnPublish(old(View()), m, now, net) else Answered(old(View()), m, now)
      ensures r.Err? ==> !m.qos.AtMostOnce?
    {
      var repeated;
      r, repeated := AnswerPublish(m, now);
      if r.Ok? && !repeated {
        Dispatch(m, net);
      }
    }

    method OnPubRec(id: u16, now: int) returns (r: IoResult<()>)
      requires Consistent()
      modifies tx`txPkt, tx`queue, tx`enqueued, tx`done, tx.transport`accepted, shared`notify
      modifies this`sent, this`pendingPackets, this`inFlight, this`timeouts, this`log, this`woken
      ensures Left(r.Ok?)
      ensures View() == if r.Ok? then Protocol.OnPubRec(old(View()), id, now) else Releasing(old(View()), id, now)
    {
      var key := Key(PubRel, id);
      if key in pendingPackets {
        r := QueueInternalPacket(pendingPackets[key], false, inFlight[key]);
      } else {
        var bytes := MakeSmallPacket(PubRelPacket(id), image);
        r := QueueInternalPacketWithTimeout(bytes, key, now, PubRelPacket(id));
      }
      if r.Ok? {
        Acknowledged(Key(Publish, id), RecStage);
      }
    }

    method OnPubRel(id: u16) returns (r: IoResult<()>)
      requires Consistent()
      modifies tx`txPkt, tx`queue, tx`enqueued, tx`done, tx.transport`accepted
      modifies this`sent, this`pendingPackets, this`inFlight, this`log
      ensures Left(r.Ok?) && View() == Protocol.OnPubRel(old(View()), id)
    {
      var _ := ClearPacketTimeout(Key(PubRec, id));
      log := log + [Released(id)];
      var bytes := MakeSmallPacket(PubCompPacket(id), image);
      r := QueueInternalPacket(bytes, false, PubCompPacket(id));
    }

    method TakePendingSub(id: u16) returns (sub: StoredSub)
      requires Consistent() && id in pendingSubs
      modifies this`pendingSubs, this`subsInFlight
      ensures Consistent() && View() == old(View()).(pendingSubs := old(subsInFlight) - {id})
      ensures sub.topic == old(subsInFlight)[id].topic && sub.kind == old(subsInFlight)[id].kind
    {
      sub := pendingSubs[id];
      pendingSubs := pendingSubs - {id};
      subsInFlight := subsInFlight - {id};
    }

    method Settle(topic: seq<byte>, kind: SubscriptionKind, result: SubscriptionResult)
      requires Valid()
      modifies this`woken, shared`subs, subscriptions
      ensures Valid() && View() == Settled(old(View()), topic, kind, result)
    {
      woken := woken + WakersOf(shared.subs, topic);
      match result {
        case Ok(qos) =>
          AddSubscription(subscriptions, topic, kind);
          shared.subs := shared.subs[topic := Existing(qos)];
        case Err(_) =>
          shared.subs := shared.subs - {topic};
      }
    }

    method OnSubAck(id: u16, results: seq<SubscriptionResult>)
      requires Valid()
      modifies this`pendingSubs, this`subsInFlight, this`woken, shared`subs, subscriptions
      ensures Valid() && View() == Protocol.OnSubAck(old(View()), id, results)
    {
      if id !in pendingSubs {
        return;
      }
      var sub := TakePendingSub(id);
      if |results| >= 1 {
        Settle(sub.topic, sub.kind, results[0]);
      }
    }

    /** PUBREC or PUBREL, which call for an answer. */
    method ProcessHandshake(p: Packet, now: int, ghost net: Network) returns (r: IoResult<()>)
      requires Consistent() && signal.Some? && (p.PubRecPacket? || p.PubRelPacket?)
      modifies tx`txPkt, tx`queue, tx`enqueued, tx`done, tx.transport`accepted, shared`notify
      modifies this`sent, this`pendingPackets, this`inFlight, this`timeouts, this`log, this`woken
      ensures Left(r.Ok?)
      ensures View() == if r.Ok? then OnPacket(old(View()), p, now, net).0 else OnPacketCut(old(View()), p, now)
    {
      match p {
        case PubRecPacket(id) => r := OnPubRec(id, now);
        case PubRelPacket(id) => r := OnPubRel(id);
      }
    }

    /** A packet that calls for an answer, or a message. */
    method ProcessAnswered(p: Packet, now: int, net: Network) returns (r: IoResult<()>)
      requires Valid() && signal.Some? && (p.PublishPacket? || p.PubRecPacket? || p.PubRelPacket?)
      modifies tx`txPkt, tx`queue, tx`enqueued, tx`done, tx.transport`accepted, subscriptions, shared`notify
      modifies this`sent, this`pendingPackets, this`inFlight, this`timeouts, this`log, this`woken
      ensures Left(r.Ok?) && subscriptions.Valid()
      ensures r.Ok? ==> View() == OnPacket(old(View()), p, now, net).0
      ensures r.Err? ==> CallsForAnswer(old(View()), p) && View() == OnPacketCut(old(View()), p, now)
    {
      if p.PublishPacket? {
        r := OnPublish(p.msg, now, net);
      } else {
        r := ProcessHandshake(p, now, net);
      }
    }

    /** An acknowledgement, which is not answered. */
    method ProcessAck(p: Packet, ghost now: int, ghost net: Network)
      requires Consistent() && signal.Some? && (p.PubAckPacket? || p.PubCompPacket? || p.UnsubAckPacket?)
      modifies this`pendingPackets, this`inFlight, this`log, this`woken, shared`notify
      ensures Consistent() && View() == OnPacket(old(View()), p, now, net).0
    {
      match p {
        case PubAckPacket(id) => Acknowledged(Key(Publish, id), AckStage);
        case PubCompPacket(id) => Acknowledged(Key(PubRel, id), CompStage);
        case UnsubAckPacket(id) => var _ := ClearPacketTimeout(Key(Unsubscribe, id));
      }
    }

    /** A packet that is not answered. */
    method ProcessSilent(p: Packet, ghost now: int, ghost net: Network)
      requires Valid() && signal.Some? && !(p.PublishPacket? || p.PubRecPacket? || p.PubRelPacket?)
      requires p.SubAckPacket? ==> p.results.Valid()
      modifies this`pendingPackets, this`inFlight, this`log, this`woken, shared
      modifies this`pendingSubs, this`subsInFlight, subscriptions
      ensures Valid() && View() == OnPacket(old(View()), p, now, net).0
    {
      if p.SubAckPacket? {
        OnSubAck(p.id, p.results.Results());
      } else if p.PubAckPacket? || p.PubCompPacket? || p.UnsubAckPacket? {
        ProcessAck(p, now, net);
      }
    }

    method ProcessPacket(p: Packet, now: int, net: Network) returns (r: IoResult<bool>)
      requires Valid() && (p.SubAckPacket? ==> p.results.Valid())
      modifies this, tx, tx.transport`accepted, subscriptions, shared
      ensures Left(r.Ok?) && subscriptions.Valid()
      ensures r.Ok? ==> (View(), r.value) == OnPacket(old(View()), p, now, net)
      ensures r.Err? ==> CallsForAnswer(old(View()), p) && View() == OnPacketCut(old(View()), p, now)
    {
      if signal.None? {
        var outcome := ConnectOutcome(p);
        signal := Some(outcome);
        return Ok(outcome.Err?);
      }
      if p.PublishPacket? || p.PubRecPacket? || p.PubRelPacket? {
        var done := ProcessAnswered(p, now, net);
        r := if done.Ok? then Ok(false) else Err(done.error);
      } else {
        ProcessSilent(p, now, net);
        r := Ok(false);
      }
    }

    // ----- Commands -----

    method ObeyPublish(m: Message, now: int) returns (r: IoResult<()>)
      requires Consistent() && Encodable(PublishPacket(m))
      modifies tx`txPkt, tx`queue, tx`enqueued, tx`done, tx.transport`accepted
      modifies this`sent, this`pendingPackets, this`inFlight, this`timeouts
      ensures Left(r.Ok?) && View() == OnCommand(old(View()), PublishCommand(m), now)
    {
      var bytes := MakePacket(PublishPacket(m), image);  // done by the client handle
      if m.qos == AtMostOnce {
        r := QueueInternalPacket(bytes, false, PublishPacket(m));
      } else {
        r := QueueInternalPacketWithTimeout(bytes, Key(Publish, m.id), now, PublishPacket(m));
      }
    }

    /** Takes an identifier and records the subscription to be asked for. */
    method RecordSub(topic: seq<byte>, qos: QoS, kind: SubscriptionKind) returns (id: u16, bytes: seq<byte>)
      requires Consistent() && |topic| < 65536 && Utf8(topic)
      modifies shared`nextPacketId, this`pendingSubs, this`subsInFlight
      ensures Consistent() && id == old(shared.nextPacketId)
      ensures bytes == image(SubscribePacket(id, [(topic, qos)])) && |bytes| > 0
      ensures View() == Recorded(old(View()), topic, qos, kind)
    {
      id := shared.FetchAdd();
      bytes := MakeSubscribe(id, topic, qos, image);
      pendingSubs := pendingSubs[id := StoredSub(topic, kind, bytes)];
      subsInFlight := subsInFlight[id := PendingSub(topic, kind, SubscribePacket(id, [(topic, qos)]))];
    }

    /** Asks the broker for a subscription. */
    method SendSubscribe(topic: seq<byte>, qos: QoS, kind: SubscriptionKind, now: int) returns (r: IoResult<()>)
      requires Consistent() && |topic| < 65536 && Utf8(topic)
      modifies tx`txPkt, tx`queue, tx`enqueued, tx`done, tx.transport`accepted, shared`nextPacketId
      modifies this`sent, this`pendingSubs, this`subsInFlight, this`timeouts
      ensures Left(r.Ok?)
      ensures r.Ok? ==> View() == Asked(old(View()), topic, qos, kind, now)
      ensures r.Err? ==> View() == Asked(old(View()), topic, qos, kind, now).(timeouts := old(timeouts))
    {
      var id, bytes := RecordSub(topic, qos, kind);
      r := QueueInternalPacket(bytes, false, SubscribePacket(id, [(topic, qos)]));
      if r.Ok? {
        timeouts := timeouts + [Timeout(now, Key(Subscribe, id))];
      }
    }

    /** One more recipient for a subscription that exists. */
    method Share(topic: seq<byte>, leaf: Subscription, kind: SubscriptionKind)
      requires Valid() && LeafAt(subscriptions.root, Levels(topic)) == Some(leaf)
      requires !HitsHash(subscriptions.root, Levels(topic)) && leaf.subscribed
      modifies subscriptions
      ensures Valid()
      ensures View() == old(View()).(tree := SetLeaf(old(subscriptions.root), Levels(topic), Added(leaf, kind)))
    {
      GetFindsTable(subscriptions.root, subscriptions.table, Levels(topic));
      var s := Add(leaf, kind);
      subscriptions.Write(topic, s);
    }

    method ObeySubscribe(topic: seq<byte>, qos: QoS, kind: SubscriptionKind, now: int) returns (r: IoResult<()>)
      requires Valid() && |topic| < 65536 && Utf8(topic)
      modifies tx`txPkt, tx`queue, tx`enqueued, tx`done, tx.transport`accepted, subscriptions, shared`nextPacketId
      modifies this`sent, this`pendingSubs, this`subsInFlight, this`timeouts
      ensures Left(r.Ok?) && subscriptions.Valid()
      ensures r.Ok? ==> View() == OnSubscribe(old(View()), topic, qos, kind, now)
      ensures r.Err? ==> View() == OnSubscribe(old(View()), topic, qos, kind, now).(timeouts := old(timeouts))
    {
      var found := subscriptions.Get(topic);
      r := Ok(());
      if found.Ok? {
        r := SubscribeAt(topic, found.value, qos, kind, now);
      }
    }

    /** The pattern is not known to be invalid: its leaf is shared, or the broker asked. */
    method SubscribeAt(topic: seq<byte>, leaf: Option<Subscription>, qos: QoS, kind: SubscriptionKind,
                       now: int) returns (r: IoResult<()>)
      requires Valid() && |topic| < 65536 && Utf8(topic)
      requires LeafAt(subscriptions.root, Levels(topic)) == leaf && !HitsHash(subscriptions.root, Levels(topic))
      modifies tx`txPkt, tx`queue, tx`enqueued, tx`done, tx.transport`accepted, subscriptions, shared`nextPacketId
      modifies this`sent, this`pendingSubs, this`subsInFlight, this`timeouts
      ensures Left(r.Ok?) && subscriptions.Valid()
      ensures r.Ok? ==> View() == OnSubscribe(old(View()), topic, qos, kind, now)
      ensures r.Err? ==> View() == OnSubscribe(old(View()), topic, qos, kind, now).(timeouts := old(timeouts))
    {
      r := Ok(());
      if leaf.Some? && leaf.value.subscribed {
        Share(topic, leaf.value, kind);
      } else {
        r := SendSubscribe(topic, qos, kind, now);
      }
    }

    method ObeyRemoveCallback(topic: seq<byte>, id: CallbackId, now: int)
      requires Valid()
      modifies subscriptions
      ensures Valid() && View() == OnUnsub(old(View()), topic, RemoveCallback(id), now)
    {
      var found := subscriptions.Get(topic);
      GetFindsTable(subscriptions.root, subscriptions.table, Levels(topic));
      if found.Ok? && found.value.Some? {
        var leaf := found.value.value;
        var ids := RemoveFastCallback(leaf.callbacks, id);
        subscriptions.Write(topic, leaf.(callbacks := ids));
      }
    }

    /** Sends the UNSUBSCRIBE for a subscription that has just been cleared. */
    method SendUnsubscribe(topic: seq<byte>, now: int) returns (r: IoResult<()>)
      requires Consistent() && |topic| < 65536 && Utf8(topic)
      modifies tx`txPkt, tx`queue, tx`enqueued, tx`done, tx.transport`accepted, shared`nextPacketId, shared`subs
      modifies this`sent, this`pendingPackets, this`inFlight, this`timeouts
      ensures var id, s := old(shared.nextPacketId), old(View());
              && Left(r.Ok?)
              && View() == Insert(s.(shared := Shared(NextId(id), s.shared.notify, s.shared.subs - {topic})),
                                  Key(Unsubscribe, id), UnsubscribePacket(id, [topic]), now)
    {
      shared.subs := shared.subs - {topic};
      var id := shared.FetchAdd();
      var bytes := MakeUnsubscribe(id, topic, image);
      r := QueueInternalPacketWithTimeout(bytes, Key(Unsubscribe, id), now, UnsubscribePacket(id, [topic]));
    }

    method ObeyUnsubscribe(topic: seq<byte>, now: int) returns (r: IoResult<()>)
      requires Valid() && |topic| < 65536 && Utf8(topic)
      modifies tx`txPkt, tx`queue, tx`enqueued, tx`done, tx.transport`accepted
      modifies subscriptions, shared`nextPacketId, shared`subs
      modifies this`sent, this`pendingPackets, this`inFlight, this`timeouts
      ensures Left(r.Ok?) && subscriptions.Valid() && View() == OnUnsub(old(View()), topic, Immediate, now)
    {
      HashHidesLeaf(subscriptions.root, Levels(topic));
      var cleared := subscriptions.Clear(topic);
      r := Ok(());
      if cleared == Ok(true) {
        r := SendUnsubscribe(topic, now);
      }
    }

    // ----- The alarm -----

    /** One turn of the alarm loop: takes the front entry and, if its packet is still in flight,
    sends that packet again and puts the entry back at the end. */
    method ResendFront(now: int) returns (r: IoResult<()>)
      requires Consistent() && timeouts != []
      modifies tx`txPkt, tx`queue, tx`enqueued, tx`done, tx.transport`accepted, this`sent, this`timeouts
      ensures Left(r.Ok?)
      ensures r.Ok? ==> View() == Turned(old(View()), now)
      ensures r.Err? ==> CanFail(old(View())) && View() == FailedTurn(old(View()))
    {
      r := Ok(());
      var key := timeouts[0].key;
      timeouts := timeouts[1..];
      if if key.ty == Subscribe then key.id in pendingSubs else key in pendingPackets {
        r := ResendStored(key);
        if r.Ok? {
          timeouts := timeouts + [Timeout(now, key)];
        }
      }
    }

    /** Sends a packet in flight again; a SUBSCRIBE is kept in a map of its own. */
    method ResendStored(key: Key) returns (r: IoResult<()>)
      requires Consistent() && Live(View(), key)
      modifies tx`txPkt, tx`queue, tx`enqueued, tx`done, tx.transport`accepted, this`sent
      ensures Left(r.Ok?) && View() == Queue(old(View()), InFlight(old(View()), key), key.ty == Publish)
    {
      if key.ty == Subscribe {
        r := QueueInternalPacket(pendingSubs[key.id].bytes, false, subsInFlight[key.id].packet);
      } else {
        r := QueueInternalPacket(pendingPackets[key], key.ty == Publish, inFlight[key]);
      }
    }

    method PingIfIdle(now: int) returns (r: IoResult<()>)
      requires Consistent()
      modifies tx, tx.transport`accepted, this`sent
      ensures Left(r.Ok?) && View() == Pinged(old(View()), now - old(tx.lastTx) >= pingInterval)
      ensures r.Err? ==> now - old(tx.lastTx) >= pingInterval
      ensures tx.lastTx == if now - old(tx.lastTx) >= pingInterval then now else old(tx.lastTx)
    {
      r := Ok(());
      if now - tx.lastTx >= pingInterval {
        tx.lastTx := now;
        var bytes := MakeSmallPacket(PingReqPacket, image);
        r := QueueInternalPacket(bytes, false, PingReqPacket);
      }
    }

    /** Turn `n` of the loop; `go` is false if the front entry is not due yet. */
    method Turn(clock: nat -> int, n: nat, ghost states: seq<State>) returns (r: IoResult<()>, go: bool)
      requires n < |states| && n < |states[0].timeouts|
      requires IsPass(states, |states[0].timeouts|, packetResendDelay, clock, 0)
      requires Consistent() && View() == states[n]
      modifies tx`txPkt, tx`queue, tx`enqueued, tx`done, tx.transport`accepted, this`sent, this`timeouts
      ensures Left(r.Ok?)
      ensures r.Ok? && go ==> n + 1 < |states| && View() == states[n + 1]
      ensures r.Ok? && !go ==> n + 1 == |states| && View() == states[n]
      ensures r.Err? ==> n + 1 < |states| && CanFail(states[n]) && View() == FailedTurn(states[n])
    {
      assert n + 1 < |states| ==> Leads(states, n, packetResendDelay, clock, 0);
      r, go := Ok(()), clock(2 * n) - timeouts[0].t >= packetResendDelay;
      if go {
        r := ResendFront(clock(2 * n + 1));
      }
    }

    /** At most `count` turns; `turns` is how many were made. */
    method ResendTurns(clock: nat -> int, count: nat,
                       ghost states: seq<State>) returns (r: IoResult<()>, go: bool, ghost turns: nat)
      requires 0 < |states| && IsPass(states, |states[0].timeouts|, packetResendDelay, clock, 0)
      requires count == |states[0].timeouts| && Consistent() && View() == states[0]
      modifies tx`txPkt, tx`queue, tx`enqueued, tx`done, tx.transport`accepted, this`sent, this`timeouts
      ensures Left(r.Ok?)
      ensures r.Ok? && go ==> turns == count && turns < |states| && View() == states[turns]
      ensures r.Ok? && !go ==> View() == states[|states| - 1]
      ensures r.Err? ==> 0 < turns < |states| && CanFail(states[turns - 1]) && View() == FailedTurn(states[turns - 1])
    {
      var n := 0;
      r, go := Ok(()), true;
      while go && r.Ok? && n < count
        invariant n <= count && Left(r.Ok?)
        invariant r.Ok? && go ==> n < |states| && View() == states[n]
        invariant r.Ok? && !go ==> View() == states[|states| - 1]
        invariant r.Err? ==> 0 < n < |states| && CanFail(states[n - 1]) && View() == FailedTurn(states[n - 1])
        decreases count - n
      {
        r, go := Turn(clock, n, states);
        n := n + 1;
      }
      turns := n;
    }

    /** The loop over the timeout queue: it takes at most as many entries as there are, so that
    the ones it puts back are not looked at again. `turns` counts them if the last one failed. */
    method ResendExpired(clock: nat -> int, ghost states: seq<State>) returns (r: IoResult<()>, ghost turns: nat)
      requires 0 < |states| && IsPass(states, |states[0].timeouts|, packetResendDelay, clock, 0)
      requires Consistent() && View() == states[0]
      modifies tx`txPkt, tx`queue, tx`enqueued, tx`done, tx.transport`accepted, this`sent, this`timeouts
      ensures Left(r.Ok?)
      ensures r.Ok? ==> View() == states[|states| - 1]
      ensures r.Err? ==> 0 < turns < |states| && CanFail(states[turns - 1]) && View() == FailedTurn(states[turns - 1])
    {
      var go;
      r, go, turns := ResendTurns(clock, |timeouts|, states);
    }

    /** The alarm branch. `now` is read for the ping, `clock` by the turns of the loop. */
    method AlarmTick(now: int, clock: nat -> int) returns (r: IoResult<()>, ghost turns: nat)
      requires Consistent()
      modifies tx, tx.transport`accepted, this`sent, this`timeouts
      ensures Left(r.Ok?)
      ensures tx.lastTx == if signal.Some? && now - old(tx.lastTx) >= pingInterval then now else old(tx.lastTx)
      ensures var ping := old(now - tx.lastTx >= pingInterval);
              && (r.Ok? ==> View() == OnAlarm(old(View()), ping, packetResendDelay, clock))
              && (r.Err? ==> CutsAt(old(View()), ping, packetResendDelay, clock, turns)
                             && View() == OnAlarmCut(old(View()), ping, packetResendDelay, clock, turns))
    {
      turns := 0;
      if signal.None? {
        return Ok(()), 0;
      }
      ghost var s, ping := View(), now - tx.lastTx >= pingInterval;
      r := PingIfIdle(now);
      if r.Ok? {
        r, turns := ResendAfterPing(clock, s, ping);
      }
    }

    /** The loop, from the state `s` and the ping that was due or not. */
    method ResendAfterPing(clock: nat -> int, ghost s: State,
                           ghost ping: bool) returns (r: IoResult<()>, ghost turns: nat)
      requires Consistent() && View() == Pinged(s, ping) && s.signal.Some?
      modifies tx`txPkt, tx`queue, tx`enqueued, tx`done, tx.transport`accepted, this`sent, this`timeouts
      ensures Left(r.Ok?)
      ensures r.Ok? ==> View() == OnAlarm(s, ping, packetResendDelay, clock)
      ensures r.Err? ==> CutsAt(s, ping, packetResendDelay, clock, turns)
                         && View() == OnAlarmCut(s, ping, packetResendDelay, clock, turns)
    {
      ghost var states := PassStates(View(), |timeouts|, packetResendDelay, clock, 0);
      r, turns := ResendExpired(clock, states);
      if r.Err? {
        AlarmStops(s, ping, packetResendDelay, clock, states, turns);
      }
    }
  }
}
