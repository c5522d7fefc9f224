/** The transceiver of src/transceiver/mod.rs as a state machine over values: what one
incoming packet, one command and one alarm tick do.

`sent` and `log` are histories: every packet handed to the outgoing queue, and every message
dispatched, every release and every acknowledgement that cleared a packet. */
module Protocol {
  import opened Wrappers
  import opened ByteIo
  import opened Packets
  import opened Subscriptions
  import opened Topics
  import opened SubscriptionSets

  datatype Key = Key(ty: PacketType, id: u16)

  datatype Timeout = Timeout(t: int, key: Key)

  /** Which notifier map: PUBACK, PUBREC or PUBCOMP. */
  datatype Stage = AckStage | RecStage | CompStage

  type Waker = int

  datatype NotifyResult = WithoutWaker | WithWaker(waker: Waker) | NotifyFailed

  datatype SubscriptionState = Existing(qos: QoS) | Awaited(wakers: seq<Option<Waker>>)

  datatype PendingSub = PendingSub(topic: seq<byte>, kind: SubscriptionKind, packet: Packet)

  /** State shared with the client handles. The three notifier maps are one map keyed by stage. */
  datatype Shared = Shared(
    nextId: u16,
    notify: map<(Stage, u16), NotifyResult>,
    subs: map<seq<byte>, SubscriptionState>)

  datatype Handed = Handed(packet: Packet, setDup: bool)

  /** A message is logged with those who took it. */
  datatype Log = Delivered(msg: Message, takers: seq<Recipient>) | Released(id: u16) | Acked(stage: Stage, id: u16)

  datatype State = State(
    signal: Option<Result<bool, ServerConnectError>>,  // outcome of the connection, once known
    pending: map<Key, Packet>,
    pendingSubs: map<u16, PendingSub>,
    timeouts: seq<Timeout>,
    tree: Node,
    shared: Shared,
    woken: set<Waker>,  // wakers taken out of the shared maps and woken
    sent: seq<Handed>,
    log: seq<Log>)

  datatype UnsubKind = RemoveCallback(id: CallbackId) | Immediate

  datatype Command =
    | PublishCommand(msg: Message)
    | SubscribeCommand(topic: seq<byte>, qos: QoS, kind: SubscriptionKind)
    | UnsubCommand(topic: seq<byte>, how: UnsubKind)

  /** A new task: nothing in flight, CONNECT on its way. */
  function Init(connect: ConnectInfo): State {
    State(None, map[], map[], [], EMPTY_NODE, Shared(1, map[], map[]), {}, [Handed(ConnectPacket(connect), false)], [])
  }

  // ----- Building blocks -----

  /** `queue_internal_packet`. */
  function Queue(s: State, p: Packet, setDup: bool): State {
    s.(sent := s.sent + [Handed(p, setDup)])
  }

  /** `queue_internal_packet_with_timeout`: a timeout only if the key was not in flight. */
  function Insert(s: State, key: Key, p: Packet, now: int): State {
    Queue(s.(pending := s.pending[key := p],
             timeouts := if key in s.pending then s.timeouts else s.timeouts + [Timeout(now, key)]), p, false)
  }

  function Remove(s: State, key: Key): State {
    s.(pending := s.pending - {key})
  }

  /** Takes the notifier entry out and wakes whoever waits on it. */
  function Notify(s: State, stage: Stage, id: u16): State {
    if (stage, id) !in s.shared.notify then s
    else
      var entry := s.shared.notify[(stage, id)];
      s.(shared := s.shared.(notify := s.shared.notify - {(stage, id)}),
         woken := if entry.WithWaker? then s.woken + {entry.waker} else s.woken)
  }

  /** An acknowledgement: it counts only while the packet it answers is in flight. */
  function Acknowledge(s: State, key: Key, stage: Stage): State {
    if key !in s.pending then s
    else
      var s1 := Remove(s, key);
      Notify(s1.(log := s1.log + [Acked(stage, key.id)]), stage, key.id)
  }

  function Deliver(s: State, m: Message, net: Network): State {
    var (tree, takers) := DispatchNode(s.tree, Levels(m.topic), net);
    s.(tree := tree, log := s.log + [Delivered(m, takers)])
  }

  function NextId(id: u16): u16 {
    if id == 65535 then 0 else id + 1
  }

  // ----- Incoming packets -----

  /** Its identifier is already being answered. */
  predicate IsRepeat(s: State, m: Message) {
    m.qos.ExactlyOnce? && Key(PubRec, m.id) in s.pending
  }

  /** The answer owed to a publish. */
  function Answered(s: State, m: Message, now: int): State {
    match m.qos
    case AtMostOnce => s
    case AtLeastOnce => Queue(s, PubAckPacket(m.id), false)
    case ExactlyOnce =>
      var key := Key(PubRec, m.id);
      if key in s.pending then Queue(s, s.pending[key], false) else Insert(s, key, PubRecPacket(m.id), now)
  }

  /** First the answer, then the message, unless it is a repetition. */
  function OnPublish(s: State, m: Message, now: int, net: Network): State {
    if IsRepeat(s, m) then Answered(s, m, now) else Deliver(Answered(s, m, now), m, net)
  }

  /** The PUBREL owed to a PUBREC. */
  function Releasing(s: State, id: u16, now: int): State {
    var key := Key(PubRel, id);
    if key in s.pending then Queue(s, s.pending[key], false) else Insert(s, key, PubRelPacket(id), now)
  }

  function OnPubRec(s: State, id: u16, now: int): State {
    Acknowledge(Releasing(s, id, now), Key(Publish, id), RecStage)
  }

  function OnPubRel(s: State, id: u16): State {
    var s1 := Remove(s, Key(PubRec, id));
    Queue(s1.(log := s1.log + [Released(id)]), PubCompPacket(id), false)
  }

  function Awake(ws: seq<Option<Waker>>): set<Waker> {
    set o <- ws | o.Some? :: o.value
  }

  /** The leaf a successful SUBACK turns into a subscription. */
  function Subscribed(tree: Node, topic: seq<byte>, kind: SubscriptionKind): Node {
    var levels := Levels(topic);
    var grown := Grow(tree, levels);
    match LeafAt(grown, levels)
    case Some(leaf) => SetLeaf(grown, levels, Added(leaf.(subscribed := true), kind))
    case None => grown
  }

  function WakersOf(subs: map<seq<byte>, SubscriptionState>, topic: seq<byte>): set<Waker> {
    if topic in subs && subs[topic].Awaited? then Awake(subs[topic].wakers) else {}
  }

  /** What the broker's verdict on one pattern does: futures wake, the leaf is made or forgotten. */
  function Settled(s: State, topic: seq<byte>, kind: SubscriptionKind, result: SubscriptionResult): State {
    var s1 := s.(woken := s.woken + WakersOf(s.shared.subs, topic));
    match result
    case Ok(qos) =>
      s1.(tree := Subscribed(s1.tree, topic, kind),
          shared := s1.shared.(subs := s1.shared.subs[topic := Existing(qos)]))
    case Err(_) => s1.(shared := s1.shared.(subs := s1.shared.subs - {topic}))
  }

  function OnSubAck(s: State, id: u16, results: seq<SubscriptionResult>): State {
    if id !in s.pendingSubs then s
    else
      var sub := s.pendingSubs[id];
      var s1 := s.(pendingSubs := s.pendingSubs - {id});
      if results == [] then s1 else Settled(s1, sub.topic, sub.kind, results[0])
  }

  /** The first packet decides the connection. */
  function ConnectOutcome(p: Packet): Result<bool, ServerConnectError> {
    if p.ConnAckPacket? then p.reply else Err(ProtocolError)
  }

  /** `process_packet`; the flag asks the task to stop. */
  function OnPacket(s: State, p: Packet, now: int, net: Network): (State, bool)
    requires p.SubAckPacket? ==> p.results.Valid()
  {
    if s.signal.None? then (s.(signal := Some(ConnectOutcome(p))), ConnectOutcome(p).Err?)
    else
      var s' := match p
        case PublishPacket(m) => OnPublish(s, m, now, net)
        case PubAckPacket(id) => Acknowledge(s, Key(Publish, id), AckStage)
        case PubRecPacket(id) => OnPubRec(s, id, now)
        case PubRelPacket(id) => OnPubRel(s, id)
        case PubCompPacket(id) => Acknowledge(s, Key(PubRel, id), CompStage)
        case SubAckPacket(id, results) => OnSubAck(s, id, results.Results())
        case UnsubAckPacket(id) => Remove(s, Key(Unsubscribe, id))
        case _ => s;
      (s', false)
  }

  // ----- Commands -----

  /** A new identifier is taken, and the request is kept under it. */
  function Recorded(s: State, topic: seq<byte>, qos: QoS, kind: SubscriptionKind): State {
    var id := s.shared.nextId;
    s.(shared := s.shared.(nextId := NextId(id)),
       pendingSubs := s.pendingSubs[id := PendingSub(topic, kind, SubscribePacket(id, [(topic, qos)]))])
  }

  /** Sends a SUBSCRIBE with a new identifier. */
  function Asked(s: State, topic: seq<byte>, qos: QoS, kind: SubscriptionKind, now: int): State {
    var id := s.shared.nextId;
    var s1 := Queue(Recorded(s, topic, qos, kind), SubscribePacket(id, [(topic, qos)]), false);
    s1.(timeouts := s1.timeouts + [Timeout(now, Key(Subscribe, id))])
  }

  function OnSubscribe(s: State, topic: seq<byte>, qos: QoS, kind: SubscriptionKind, now: int): State {
    var levels := Levels(topic);
    if HitsHash(s.tree, levels) then s
    else if LeafAt(s.tree, levels).Some? && LeafAt(s.tree, levels).value.subscribed then
      s.(tree := SetLeaf(s.tree, levels, Added(LeafAt(s.tree, levels).value, kind)))
    else Asked(s, topic, qos, kind, now)
  }

  function OnUnsub(s: State, topic: seq<byte>, how: UnsubKind, now: int): State {
    var levels := Levels(topic);
    if HitsHash(s.tree, levels) || LeafAt(s.tree, levels).None? then s
    else
      var leaf := LeafAt(s.tree, levels).value;
      match how
      case RemoveCallback(id) =>
        s.(tree := SetLeaf(s.tree, levels, leaf.(callbacks := WithoutCallback(leaf.callbacks, id))))
      case Immediate =>
        if !leaf.subscribed then s
        else
          var id := s.shared.nextId;
          var s1 := s.(tree := SetLeaf(s.tree, levels, EMPTY),
                       shared := s.shared.(subs := s.shared.subs - {topic}, nextId := NextId(id)));
          Insert(s1, Key(Unsubscribe, id), UnsubscribePacket(id, [topic]), now)
  }

  function OnCommand(s: State, c: Command, now: int): State {
    match c
    case PublishCommand(m) =>
      if m.qos.AtMostOnce? then Queue(s, PublishPacket(m), false)
      else Insert(s, Key(Publish, m.id), PublishPacket(m), now)
    case SubscribeCommand(topic, qos, kind) => OnSubscribe(s, topic, qos, kind, now)
    case UnsubCommand(topic, how) => OnUnsub(s, topic, how, now)
  }

  // ----- The alarm -----

  predicate Live(s: State, key: Key) {
    if key.ty == Subscribe then key.id in s.pendingSubs else key in s.pending
  }

  function InFlight(s: State, key: Key): Packet
    requires Live(s, key)
  {
    if key.ty == Subscribe then s.pendingSubs[key.id].packet else s.pending[key]
  }

  function Resend(s: State, key: Key, now: int): State {
    if !Live(s, key) then s
    else
      var s1 := Queue(s, InFlight(s, key), key.ty == Publish);
      s1.(timeouts := s1.timeouts + [Timeout(now, key)])
  }

  /** At most `n` turns of the alarm loop. Turn i reads the clock at k + 2i to test the front
  entry and at k + 2i + 1 to refresh it. */
  function AlarmPass(s: State, n: nat, delay: int, clock: nat -> int, k: nat): State
    requires n <= |s.timeouts|
    decreases n
  {
    if n == 0 || clock(k) - s.timeouts[0].t < delay then s
    else
      var rest := s.(timeouts := s.timeouts[1..]);
      AlarmPass(Resend(rest, s.timeouts[0].key, clock(k + 1)), n - 1, delay, clock, k + 2)
  }

  function Pinged(s: State, ping: bool): State {
    if ping then Queue(s, PingReqPacket, false) else s
  }

  function OnAlarm(s: State, ping: bool, delay: int, clock: nat -> int): State {
    if s.signal.None? then s else AlarmPass(Pinged(s, ping), |s.timeouts|, delay, clock, 0)
  }

  // ----- Steps cut short -----
  //
  // An I/O error ends the step that hands over a packet: the packet is in the history, and some
  // or all of its bytes may be out, but what the step does after it never happens.

  predicate CallsForAnswer(s: State, p: Packet) {
    s.signal.Some? && ((p.PublishPacket? && !p.msg.qos.AtMostOnce?) || p.PubRecPacket? || p.PubRelPacket?)
  }

  /** The answer failed: nothing is dispatched, nothing acknowledged. */
  function OnPacketCut(s: State, p: Packet, now: int): State
    requires CallsForAnswer(s, p)
  {
    match p
    case PublishPacket(m) => Answered(s, m, now)
    case PubRecPacket(id) => Releasing(s, id, now)
    case PubRelPacket(id) => OnPubRel(s, id)
  }

  /** A SUBSCRIBE gets its timeout entry only after it was handed over. */
  function OnCommandCut(s: State, c: Command, now: int): State {
    var s' := OnCommand(s, c, now);
    if c.SubscribeCommand? then s'.(timeouts := s.timeouts) else s'
  }

  function Front<T>(s: seq<T>): seq<T> {
    if s == [] then [] else s[..|s| - 1]
  }

  /** `n` turns of the alarm loop, the last of which fails and does not put its entry back; none
  if it was the ping that failed. */
  function OnAlarmCut(s: State, ping: bool, delay: int, clock: nat -> int, n: nat): State
    requires n <= |s.timeouts|
  {
    var s' := AlarmPass(Pinged(s, ping), n, delay, clock, 0);
    if n == 0 then s' else s'.(timeouts := Front(s'.timeouts))
  }

  /** The ping goes out, or the entries up to the n-th are due and the n-th has something to send. */
  predicate CutsAt(s: State, ping: bool, delay: int, clock: nat -> int, n: nat) {
    && s.signal.Some? && n <= |s.timeouts|
    && (if n == 0 then ping else Live(s, s.timeouts[n - 1].key))
    && (forall i :: 0 <= i < n ==> clock(2 * i) - s.timeouts[i].t >= delay)
  }
}
