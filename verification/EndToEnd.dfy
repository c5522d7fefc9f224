/** Two clients joined by FIFO channels: exactly-once and at-least-once delivery from end to end
(sections 4.3.2 and 4.3.3 of MQTT 3.1.1).

A channel needs no state of its own: its contents are the packets one side handed to its
outgoing queue that the other side has not processed yet. */
module EndToEnd {
  import opened Wrappers
  import opened ByteIo
  import opened Packets
  import opened RoundTrips
  import opened Subscriptions
  import opened Topics
  import opened SubscriptionSets
  import opened Protocol
  import opened ProtocolProofs
  import opened Systems
  import opened SystemProofs
  import opened FutureProofs
  import opened Histories
  import opened Completion
  import opened Origins
  import opened Deliveries

  /** Both clients, and how many packets of the other each has processed. `cut` is the packet at
  whose arrival a step of B was cut short, if that has happened. */
  datatype Joint = Joint(a: Sys, b: Sys, atB: nat, atA: nat, cut: Option<nat>)

  /** Anything either side does on its own, or the next packet of a channel arriving; the step that
  takes it may be cut short after its answer. */
  datatype JointEvent =
    | LocalA(e: Event) | LocalB(e: Event)
    | ArriveAtB(now: int, net: Network) | ArriveAtA(now: int, net: Network)
    | CutAtB(now: int) | CutAtA(now: int)

  /** Replies that belong to no publish; a broker between the clients may add them. */
  predicate Foreign(p: Packet) {
    p.ConnAckPacket? || p.SubAckPacket? || p.UnsubAckPacket? || p.PingRespPacket?
  }

  predicate IsLocal(e: Event) {
    (e.Receive? ==> Foreign(e.packet)) && !e.CutReceive?
  }

  /** The packet as it comes off the wire. Packets a client cannot decode concern the broker only. */
  function Arriving(h: Handed): Packet {
    Marked(h.packet, h.setDup)
  }

  predicate Handles(p: Packet) {
    p.PublishPacket? || p.PubAckPacket? || p.PubRecPacket? || p.PubRelPacket? || p.PubCompPacket?
  }

  ghost predicate JointEnabled(j: Joint, e: JointEvent) {
    match e
    case LocalA(f) => IsLocal(f) && Enabled(j.a, f)
    case LocalB(f) => IsLocal(f) && Enabled(j.b, f)
    case ArriveAtB(now, net) => CanArrive(j.a.t.sent, j.atB, j.b, now, net)
    case ArriveAtA(now, net) => CanArrive(j.b.t.sent, j.atA, j.a, now, net)
    case CutAtB(now) => CanCut(j.a.t.sent, j.atB, j.b, now)
    case CutAtA(now) => CanCut(j.b.t.sent, j.atA, j.a, now)
  }

  ghost predicate CanArrive(sent: seq<Handed>, at: nat, x: Sys, now: int, net: Network) {
    at < |sent| && (Handles(sent[at].packet) ==> Enabled(x, Receive(Arriving(sent[at]), now, net)))
  }

  ghost predicate CanCut(sent: seq<Handed>, at: nat, x: Sys, now: int) {
    at < |sent| && Handles(sent[at].packet) && Enabled(x, CutReceive(Arriving(sent[at]), now))
  }

  ghost function JointStep(j: Joint, e: JointEvent): Joint
    requires JointEnabled(j, e)
  {
    match e
    case LocalA(f) => j.(a := Step(j.a, f))
    case LocalB(f) => j.(b := Step(j.b, f))
    case ArriveAtB(now, net) =>
      var h := j.a.t.sent[j.atB];
      j.(atB := j.atB + 1, b := if Handles(h.packet) then Step(j.b, Receive(Arriving(h), now, net)) else j.b)
    case ArriveAtA(now, net) =>
      var h := j.b.t.sent[j.atA];
      j.(atA := j.atA + 1, a := if Handles(h.packet) then Step(j.a, Receive(Arriving(h), now, net)) else j.a)
    case CutAtB(now) =>
      j.(atB := j.atB + 1, b := Step(j.b, CutReceive(Arriving(j.a.t.sent[j.atB]), now)), cut := Some(j.atB))
    case CutAtA(now) =>
      j.(atA := j.atA + 1, a := Step(j.a, CutReceive(Arriving(j.b.t.sent[j.atA]), now)))
  }

  ghost predicate JointRun(start: Joint, es: seq<JointEvent>)
    decreases |es|, 0
  {
    es == [] || (JointRun(start, es[..|es| - 1]) && JointEnabled(JointAfter(start, es[..|es| - 1]), es[|es| - 1]))
  }

  ghost function JointAfter(start: Joint, es: seq<JointEvent>): Joint
    requires JointRun(start, es)
    decreases |es|, 1
  {
    if es == [] then start else JointStep(JointAfter(start, es[..|es| - 1]), es[|es| - 1])
  }

  function JointInit(a: ConnectInfo, b: ConnectInfo): Joint {
    Joint(Systems.Init(a), Systems.Init(b), 0, 0, None)
  }

  // ----- The flow from A to B -----

  ghost predicate IsDelivery(x: Log, id: u16) {
    x.Delivered? && x.msg.qos.ExactlyOnce? && x.msg.id == id
  }

  ghost predicate IsAcceptance(x: Log, id: u16) {
    x.Delivered? && x.msg.qos.AtLeastOnce? && x.msg.id == id
  }

  /** A QoS 2 message with this identifier has been dispatched. */
  ghost predicate DeliveredAt(log: seq<Log>, id: u16) {
    exists i :: 0 <= i < |log| && IsDelivery(log[i], id)
  }

  /** A QoS 1 message with this identifier has been dispatched. */
  ghost predicate AcceptedAt(log: seq<Log>, id: u16) {
    exists i :: 0 <= i < |log| && IsAcceptance(log[i], id)
  }

  ghost predicate Sent(sent: seq<Handed>, p: Packet) {
    exists i :: 0 <= i < |sent| && sent[i].packet == p
  }

  /** The step that was cut short was answering the first transmission of this message, the one
  without DUP: the answer may be out, and the message is never dispatched. */
  ghost predicate Lost(sent: seq<Handed>, cut: Option<nat>, id: u16) {
    cut.Some? && cut.value < |sent| && Tracked(sent[cut.value].packet, id) && !sent[cut.value].setDup
  }

  ghost predicate Came2(a: State, b: State, cut: Option<nat>, id: u16) {
    DeliveredAt(b.log, id) || Lost(a.sent, cut, id)
  }

  ghost predicate Came1(a: State, b: State, cut: Option<nat>, id: u16) {
    AcceptedAt(b.log, id) || Lost(a.sent, cut, id)
  }

  /** A publish that arrived has been dispatched, by its own arrival or an earlier copy's. */
  ghost predicate Reached(log: seq<Log>, p: Packet)
    requires p.PublishPacket?
  {
    if p.msg.qos.ExactlyOnce? then DeliveredAt(log, p.msg.id) else AcceptedAt(log, p.msg.id)
  }

  /** No publish follows the PUBREL with its identifier, in the queue or in the channel. */
  ghost predicate NoPublishAfterRelease(sent: seq<Handed>) {
    forall i, j, id :: 0 <= i < j < |sent| && sent[i].packet == PubRelPacket(id) ==> !Tracked(sent[j].packet, id)
  }

  ghost predicate SenderFlow(a: State, running: bool, b: State, cut: Option<nat>) {
    && NoPublishAfterRelease(a.sent)
    && (running ==> forall id: u16 :: Sent(a.sent, PubRelPacket(id)) ==> Key(Publish, id) !in a.pending)
    && (forall id: u16 :: Sent(a.sent, PubRelPacket(id)) ==> Came2(a, b, cut, id))
    && (forall id: u16 :: (Acked(RecStage, id) in a.log || Acked(CompStage, id) in a.log) ==> Came2(a, b, cut, id))
    && (forall id: u16 :: Acked(AckStage, id) in a.log ==> Came1(a, b, cut, id))
  }

  /** What B has answered has come, what it released was released, and what it dispatched was sent. */
  ghost predicate AnswerFlow(a: State, b: State, atB: nat, cut: Option<nat>) {
    && atB <= |a.sent|
    && (forall id: u16 :: Sent(b.sent, PubRecPacket(id)) ==> Came2(a, b, cut, id))
    && (forall id: u16 :: Sent(b.sent, PubAckPacket(id)) ==> Came1(a, b, cut, id))
    && (forall id: u16 :: Released(id) in b.log ==> Sent(a.sent[..atB], PubRelPacket(id)))
    && (forall i :: 0 <= i < |b.log| && b.log[i].Delivered? ==> Genuine(a.sent[..atB], b.log[i].msg))
    && (forall i, j, id :: 0 <= i < j < |b.log| && IsDelivery(b.log[i], id) ==> !IsDelivery(b.log[j], id))
  }

  /** The message arrived in a packet that was sent. */
  ghost predicate Genuine(sent: seq<Handed>, m: Message) {
    exists i :: 0 <= i < |sent| && sent[i].packet.PublishPacket? && Arriving(sent[i]) == PublishPacket(m)
  }

  /** What has arrived on a good connection has been dispatched, but for the packet of a step that was
  cut short; a message lost by that step never was. */
  ghost predicate ArrivalFlow(a: State, b: State, atB: nat, cut: Option<nat>) {
    && atB <= |a.sent|
    && (b.signal.None? ==> forall i :: 0 <= i < atB ==> !Handles(a.sent[i].packet))
    && (b.signal.Some? && b.signal.value.Ok? ==>
          forall i, id :: 0 <= i < atB && cut != Some(i) && Tracked(a.sent[i].packet, id) ==>
              Reached(b.log, a.sent[i].packet))
    && (forall id :: Lost(a.sent, cut, id) ==> !DeliveredAt(b.log, id) && !AcceptedAt(b.log, id))
  }

  ghost predicate FlowInv(j: Joint) {
    && SenderFlow(j.a.t, j.a.phase.Running?, j.b.t, j.cut)
    && AnswerFlow(j.a.t, j.b.t, j.atB, j.cut) && ArrivalFlow(j.a.t, j.b.t, j.atB, j.cut)
    && (j.cut.Some? ==> !j.b.phase.Running? && j.cut.value < j.atB)
  }

  /** While it runs, an answered connection was accepted. */
  ghost predicate GoodSignal(x: Sys) {
    x.phase.Running? && x.t.signal.Some? ==> x.t.signal.value.Ok?
  }

  ghost predicate JointInv(j: Joint) {
    && TaskInv(j.a) && TaskInv(j.b) && IdInv(j.a) && FutureInv(j.a) && HistoryInv(j.a) && GoodSignal(j.b)
    && FlowInv(j) && j.atA <= |j.b.t.sent|
  }

  // ----- Growth -----

  lemma SentGrows(sent: seq<Handed>, more: seq<Handed>, p: Packet)
    requires sent <= more && Sent(sent, p)
    ensures Sent(more, p)
  {
    var i :| 0 <= i < |sent| && sent[i].packet == p;
    assert more[i].packet == p;
  }

  lemma GenuineGrows(sent: seq<Handed>, more: seq<Handed>, m: Message)
    requires sent <= more && Genuine(sent, m)
    ensures Genuine(more, m)
  {
    var i :| 0 <= i < |sent| && sent[i].packet.PublishPacket? && Arriving(sent[i]) == PublishPacket(m);
    assert more[i] == sent[i];
  }

  lemma DeliveredGrows(log: seq<Log>, more: seq<Log>, id: u16)
    requires log <= more
    ensures DeliveredAt(log, id) ==> DeliveredAt(more, id)
    ensures AcceptedAt(log, id) ==> AcceptedAt(more, id)
  {
    if DeliveredAt(log, id) {
      var i :| 0 <= i < |log| && IsDelivery(log[i], id);
      assert IsDelivery(more[i], id);
    }
    if AcceptedAt(log, id) {
      var i :| 0 <= i < |log| && IsAcceptance(log[i], id);
      assert IsAcceptance(more[i], id);
    }
  }

  /** What came stays come while histories and logs grow. */
  lemma CameGrows(a: State, a': State, b: State, b': State, cut: Option<nat>, id: u16)
    requires a.sent <= a'.sent && b.log <= b'.log
    ensures Came2(a, b, cut, id) ==> Came2(a', b', cut, id)
    ensures Came1(a, b, cut, id) ==> Came1(a', b', cut, id)
  {
    DeliveredGrows(b.log, b'.log, id);
  }

  ghost predicate IsDispatch(x: Log, id: u16) {
    x.Delivered? && !x.msg.qos.AtMostOnce? && x.msg.id == id
  }

  lemma DispatchOf(log: seq<Log>, id: u16) returns (i: nat)
    requires DeliveredAt(log, id) || AcceptedAt(log, id)
    ensures i < |log| && IsDispatch(log[i], id)
  {
    if DeliveredAt(log, id) {
      i :| 0 <= i < |log| && IsDelivery(log[i], id);
    } else {
      i :| 0 <= i < |log| && IsAcceptance(log[i], id);
    }
  }

  /** Whatever was dispatched was sent. */
  lemma DispatchWasSent(a: State, b: State, atB: nat, cut: Option<nat>, id: u16) returns (n: nat)
    requires AnswerFlow(a, b, atB, cut) && (DeliveredAt(b.log, id) || AcceptedAt(b.log, id))
    ensures n < atB && Tracked(a.sent[n].packet, id)
  {
    var i := DispatchOf(b.log, id);
    var seen := a.sent[..atB];
    assert Genuine(seen, b.log[i].msg);
    n :| 0 <= n < |seen| && seen[n].packet.PublishPacket? && Arriving(seen[n]) == PublishPacket(b.log[i].msg);
    assert a.sent[n] == seen[n];
  }

  /** Whatever came was sent. */
  lemma CameWasSent(a: State, b: State, atB: nat, cut: Option<nat>, id: u16)
    requires AnswerFlow(a, b, atB, cut) && (Came2(a, b, cut, id) || Came1(a, b, cut, id))
    ensures SentId(a.sent, id)
  {
    if !Lost(a.sent, cut, id) {
      var n := DispatchWasSent(a, b, atB, cut, id);
      assert Tracked(a.sent[n].packet, id);
    }
  }

  // ----- Steps of A on its own -----

  /** What a step without packets of the handshake does to the sending half: copies of what is
  in flight and new publishes. */
  ghost predicate SenderLocal(s: State, s': State) {
    && s.sent <= s'.sent && s'.log == s.log
    && (forall i, id: u16 :: |s.sent| <= i < |s'.sent| && s'.sent[i].packet == PubRelPacket(id) ==>
          Sent(s.sent, PubRelPacket(id)))
    && (forall i, id: u16 :: |s.sent| <= i < |s'.sent| && Tracked(s'.sent[i].packet, id) ==>
          Key(Publish, id) in s.pending || !SentId(s.sent, id))
    && (forall id: u16 :: Key(Publish, id) in s'.pending ==> Key(Publish, id) in s.pending || !SentId(s.sent, id))
  }

  lemma SenderLocalFlow(a: State, a': State, running: bool, running': bool, b: State, atB: nat, cut: Option<nat>)
    requires SenderFlow(a, running, b, cut) && AnswerFlow(a, b, atB, cut) && SenderLocal(a, a')
    requires running || (!running' && a'.sent == a.sent)
    ensures SenderFlow(a', running', b, cut)
  {
    forall id: u16 | Sent(a'.sent, PubRelPacket(id))
      ensures Sent(a.sent, PubRelPacket(id)) && SentId(a.sent, id) && Came2(a', b, cut, id)
    {
      var i :| 0 <= i < |a'.sent| && a'.sent[i].packet == PubRelPacket(id);
      if i < |a.sent| {
        assert a.sent[i].packet == PubRelPacket(id);
      }
      CameWasSent(a, b, atB, cut, id);
      CameGrows(a, a', b, b, cut, id);
    }
    forall id: u16 ensures Came2(a, b, cut, id) ==> Came2(a', b, cut, id)
                   ensures Came1(a, b, cut, id) ==> Came1(a', b, cut, id) {
      CameGrows(a, a', b, b, cut, id);
    }
    forall i, k, id | 0 <= i < k < |a'.sent| && a'.sent[i].packet == PubRelPacket(id)
      ensures !Tracked(a'.sent[k].packet, id)
    {
      assert Sent(a'.sent, PubRelPacket(id));
      if k < |a.sent| {
        assert a'.sent[i] == a.sent[i] && a'.sent[k] == a.sent[k];
      }
    }
  }

  /** B's half does not notice that A sends more. */
  lemma MoreSentFlow(a: State, a': State, b: State, atB: nat, cut: Option<nat>)
    requires AnswerFlow(a, b, atB, cut) && ArrivalFlow(a, b, atB, cut) && a.sent <= a'.sent
    requires cut.Some? ==> cut.value < atB
    ensures AnswerFlow(a', b, atB, cut) && ArrivalFlow(a', b, atB, cut)
  {
    assert a'.sent[..atB] == a.sent[..atB];
    forall id: u16
      ensures Came2(a, b, cut, id) ==> Came2(a', b, cut, id)
      ensures Came1(a, b, cut, id) ==> Came1(a', b, cut, id)
    {
      CameGrows(a, a', b, b, cut, id);
    }
    forall i | 0 <= i < atB ensures a'.sent[i] == a.sent[i] {
    }
    forall id | Lost(a'.sent, cut, id) ensures Lost(a.sent, cut, id) {
    }
  }

  lemma InFlightIs(s: State, k: Key)
    requires Shapes(s) && Live(s, k)
    ensures var p := InFlight(s, k);
            && (forall id: u16 :: p == PubRelPacket(id) ==> k == Key(PubRel, id))
            && (forall id: u16 :: p == PubRecPacket(id) ==> k == Key(PubRec, id))
            && (forall id: u16 :: Tracked(p, id) ==> k == Key(Publish, id))
            && !p.PubAckPacket?
  {
  }

  /** What a copied packet can be. */
  lemma CopiedIs(s: State, h: Handed)
    requires Kept(s) && Copied(s, h)
    ensures forall id: u16 :: h.packet == PubRelPacket(id) ==> Sent(s.sent, PubRelPacket(id))
    ensures forall id: u16 :: Tracked(h.packet, id) ==> Key(Publish, id) in s.pending
    ensures forall id: u16 :: h.packet == PubRecPacket(id) ==> Key(PubRec, id) in s.pending
    ensures !h.packet.PubAckPacket?
  {
    if h.packet != PingReqPacket {
      var k :| Live(s, k) && h == Handed(InFlight(s, k), k.ty == Publish);
      InFlightIs(s, k);
      var i :| 0 <= i < |s.sent| && s.sent[i] == Handed(InFlight(s, k), false);
      assert s.sent[i].packet == h.packet;
    }
  }

  /** A step that adds copies only. */
  lemma CopiesLocal(s: State, s': State)
    requires Kept(s) && SameButSent(s, s') && s.sent <= s'.sent
    requires forall i :: |s.sent| <= i < |s'.sent| ==> Copied(s, s'.sent[i])
    ensures SenderLocal(s, s')
    ensures ReceiverInv(s) ==> ReceiverLocal(s, s')
  {
    forall i | |s.sent| <= i < |s'.sent|
      ensures forall id: u16 :: s'.sent[i].packet == PubRelPacket(id) ==> Sent(s.sent, PubRelPacket(id))
      ensures forall id: u16 :: Tracked(s'.sent[i].packet, id) ==> Key(Publish, id) in s.pending
      ensures forall id: u16 :: s'.sent[i].packet == PubRecPacket(id) ==> Key(PubRec, id) in s.pending
      ensures !s'.sent[i].packet.PubAckPacket?
    {
      CopiedIs(s, s'.sent[i]);
    }
    if ReceiverInv(s) {
      forall id: u16 | Key(PubRec, id) in s.pending ensures DeliveredAt(s.log, id) {
        OpenWasDelivered(s, id);
      }
    }
  }

  lemma OpenWasDelivered(b: State, id: u16)
    requires ReceiverInv(b) && Key(PubRec, id) in b.pending
    ensures DeliveredAt(b.log, id)
  {
    OpenMeans(b.log, id);
    var i :| OpenFrom(b.log, id, i);
    assert IsDelivery(b.log[i], id);
  }

  /** And to the receiving half: copies of the PUBRECs in flight. */
  ghost predicate ReceiverLocal(s: State, s': State) {
    && s.sent <= s'.sent && s'.log == s.log && (s'.signal == s.signal || s.signal.None?)
    && (forall i, id: u16 :: |s.sent| <= i < |s'.sent| && s'.sent[i].packet == PubRecPacket(id) ==>
         DeliveredAt(s.log, id))
    && (forall i :: |s.sent| <= i < |s'.sent| ==> !s'.sent[i].packet.PubAckPacket?)
  }

  ghost predicate BothLocal(s: State, s': State) {
    SenderLocal(s, s') && ReceiverLocal(s, s')
  }

  lemma PassLocal(s: State, s': State, ping: bool, delay: int, clock: nat -> int, n: nat)
    requires Kept(s) && ReceiverInv(s) && n <= |s.timeouts|
    requires s' == AlarmPass(Pinged(s, ping), n, delay, clock, 0).(timeouts := s'.timeouts)
    ensures BothLocal(s, s')
  {
    PassRepeats(s, ping, delay, clock, n);
    PassExact(s, ping, delay, clock, n);
    CopiesLocal(s, s');
  }

  /** A command adds at most one packet, never one of the handshakes of a receiver. */
  lemma ObeyAdds(s: State, c: Command, now: int)
    ensures var s' := OnCommand(s, c, now);
            && s'.log == s.log && s'.signal == s.signal && s.sent <= s'.sent
            && (forall i :: |s.sent| <= i < |s'.sent| ==>
                  s'.sent[i].packet.SubscribePacket? || s'.sent[i].packet.UnsubscribePacket?
                      || s'.sent[i].packet.PublishPacket?)
            && (forall i, id :: |s.sent| <= i < |s'.sent| && Tracked(s'.sent[i].packet, id) ==> Commanded(c, id))
            && (forall id: u16 :: Key(Publish, id) in s'.pending ==> Key(Publish, id) in s.pending || Commanded(c, id))
  {
  }

  lemma ObeyLocal(s: State, s': State, c: Command, now: int)
    requires s' == OnCommand(s, c, now).(timeouts := s'.timeouts)
    ensures ReceiverLocal(s, s')
    ensures (forall id :: Commanded(c, id) ==> !SentId(s.sent, id)) ==> SenderLocal(s, s')
  {
    ObeyAdds(s, c, now);
  }

  lemma StoppedLocal(s: State, x: Sys)
    ensures ReceiverLocal(s, x.t) ==> ReceiverLocal(s, Stopped(x).t)
    ensures SenderLocal(s, x.t) ==> SenderLocal(s, Stopped(x).t)
  {
    var t := Stopped(x).t;
    assert forall i :: 0 <= i < |x.t.sent| ==> t.sent[i] == x.t.sent[i];
  }

  lemma ForeignLocal(s: State, p: Packet, now: int, net: Network)
    requires Foreign(p) && (p.SubAckPacket? ==> p.results.Valid())
    ensures BothLocal(s, OnPacket(s, p, now, net).0)
  {
  }

  lemma TaskIsLocal(x: Sys, e: Event)
    requires TaskInv(x) && Enabled(x, e) && IsLocal(e) && IsTaskStep(e)
    ensures ReceiverLocal(x.t, Step(x, e).t)
    ensures CommandIds(x) ==> SenderLocal(x.t, Step(x, e).t)
  {
    match e
    case Receive(p, now, net) =>
      ForeignLocal(x.t, p, now, net);
      StoppedLocal(x.t, x.(t := OnPacket(x.t, p, now, net).0, clock := now));
    case Obey(now) => ObeyLocal(x.t, OnCommand(x.t, x.cmds[0], now), x.cmds[0], now);
    case Tick(ping, delay, readings, end) =>
      if x.t.signal.Some? {
        PassLocal(x.t, OnAlarm(x.t, ping, delay, readings), ping, delay, readings, |x.t.timeouts|);
      }
    case CutObey(now) =>
      ObeyLocal(x.t, OnCommandCut(x.t, x.cmds[0], now), x.cmds[0], now);
      StoppedLocal(x.t, Obeyed(x, OnCommandCut(x.t, x.cmds[0], now), now).(broken := true));
    case CutTick(ping, delay, readings, end, n) =>
      PassLocal(x.t, OnAlarmCut(x.t, ping, delay, readings, n), ping, delay, readings, n);
      StoppedLocal(x.t, x.(t := OnAlarmCut(x.t, ping, delay, readings, n), clock := end, broken := true));
  }

  lemma LocalIsLocal(x: Sys, e: Event)
    requires TaskInv(x) && Enabled(x, e) && IsLocal(e)
    ensures ReceiverLocal(x.t, Step(x, e).t)
    ensures CommandIds(x) ==> SenderLocal(x.t, Step(x, e).t)
  {
    if IsTaskStep(e) {
      TaskIsLocal(x, e);
    } else if IsCallStep(e) {
      CallSteps(x, e);
    } else if IsSubStep(e) {
      SubSteps(x, e);
    } else if e.Exit? {
      StoppedLocal(x.t, x);
    }
  }

  /** A task that does not run hands over nothing. */
  lemma StoppedSendsNothing(x: Sys, e: Event)
    requires Enabled(x, e) && !x.phase.Running?
    ensures !Step(x, e).phase.Running? && Step(x, e).t.sent == x.t.sent
  {
    if IsCallStep(e) {
      CallSteps(x, e);
    } else if IsSubStep(e) {
      SubSteps(x, e);
    }
  }

  lemma LocalAFlow(j: Joint, f: Event)
    requires FlowInv(j) && TaskInv(j.a) && CommandIds(j.a) && JointEnabled(j, LocalA(f))
    ensures FlowInv(JointStep(j, LocalA(f)))
  {
    LocalIsLocal(j.a, f);
    if !j.a.phase.Running? {
      StoppedSendsNothing(j.a, f);
    }
    SenderLocalFlow(j.a.t, Step(j.a, f).t, j.a.phase.Running?, Step(j.a, f).phase.Running?, j.b.t, j.atB, j.cut);
    MoreSentFlow(j.a.t, Step(j.a, f).t, j.b.t, j.atB, j.cut);
  }

  // ----- Steps of B on its own -----

  lemma ReceiverLocalFlow(a: State, running: bool, b: State, b': State, atB: nat, cut: Option<nat>)
    requires SenderFlow(a, running, b, cut) && AnswerFlow(a, b, atB, cut) && ArrivalFlow(a, b, atB, cut)
    requires ReceiverLocal(b, b')
    ensures SenderFlow(a, running, b', cut) && AnswerFlow(a, b', atB, cut) && ArrivalFlow(a, b', atB, cut)
  {
    forall id: u16 | Sent(b'.sent, PubRecPacket(id)) ensures Came2(a, b', cut, id) {
      var i :| 0 <= i < |b'.sent| && b'.sent[i].packet == PubRecPacket(id);
      if i < |b.sent| {
        assert b.sent[i].packet == PubRecPacket(id);
        assert Sent(b.sent, PubRecPacket(id));
      }
    }
    forall id: u16 | Sent(b'.sent, PubAckPacket(id)) ensures Came1(a, b', cut, id) {
      var i :| 0 <= i < |b'.sent| && b'.sent[i].packet == PubAckPacket(id);
      assert b.sent[i].packet == PubAckPacket(id);
      assert Sent(b.sent, PubAckPacket(id));
    }
  }

  lemma LocalBFlow(j: Joint, f: Event)
    requires FlowInv(j) && TaskInv(j.b) && JointEnabled(j, LocalB(f))
    ensures FlowInv(JointStep(j, LocalB(f)))
  {
    LocalIsLocal(j.b, f);
    if !j.b.phase.Running? {
      StoppedSendsNothing(j.b, f);
    }
    ReceiverLocalFlow(j.a.t, j.a.phase.Running?, j.b.t, Step(j.b, f).t, j.atB, j.cut);
  }

  lemma SameSignal(s: State, p: Packet, now: int, net: Network)
    requires p.SubAckPacket? ==> p.results.Valid()
    ensures s.signal.Some? ==> OnPacket(s, p, now, net).0.signal == s.signal
  {
  }

  lemma ReceivedSignal(x: Sys, p: Packet, now: int, net: Network)
    requires GoodSignal(x) && (p.SubAckPacket? ==> p.results.Valid())
    ensures GoodSignal(Received(x, p, now, net))
  {
    if x.t.signal.Some? {
      SameSignal(x.t, p, now, net);
    }
  }

  lemma OwnSignal(x: Sys, e: Event)
    requires GoodSignal(x) && Enabled(x, e) && (e.Obey? || e.Tick?)
    ensures GoodSignal(Step(x, e))
  {
    if e.Tick? {
      OnAlarmKeeps(x.t, e.ping, e.delay, e.readings);
    }
  }

  lemma SignalStep(x: Sys, e: Event)
    requires GoodSignal(x) && Enabled(x, e)
    ensures GoodSignal(Step(x, e))
  {
    if e.Receive? {
      ReceivedSignal(x, e.packet, e.now, e.net);
    } else if e.Obey? || e.Tick? {
      OwnSignal(x, e);
    } else if IsCallStep(e) {
      CallSteps(x, e);
    } else if IsSubStep(e) {
      SubSteps(x, e);
    } else {
      StopsOrCleans(x, e);
    }
  }

  lemma StopsOrCleans(x: Sys, e: Event)
    requires Enabled(x, e) && !e.Receive? && !e.Obey? && !e.Tick? && !IsCallStep(e) && !IsSubStep(e)
    ensures !Step(x, e).phase.Running?
  {
  }

  // ----- A packet arrives at B -----

  /** What B may do with the next packet of the channel. */
  ghost predicate Takes(a: State, h: Handed, b: State, b': State, cut: Option<nat>, news: seq<Log>) {
    && b'.log == b.log + news && |news| <= 1 && b.sent <= b'.sent
    && (forall i, id: u16 :: |b.sent| <= i < |b'.sent| && b'.sent[i].packet == PubRecPacket(id) ==>
         Came2(a, b', cut, id))
    && (forall i, id: u16 :: |b.sent| <= i < |b'.sent| && b'.sent[i].packet == PubAckPacket(id) ==>
         Came1(a, b', cut, id))
    && (forall x <- news :: x.Released? ==> h.packet == PubRelPacket(x.id))
    && (forall x <- news :: x.Delivered? ==> h.packet.PublishPacket? && Arriving(h) == PublishPacket(x.msg))
    && (forall x <- news, id: u16 :: IsDelivery(x, id) ==> !DeliveredAt(b.log, id))
  }

  /** `cut'` is the mark after the step: none before a step of a running B. */
  lemma TakesKeepsSender(a: State, running: bool, b: State, b': State, cut': Option<nat>)
    requires SenderFlow(a, running, b, None) && b.log <= b'.log
    ensures SenderFlow(a, running, b', cut')
  {
    forall id: u16
      ensures Came2(a, b, None, id) ==> Came2(a, b', cut', id)
      ensures Came1(a, b, None, id) ==> Came1(a, b', cut', id)
    {
      DeliveredGrows(b.log, b'.log, id);
    }
  }

  lemma TakesKeepsAnswers(a: State, b: State, b': State, atB: nat, cut': Option<nat>, news: seq<Log>)
    requires AnswerFlow(a, b, atB, None) && atB < |a.sent| && Takes(a, a.sent[atB], b, b', cut', news)
    ensures AnswerFlow(a, b', atB + 1, cut')
  {
    var h := a.sent[atB];
    var (seen, seen') := (a.sent[..atB], a.sent[..atB + 1]);
    assert seen' == seen + [h] && seen'[atB] == h;
    forall id: u16 | Sent(b'.sent, PubRecPacket(id)) ensures Came2(a, b', cut', id) {
      var i :| 0 <= i < |b'.sent| && b'.sent[i].packet == PubRecPacket(id);
      if i < |b.sent| {
        assert b.sent[i].packet == PubRecPacket(id);
        assert Sent(b.sent, PubRecPacket(id));
        DeliveredGrows(b.log, b'.log, id);
      }
    }
    forall id: u16 | Sent(b'.sent, PubAckPacket(id)) ensures Came1(a, b', cut', id) {
      var i :| 0 <= i < |b'.sent| && b'.sent[i].packet == PubAckPacket(id);
      if i < |b.sent| {
        assert b.sent[i].packet == PubAckPacket(id);
        assert Sent(b.sent, PubAckPacket(id));
        DeliveredGrows(b.log, b'.log, id);
      }
    }
    TakesKeepsLog(a, b, b', atB, cut', news);
  }

  lemma TakesKeepsLog(a: State, b: State, b': State, atB: nat, cut': Option<nat>, news: seq<Log>)
    requires AnswerFlow(a, b, atB, None) && atB < |a.sent| && Takes(a, a.sent[atB], b, b', cut', news)
    ensures forall id: u16 :: Released(id) in b'.log ==> Sent(a.sent[..atB + 1], PubRelPacket(id))
    ensures forall i :: 0 <= i < |b'.log| && b'.log[i].Delivered? ==> Genuine(a.sent[..atB + 1], b'.log[i].msg)
    ensures forall i, j, id :: 0 <= i < j < |b'.log| && IsDelivery(b'.log[i], id) ==> !IsDelivery(b'.log[j], id)
  {
    var h := a.sent[atB];
    var (seen, seen') := (a.sent[..atB], a.sent[..atB + 1]);
    assert seen' == seen + [h] && seen'[atB] == h;
    forall id: u16 | Released(id) in b'.log ensures Sent(seen', PubRelPacket(id)) {
      if Released(id) in b.log {
        SentGrows(seen, seen', PubRelPacket(id));
      } else {
        assert Released(id) in news;
      }
    }
    forall i | 0 <= i < |b'.log| && b'.log[i].Delivered? ensures Genuine(seen', b'.log[i].msg) {
      if i < |b.log| {
        assert b'.log[i] == b.log[i];
        GenuineGrows(seen, seen', b.log[i].msg);
      } else {
        assert b'.log[i] in news;
        assert Genuine(seen', b'.log[i].msg);
      }
    }
    forall i, k, id | 0 <= i < k < |b'.log| && IsDelivery(b'.log[i], id) ensures !IsDelivery(b'.log[k], id) {
      assert b'.log[i] == b.log[i];
      assert DeliveredAt(b.log, id);
      if k < |b.log| {
        assert b'.log[k] == b.log[k];
      } else {
        assert b'.log[k] in news;
      }
    }
  }

  /** Arrival of one more packet on a good connection: it is dispatched or was. */
  lemma ArrivalGrows(a: State, b: State, b': State, atB: nat)
    requires ArrivalFlow(a, b, atB, None) && atB < |a.sent| && b.log <= b'.log
    requires Handles(a.sent[atB].packet) ==> b'.signal.Some?
    requires b'.signal == b.signal || (b'.signal.Some? && b'.signal.value.Err?)
    requires b'.signal.Some? && b'.signal.value.Ok? ==>
               forall id :: Tracked(a.sent[atB].packet, id) ==> Reached(b'.log, a.sent[atB].packet)
    ensures ArrivalFlow(a, b', atB + 1, None)
  {
    if b'.signal.Some? && b'.signal.value.Ok? {
      forall i, id | 0 <= i < atB + 1 && Tracked(a.sent[i].packet, id) ensures Reached(b'.log, a.sent[i].packet) {
        DeliveredGrows(b.log, b'.log, id);
      }
    }
  }

  lemma ClosedWasReleased(b: State, id: u16)
    requires ReceiverInv(b) && DeliveredAt(b.log, id) && Key(PubRec, id) !in b.pending
    ensures Released(id) in b.log
  {
    OpenMeans(b.log, id);
    var i :| 0 <= i < |b.log| && IsDelivery(b.log[i], id);
    assert !OpenFrom(b.log, id, i);
  }

  lemma ReleasedMeansNoPublish(a: State, b: State, atB: nat, cut: Option<nat>, id: u16)
    requires NoPublishAfterRelease(a.sent) && AnswerFlow(a, b, atB, cut) && atB < |a.sent| && Released(id) in b.log
    ensures !Tracked(a.sent[atB].packet, id)
  {
    var n :| 0 <= n < atB && a.sent[..atB][n].packet == PubRelPacket(id);
    assert a.sent[n].packet == PubRelPacket(id);
  }

  /** The heart of exactly-once: an identifier that is not open when its publish arrives has
  never been delivered, for its PUBREL would have come first. */
  lemma NotOpenNotDelivered(a: State, b: State, atB: nat, cut: Option<nat>, id: u16)
    requires NoPublishAfterRelease(a.sent) && AnswerFlow(a, b, atB, cut) && ReceiverInv(b)
    requires atB < |a.sent| && Tracked(a.sent[atB].packet, id) && Key(PubRec, id) !in b.pending
    ensures !DeliveredAt(b.log, id)
  {
    if DeliveredAt(b.log, id) {
      ClosedWasReleased(b, id);
      ReleasedMeansNoPublish(a, b, atB, cut, id);
    }
  }

  /** A new log entry at the end. */
  lemma LoggedLast(log: seq<Log>, x: Log, id: u16)
    ensures IsDelivery(x, id) ==> DeliveredAt(log + [x], id)
    ensures IsAcceptance(x, id) ==> AcceptedAt(log + [x], id)
  {
    assert (log + [x])[|log|] == x;
  }

  lemma DeliveryTaken(a: State, h: Handed, b: State, b': State, m: Message, takers: seq<Recipient>)
    requires h.packet.PublishPacket? && Arriving(h) == PublishPacket(m)
    requires b'.log == b.log + [Delivered(m, takers)] && b.sent <= b'.sent
    requires m.qos.AtMostOnce? ==> b'.sent == b.sent
    requires m.qos.AtLeastOnce? ==> b'.sent == b.sent + [Handed(PubAckPacket(m.id), false)]
    requires m.qos.ExactlyOnce? ==> b'.sent == b.sent + [Handed(PubRecPacket(m.id), false)] && !DeliveredAt(b.log, m.id)
    ensures Takes(a, h, b, b', None, [Delivered(m, takers)])
    ensures forall id :: Tracked(h.packet, id) ==> Reached(b'.log, h.packet)
  {
    LoggedLast(b.log, Delivered(m, takers), m.id);
  }

  lemma PublishTaken(a: State, b: State, atB: nat, now: int, net: Network) returns (news: seq<Log>)
    requires NoPublishAfterRelease(a.sent) && AnswerFlow(a, b, atB, None) && ReceiverInv(b) && Shapes(b)
    requires atB < |a.sent| && a.sent[atB].packet.PublishPacket?
    ensures Takes(a, a.sent[atB], b, OnPublish(b, Arriving(a.sent[atB]).msg, now, net), None, news)
    ensures forall id :: Tracked(a.sent[atB].packet, id) ==>
              Reached(OnPublish(b, Arriving(a.sent[atB]).msg, now, net).log, a.sent[atB].packet)
  {
    var h := a.sent[atB];
    var m := Arriving(h).msg;
    var b' := OnPublish(b, m, now, net);
    if IsRepeat(b, m) {
      news := [];
      OpenWasDelivered(b, m.id);
      assert b'.log == b.log + [];
    } else {
      var takers := DispatchNode(b.tree, Levels(m.topic), net).1;
      news := [Delivered(m, takers)];
      if m.qos.ExactlyOnce? {
        NotOpenNotDelivered(a, b, atB, None, m.id);
      }
      DeliveryTaken(a, h, b, b', m, takers);
    }
  }

  lemma AckTaken(a: State, h: Handed, b: State, b1: State, key: Key, stage: Stage,
                 cut: Option<nat>) returns (news: seq<Log>)
    requires b1.log == b.log && b.sent <= b1.sent
    requires forall i :: |b.sent| <= i < |b1.sent| ==>
               !b1.sent[i].packet.PubRecPacket? && !b1.sent[i].packet.PubAckPacket?
    ensures Takes(a, h, b, Acknowledge(b1, key, stage), cut, news)
    ensures Takes(a, h, b, b1, cut, [])
  {
    news := if key in b1.pending then [Acked(stage, key.id)] else [];
    assert b1.log == b.log + [];
  }

  lemma ReleasingSends(s: State, id: u16, now: int)
    requires Shapes(s)
    ensures Releasing(s, id, now).log == s.log
    ensures Releasing(s, id, now).sent == s.sent + [Handed(PubRelPacket(id), false)]
  {
  }

  lemma RelTaken(a: State, h: Handed, b: State, id: u16, cut: Option<nat>)
    requires h.packet == PubRelPacket(id)
    ensures Takes(a, h, b, OnPubRel(b, id), cut, [Released(id)])
  {
  }

  lemma PacketTaken(a: State, b: State, atB: nat, now: int, net: Network) returns (news: seq<Log>)
    requires NoPublishAfterRelease(a.sent) && AnswerFlow(a, b, atB, None) && ReceiverInv(b) && Shapes(b)
               && b.signal.Some?
    requires atB < |a.sent| && Handles(a.sent[atB].packet)
    ensures Takes(a, a.sent[atB], b, OnPacket(b, Arriving(a.sent[atB]), now, net).0, None, news)
    ensures forall id :: Tracked(a.sent[atB].packet, id) ==>
              Reached(OnPacket(b, Arriving(a.sent[atB]), now, net).0.log, a.sent[atB].packet)
  {
    var h := a.sent[atB];
    match Arriving(h)
    case PublishPacket(m) => news := PublishTaken(a, b, atB, now, net);
    case PubAckPacket(id) => news := AckTaken(a, h, b, b, Key(Publish, id), AckStage, None);
    case PubRecPacket(id) =>
      ReleasingSends(b, id, now);
      news := AckTaken(a, h, b, Releasing(b, id, now), Key(Publish, id), RecStage, None);
    case PubRelPacket(id) =>
      RelTaken(a, h, b, id, None);
      news := [Released(id)];
    case PubCompPacket(id) => news := AckTaken(a, h, b, b, Key(PubRel, id), CompStage, None);
  }

  /** The state of B after an arrival, before a possible DISCONNECT. */
  lemma ArrivalKeeps(a: State, running: bool, b: State, atB: nat, now: int, net: Network)
    requires SenderFlow(a, running, b, None) && AnswerFlow(a, b, atB, None) && ArrivalFlow(a, b, atB, None)
    requires ReceiverInv(b) && Shapes(b) && atB < |a.sent|
    ensures var b' := if Handles(a.sent[atB].packet) then OnPacket(b, Arriving(a.sent[atB]), now, net).0 else b;
            SenderFlow(a, running, b', None) && AnswerFlow(a, b', atB + 1, None) && ArrivalFlow(a, b', atB + 1, None)
  {
    var h := a.sent[atB];
    if Handles(h.packet) && b.signal.Some? {
      var b' := OnPacket(b, Arriving(h), now, net).0;
      var news := PacketTaken(a, b, atB, now, net);
      SameSignal(b, Arriving(h), now, net);
      TakesKeepsSender(a, running, b, b', None);
      TakesKeepsAnswers(a, b, b', atB, None, news);
      ArrivalGrows(a, b, b', atB);
    } else {
      var b' := if Handles(h.packet) then OnPacket(b, Arriving(h), now, net).0 else b;
      assert b'.log == b.log + [];
      assert Takes(a, h, b, b', None, []);
      TakesKeepsSender(a, running, b, b', None);
      TakesKeepsAnswers(a, b, b', atB, None, []);
      ArrivalGrows(a, b, b', atB);
    }
  }

  /** DISCONNECT at the end changes nothing for the flow. */
  lemma StoppedBFlow(a: State, running: bool, x: Sys, atB: nat, cut: Option<nat>)
    requires SenderFlow(a, running, x.t, cut) && AnswerFlow(a, x.t, atB, cut) && ArrivalFlow(a, x.t, atB, cut)
    ensures var b' := Stopped(x).t;
            SenderFlow(a, running, b', cut) && AnswerFlow(a, b', atB, cut) && ArrivalFlow(a, b', atB, cut)
  {
    assert ReceiverLocal(x.t, x.t);
    StoppedLocal(x.t, x);
    ReceiverLocalFlow(a, running, x.t, Stopped(x).t, atB, cut);
  }

  lemma ArriveAtBFlow(a: State, running: bool, x: Sys, atB: nat, now: int, net: Network)
    requires SenderFlow(a, running, x.t, None) && AnswerFlow(a, x.t, atB, None) && ArrivalFlow(a, x.t, atB, None)
    requires ReceiverInv(x.t) && Shapes(x.t) && atB < |a.sent| && Handles(a.sent[atB].packet)
    ensures var b' := Received(x, Arriving(a.sent[atB]), now, net).t;
            SenderFlow(a, running, b', None) && AnswerFlow(a, b', atB + 1, None) && ArrivalFlow(a, b', atB + 1, None)
  {
    ArrivalKeeps(a, running, x.t, atB, now, net);
    StoppedBFlow(a, running, x.(t := OnPacket(x.t, Arriving(a.sent[atB]), now, net).0, clock := now), atB + 1, None);
  }

  lemma ArriveAtBStep(j: Joint, now: int, net: Network)
    requires FlowInv(j) && TaskInv(j.b) && JointEnabled(j, ArriveAtB(now, net))
    requires Handles(j.a.t.sent[j.atB].packet)
    ensures FlowInv(JointStep(j, ArriveAtB(now, net)))
  {
    ArriveAtBFlow(j.a.t, j.a.phase.Running?, j.b, j.atB, now, net);
  }

  /** A packet that no client handles goes by. */
  lemma PassesBy(j: Joint)
    requires FlowInv(j) && j.atB < |j.a.t.sent| && !Handles(j.a.t.sent[j.atB].packet)
    ensures FlowInv(j.(atB := j.atB + 1))
  {
    var (a, b, h) := (j.a.t, j.b.t, j.a.t.sent[j.atB]);
    assert a.sent[..j.atB + 1] == a.sent[..j.atB] + [h];
    forall id: u16 | Sent(a.sent[..j.atB], PubRelPacket(id)) ensures Sent(a.sent[..j.atB + 1], PubRelPacket(id)) {
      SentGrows(a.sent[..j.atB], a.sent[..j.atB + 1], PubRelPacket(id));
    }
    forall i | 0 <= i < |b.log| && b.log[i].Delivered? ensures Genuine(a.sent[..j.atB + 1], b.log[i].msg) {
      GenuineGrows(a.sent[..j.atB], a.sent[..j.atB + 1], b.log[i].msg);
    }
  }

  // ----- A step of B is cut short -----

  /** The first transmission of a message has not been dispatched before it arrives. */
  lemma FirstCopyIsNew(a: State, b: State, atB: nat, cut: Option<nat>, id: u16)
    requires AnswerFlow(a, b, atB, cut) && SentOnce(a.sent) && atB < |a.sent|
    requires Tracked(a.sent[atB].packet, id) && !a.sent[atB].setDup
    ensures !DeliveredAt(b.log, id) && !AcceptedAt(b.log, id)
  {
    if DeliveredAt(b.log, id) || AcceptedAt(b.log, id) {
      var n := DispatchWasSent(a, b, atB, cut, id);
      assert false;
    }
  }

  /** A repeated transmission was dispatched when its first copy arrived. */
  lemma LaterCopyIsKnown(a: State, b: State, atB: nat, id: u16)
    requires ArrivalFlow(a, b, atB, None) && DupDiscipline(a.sent) && b.signal.Some? && b.signal.value.Ok?
    requires atB < |a.sent| && Tracked(a.sent[atB].packet, id) && a.sent[atB].setDup
    ensures Reached(b.log, a.sent[atB].packet)
  {
    var n :| 0 <= n < |a.sent[..atB]| && a.sent[..atB][n] == Handed(a.sent[atB].packet, false);
    assert a.sent[n].packet == a.sent[atB].packet && Tracked(a.sent[n].packet, id);
  }

  /** The answer that is handed over belongs to a message that came. */
  lemma AnswerCame(a: State, b: State, atB: nat, now: int)
    requires AnswerFlow(a, b, atB, None) && ArrivalFlow(a, b, atB, None) && SentOnce(a.sent) && DupDiscipline(a.sent)
    requires Shapes(b) && b.signal.Some? && b.signal.value.Ok?
    requires atB < |a.sent| && a.sent[atB].packet.PublishPacket? && !a.sent[atB].packet.msg.qos.AtMostOnce?
    ensures Takes(a, a.sent[atB], b, Answered(b, Arriving(a.sent[atB]).msg, now), Some(atB), [])
  {
    var (h, m) := (a.sent[atB], Arriving(a.sent[atB]).msg);
    var b' := Answered(b, m, now);
    assert Tracked(h.packet, m.id);
    if h.setDup {
      LaterCopyIsKnown(a, b, atB, m.id);
    }
    assert b'.log == b.log + [];
    assert b'.sent == b.sent + [Handed(if m.qos.AtLeastOnce? then PubAckPacket(m.id) else PubRecPacket(m.id), false)];
  }

  lemma CutTaken(a: State, b: State, atB: nat, now: int) returns (news: seq<Log>)
    requires AnswerFlow(a, b, atB, None) && ArrivalFlow(a, b, atB, None) && SentOnce(a.sent) && DupDiscipline(a.sent)
    requires Shapes(b) && b.signal.Some? && b.signal.value.Ok?
    requires atB < |a.sent| && Handles(a.sent[atB].packet) && CallsForAnswer(b, Arriving(a.sent[atB]))
    ensures Takes(a, a.sent[atB], b, OnPacketCut(b, Arriving(a.sent[atB]), now), Some(atB), news)
    ensures forall x <- news :: !x.Delivered?
  {
    var h := a.sent[atB];
    news := [];
    match Arriving(h)
    case PublishPacket(m) => AnswerCame(a, b, atB, now);
    case PubRecPacket(id) =>
      ReleasingSends(b, id, now);
      var _ := AckTaken(a, h, b, Releasing(b, id, now), Key(Publish, id), RecStage, Some(atB));
    case PubRelPacket(id) =>
      RelTaken(a, h, b, id, Some(atB));
      news := [Released(id)];
  }

  lemma CutArrival(a: State, b: State, b': State, atB: nat, news: seq<Log>)
    requires AnswerFlow(a, b, atB, None) && ArrivalFlow(a, b, atB, None) && SentOnce(a.sent) && atB < |a.sent|
    requires b'.log == b.log + news && b'.signal == b.signal && b.signal.Some?
    requires forall x <- news :: !x.Delivered?
    ensures ArrivalFlow(a, b', atB + 1, Some(atB))
  {
    forall i, id | 0 <= i < atB && Tracked(a.sent[i].packet, id) && b.signal.value.Ok?
      ensures Reached(b'.log, a.sent[i].packet)
    {
      DeliveredGrows(b.log, b'.log, id);
    }
    forall id | Lost(a.sent, Some(atB), id) ensures !DeliveredAt(b'.log, id) && !AcceptedAt(b'.log, id) {
      FirstCopyIsNew(a, b, atB, None, id);
      NothingNew(b.log, news, id);
    }
  }

  lemma NothingNew(log: seq<Log>, news: seq<Log>, id: u16)
    requires forall x <- news :: !x.Delivered?
    ensures DeliveredAt(log + news, id) ==> DeliveredAt(log, id)
    ensures AcceptedAt(log + news, id) ==> AcceptedAt(log, id)
  {
    var more := log + news;
    forall i | |log| <= i < |more| ensures !more[i].Delivered? {
      assert more[i] in news;
    }
    if DeliveredAt(more, id) {
      var i :| 0 <= i < |more| && IsDelivery(more[i], id);
      assert IsDelivery(log[i], id);
    }
    if AcceptedAt(more, id) {
      var i :| 0 <= i < |more| && IsAcceptance(more[i], id);
      assert IsAcceptance(log[i], id);
    }
  }

  lemma CutAtBFlow(a: State, running: bool, x: Sys, atB: nat, now: int)
    requires SenderFlow(a, running, x.t, None) && AnswerFlow(a, x.t, atB, None) && ArrivalFlow(a, x.t, atB, None)
    requires SentOnce(a.sent) && DupDiscipline(a.sent) && Shapes(x.t) && x.t.signal.Some? && x.t.signal.value.Ok?
    requires atB < |a.sent| && Handles(a.sent[atB].packet) && CallsForAnswer(x.t, Arriving(a.sent[atB]))
    ensures var b' := Stopped(x.(t := OnPacketCut(x.t, Arriving(a.sent[atB]), now), clock := now, broken := true)).t;
            && SenderFlow(a, running, b', Some(atB)) && AnswerFlow(a, b', atB + 1, Some(atB))
            && ArrivalFlow(a, b', atB + 1, Some(atB))
  {
    CutKeeps(a, running, x.t, atB, now);
    var b' := OnPacketCut(x.t, Arriving(a.sent[atB]), now);
    StoppedBFlow(a, running, x.(t := b', clock := now, broken := true), atB + 1, Some(atB));
  }

  lemma CutKeeps(a: State, running: bool, b: State, atB: nat, now: int)
    requires SenderFlow(a, running, b, None) && AnswerFlow(a, b, atB, None) && ArrivalFlow(a, b, atB, None)
    requires SentOnce(a.sent) && DupDiscipline(a.sent) && Shapes(b) && b.signal.Some? && b.signal.value.Ok?
    requires atB < |a.sent| && Handles(a.sent[atB].packet) && CallsForAnswer(b, Arriving(a.sent[atB]))
    ensures var b' := OnPacketCut(b, Arriving(a.sent[atB]), now);
            && SenderFlow(a, running, b', Some(atB)) && AnswerFlow(a, b', atB + 1, Some(atB))
            && ArrivalFlow(a, b', atB + 1, Some(atB))
  {
    var b' := OnPacketCut(b, Arriving(a.sent[atB]), now);
    var news := CutTaken(a, b, atB, now);
    TakesKeepsSender(a, running, b, b', Some(atB));
    TakesKeepsAnswers(a, b, b', atB, Some(atB), news);
    CutArrival(a, b, b', atB, news);
  }

  lemma CutAtBStep(j: Joint, now: int)
    requires FlowInv(j) && TaskInv(j.a) && TaskInv(j.b) && HistoryInv(j.a) && GoodSignal(j.b)
    requires JointEnabled(j, CutAtB(now))
    ensures FlowInv(JointStep(j, CutAtB(now)))
  {
    CutAtBFlow(j.a.t, j.a.phase.Running?, j.b, j.atB, now);
  }

  // ----- A packet arrives at A -----

  /** What A may do with the next packet of the other channel. */
  ghost predicate Answers(a: State, a': State, running': bool, b: State, cut: Option<nat>, news: seq<Log>) {
    && a.sent <= a'.sent && a'.log == a.log + news
    && (forall i, id :: |a.sent| <= i < |a'.sent| ==> !Tracked(a'.sent[i].packet, id))
    && (forall i, id: u16 :: |a.sent| <= i < |a'.sent| && a'.sent[i].packet == PubRelPacket(id) ==>
          Came2(a, b, cut, id) && (running' ==> Key(Publish, id) !in a'.pending))
    && (forall id: u16 :: Key(Publish, id) in a'.pending ==> Key(Publish, id) in a.pending)
    && (forall id: u16 :: Acked(RecStage, id) in news || Acked(CompStage, id) in news ==> Came2(a, b, cut, id))
    && (forall id: u16 :: Acked(AckStage, id) in news ==> Came1(a, b, cut, id))
  }

  lemma AnswersKeepFlow(a: State, a': State, running': bool, b: State, cut: Option<nat>, news: seq<Log>)
    requires SenderFlow(a, true, b, cut) && Answers(a, a', running', b, cut, news)
    ensures SenderFlow(a', running', b, cut)
  {
    forall id: u16
      ensures Came2(a, b, cut, id) ==> Came2(a', b, cut, id)
      ensures Came1(a, b, cut, id) ==> Came1(a', b, cut, id)
    {
      CameGrows(a, a', b, b, cut, id);
    }
    forall id: u16 | Sent(a'.sent, PubRelPacket(id))
      ensures (running' ==> Key(Publish, id) !in a'.pending) && Came2(a', b, cut, id)
    {
      var i :| 0 <= i < |a'.sent| && a'.sent[i].packet == PubRelPacket(id);
      if i < |a.sent| {
        assert a.sent[i].packet == PubRelPacket(id);
        assert Sent(a.sent, PubRelPacket(id));
      }
    }
    forall i, k, id | 0 <= i < k < |a'.sent| && a'.sent[i].packet == PubRelPacket(id)
      ensures !Tracked(a'.sent[k].packet, id)
    {
      if k < |a.sent| {
        assert a'.sent[i] == a.sent[i] && a'.sent[k] == a.sent[k];
      }
    }
  }

  lemma PubRecAnswered(a: State, b: State, cut: Option<nat>, id: u16, now: int) returns (news: seq<Log>)
    requires Shapes(a) && Came2(a, b, cut, id)
    ensures Answers(a, OnPubRec(a, id, now), true, b, cut, news)
    ensures Answers(a, Releasing(a, id, now), false, b, cut, [])
  {
    ReleasingSends(a, id, now);
    var s1 := Releasing(a, id, now);
    assert s1.log == a.log + [];
    news := if Key(Publish, id) in s1.pending then [Acked(RecStage, id)] else [];
  }

  lemma AckAnswered(a: State, b: State, cut: Option<nat>, key: Key, stage: Stage) returns (news: seq<Log>)
    requires key in a.pending ==> if stage.AckStage? then Came1(a, b, cut, key.id) else Came2(a, b, cut, key.id)
    ensures Answers(a, Acknowledge(a, key, stage), true, b, cut, news)
  {
    news := if key in a.pending then [Acked(stage, key.id)] else [];
    assert a.log == a.log + [];
  }

  lemma AnswerAnswered(a: State, b: State, cut: Option<nat>, m: Message, now: int)
    requires Shapes(a)
    ensures Answers(a, Answered(a, m, now), false, b, cut, []) && Answers(a, Answered(a, m, now), true, b, cut, [])
  {
    assert Answered(a, m, now).log == a.log + [];
  }

  lemma PublishAnswered(a: State, b: State, cut: Option<nat>, m: Message, now: int,
                        net: Network) returns (news: seq<Log>)
    requires Shapes(a)
    ensures Answers(a, OnPublish(a, m, now, net), true, b, cut, news)
  {
    AnswerAnswered(a, b, cut, m, now);
    news := if IsRepeat(a, m) then [] else [Delivered(m, DispatchNode(a.tree, Levels(m.topic), net).1)];
  }

  lemma RelAnswered(a: State, b: State, cut: Option<nat>, id: u16)
    ensures Answers(a, OnPubRel(a, id), true, b, cut, [Released(id)])
    ensures Answers(a, OnPubRel(a, id), false, b, cut, [Released(id)])
  {
  }

  /** A PUBREL in flight has been sent. */
  lemma ReleaseInFlight(s: State, id: u16)
    requires Kept(s) && Key(PubRel, id) in s.pending
    ensures Sent(s.sent, PubRelPacket(id))
  {
    var k := Key(PubRel, id);
    assert Live(s, k);
    var i :| 0 <= i < |s.sent| && s.sent[i] == Handed(InFlight(s, k), false);
  }

  lemma PacketAnswered(a: State, b: State, atB: nat, atA: nat, cut: Option<nat>, now: int,
                       net: Network) returns (news: seq<Log>)
    requires SenderFlow(a, true, b, cut) && AnswerFlow(a, b, atB, cut) && Kept(a) && a.signal.Some?
    requires atA < |b.sent| && Handles(b.sent[atA].packet)
    ensures Answers(a, OnPacket(a, Arriving(b.sent[atA]), now, net).0, true, b, cut, news)
  {
    match Arriving(b.sent[atA])
    case PublishPacket(m) => news := PublishAnswered(a, b, cut, m, now, net);
    case PubAckPacket(id) =>
      assert Sent(b.sent, PubAckPacket(id));
      news := AckAnswered(a, b, cut, Key(Publish, id), AckStage);
    case PubRecPacket(id) =>
      assert Sent(b.sent, PubRecPacket(id));
      news := PubRecAnswered(a, b, cut, id, now);
    case PubRelPacket(id) =>
      RelAnswered(a, b, cut, id);
      news := [Released(id)];
    case PubCompPacket(id) =>
      if Key(PubRel, id) in a.pending {
        ReleaseInFlight(a, id);
      }
      news := AckAnswered(a, b, cut, Key(PubRel, id), CompStage);
  }

  lemma CutAnswered(a: State, b: State, atB: nat, atA: nat, cut: Option<nat>, now: int) returns (news: seq<Log>)
    requires AnswerFlow(a, b, atB, cut) && Shapes(a)
    requires atA < |b.sent| && CallsForAnswer(a, Arriving(b.sent[atA]))
    ensures Answers(a, OnPacketCut(a, Arriving(b.sent[atA]), now), false, b, cut, news)
  {
    news := [];
    match Arriving(b.sent[atA])
    case PublishPacket(m) => AnswerAnswered(a, b, cut, m, now);
    case PubRecPacket(id) =>
      assert Sent(b.sent, PubRecPacket(id));
      var _ := PubRecAnswered(a, b, cut, id, now);
    case PubRelPacket(id) =>
      RelAnswered(a, b, cut, id);
      news := [Released(id)];
  }

  /** DISCONNECT at the end, by a task that has stopped. */
  lemma DisconnectFlow(a: State, a': State, b: State, cut: Option<nat>)
    requires SenderFlow(a, false, b, cut) && a'.log == a.log && a'.pending == a.pending
    requires a'.sent == a.sent || a'.sent == a.sent + [Handed(DisconnectPacket, false)]
    ensures SenderFlow(a', false, b, cut)
  {
    forall i | 0 <= i < |a'.sent| && a'.sent[i].packet != DisconnectPacket
      ensures i < |a.sent| && a'.sent[i] == a.sent[i]
    {
    }
    forall id: u16
      ensures Came2(a, b, cut, id) ==> Came2(a', b, cut, id)
      ensures Came1(a, b, cut, id) ==> Came1(a', b, cut, id)
    {
      CameGrows(a, a', b, b, cut, id);
    }
    forall id: u16 | Sent(a'.sent, PubRelPacket(id)) ensures Sent(a.sent, PubRelPacket(id)) {
      var i :| 0 <= i < |a'.sent| && a'.sent[i].packet == PubRelPacket(id);
      assert a.sent[i].packet == PubRelPacket(id);
    }
  }

  /** A's half after an arrival: `x` took the packet, and may stop then. */
  ghost predicate AFlow(x: Sys, b: State, atB: nat, cut: Option<nat>) {
    SenderFlow(x.t, x.phase.Running?, b, cut) && AnswerFlow(x.t, b, atB, cut) && ArrivalFlow(x.t, b, atB, cut)
  }

  lemma StoppedAFlow(x: Sys, b: State, atB: nat, cut: Option<nat>)
    requires SenderFlow(x.t, false, b, cut) && AnswerFlow(x.t, b, atB, cut) && ArrivalFlow(x.t, b, atB, cut)
    requires cut.Some? ==> cut.value < atB
    ensures AFlow(Stopped(x), b, atB, cut)
  {
    DisconnectFlow(x.t, Stopped(x).t, b, cut);
    MoreSentFlow(x.t, Stopped(x).t, b, atB, cut);
  }

  lemma ArriveAtAFlow(x: Sys, b: State, atB: nat, atA: nat, cut: Option<nat>, now: int, net: Network)
    requires AFlow(x, b, atB, cut) && x.phase.Running? && Kept(x.t) && (cut.Some? ==> cut.value < atB)
    requires atA < |b.sent| && Handles(b.sent[atA].packet)
    ensures AFlow(Received(x, Arriving(b.sent[atA]), now, net), b, atB, cut)
  {
    var a' := OnPacket(x.t, Arriving(b.sent[atA]), now, net).0;
    var news := [];
    if x.t.signal.Some? {
      news := PacketAnswered(x.t, b, atB, atA, cut, now, net);
    }
    assert x.t.log == x.t.log + [];
    AnswersKeepFlow(x.t, a', true, b, cut, news);
    MoreSentFlow(x.t, a', b, atB, cut);
    StoppedAFlow(x.(t := a', clock := now), b, atB, cut);
  }

  lemma ArriveAtAStep(j: Joint, now: int, net: Network)
    requires FlowInv(j) && TaskInv(j.a) && JointEnabled(j, ArriveAtA(now, net)) && Handles(j.b.t.sent[j.atA].packet)
    ensures FlowInv(JointStep(j, ArriveAtA(now, net)))
  {
    ArriveAtAFlow(j.a, j.b.t, j.atB, j.atA, j.cut, now, net);
  }

  lemma CutAtAFlow(x: Sys, b: State, atB: nat, atA: nat, cut: Option<nat>, now: int)
    requires AFlow(x, b, atB, cut) && x.phase.Running? && Shapes(x.t) && (cut.Some? ==> cut.value < atB)
    requires atA < |b.sent| && CallsForAnswer(x.t, Arriving(b.sent[atA]))
    ensures var a' := OnPacketCut(x.t, Arriving(b.sent[atA]), now);
            AFlow(Stopped(x.(t := a', clock := now, broken := true)), b, atB, cut)
  {
    var a' := OnPacketCut(x.t, Arriving(b.sent[atA]), now);
    var news := CutAnswered(x.t, b, atB, atA, cut, now);
    AnswersKeepFlow(x.t, a', false, b, cut, news);
    MoreSentFlow(x.t, a', b, atB, cut);
    StoppedAFlow(x.(t := a', clock := now, broken := true), b, atB, cut);
  }

  lemma CutAtAStep(j: Joint, now: int)
    requires FlowInv(j) && TaskInv(j.a) && JointEnabled(j, CutAtA(now))
    ensures FlowInv(JointStep(j, CutAtA(now)))
  {
    CutAtAFlow(j.a, j.b.t, j.atB, j.atA, j.cut, now);
  }

  // ----- Every joint run -----

  lemma SystemStep(x: Sys, e: Event)
    requires TaskInv(x) && IdInv(x) && FutureInv(x) && HistoryInv(x) && Enabled(x, e) && Step(x, e).allocs <= 65536
    ensures TaskInv(Step(x, e)) && IdInv(Step(x, e)) && FutureInv(Step(x, e)) && HistoryInv(Step(x, e))
  {
    StepTask(x, e);
    StepIds(x, e);
    StepFutures(x, e);
    StepHistory(x, e);
  }

  lemma ReceivedSends(x: Sys, p: Packet, now: int, net: Network)
    requires TaskInv(x) && x.phase.Running? && (p.SubAckPacket? ==> p.results.Valid())
    ensures x.t.sent <= Received(x, p, now, net).t.sent
  {
    OnPacketSends(x.t, p, now, net);
  }

  lemma CutSends(x: Sys, p: Packet, now: int)
    requires CallsForAnswer(x.t, p)
    ensures x.t.sent <= Stopped(x.(t := OnPacketCut(x.t, p, now), clock := now, broken := true)).t.sent
  {
  }

  lemma SentMonotone(x: Sys, e: Event)
    requires TaskInv(x) && Enabled(x, e) && (e.Receive? || e.CutReceive?)
    ensures x.t.sent <= Step(x, e).t.sent
  {
    if e.Receive? {
      ReceivedSends(x, e.packet, e.now, e.net);
    } else {
      CutSends(x, e.packet, e.now);
    }
  }

  lemma LocalInv(j: Joint, e: JointEvent)
    requires JointInv(j) && JointEnabled(j, e) && JointStep(j, e).a.allocs <= 65536 && (e.LocalA? || e.LocalB?)
    ensures JointInv(JointStep(j, e))
  {
    if e.LocalA? {
      SystemStep(j.a, e.e);
      LocalAFlow(j, e.e);
    } else {
      StepTask(j.b, e.e);
      SignalStep(j.b, e.e);
      LocalBFlow(j, e.e);
      LocalIsLocal(j.b, e.e);
    }
  }

  lemma AtBInv(j: Joint, e: JointEvent)
    requires JointInv(j) && JointEnabled(j, e) && (e.ArriveAtB? || e.CutAtB?)
    ensures JointInv(JointStep(j, e))
  {
    var h := j.a.t.sent[j.atB];
    if !Handles(h.packet) {
      PassesBy(j);
    } else {
      var f := if e.ArriveAtB? then Receive(Arriving(h), e.now, e.net) else CutReceive(Arriving(h), e.now);
      StepTask(j.b, f);
      SignalStep(j.b, f);
      SentMonotone(j.b, f);
      if e.ArriveAtB? {
        ArriveAtBStep(j, e.now, e.net);
      } else {
        CutAtBStep(j, e.now);
      }
    }
  }

  lemma AtAInv(j: Joint, e: JointEvent)
    requires JointInv(j) && JointEnabled(j, e) && JointStep(j, e).a.allocs <= 65536 && (e.ArriveAtA? || e.CutAtA?)
    ensures JointInv(JointStep(j, e))
  {
    var h := j.b.t.sent[j.atA];
    if Handles(h.packet) {
      var f := if e.ArriveAtA? then Receive(Arriving(h), e.now, e.net) else CutReceive(Arriving(h), e.now);
      SystemStep(j.a, f);
      if e.ArriveAtA? {
        ArriveAtAStep(j, e.now, e.net);
      } else {
        CutAtAStep(j, e.now);
      }
    }
  }

  lemma JointStepInv(j: Joint, e: JointEvent)
    requires JointInv(j) && JointEnabled(j, e) && JointStep(j, e).a.allocs <= 65536
    ensures JointInv(JointStep(j, e))
  {
    if e.LocalA? || e.LocalB? {
      LocalInv(j, e);
    } else if e.ArriveAtB? || e.CutAtB? {
      AtBInv(j, e);
    } else {
      AtAInv(j, e);
    }
  }

  lemma JointAllocsGrow(j: Joint, e: JointEvent)
    requires JointEnabled(j, e)
    ensures j.a.allocs <= JointStep(j, e).a.allocs
  {
    match e
    case LocalA(f) => AllocsGrow(j.a, f);
    case _ =>
  }

  lemma {:induction false} EveryJointRun(a: ConnectInfo, b: ConnectInfo, es: seq<JointEvent>)
    requires JointRun(JointInit(a, b), es) && JointAfter(JointInit(a, b), es).a.allocs <= 65536
    ensures JointInv(JointAfter(JointInit(a, b), es))
    decreases |es|
  {
    if es == [] {
      InitTask(a);
      InitTask(b);
      EveryRunIds(a, []);
      EveryRunFutures(a, []);
      EveryRunHistory(a, []);
    } else {
      var (front, e) := (es[..|es| - 1], es[|es| - 1]);
      var j := JointAfter(JointInit(a, b), front);
      JointAllocsGrow(j, e);
      EveryJointRun(a, b, front);
      JointStepInv(j, e);
    }
  }

  // ----- Each side on its own -----

  /** What A does in a joint run, as a run of its own; the channel is its peer. */
  ghost function EventsOfA(start: Joint, es: seq<JointEvent>): seq<Event>
    requires JointRun(start, es)
    decreases |es|
  {
    if es == [] then []
    else
      var (front, e) := (es[..|es| - 1], es[|es| - 1]);
      EventsOfA(start, front) + AtA(JointAfter(start, front), e)
  }

  ghost function EventsOfB(start: Joint, es: seq<JointEvent>): seq<Event>
    requires JointRun(start, es)
    decreases |es|
  {
    if es == [] then []
    else
      var (front, e) := (es[..|es| - 1], es[|es| - 1]);
      EventsOfB(start, front) + AtB(JointAfter(start, front), e)
  }

  ghost function AtA(j: Joint, e: JointEvent): seq<Event>
    requires JointEnabled(j, e)
  {
    match e
    case LocalA(f) => [f]
    case ArriveAtA(now, net) =>
      var h := j.b.t.sent[j.atA];
      if Handles(h.packet) then [Receive(Arriving(h), now, net)] else []
    case CutAtA(now) => [CutReceive(Arriving(j.b.t.sent[j.atA]), now)]
    case _ => []
  }

  ghost function AtB(j: Joint, e: JointEvent): seq<Event>
    requires JointEnabled(j, e)
  {
    match e
    case LocalB(f) => [f]
    case ArriveAtB(now, net) =>
      var h := j.a.t.sent[j.atB];
      if Handles(h.packet) then [Receive(Arriving(h), now, net)] else []
    case CutAtB(now) => [CutReceive(Arriving(j.a.t.sent[j.atB]), now)]
    case _ => []
  }

  lemma RunMore(start: Sys, es: seq<Event>, more: seq<Event>, x: Sys)
    requires Run(start, es) && |more| <= 1
    requires more == [] ==> x == After(start, es)
    requires more != [] ==> Enabled(After(start, es), more[0]) && x == Step(After(start, es), more[0])
    ensures Run(start, es + more) && After(start, es + more) == x
  {
    if more == [] {
      assert es + more == es;
    } else {
      assert more == [more[0]];
      RunSnoc(start, es, more[0]);
    }
  }

  lemma {:induction false} RunOfA(a: ConnectInfo, b: ConnectInfo, es: seq<JointEvent>)
    requires JointRun(JointInit(a, b), es)
    ensures var fs := EventsOfA(JointInit(a, b), es);
            Run(Systems.Init(a), fs) && After(Systems.Init(a), fs) == JointAfter(JointInit(a, b), es).a
    decreases |es|
  {
    if es != [] {
      var (front, e) := (es[..|es| - 1], es[|es| - 1]);
      var j := JointAfter(JointInit(a, b), front);
      RunOfA(a, b, front);
      RunMore(Systems.Init(a), EventsOfA(JointInit(a, b), front), AtA(j, e), JointStep(j, e).a);
    }
  }

  lemma {:induction false} RunOfB(a: ConnectInfo, b: ConnectInfo, es: seq<JointEvent>)
    requires JointRun(JointInit(a, b), es)
    ensures var fs := EventsOfB(JointInit(a, b), es);
            Run(Systems.Init(b), fs) && After(Systems.Init(b), fs) == JointAfter(JointInit(a, b), es).b
    decreases |es|
  {
    if es != [] {
      var (front, e) := (es[..|es| - 1], es[|es| - 1]);
      var j := JointAfter(JointInit(a, b), front);
      RunOfB(a, b, front);
      RunMore(Systems.Init(b), EventsOfB(JointInit(a, b), front), AtB(j, e), JointStep(j, e).b);
    }
  }

  // ----- What a caller may rely on -----

  /** Whatever the interleaving, the losses of time, the repetitions and the errors: a QoS 2 message
  is dispatched at most once, and what is dispatched was sent. */
  lemma AtMostOnce(a: ConnectInfo, b: ConnectInfo, es: seq<JointEvent>, i: nat, k: nat, id: u16)
    requires JointRun(JointInit(a, b), es) && JointAfter(JointInit(a, b), es).a.allocs <= 65536
    requires var log := JointAfter(JointInit(a, b), es).b.t.log;
             i < |log| && k < |log| && IsDelivery(log[i], id) && IsDelivery(log[k], id)
    ensures i == k
    ensures var j := JointAfter(JointInit(a, b), es); Genuine(j.a.t.sent, j.b.t.log[i].msg)
  {
    EveryJointRun(a, b, es);
    var j := JointAfter(JointInit(a, b), es);
    GenuineGrows(j.a.t.sent[..j.atB], j.a.t.sent, j.b.t.log[i].msg);
  }

  /** The message of a log entry is what the call passed; only DUP may differ. */
  ghost predicate Conveys(entry: Log, e: Event, id: u16)
    requires e.Begin?
  {
    && entry.Delivered? && entry.msg.id == id && entry.msg.topic == e.topic && entry.msg.payload == e.payload
    && entry.msg.qos == e.qos && entry.msg.retain == e.retain
  }

  /** Log entry `i` was made when the message arrived, and the message was handed to exactly those who were
  subscribed to its topic then. */
  ghost predicate Served(b: ConnectInfo, fs: seq<Event>, i: nat, entry: Log) {
    exists d :: DeliveredBy(b, fs, d, i, entry)
  }

  /** The message with these arguments has been handed to its subscribers, once. */
  ghost predicate ServedOnce(b: ConnectInfo, fs: seq<Event>, log: seq<Log>, e: Event, id: u16)
    requires e.Begin?
  {
    exists i :: 0 <= i < |log| && IsDelivery(log[i], id) && Conveys(log[i], e, id) && Served(b, fs, i, log[i])
                && (forall k :: 0 <= k < |log| && IsDelivery(log[k], id) ==> k == i)
  }

  ghost predicate ServedAtLeastOnce(b: ConnectInfo, fs: seq<Event>, log: seq<Log>, e: Event, id: u16)
    requires e.Begin?
  {
    exists i :: 0 <= i < |log| && IsAcceptance(log[i], id) && Conveys(log[i], e, id) && Served(b, fs, i, log[i])
  }

  /** Event `k` of A is the beginning of the call. */
  ghost predicate BegunBy(a: ConnectInfo, fs: seq<Event>, k: int, call: nat, c: Call) {
    BegunAt(fs, k, call) && MadeBy(a, fs, k, c)
  }

  /** Exactly once, or lost. */
  ghost predicate OnceUnlessLost(a: ConnectInfo, b: ConnectInfo, fa: seq<Event>, fb: seq<Event>, j: Joint, call: nat)
    requires call in j.a.calls
  {
    var (c, lost) := (j.a.calls[call], Lost(j.a.t.sent, j.cut, j.a.calls[call].msg.id));
    && (lost ==> !DeliveredAt(j.b.t.log, c.msg.id))
    && exists k :: BegunBy(a, fa, k, call, c) && (ServedOnce(b, fb, j.b.t.log, fa[k], c.msg.id) <==> !lost)
  }

  ghost predicate AtLeastOnceUnlessLost(a: ConnectInfo, b: ConnectInfo, fa: seq<Event>, fb: seq<Event>, j: Joint,
                                        call: nat)
    requires call in j.a.calls
  {
    var (c, lost) := (j.a.calls[call], Lost(j.a.t.sent, j.cut, j.a.calls[call].msg.id));
    && (lost ==> !AcceptedAt(j.b.t.log, c.msg.id))
    && exists k :: BegunBy(a, fa, k, call, c) && (ServedAtLeastOnce(b, fb, j.b.t.log, fa[k], c.msg.id) <==> !lost)
  }

  /** When `publish_qos_2` with `Complete` or `Received` returns success, the message with the arguments of
  the call has been handed to its subscribers at the other end exactly once, except exactly if a step of
  the other end was cut short while it answered the first transmission of this message. */
  lemma ExactlyOnce(a: ConnectInfo, b: ConnectInfo, es: seq<JointEvent>, call: nat)
    requires JointRun(JointInit(a, b), es) && JointAfter(JointInit(a, b), es).a.allocs <= 65536
    requires var x := JointAfter(JointInit(a, b), es).a; Succeeded(x, call) && !KeyOf(x.calls[call]).0.AckStage?
    ensures OnceUnlessLost(a, b, EventsOfA(JointInit(a, b), es), EventsOfB(JointInit(a, b), es),
                           JointAfter(JointInit(a, b), es), call)
  {
    EveryJointRun(a, b, es);
    SuccessMeansDelivered(JointAfter(JointInit(a, b), es), call);
    var k := CallBegun(a, b, es, call);
    DeliveredIsServed(a, b, es, call, k);
  }

  /** When `publish_qos_1` returns success after awaiting, the message has been handed to its subscribers at
  the other end at least once, with the same exception. */
  lemma AtLeastOnce(a: ConnectInfo, b: ConnectInfo, es: seq<JointEvent>, call: nat)
    requires JointRun(JointInit(a, b), es) && JointAfter(JointInit(a, b), es).a.allocs <= 65536
    requires var x := JointAfter(JointInit(a, b), es).a; Succeeded(x, call) && KeyOf(x.calls[call]).0.AckStage?
    ensures AtLeastOnceUnlessLost(a, b, EventsOfA(JointInit(a, b), es), EventsOfB(JointInit(a, b), es),
                                  JointAfter(JointInit(a, b), es), call)
  {
    EveryJointRun(a, b, es);
    SuccessMeansAccepted(JointAfter(JointInit(a, b), es), call);
    var k := CallBegun(a, b, es, call);
    AcceptedIsServed(a, b, es, call, k);
  }

  lemma CallBegun(a: ConnectInfo, b: ConnectInfo, es: seq<JointEvent>, call: nat) returns (k: int)
    requires JointRun(JointInit(a, b), es) && call in JointAfter(JointInit(a, b), es).a.calls
    ensures BegunBy(a, EventsOfA(JointInit(a, b), es), k, call, JointAfter(JointInit(a, b), es).a.calls[call])
  {
    RunOfA(a, b, es);
    var fa := EventsOfA(JointInit(a, b), es);
    CallOrigin(a, fa, call);
    k :| BegunAt(fa, k, call) && MadeBy(a, fa, k, After(Systems.Init(a), fa).calls[call]);
  }

  /** A message of the call in the log of B has the arguments of the call and went to its subscribers. */
  lemma EntryIsServed(a: ConnectInfo, b: ConnectInfo, es: seq<JointEvent>, call: nat, e: Event, i: nat)
    requires JointRun(JointInit(a, b), es) && JointInv(JointAfter(JointInit(a, b), es))
    requires var j := JointAfter(JointInit(a, b), es);
             && call in j.a.calls && TracksId(j.a.calls[call]) && e.Begin? && Carries(j.a.calls[call].msg, e)
             && i < |j.b.t.log| && IsDispatch(j.b.t.log[i], j.a.calls[call].msg.id)
    ensures var j := JointAfter(JointInit(a, b), es);
            && Conveys(j.b.t.log[i], e, j.a.calls[call].msg.id)
            && Served(b, EventsOfB(JointInit(a, b), es), i, j.b.t.log[i])
  {
    var j := JointAfter(JointInit(a, b), es);
    Unchanged(j, call, i);
    RunOfB(a, b, es);
    EveryDelivery(b, EventsOfB(JointInit(a, b), es), i);
  }

  lemma DeliveredIsServed(a: ConnectInfo, b: ConnectInfo, es: seq<JointEvent>, call: nat, k: int)
    requires JointRun(JointInit(a, b), es) && JointInv(JointAfter(JointInit(a, b), es))
    requires var j := JointAfter(JointInit(a, b), es);
             && call in j.a.calls && TracksId(j.a.calls[call])
             && BegunBy(a, EventsOfA(JointInit(a, b), es), k, call, j.a.calls[call])
    ensures var j := JointAfter(JointInit(a, b), es);
            var (fa, fb) := (EventsOfA(JointInit(a, b), es), EventsOfB(JointInit(a, b), es));
            var id := j.a.calls[call].msg.id;
            DeliveredAt(j.b.t.log, id) <==> ServedOnce(b, fb, j.b.t.log, fa[k], id)
  {
    var j := JointAfter(JointInit(a, b), es);
    var (fa, fb) := (EventsOfA(JointInit(a, b), es), EventsOfB(JointInit(a, b), es));
    var (log, id) := (j.b.t.log, j.a.calls[call].msg.id);
    if DeliveredAt(log, id) {
      var i :| 0 <= i < |log| && IsDelivery(log[i], id);
      EntryIsServed(a, b, es, call, fa[k], i);
      assert Conveys(log[i], fa[k], id) && Served(b, fb, i, log[i]);
    }
  }

  lemma AcceptedIsServed(a: ConnectInfo, b: ConnectInfo, es: seq<JointEvent>, call: nat, k: int)
    requires JointRun(JointInit(a, b), es) && JointInv(JointAfter(JointInit(a, b), es))
    requires var j := JointAfter(JointInit(a, b), es);
             && call in j.a.calls && TracksId(j.a.calls[call])
             && BegunBy(a, EventsOfA(JointInit(a, b), es), k, call, j.a.calls[call])
    ensures var j := JointAfter(JointInit(a, b), es);
            var (fa, fb) := (EventsOfA(JointInit(a, b), es), EventsOfB(JointInit(a, b), es));
            var id := j.a.calls[call].msg.id;
            AcceptedAt(j.b.t.log, id) <==> ServedAtLeastOnce(b, fb, j.b.t.log, fa[k], id)
  {
    var j := JointAfter(JointInit(a, b), es);
    var (fa, fb) := (EventsOfA(JointInit(a, b), es), EventsOfB(JointInit(a, b), es));
    var (log, id) := (j.b.t.log, j.a.calls[call].msg.id);
    if AcceptedAt(log, id) {
      var i :| 0 <= i < |log| && IsAcceptance(log[i], id);
      EntryIsServed(a, b, es, call, fa[k], i);
      assert Conveys(log[i], fa[k], id) && Served(b, fb, i, log[i]);
    }
  }

  lemma SuccessMeansAccepted(j: Joint, call: nat)
    requires JointInv(j) && Succeeded(j.a, call) && KeyOf(j.a.calls[call]).0.AckStage?
    ensures TracksId(j.a.calls[call])
    ensures var id := j.a.calls[call].msg.id; AcceptedAt(j.b.t.log, id) <==> !Lost(j.a.t.sent, j.cut, id)
  {
    var c := j.a.calls[call];
    assert CallInv(j.a, c);
    var n :| c.since <= n < |j.a.t.log| && j.a.t.log[n] == Acked(KeyOf(c).0, KeyOf(c).1);
    assert j.a.t.log[n] in j.a.t.log;
    assert Came1(j.a.t, j.b.t, j.cut, c.msg.id);
  }

  lemma SuccessMeansDelivered(j: Joint, call: nat)
    requires JointInv(j) && Succeeded(j.a, call) && !KeyOf(j.a.calls[call]).0.AckStage?
    ensures TracksId(j.a.calls[call])
    ensures var id := j.a.calls[call].msg.id; DeliveredAt(j.b.t.log, id) <==> !Lost(j.a.t.sent, j.cut, id)
  {
    var c := j.a.calls[call];
    assert CallInv(j.a, c);
    var n :| c.since <= n < |j.a.t.log| && j.a.t.log[n] == Acked(KeyOf(c).0, KeyOf(c).1);
    assert j.a.t.log[n] in j.a.t.log;
    assert Came2(j.a.t, j.b.t, j.cut, c.msg.id);
  }

  /** A delivered message with the identifier of a call is the message of that call. */
  lemma Unchanged(j: Joint, call: nat, i: nat)
    requires JointInv(j) && call in j.a.calls && TracksId(j.a.calls[call])
    requires i < |j.b.t.log| && j.b.t.log[i].Delivered? && j.b.t.log[i].msg.id == j.a.calls[call].msg.id
    requires !j.b.t.log[i].msg.qos.AtMostOnce?
    ensures j.b.t.log[i].msg == j.a.calls[call].msg.(dup := j.b.t.log[i].msg.dup)
  {
    var seen := j.a.t.sent[..j.atB];
    var m := j.b.t.log[i].msg;
    assert Genuine(seen, m);
    var n :| 0 <= n < |seen| && seen[n].packet.PublishPacket? && Arriving(seen[n]) == PublishPacket(m);
    assert j.a.t.sent[n] == seen[n];
    assert Tracked(j.a.t.sent[n].packet, j.a.calls[call].msg.id);
  }
}
