/** What every step of the transceiver keeps, against any peer. */
module ProtocolProofs {
  import opened Wrappers
  import opened ByteIo
  import opened Packets
  import opened Subscriptions
  import opened Topics
  import opened SubscriptionSets
  import opened Protocol

  // ----- In flight: shapes, timeouts, DUP -----

  /** The keys of `pending_packets` and what each of them holds. */
  ghost predicate Shape(k: Key, p: Packet) {
    match k.ty
    case Publish => p.PublishPacket? && p.msg.id == k.id && !p.msg.dup && !p.msg.qos.AtMostOnce?
    case PubRec => p == PubRecPacket(k.id)
    case PubRel => p == PubRelPacket(k.id)
    case Unsubscribe => p.UnsubscribePacket? && p.id == k.id
    case _ => false
  }

  ghost predicate Shapes(s: State) {
    && (forall k <- s.pending :: Shape(k, s.pending[k]))
    && (forall id <- s.pendingSubs :: s.pendingSubs[id].packet.SubscribePacket? && s.pendingSubs[id].packet.id == id)
  }

  ghost predicate Listed(ts: seq<Timeout>, key: Key) {
    exists i :: 0 <= i < |ts| && ts[i].key == key
  }

  /** Whatever is in flight has a timeout that will re-send it. */
  ghost predicate NothingForgotten(s: State) {
    forall k :: Live(s, k) ==> Listed(s.timeouts, k)
  }

  /** Oldest first, and nothing from the future. */
  ghost predicate Ordered(ts: seq<Timeout>, now: int) {
    && (forall i, j :: 0 <= i < j < |ts| ==> ts[i].t <= ts[j].t)
    && (forall i :: 0 <= i < |ts| ==> ts[i].t <= now)
  }

  /** What is in flight has been handed over once without DUP. */
  ghost predicate Backed(s: State) {
    forall k :: Live(s, k) ==> Handed(InFlight(s, k), false) in s.sent
  }

  /** DUP is only ever asked for on a publish that went out before without it. */
  ghost predicate DupDiscipline(sent: seq<Handed>) {
    forall i :: 0 <= i < |sent| && sent[i].setDup ==>
      sent[i].packet.PublishPacket? && Handed(sent[i].packet, false) in sent[..i]
  }

  ghost predicate FlightInv(s: State, now: int) {
    Shapes(s) && NothingForgotten(s) && Ordered(s.timeouts, now) && Backed(s) && DupDiscipline(s.sent)
  }

  /** What remains of it when a step is cut short and the timeout queue no longer matters. */
  ghost predicate Kept(s: State) {
    Shapes(s) && Backed(s) && DupDiscipline(s.sent)
  }

  lemma QueueKept(s: State, p: Packet)
    requires Kept(s)
    ensures Kept(Queue(s, p, false))
  {
    var s' := Queue(s, p, false);
    forall k | Live(s', k) ensures Handed(InFlight(s', k), false) in s'.sent {
      assert Live(s, k);
    }
    DupMore(s.sent, p, false);
  }

  lemma TimeoutsKept(s: State, ts: seq<Timeout>)
    requires Kept(s)
    ensures Kept(s.(timeouts := ts))
  {
    forall k | Live(s.(timeouts := ts), k) ensures Handed(InFlight(s, k), false) in s.sent {
      assert Live(s, k);
    }
  }

  /** A publish command leaves every packet in flight in place exactly if its identifier is free
  (or in flight with the same packet): an identifier used again replaces the older message. */
  lemma PublishKeepsFlight(s: State, m: Message, now: int)
    requires !m.qos.AtMostOnce?
    ensures var s' := OnCommand(s, PublishCommand(m), now);
            (forall k <- s.pending :: k in s'.pending && s'.pending[k] == s.pending[k]) <==>
            (Key(Publish, m.id) in s.pending ==> s.pending[Key(Publish, m.id)] == PublishPacket(m))
  {
    var s' := OnCommand(s, PublishCommand(m), now);
    var key := Key(Publish, m.id);
    assert s'.pending[key] == PublishPacket(m);
    if key in s.pending && (forall k <- s.pending :: k in s'.pending && s'.pending[k] == s.pending[k]) {
      assert s'.pending[key] == s.pending[key];
    }
  }

  lemma QueueFlight(s: State, p: Packet, setDup: bool, now: int)
    requires FlightInv(s, now)
    requires setDup ==> p.PublishPacket? && Handed(p, false) in s.sent
    ensures FlightInv(Queue(s, p, setDup), now)
  {
    var s' := Queue(s, p, setDup);
    forall k | Live(s', k) ensures Listed(s'.timeouts, k) && Handed(InFlight(s', k), false) in s'.sent {
      assert Live(s, k);
    }
    DupMore(s.sent, p, setDup);
  }

  lemma DupMore(sent: seq<Handed>, p: Packet, setDup: bool)
    requires DupDiscipline(sent) && (setDup ==> p.PublishPacket? && Handed(p, false) in sent)
    ensures DupDiscipline(sent + [Handed(p, setDup)])
  {
    var more := sent + [Handed(p, setDup)];
    forall i | 0 <= i < |more| && more[i].setDup
      ensures more[i].packet.PublishPacket? && Handed(more[i].packet, false) in more[..i]
    {
      if i < |sent| {
        assert more[..i] == sent[..i];
      } else {
        assert more[..i] == sent;
      }
    }
  }

  lemma ListedMore(ts: seq<Timeout>, to: Timeout, key: Key)
    requires Listed(ts, key) || to.key == key
    ensures Listed(ts + [to], key)
  {
    if Listed(ts, key) {
      var i :| 0 <= i < |ts| && ts[i].key == key;
      assert (ts + [to])[i].key == key;
    } else {
      assert (ts + [to])[|ts|].key == key;
    }
  }

  lemma InsertFlight(s: State, key: Key, p: Packet, now: int)
    requires FlightInv(s, now) && Shape(key, p)
    ensures FlightInv(Insert(s, key, p, now), now)
  {
    var s' := Insert(s, key, p, now);
    forall k | Live(s', k) ensures Listed(s'.timeouts, k) && Handed(InFlight(s', k), false) in s'.sent {
      assert k != key ==> Live(s, k);
      if key !in s.pending {
        ListedMore(s.timeouts, Timeout(now, key), k);
      } else {
        assert Live(s, key);
      }
    }
    DupMore(s.sent, p, false);
  }

  /** Anything that only takes packets out of flight keeps the invariant. */
  lemma LessFlight(s: State, s': State, now: int)
    requires FlightInv(s, now)
    requires s'.sent == s.sent && s'.timeouts == s.timeouts
    requires forall k <- s'.pending :: k in s.pending && s'.pending[k] == s.pending[k]
    requires forall id <- s'.pendingSubs :: id in s.pendingSubs && s'.pendingSubs[id] == s.pendingSubs[id]
    ensures FlightInv(s', now)
  {
    forall k | Live(s', k) ensures Listed(s'.timeouts, k) && Handed(InFlight(s', k), false) in s'.sent {
      assert Live(s, k);
    }
  }

  lemma LaterFlight(s: State, now: int, later: int)
    requires FlightInv(s, now) && now <= later
    ensures FlightInv(s, later)
  {
  }

  lemma AcknowledgeFlight(s: State, key: Key, stage: Stage, now: int)
    requires FlightInv(s, now)
    ensures FlightInv(Acknowledge(s, key, stage), now)
  {
    LessFlight(s, Acknowledge(s, key, stage), now);
  }

  /** An incoming packet keeps everything in flight accounted for, whatever the peer sends. */
  lemma OnPacketFlight(s: State, p: Packet, now: int, net: Network)
    requires FlightInv(s, now) && (p.SubAckPacket? ==> p.results.Valid())
    ensures FlightInv(OnPacket(s, p, now, net).0, now)
  {
    var s' := OnPacket(s, p, now, net).0;
    if s.signal.None? {
      LessFlight(s, s', now);
    } else {
      match p
      case PublishPacket(m) => OnPublishFlight(s, m, now, net);
      case PubAckPacket(id) => AcknowledgeFlight(s, Key(Publish, id), AckStage, now);
      case PubRecPacket(id) =>
        ReleasingFlight(s, id, now);
        AcknowledgeFlight(Releasing(s, id, now), Key(Publish, id), RecStage, now);
      case PubRelPacket(id) => OnPubRelFlight(s, id, now);
      case PubCompPacket(id) => AcknowledgeFlight(s, Key(PubRel, id), CompStage, now);
      case SubAckPacket(id, results) => LessFlight(s, s', now);
      case UnsubAckPacket(id) => LessFlight(s, s', now);
      case _ =>
    }
  }

  lemma AnsweredFlight(s: State, m: Message, now: int)
    requires FlightInv(s, now)
    ensures FlightInv(Answered(s, m, now), now)
  {
    var key := Key(PubRec, m.id);
    match m.qos
    case AtMostOnce =>
    case AtLeastOnce => QueueFlight(s, PubAckPacket(m.id), false, now);
    case ExactlyOnce =>
      if key in s.pending {
        QueueFlight(s, s.pending[key], false, now);
      } else {
        InsertFlight(s, key, PubRecPacket(m.id), now);
      }
  }

  lemma OnPublishFlight(s: State, m: Message, now: int, net: Network)
    requires FlightInv(s, now)
    ensures FlightInv(OnPublish(s, m, now, net), now)
  {
    AnsweredFlight(s, m, now);
    LessFlight(Answered(s, m, now), OnPublish(s, m, now, net), now);
  }

  lemma ReleasingFlight(s: State, id: u16, now: int)
    requires FlightInv(s, now)
    ensures FlightInv(Releasing(s, id, now), now)
  {
    var key := Key(PubRel, id);
    if key in s.pending {
      QueueFlight(s, s.pending[key], false, now);
    } else {
      InsertFlight(s, key, PubRelPacket(id), now);
    }
  }

  lemma OnPubRelFlight(s: State, id: u16, now: int)
    requires FlightInv(s, now)
    ensures FlightInv(OnPubRel(s, id), now)
  {
    var s1 := Remove(s, Key(PubRec, id));
    LessFlight(s, s1.(log := s1.log + [Released(id)]), now);
    QueueFlight(s1.(log := s1.log + [Released(id)]), PubCompPacket(id), false, now);
  }

  lemma OnPacketCutFlight(s: State, p: Packet, now: int)
    requires FlightInv(s, now) && CallsForAnswer(s, p)
    ensures FlightInv(OnPacketCut(s, p, now), now)
  {
    match p
    case PublishPacket(m) => AnsweredFlight(s, m, now);
    case PubRecPacket(id) => ReleasingFlight(s, id, now);
    case PubRelPacket(id) => OnPubRelFlight(s, id, now);
  }

  /** What a client may ask for: publishes are made without DUP. */
  ghost predicate Acceptable(c: Command) {
    c.PublishCommand? ==> !c.msg.dup
  }

  lemma OnCommandFlight(s: State, c: Command, now: int)
    requires FlightInv(s, now) && Acceptable(c)
    ensures FlightInv(OnCommand(s, c, now), now)
  {
    match c
    case PublishCommand(m) =>
      if m.qos.AtMostOnce? {
        QueueFlight(s, PublishPacket(m), false, now);
      } else {
        InsertFlight(s, Key(Publish, m.id), PublishPacket(m), now);
      }
    case SubscribeCommand(topic, qos, kind) => OnSubscribeFlight(s, topic, qos, kind, now);
    case UnsubCommand(topic, how) =>
      var s' := OnUnsub(s, topic, how, now);
      if s'.sent == s.sent {
        LessFlight(s, s', now);
      } else {
        var id := s.shared.nextId;
        var s1 := s.(tree := s'.tree, shared := s'.shared);
        LessFlight(s, s1, now);
        InsertFlight(s1, Key(Unsubscribe, id), UnsubscribePacket(id, [topic]), now);
        assert s' == Insert(s1, Key(Unsubscribe, id), UnsubscribePacket(id, [topic]), now);
      }
  }

  lemma OnSubscribeFlight(s: State, topic: seq<byte>, qos: QoS, kind: SubscriptionKind, now: int)
    requires FlightInv(s, now)
    ensures FlightInv(OnSubscribe(s, topic, qos, kind, now), now)
  {
    var s' := OnSubscribe(s, topic, qos, kind, now);
    AskedFlight(s, topic, qos, kind, now);
    if s' != Asked(s, topic, qos, kind, now) {
      LessFlight(s, s', now);
    }
  }

  lemma AskedFlight(s: State, topic: seq<byte>, qos: QoS, kind: SubscriptionKind, now: int)
    requires FlightInv(s, now)
    ensures FlightInv(Asked(s, topic, qos, kind, now), now)
  {
    var s' := Asked(s, topic, qos, kind, now);
    forall k | Live(s', k) ensures Listed(s'.timeouts, k) && Handed(InFlight(s', k), false) in s'.sent {
      ListedMore2(s, s.shared.nextId, now, k);
    }
    DupMore(s.sent, SubscribePacket(s.shared.nextId, [(topic, qos)]), false);
  }

  lemma ListedMore2(s: State, id: u16, now: int, k: Key)
    requires NothingForgotten(s) && (Live(s, k) || k == Key(Subscribe, id))
    ensures Listed(s.timeouts + [Timeout(now, Key(Subscribe, id))], k)
  {
    ListedMore(s.timeouts, Timeout(now, Key(Subscribe, id)), k);
  }

  // ----- The alarm -----

  ghost predicate Monotone(clock: nat -> int) {
    forall i: nat, j: nat :: i <= j ==> clock(i) <= clock(j)
  }

  lemma ResendFlight(s: State, now: int)
    requires FlightInv(s, now) && s.timeouts != []
    ensures FlightInv(Resend(s.(timeouts := s.timeouts[1..]), s.timeouts[0].key, now), now)
  {
    var key := s.timeouts[0].key;
    var rest := s.(timeouts := s.timeouts[1..]);
    var s' := Resend(rest, key, now);
    forall k | Live(s', k) ensures Listed(s'.timeouts, k) && Handed(InFlight(s', k), false) in s'.sent {
      assert Live(s, k);
      var i :| 0 <= i < |s.timeouts| && s.timeouts[i].key == k;
      if k == key {
        ListedMore(rest.timeouts, Timeout(now, key), k);
      } else {
        assert rest.timeouts[i - 1].key == k;
        if Live(s, key) {
          ListedMore(rest.timeouts, Timeout(now, key), k);
        }
      }
    }
    if Live(s, key) {
      assert Handed(InFlight(s, key), false) in s.sent;
      DupMore(s.sent, InFlight(s, key), key.ty == Publish);
    }
  }

  lemma {:induction false} AlarmPassFlight(s: State, n: nat, delay: int, clock: nat -> int, k: nat, end: int)
    requires n <= |s.timeouts| && Monotone(clock) && FlightInv(s, clock(k)) && forall i: nat :: clock(i) <= end
    ensures FlightInv(AlarmPass(s, n, delay, clock, k), end)
    decreases n
  {
    LaterFlight(s, clock(k), end);
    if n > 0 && clock(k) - s.timeouts[0].t >= delay {
      LaterFlight(s, clock(k), clock(k + 1));
      ResendFlight(s, clock(k + 1));
      var next := Resend(s.(timeouts := s.timeouts[1..]), s.timeouts[0].key, clock(k + 1));
      LaterFlight(next, clock(k + 1), clock(k + 2));
      AlarmPassFlight(next, n - 1, delay, clock, k + 2, end);
    }
  }

  lemma OnAlarmFlight(s: State, ping: bool, delay: int, clock: nat -> int, now: int, end: int)
    requires FlightInv(s, now) && now <= clock(0) && Monotone(clock) && forall i: nat :: clock(i) <= end
    ensures FlightInv(OnAlarm(s, ping, delay, clock), end)
  {
    if s.signal.None? {
      LaterFlight(s, now, end);
    } else {
      PassFlight(s, ping, delay, clock, |s.timeouts|, now, end);
    }
  }

  lemma PassFlight(s: State, ping: bool, delay: int, clock: nat -> int, n: nat, now: int, end: int)
    requires FlightInv(s, now) && now <= clock(0) && Monotone(clock) && forall i: nat :: clock(i) <= end
    requires n <= |s.timeouts|
    ensures FlightInv(AlarmPass(Pinged(s, ping), n, delay, clock, 0), end)
  {
    LaterFlight(s, now, clock(0));
    if ping {
      QueueFlight(s, PingReqPacket, false, clock(0));
    }
    AlarmPassFlight(Pinged(s, ping), n, delay, clock, 0, end);
  }

  /** What one turn does to a state whose front entry is due. */
  ghost function Turned(s: State, now: int): State
    requires s.timeouts != []
  {
    Resend(s.(timeouts := s.timeouts[1..]), s.timeouts[0].key, now)
  }

  lemma TurnLeads(s: State, n: nat, delay: int, clock: nat -> int, k: nat)
    requires n < |s.timeouts|
    ensures clock(k) - s.timeouts[0].t < delay ==> AlarmPass(s, n + 1, delay, clock, k) == s
    ensures clock(k) - s.timeouts[0].t >= delay ==>
              var next := Turned(s, clock(k + 1));
              n <= |next.timeouts| && AlarmPass(s, n + 1, delay, clock, k) == AlarmPass(next, n, delay, clock, k + 2)
  {
  }

  /** How many entries a pass takes off the front. */
  ghost function ExpiredCount(ts: seq<Timeout>, delay: int, clock: nat -> int, k: nat): nat {
    if ts == [] || clock(k) - ts[0].t < delay then 0 else 1 + ExpiredCount(ts[1..], delay, clock, k + 2)
  }

  /** What the entries taken off cause to be re-sent: the packets still in flight, publishes with DUP. */
  ghost function Resent(s: State, ts: seq<Timeout>): seq<Handed> {
    if ts == [] then []
    else
      (if Live(s, ts[0].key) then [Handed(InFlight(s, ts[0].key), ts[0].key.ty == Publish)] else [])
      + Resent(s, ts[1..])
  }

  ghost function Requeued(s: State, ts: seq<Timeout>, clock: nat -> int, k: nat): seq<Timeout> {
    if ts == [] then []
    else (if Live(s, ts[0].key) then [Timeout(clock(k + 1), ts[0].key)] else []) + Requeued(s, ts[1..], clock, k + 2)
  }

  lemma TakenBound(ts: seq<Timeout>, delay: int, clock: nat -> int, k: nat)
    ensures ExpiredCount(ts, delay, clock, k) <= |ts|
  {
  }

  /** One pass in closed form: the expired front of the queue is taken off, each of its
  entries is handled once, and the rest of the state is left alone. `more` is what earlier
  turns already put at the back. */
  lemma {:induction false} AlarmPassExact(s: State, ts: seq<Timeout>, more: seq<Timeout>, delay: int,
      clock: nat -> int, k: nat)
    requires s.timeouts == ts + more
    ensures var j := ExpiredCount(ts, delay, clock, k);
            && j <= |ts|
            && AlarmPass(s, |ts|, delay, clock, k) ==
               s.(timeouts := ts[j..] + more + Requeued(s, ts[..j], clock, k), sent := s.sent + Resent(s, ts[..j]))
    decreases |ts|
  {
    var j := ExpiredCount(ts, delay, clock, k);
    TakenBound(ts, delay, clock, k);
    if j == 0 {
      if ts != [] {
        TurnLeads(s, |ts| - 1, delay, clock, k);
      }
      assert ts[..0] == [] && ts[0..] == ts && s.sent + [] == s.sent;
      assert ts + more + [] == s.timeouts;
    } else {
      TurnLeads(s, |ts| - 1, delay, clock, k);
      TurnedFlight(s, ts, more, clock(k + 1));
      AlarmPassExact(Turned(s, clock(k + 1)), ts[1..], Back(s, ts[0].key, more, clock(k + 1)), delay, clock, k + 2);
      Regroup(s, ts, j, more, clock, k);
    }
  }

  /** What is at the back of the queue after the front entry was handled. */
  ghost function Back(s: State, key: Key, more: seq<Timeout>, now: int): seq<Timeout> {
    if Live(s, key) then more + [Timeout(now, key)] else more
  }

  lemma TurnedFlight(s: State, ts: seq<Timeout>, more: seq<Timeout>, now: int)
    requires s.timeouts == ts + more && ts != []
    ensures Turned(s, now) ==
            s.(timeouts := ts[1..] + Back(s, ts[0].key, more, now), sent := s.sent + Resent(s, [ts[0]]))
  {
    assert s.timeouts[1..] == ts[1..] + more;
    assert [ts[0]][1..] == [];
  }

  /** The closed form after the first turn is the closed form before it. */
  lemma Regroup(s: State, ts: seq<Timeout>, j: nat, more: seq<Timeout>, clock: nat -> int, k: nat)
    requires s.timeouts == ts + more && 0 < j <= |ts|
    ensures var (next, rest, more') := (Turned(s, clock(k + 1)), ts[1..], Back(s, ts[0].key, more, clock(k + 1)));
            next.(timeouts := rest[j - 1..] + more' + Requeued(next, rest[..j - 1], clock, k + 2),
                  sent := next.sent + Resent(next, rest[..j - 1])) ==
            s.(timeouts := ts[j..] + more + Requeued(s, ts[..j], clock, k), sent := s.sent + Resent(s, ts[..j]))
  {
    TurnedFlight(s, ts, more, clock(k + 1));
    var front := ts[1..][..j - 1];
    assert ts[1..][j - 1..] == ts[j..] && ts[..j][1..] == front && [ts[0]][1..] == [];
    SameFlight(s, Turned(s, clock(k + 1)), front, clock, k + 2);
    Unroll(s, ts[..j], front, ts[j..], more, clock, k);
  }

  lemma Unroll(s: State, ts: seq<Timeout>, rest: seq<Timeout>, left: seq<Timeout>, more: seq<Timeout>,
      clock: nat -> int, k: nat)
    requires ts != [] && ts[1..] == rest
    ensures left + more + Requeued(s, ts, clock, k)
              == left + Back(s, ts[0].key, more, clock(k + 1)) + Requeued(s, rest, clock, k + 2)
    ensures s.sent + Resent(s, ts) == s.sent + Resent(s, [ts[0]]) + Resent(s, rest)
  {
    assert [ts[0]][1..] == [];
  }

  lemma {:induction false} SameFlight(s: State, s': State, ts: seq<Timeout>, clock: nat -> int, k: nat)
    requires s'.pending == s.pending && s'.pendingSubs == s.pendingSubs
    ensures Resent(s', ts) == Resent(s, ts) && Requeued(s', ts, clock, k) == Requeued(s, ts, clock, k)
  {
    if ts != [] {
      SameFlight(s, s', ts[1..], clock, k + 2);
    }
  }

  /** With an ordered queue and a monotone clock, the pass takes every entry that was already
  older than the delay when it began, and only entries older than the delay when tested. */
  lemma {:induction false} TakenExactlyExpired(ts: seq<Timeout>, delay: int, clock: nat -> int, k: nat, i: nat)
    requires i < |ts| && Monotone(clock)
    requires forall a, b :: 0 <= a < b < |ts| ==> ts[a].t <= ts[b].t
    ensures clock(k) - ts[i].t >= delay ==> i < ExpiredCount(ts, delay, clock, k)
    ensures i < ExpiredCount(ts, delay, clock, k) ==> clock(k + 2 * i) - ts[i].t >= delay
  {
    if i > 0 && ExpiredCount(ts, delay, clock, k) > 0 {
      TakenExactlyExpired(ts[1..], delay, clock, k + 2, i - 1);
      assert clock(k) <= clock(k + 2);
    }
  }

  // ----- QoS 2, receiving side -----

  /** The QoS 2 identifiers delivered and not yet released, after a log. */
  ghost function Open(log: seq<Log>): set<u16> {
    if log == [] then {}
    else
      var last, front := log[|log| - 1], Open(log[..|log| - 1]);
      match last
      case Delivered(m, _) => if m.qos.ExactlyOnce? then front + {m.id} else front
      case Released(id) => front - {id}
      case Acked(_, _) => front
  }

  /** No QoS 2 message is delivered under an identifier that is still open. */
  ghost predicate OncePerRelease(log: seq<Log>) {
    forall i :: 0 <= i < |log| && log[i].Delivered? && log[i].msg.qos.ExactlyOnce? ==> log[i].msg.id !in Open(log[..i])
  }

  ghost predicate ReceiverInv(s: State) {
    && OncePerRelease(s.log)
    && forall id: u16 :: Key(PubRec, id) in s.pending <==> id in Open(s.log)
  }

  lemma LogMore(log: seq<Log>, x: Log)
    requires OncePerRelease(log)
    requires x.Delivered? && x.msg.qos.ExactlyOnce? ==> x.msg.id !in Open(log)
    ensures OncePerRelease(log + [x])
    ensures (log + [x])[..|log|] == log
  {
    var more := log + [x];
    assert more[..|log|] == log;
    forall i | 0 <= i < |more| && more[i].Delivered? && more[i].msg.qos.ExactlyOnce?
      ensures more[i].msg.id !in Open(more[..i])
    {
      if i < |log| { assert more[..i] == log[..i]; }
    }
  }

  lemma AcknowledgeReceiver(s: State, key: Key, stage: Stage)
    requires ReceiverInv(s) && key.ty != PubRec
    ensures ReceiverInv(Acknowledge(s, key, stage))
  {
    if key in s.pending {
      LogMore(s.log, Acked(stage, key.id));
    }
  }

  lemma OnPublishReceiver(s: State, m: Message, now: int, net: Network)
    requires ReceiverInv(s)
    ensures ReceiverInv(OnPublish(s, m, now, net))
  {
    var s' := OnPublish(s, m, now, net);
    if m.qos.ExactlyOnce? && Key(PubRec, m.id) in s.pending {
      assert s'.log == s.log && s'.pending == s.pending;
    } else {
      var entry := Delivered(m, DispatchNode(s.tree, Levels(m.topic), net).1);
      LogMore(s.log, entry);
      assert s'.log == s.log + [entry];
      assert s'.pending == if m.qos.ExactlyOnce? then s.pending[Key(PubRec, m.id) := PubRecPacket(m.id)] else s.pending;
    }
  }

  lemma OnPubRecReceiver(s: State, id: u16, now: int)
    requires ReceiverInv(s)
    ensures ReceiverInv(OnPubRec(s, id, now))
  {
    AcknowledgeReceiver(Releasing(s, id, now), Key(Publish, id), RecStage);
  }

  lemma OnPubRelReceiver(s: State, id: u16)
    requires ReceiverInv(s)
    ensures ReceiverInv(OnPubRel(s, id))
  {
    LogMore(s.log, Released(id));
  }

  /** The memory of delivered identifiers is exact after every incoming packet. */
  lemma OnPacketReceiver(s: State, p: Packet, now: int, net: Network)
    requires ReceiverInv(s) && (p.SubAckPacket? ==> p.results.Valid())
    ensures ReceiverInv(OnPacket(s, p, now, net).0)
  {
    if s.signal.Some? {
      match p
      case PublishPacket(m) => OnPublishReceiver(s, m, now, net);
      case PubAckPacket(id) => AcknowledgeReceiver(s, Key(Publish, id), AckStage);
      case PubRecPacket(id) => OnPubRecReceiver(s, id, now);
      case PubRelPacket(id) => OnPubRelReceiver(s, id);
      case PubCompPacket(id) => AcknowledgeReceiver(s, Key(PubRel, id), CompStage);
      case _ =>
    }
  }

  lemma OnCommandReceiver(s: State, c: Command, now: int)
    requires ReceiverInv(s)
    ensures ReceiverInv(OnCommand(s, c, now)) && OnCommand(s, c, now).log == s.log
  {
  }

  /** Every QoS 2 publish, duplicate or not, is answered with PUBREC; it is delivered exactly
  when its identifier is not open. */
  lemma PublishAlwaysAnswered(s: State, m: Message, now: int, net: Network)
    requires Shapes(s) && ReceiverInv(s) && m.qos.ExactlyOnce?
    ensures OnPublish(s, m, now, net).sent == s.sent + [Handed(PubRecPacket(m.id), false)]
    ensures OnPublish(s, m, now, net).log ==
            if m.id in Open(s.log) then s.log else s.log + [Delivered(m, DispatchNode(s.tree, Levels(m.topic), net).1)]
  {
  }

  /** The message at position `i` was delivered with this identifier, which has not been released since. */
  ghost predicate OpenFrom(log: seq<Log>, id: u16, i: int) {
    && 0 <= i < |log| && log[i].Delivered? && log[i].msg.qos.ExactlyOnce? && log[i].msg.id == id
    && Released(id) !in log[i + 1..]
  }

  lemma OpenFromSnoc(front: seq<Log>, last: Log, id: u16, i: int)
    requires i != |front|
    ensures OpenFrom(front + [last], id, i) <==> OpenFrom(front, id, i) && last != Released(id)
  {
    if 0 <= i < |front| {
      assert (front + [last])[i + 1..] == front[i + 1..] + [last];
    }
  }

  lemma {:induction false} OpenMeans(log: seq<Log>, id: u16)
    ensures id in Open(log) <==> exists i :: OpenFrom(log, id, i)
  {
    if log != [] {
      var n := |log| - 1;
      OpenMeans(log[..n], id);
      assert log == log[..n] + [log[n]] && log[n + 1..] == [];
      forall i | i != n ensures OpenFrom(log, id, i) <==> OpenFrom(log[..n], id, i) && log[n] != Released(id) {
        OpenFromSnoc(log[..n], log[n], id, i);
      }
      if i :| OpenFrom(log[..n], id, i) {
        assert i != n;
      }
      assert OpenFrom(log, id, n) <==> log[n].Delivered? && log[n].msg.qos.ExactlyOnce? && log[n].msg.id == id;
    }
  }

  /** Between two deliveries of QoS 2 publishes with the same identifier, a PUBREL with that
  identifier was processed. */
  lemma ReleaseBetweenDeliveries(log: seq<Log>, i: nat, j: nat)
    requires OncePerRelease(log) && i < j < |log|
    requires log[i].Delivered? && log[j].Delivered? && log[i].msg.id == log[j].msg.id
    requires log[i].msg.qos.ExactlyOnce? && log[j].msg.qos.ExactlyOnce?
    ensures exists l :: i < l < j && log[l] == Released(log[i].msg.id)
  {
    var id := log[i].msg.id;
    var front := log[..j];
    OpenMeans(front, id);
    assert front[i] == log[i];
    assert !OpenFrom(front, id, i);
    var l :| 0 <= l < |front[i + 1..]| && front[i + 1..][l] == Released(id);
    assert log[i + 1 + l] == Released(id);
  }

  // ----- Subscriptions -----

  ghost predicate TreeInv(tree: Node) {
    Clean(tree) && AllLeavesValid(tree)
  }

  /** What clients are told exists is subscribed in the tree. */
  ghost predicate Agreement(s: State) {
    && TreeInv(s.tree)
    && forall t <- s.shared.subs :: s.shared.subs[t].Existing? && ValidPattern(Levels(t)) ==>
         Leaf(s.tree, Levels(t)).subscribed
  }

  lemma LevelsInjective(a: seq<byte>, b: seq<byte>)
    requires Levels(a) == Levels(b)
    ensures a == b
  {
    JoinInvertsLevels(a);
    JoinInvertsLevels(b);
  }

  lemma AddedValid(s: Subscription, kind: SubscriptionKind)
    requires s.Valid() && s.subscribed
    ensures Added(s, kind).Valid() && Added(s, kind).subscribed
  {
    if kind.FastCallback? {
      SortedInsertUnique(s.callbacks, kind.id);
    }
  }

  lemma DeliverTree(tree: Node, topic: seq<Level>, net: Network)
    requires TreeInv(tree) && topic != []
    ensures TreeInv(DispatchNode(tree, topic, net).0)
    ensures forall p :: Leaf(DispatchNode(tree, topic, net).0, p).subscribed == Leaf(tree, p).subscribed
  {
    var tree' := DispatchNode(tree, topic, net).0;
    DispatchUpdates(tree, topic, net, []);
    forall p ensures Leaf(tree', p).Valid() && Leaf(tree', p).subscribed == Leaf(tree, p).subscribed {
      DispatchUpdates(tree, topic, net, p);
      DispatchKeepsLeafValid(Leaf(tree, p), net);
    }
  }

  lemma SetLeafTree(tree: Node, p: seq<Level>, leaf: Subscription)
    requires TreeInv(tree) && LeafAt(tree, p).Some? && leaf.Valid()
    ensures TreeInv(SetLeaf(tree, p, leaf))
    ensures forall q :: Leaf(SetLeaf(tree, p, leaf), q) == if q == p then leaf else Leaf(tree, q)
  {
    SetLeafLocal(tree, p, leaf, []);
    forall q ensures Leaf(SetLeaf(tree, p, leaf), q) == (if q == p then leaf else Leaf(tree, q)) {
      SetLeafLocal(tree, p, leaf, q);
    }
  }

  lemma GrowTree(tree: Node, p: seq<Level>)
    requires TreeInv(tree) && p != []
    ensures TreeInv(Grow(tree, p)) && forall q :: Leaf(Grow(tree, p), q) == Leaf(tree, q)
    ensures LeafAt(Grow(tree, p), p).Some? <==> ValidPattern(p)
  {
    GrowIsInvisible(tree, p);
  }

  /** The leaf of the topic has the recipient of `kind`, and no other leaf is touched. */
  ghost predicate TreeGains(tree: Node, tree': Node, topic: seq<byte>, kind: SubscriptionKind) {
    && (ValidPattern(Levels(topic)) ==> Gains(Leaf(tree, Levels(topic)), Leaf(tree', Levels(topic)), kind))
    && (forall q :: q != Levels(topic) || !ValidPattern(q) ==> Leaf(tree', q) == Leaf(tree, q))
  }

  lemma SubscribedTree(tree: Node, topic: seq<byte>, kind: SubscriptionKind)
    requires TreeInv(tree)
    ensures TreeInv(Subscribed(tree, topic, kind))
    ensures TreeGains(tree, Subscribed(tree, topic, kind), topic, kind)
  {
    var p := Levels(topic);
    var grown := Grow(tree, p);
    GrowTree(tree, p);
    if LeafAt(grown, p).Some? {
      var leaf := LeafAt(grown, p).value;
      assert leaf == Leaf(grown, p);
      AddedValid(leaf.(subscribed := true), kind);
      AddedGains(leaf, kind);
      SetLeafTree(grown, p, Added(leaf.(subscribed := true), kind));
    }
  }

  lemma AcknowledgeAgreement(s: State, key: Key, stage: Stage)
    requires Agreement(s)
    ensures Agreement(Acknowledge(s, key, stage))
  {
    var s' := Acknowledge(s, key, stage);
    assert s'.tree == s.tree && s'.shared.subs == s.shared.subs;
  }

  lemma OnSubAckAgreement(s: State, id: u16, results: seq<SubscriptionResult>)
    requires Agreement(s)
    ensures Agreement(OnSubAck(s, id, results))
  {
    var s' := OnSubAck(s, id, results);
    if id in s.pendingSubs {
      var sub := s.pendingSubs[id];
      SubscribedTree(s.tree, sub.topic, sub.kind);
      forall t | t in s'.shared.subs && s'.shared.subs[t].Existing? && ValidPattern(Levels(t))
        ensures Leaf(s'.tree, Levels(t)).subscribed
      {
        if Levels(t) == Levels(sub.topic) {
          LevelsInjective(t, sub.topic);
        }
      }
    }
  }

  /** Only the tree and the map of subscriptions matter. */
  lemma SameAgreement(s: State, s': State)
    requires Agreement(s) && s'.tree == s.tree && s'.shared.subs == s.shared.subs
    ensures Agreement(s')
  {
  }

  lemma DeliverAgreement(s: State, m: Message, net: Network)
    requires Agreement(s)
    ensures Agreement(Deliver(s, m, net))
  {
    DeliverTree(s.tree, Levels(m.topic), net);
  }

  lemma OnPublishAgreement(s: State, m: Message, now: int, net: Network)
    requires Agreement(s)
    ensures Agreement(OnPublish(s, m, now, net))
  {
    var s1 := Answered(s, m, now);
    SameAgreement(s, s1);
    if !IsRepeat(s, m) {
      DeliverAgreement(s1, m, net);
    }
  }

  lemma OnPacketCutAgreement(s: State, p: Packet, now: int)
    requires Agreement(s) && CallsForAnswer(s, p)
    ensures Agreement(OnPacketCut(s, p, now))
  {
    SameAgreement(s, OnPacketCut(s, p, now));
  }

  /** The tree and the map of subscriptions agree after every incoming packet. */
  lemma OnPacketAgreement(s: State, p: Packet, now: int, net: Network)
    requires Agreement(s) && (p.SubAckPacket? ==> p.results.Valid())
    ensures Agreement(OnPacket(s, p, now, net).0)
  {
    if s.signal.Some? {
      match p
      case PublishPacket(m) => OnPublishAgreement(s, m, now, net);
      case PubAckPacket(id) => AcknowledgeAgreement(s, Key(Publish, id), AckStage);
      case PubRecPacket(id) => AcknowledgeAgreement(Releasing(s, id, now), Key(Publish, id), RecStage);
      case PubCompPacket(id) => AcknowledgeAgreement(s, Key(PubRel, id), CompStage);
      case SubAckPacket(id, results) => OnSubAckAgreement(s, id, results.Results());
      case _ =>
    }
  }

  lemma OnCommandAgreement(s: State, c: Command, now: int)
    requires Agreement(s)
    ensures Agreement(OnCommand(s, c, now))
  {
    match c
    case PublishCommand(_) =>
    case SubscribeCommand(topic, qos, kind) =>
      var p := Levels(topic);
      if !HitsHash(s.tree, p) && LeafAt(s.tree, p).Some? && LeafAt(s.tree, p).value.subscribed {
        assert Leaf(s.tree, p).Valid();
        AddedValid(LeafAt(s.tree, p).value, kind);
        SetLeafTree(s.tree, p, Added(LeafAt(s.tree, p).value, kind));
      }
    case UnsubCommand(topic, how) => OnUnsubAgreement(s, topic, how, now);
  }

  lemma OnUnsubAgreement(s: State, topic: seq<byte>, how: UnsubKind, now: int)
    requires Agreement(s)
    ensures Agreement(OnUnsub(s, topic, how, now))
  {
    var p := Levels(topic);
    var s' := OnUnsub(s, topic, how, now);
    if !HitsHash(s.tree, p) && LeafAt(s.tree, p).Some? {
      var leaf := LeafAt(s.tree, p).value;
      assert Leaf(s.tree, p).Valid();
      match how
      case RemoveCallback(id) =>
        RemoveUnique(leaf.callbacks, id);
        SetLeafTree(s.tree, p, leaf.(callbacks := WithoutCallback(leaf.callbacks, id)));
      case Immediate =>
        if leaf.subscribed {
          SetLeafTree(s.tree, p, EMPTY);
          forall t | t in s'.shared.subs && s'.shared.subs[t].Existing? && ValidPattern(Levels(t))
            ensures Leaf(s'.tree, Levels(t)).subscribed
          {
            if Levels(t) == p {
              LevelsInjective(t, topic);
            }
          }
        }
    }
  }

  /** At most `n` turns of the alarm loop in closed form. */
  lemma PassExact(s: State, ping: bool, delay: int, clock: nat -> int, n: nat)
    requires n <= |s.timeouts|
    ensures var (ts, more) := (s.timeouts[..n], s.timeouts[n..]);
            var j := ExpiredCount(ts, delay, clock, 0);
            && j <= n
            && AlarmPass(Pinged(s, ping), n, delay, clock, 0) ==
               s.(timeouts := ts[j..] + more + Requeued(s, ts[..j], clock, 0),
                  sent := Pinged(s, ping).sent + Resent(s, ts[..j]))
  {
    var s1 := Pinged(s, ping);
    var (ts, more) := (s.timeouts[..n], s.timeouts[n..]);
    assert s1.timeouts == ts + more;
    AlarmPassExact(s1, ts, more, delay, clock, 0);
    SameFlight(s, s1, ts[..ExpiredCount(ts, delay, clock, 0)], clock, 0);
  }

  /** The whole alarm branch in closed form. */
  lemma AlarmExact(s: State, ping: bool, delay: int, clock: nat -> int)
    requires s.signal.Some?
    ensures var j := ExpiredCount(s.timeouts, delay, clock, 0);
            && j <= |s.timeouts|
            && OnAlarm(s, ping, delay, clock) ==
               s.(timeouts := s.timeouts[j..] + Requeued(s, s.timeouts[..j], clock, 0),
                  sent := s.sent + (if ping then [Handed(PingReqPacket, false)] else []) + Resent(s, s.timeouts[..j]))
    ensures Ordered(s.timeouts, clock(0)) && Monotone(clock) ==>
              forall i :: 0 <= i < |s.timeouts| ==>
                && (clock(0) - s.timeouts[i].t >= delay ==> i < ExpiredCount(s.timeouts, delay, clock, 0))
                && (i < ExpiredCount(s.timeouts, delay, clock, 0) ==> clock(2 * i) - s.timeouts[i].t >= delay)
  {
    var j := ExpiredCount(s.timeouts, delay, clock, 0);
    assert s.timeouts[..|s.timeouts|] == s.timeouts && s.timeouts[|s.timeouts|..] == [];
    PassExact(s, ping, delay, clock, |s.timeouts|);
    assert s.timeouts[j..] + [] == s.timeouts[j..] && s.sent + [] == s.sent;
    if Ordered(s.timeouts, clock(0)) && Monotone(clock) {
      forall i | 0 <= i < |s.timeouts|
        ensures (clock(0) - s.timeouts[i].t >= delay ==> i < ExpiredCount(s.timeouts, delay, clock, 0))
                && (i < ExpiredCount(s.timeouts, delay, clock, 0) ==> clock(2 * i) - s.timeouts[i].t >= delay)
      {
        TakenExactlyExpired(s.timeouts, delay, clock, 0, i);
      }
    }
  }

  lemma {:induction false} AllExpired(ts: seq<Timeout>, delay: int, clock: nat -> int, k: nat)
    requires forall i :: 0 <= i < |ts| ==> clock(k + 2 * i) - ts[i].t >= delay
    ensures ExpiredCount(ts, delay, clock, k) == |ts|
  {
    if ts != [] {
      assert clock(k + 2 * 0) - ts[0].t >= delay;
      forall i | 0 <= i < |ts[1..]| ensures clock(k + 2 + 2 * i) - ts[1..][i].t >= delay {
        assert k + 2 + 2 * i == k + 2 * (i + 1);
      }
      AllExpired(ts[1..], delay, clock, k + 2);
    }
  }

  lemma {:induction false} RequeuedSnoc(s: State, ts: seq<Timeout>, last: Timeout, clock: nat -> int, k: nat)
    requires Live(s, last.key)
    ensures Requeued(s, ts + [last], clock, k) ==
            Requeued(s, ts, clock, k) + [Timeout(clock(k + 2 * |ts| + 1), last.key)]
  {
    var more := ts + [last];
    if ts == [] {
      assert more[1..] == [] && k + 2 * |ts| + 1 == k + 1;
    } else {
      assert more[1..] == ts[1..] + [last];
      RequeuedSnoc(s, ts[1..], last, clock, k + 2);
      assert k + 2 + 2 * |ts[1..]| + 1 == k + 2 * |ts| + 1;
    }
  }

  /** The alarm branch that fails at turn `n`, in closed form: the packets of the first `n` entries that are in
  flight were handed over, and all those entries but the last are back at the end. */
  lemma AlarmCutExact(s: State, ping: bool, delay: int, clock: nat -> int, n: nat)
    requires CutsAt(s, ping, delay, clock, n)
    ensures OnAlarmCut(s, ping, delay, clock, n) ==
            s.(timeouts := s.timeouts[n..] + Requeued(s, Front(s.timeouts[..n]), clock, 0),
               sent := s.sent + (if ping then [Handed(PingReqPacket, false)] else []) + Resent(s, s.timeouts[..n]))
  {
    FullPass(s, ping, delay, clock, n);
    if n > 0 {
      LastRequeued(s, clock, n);
    }
  }

  lemma FullPass(s: State, ping: bool, delay: int, clock: nat -> int, n: nat)
    requires CutsAt(s, ping, delay, clock, n)
    ensures AlarmPass(Pinged(s, ping), n, delay, clock, 0) ==
            s.(timeouts := s.timeouts[n..] + Requeued(s, s.timeouts[..n], clock, 0),
               sent := s.sent + (if ping then [Handed(PingReqPacket, false)] else []) + Resent(s, s.timeouts[..n]))
  {
    var ts := s.timeouts[..n];
    AllExpired(ts, delay, clock, 0);
    PassExact(s, ping, delay, clock, n);
    assert ts[n..] == [] && ts[..n] == ts && [] + s.timeouts[n..] == s.timeouts[n..] && s.sent + [] == s.sent;
  }

  lemma LastRequeued(s: State, clock: nat -> int, n: nat)
    requires 0 < n <= |s.timeouts| && Live(s, s.timeouts[n - 1].key)
    ensures Front(s.timeouts[n..] + Requeued(s, s.timeouts[..n], clock, 0)) ==
            s.timeouts[n..] + Requeued(s, Front(s.timeouts[..n]), clock, 0)
  {
    var (ts, last) := (s.timeouts[..n], s.timeouts[n - 1]);
    assert ts == Front(ts) + [last];
    RequeuedSnoc(s, Front(ts), last, clock, 0);
    FrontOf(s.timeouts[n..], Requeued(s, Front(ts), clock, 0), Timeout(clock(2 * (n - 1) + 1), last.key));
  }

  lemma FrontOf<T>(a: seq<T>, b: seq<T>, x: T)
    ensures Front(a + (b + [x])) == a + b
  {
  }

  /** DISCONNECT has not been sent yet. */
  ghost predicate NoDisconnect(sent: seq<Handed>) {
    forall h <- sent :: h.packet != DisconnectPacket
  }

  /** Only the timeout queue and the history differ. */
  ghost predicate SameButSent(s: State, s': State) {
    s' == s.(timeouts := s'.timeouts, sent := s'.sent)
  }

  lemma OnAlarmKeeps(s: State, ping: bool, delay: int, clock: nat -> int)
    ensures SameButSent(s, OnAlarm(s, ping, delay, clock))
  {
    if s.signal.Some? {
      PassExact(s, ping, delay, clock, |s.timeouts|);
    }
  }

  lemma OnAlarmCutKeeps(s: State, ping: bool, delay: int, clock: nat -> int, n: nat)
    requires n <= |s.timeouts|
    ensures SameButSent(s, OnAlarmCut(s, ping, delay, clock, n))
  {
    PassExact(s, ping, delay, clock, n);
  }
}
