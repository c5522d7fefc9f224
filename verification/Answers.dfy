/** The answers a run gives, counted: what the peer asked for is what it gets. */
module Answers {
  import opened Wrappers
  import opened ByteIo
  import opened Packets
  import opened Subscriptions
  import opened Protocol
  import opened ProtocolProofs
  import opened Systems
  import opened SystemProofs
  import opened Histories
  import opened Completion
  import opened Exchange

  /** How often a packet was handed over. */
  ghost function Copies(sent: seq<Handed>, p: Packet): nat {
    if sent == [] then 0
    else Copies(sent[..|sent| - 1], p) + (if sent[|sent| - 1].packet == p then 1 else 0)
  }

  /** The event is a packet that calls for this answer. */
  ghost predicate Asks(x: Sys, e: Event, answer: Packet) {
    x.t.signal.Some? && (e.Receive? || e.CutReceive?) && answer in Reply(e.packet)
  }

  /** How often a run was asked for this answer. */
  ghost function Asked(connect: ConnectInfo, es: seq<Event>, answer: Packet): nat
    requires Run(Systems.Init(connect), es)
    decreases |es|
  {
    if es == [] then 0
    else
      var front := es[..|es| - 1];
      Asked(connect, front, answer)
      + (if Asks(After(Systems.Init(connect), front), es[|es| - 1], answer) then 1 else 0)
  }

  lemma CopiesSnoc(sent: seq<Handed>, h: Handed, p: Packet)
    ensures Copies(sent + [h], p) == Copies(sent, p) + (if h.packet == p then 1 else 0)
  {
    assert (sent + [h])[..|sent|] == sent;
  }

  /** What comes after does not matter if it is something else. */
  lemma {:induction false} CopiesMore(sent: seq<Handed>, more: seq<Handed>, p: Packet)
    requires sent <= more
    ensures Copies(sent, p) <= Copies(more, p)
    ensures (forall i :: |sent| <= i < |more| ==> more[i].packet != p) ==> Copies(more, p) == Copies(sent, p)
    decreases |more|
  {
    if |sent| < |more| {
      CopiesMore(sent, more[..|more| - 1], p);
    } else {
      assert sent == more;
    }
  }

  lemma CopiesReplied(s: State, s': State, p: Packet, answer: Packet)
    requires Replied(s, s', p)
    ensures Copies(s'.sent, answer) == Copies(s.sent, answer) + (if answer in Reply(p) then 1 else 0)
  {
    if Reply(p) == [] {
      assert s.sent + [] == s.sent;
    } else {
      assert Reply(p) == [Reply(p)[0]] && Reply(p)[1..] == [];
      assert Plain(Reply(p)) == [Handed(Reply(p)[0], false)];
      CopiesSnoc(s.sent, Handed(Reply(p)[0], false), answer);
    }
  }

  /** Never repeated, never sent of the client's own accord. */
  ghost predicate IsOneShot(p: Packet) {
    p.PubAckPacket? || p.PubCompPacket?
  }

  lemma StoppedCopies(x: Sys, p: Packet)
    requires p != DisconnectPacket
    ensures Copies(Stopped(x).t.sent, p) == Copies(x.t.sent, p)
  {
    CopiesSnoc(x.t.sent, Handed(DisconnectPacket, false), p);
  }

  lemma ReceiveCopies(x: Sys, e: Event, p: Packet)
    requires TaskInv(x) && Enabled(x, e) && e.Receive? && p != DisconnectPacket
    ensures Copies(Step(x, e).t.sent, p) == Copies(x.t.sent, p) + (if Asks(x, e, p) then 1 else 0)
  {
    var t' := OnPacket(x.t, e.packet, e.now, e.net).0;
    if x.t.signal.Some? {
      PacketExact(x.t, e.packet, e.now, e.net);
      CopiesReplied(x.t, t', e.packet, p);
    }
    StoppedCopies(x.(t := t', clock := e.now), p);
  }

  lemma CutReceiveCopies(x: Sys, e: Event, p: Packet)
    requires TaskInv(x) && Enabled(x, e) && e.CutReceive? && p != DisconnectPacket
    ensures Copies(Step(x, e).t.sent, p) == Copies(x.t.sent, p) + (if Asks(x, e, p) then 1 else 0)
  {
    var t' := OnPacketCut(x.t, e.packet, e.now);
    CutExact(x.t, e.packet, e.now);
    CopiesReplied(x.t, t', e.packet, p);
    StoppedCopies(x.(t := t', clock := e.now, broken := true), p);
  }

  lemma PassCopies(s: State, ping: bool, delay: int, clock: nat -> int, n: nat, p: Packet)
    requires Kept(s) && n <= |s.timeouts| && IsOneShot(p)
    ensures Copies(AlarmPass(Pinged(s, ping), n, delay, clock, 0).sent, p) == Copies(s.sent, p)
  {
    PassRepeats(s, ping, delay, clock, n);
    var sent' := AlarmPass(Pinged(s, ping), n, delay, clock, 0).sent;
    forall i | |s.sent| <= i < |sent'| ensures sent'[i].packet != p {
      assert Copied(s, sent'[i]);
    }
    CopiesMore(s.sent, sent', p);
  }

  /** A command hands over requests only. */
  lemma ObeyAsks(s: State, c: Command, now: int)
    ensures var sent' := OnCommand(s, c, now).sent;
            && s.sent <= sent'
            && forall i :: |s.sent| <= i < |sent'| ==>
                 var p := sent'[i].packet; p.PublishPacket? || p.SubscribePacket? || p.UnsubscribePacket?
  {
  }

  lemma ObeyCopies(s: State, c: Command, now: int, p: Packet)
    requires IsOneShot(p)
    ensures Copies(OnCommand(s, c, now).sent, p) == Copies(s.sent, p)
  {
    ObeyAsks(s, c, now);
    CopiesMore(s.sent, OnCommand(s, c, now).sent, p);
  }

  lemma TaskCopies(x: Sys, e: Event, p: Packet)
    requires TaskInv(x) && Enabled(x, e) && IsTaskStep(e) && IsOneShot(p)
    ensures Copies(Step(x, e).t.sent, p) == Copies(x.t.sent, p) + (if Asks(x, e, p) then 1 else 0)
  {
    match e
    case Receive(_, _, _) => ReceiveCopies(x, e, p);
    case CutReceive(_, _) => CutReceiveCopies(x, e, p);
    case Obey(now) => ObeyCopies(x.t, x.cmds[0], now, p);
    case CutObey(now) =>
      ObeyCopies(x.t, x.cmds[0], now, p);
      StoppedCopies(Obeyed(x, OnCommandCut(x.t, x.cmds[0], now), now).(broken := true), p);
    case Tick(ping, delay, readings, end) =>
      if x.t.signal.Some? {
        PassCopies(x.t, ping, delay, readings, |x.t.timeouts|, p);
      }
    case CutTick(ping, delay, readings, end, n) =>
      PassCopies(x.t, ping, delay, readings, n, p);
      StoppedCopies(x.(t := OnAlarmCut(x.t, ping, delay, readings, n), clock := end, broken := true), p);
  }

  lemma OneShotStep(x: Sys, e: Event, p: Packet)
    requires TaskInv(x) && Enabled(x, e) && IsOneShot(p)
    ensures Copies(Step(x, e).t.sent, p) == Copies(x.t.sent, p) + (if Asks(x, e, p) then 1 else 0)
  {
    if IsTaskStep(e) {
      TaskCopies(x, e, p);
    } else if e.Exit? {
      StoppedCopies(x, p);
    } else {
      SendsNothing(x, e);
    }
  }

  lemma SendsNothing(x: Sys, e: Event)
    requires Enabled(x, e) && !IsTaskStep(e) && !e.Exit?
    ensures Step(x, e).t.sent == x.t.sent
  {
    if IsCallStep(e) {
      CallSteps(x, e);
    } else if IsSubStep(e) {
      SubSteps(x, e);
    }
  }

  /** In every run, PUBACK and PUBCOMP go out exactly as often as they are asked for, under the identifier
  asked for: one PUBCOMP for every PUBREL, one PUBACK for every QoS 1 message. */
  lemma {:induction false} EveryAnswerOnce(connect: ConnectInfo, es: seq<Event>, p: Packet)
    requires Run(Systems.Init(connect), es) && IsOneShot(p)
    ensures Copies(After(Systems.Init(connect), es).t.sent, p) == Asked(connect, es, p)
    decreases |es|
  {
    if es == [] {
      var sent := Systems.Init(connect).t.sent;
      assert sent == [] + [Handed(ConnectPacket(connect), false)];
      CopiesSnoc([], Handed(ConnectPacket(connect), false), p);
    } else {
      var front := es[..|es| - 1];
      EveryRunTask(connect, front);
      EveryAnswerOnce(connect, front, p);
      OneShotStep(After(Systems.Init(connect), front), es[|es| - 1], p);
    }
  }

  /** PUBREC and PUBREL go out at least that often: they are repeated until they are acknowledged. */
  ghost predicate IsRepeated(p: Packet) {
    p.PubRecPacket? || p.PubRelPacket?
  }

  lemma RepeatedStep(x: Sys, e: Event, p: Packet)
    requires TaskInv(x) && Enabled(x, e) && IsRepeated(p)
    ensures Copies(Step(x, e).t.sent, p) >= Copies(x.t.sent, p) + (if Asks(x, e, p) then 1 else 0)
  {
    if e.Receive? {
      ReceiveCopies(x, e, p);
    } else if e.CutReceive? {
      CutReceiveCopies(x, e, p);
    } else {
      SentStep(x, e);
      CopiesMore(x.t.sent, Step(x, e).t.sent, p);
    }
  }

  lemma {:induction false} EveryAnswerAtLeastOnce(connect: ConnectInfo, es: seq<Event>, p: Packet)
    requires Run(Systems.Init(connect), es) && IsRepeated(p)
    ensures Copies(After(Systems.Init(connect), es).t.sent, p) >= Asked(connect, es, p)
    decreases |es|
  {
    if es != [] {
      var front := es[..|es| - 1];
      EveryRunTask(connect, front);
      EveryAnswerAtLeastOnce(connect, front, p);
      RepeatedStep(After(Systems.Init(connect), front), es[|es| - 1], p);
    }
  }

  // ----- The end of the conversation -----

  /** DISCONNECT is the last packet of a task that stopped on an answered connection, and was sent by no
  other. */
  ghost predicate SaysGoodbye(x: Sys) {
    if x.phase.Running? || x.phase == Ended(true) || x.t.signal.None? then NoDisconnect(x.t.sent)
    else
      && x.t.sent != [] && x.t.sent[|x.t.sent| - 1] == Handed(DisconnectPacket, false)
      && NoDisconnect(x.t.sent[..|x.t.sent| - 1])
  }

  lemma StoppedGoodbye(x: Sys)
    requires NoDisconnect(x.t.sent)
    ensures SaysGoodbye(Stopped(x))
  {
    var sent' := Stopped(x).t.sent;
    assert x.t.signal.Some? ==> sent'[..|sent'| - 1] == x.t.sent;
  }

  lemma CutGoodbye(x: Sys, e: Event)
    requires TaskInv(x) && Enabled(x, e) && NoDisconnect(x.t.sent) && (e.CutReceive? || e.CutObey? || e.CutTick?)
    ensures SaysGoodbye(Step(x, e))
  {
    match e
    case CutReceive(p, now) =>
      CutExact(x.t, p, now);
      StoppedGoodbye(x.(t := OnPacketCut(x.t, p, now), clock := now, broken := true));
    case CutObey(now) =>
      ObeyNoDisconnect(x.t, x.cmds[0], now);
      StoppedGoodbye(Obeyed(x, OnCommandCut(x.t, x.cmds[0], now), now).(broken := true));
    case CutTick(ping, delay, readings, end, n) =>
      PassNoDisconnect(x.t, ping, delay, readings, n);
      StoppedGoodbye(x.(t := OnAlarmCut(x.t, ping, delay, readings, n), clock := end, broken := true));
  }

  lemma ReceiveGoodbye(x: Sys, p: Packet, now: int, net: Network)
    requires TaskInv(x) && Enabled(x, Receive(p, now, net)) && NoDisconnect(x.t.sent)
    ensures SaysGoodbye(Received(x, p, now, net))
  {
    ReceiveNoDisconnect(x.t, p, now, net);
    StoppedGoodbye(x.(t := OnPacket(x.t, p, now, net).0, clock := now));
  }

  lemma ObeyGoodbye(x: Sys, now: int)
    requires Enabled(x, Obey(now)) && NoDisconnect(x.t.sent)
    ensures SaysGoodbye(Step(x, Obey(now)))
  {
    ObeyNoDisconnect(x.t, x.cmds[0], now);
  }

  lemma TickGoodbye(x: Sys, e: Event)
    requires TaskInv(x) && Enabled(x, e) && e.Tick? && NoDisconnect(x.t.sent)
    ensures SaysGoodbye(Step(x, e))
  {
    TickNoDisconnect(x.t, e.ping, e.delay, e.readings);
  }

  lemma GoodbyeStep(x: Sys, e: Event)
    requires TaskInv(x) && Enabled(x, e) && SaysGoodbye(x)
    ensures SaysGoodbye(Step(x, e))
  {
    if IsCallStep(e) {
      CallSteps(x, e);
    } else if IsSubStep(e) {
      SubSteps(x, e);
    } else {
      OwnGoodbye(x, e);
    }
  }

  lemma OwnGoodbye(x: Sys, e: Event)
    requires TaskInv(x) && Enabled(x, e) && SaysGoodbye(x) && !IsCallStep(e) && !IsSubStep(e)
    ensures SaysGoodbye(Step(x, e))
  {
    match e
    case Receive(p, now, net) => ReceiveGoodbye(x, p, now, net);
    case Obey(now) => ObeyGoodbye(x, now);
    case Tick(_, _, _, _) => TickGoodbye(x, e);
    case Exit(_) => StoppedGoodbye(x);
    case Cleanup => CleanupQuiet(x);
    case _ => CutGoodbye(x, e);
  }

  lemma {:induction false} EveryRunGoodbye(connect: ConnectInfo, es: seq<Event>)
    requires Run(Systems.Init(connect), es)
    ensures SaysGoodbye(After(Systems.Init(connect), es))
    decreases |es|
  {
    if es != [] {
      var front := es[..|es| - 1];
      EveryRunTask(connect, front);
      EveryRunGoodbye(connect, front);
      GoodbyeStep(After(Systems.Init(connect), front), es[|es| - 1]);
    }
  }
}
