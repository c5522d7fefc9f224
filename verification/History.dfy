/** The history of packets handed over, in every run of the client. */
module Histories {
  import opened Wrappers
  import opened ByteIo
  import opened Packets
  import opened RoundTrips
  import opened Subscriptions
  import opened Protocol
  import opened ProtocolProofs
  import opened Systems
  import opened SystemProofs

  // ----- Every publish goes out once without DUP, then only with it -----

  ghost predicate SentOnce(sent: seq<Handed>) {
    forall i, j, id :: 0 <= i < j < |sent| && Tracked(sent[i].packet, id) && Tracked(sent[j].packet, id) ==>
      sent[j] == Handed(sent[i].packet, true)
  }

  /** What the calls asked for is what the queue and the packets hold. */
  ghost predicate Content(x: Sys) {
    forall c <- x.calls :: TracksId(x.calls[c]) ==>
      && (forall i :: 0 <= i < |x.t.sent| && Tracked(x.t.sent[i].packet, x.calls[c].msg.id) ==>
           x.t.sent[i].packet.msg == x.calls[c].msg)
      && (forall i :: 0 <= i < |x.cmds| && Commanded(x.cmds[i], x.calls[c].msg.id) ==> x.cmds[i].msg == x.calls[c].msg)
  }

  /** A packet that is no new publish: something else, or one more copy with DUP. */
  ghost predicate Repeat(sent: seq<Handed>, h: Handed) {
    h.packet.PublishPacket? ==> h.setDup && Handed(h.packet, false) in sent
  }

  ghost predicate Repeats(sent: seq<Handed>, more: seq<Handed>) {
    sent <= more && forall i :: |sent| <= i < |more| ==> Repeat(sent, more[i])
  }

  lemma RepeatsKeep(x: Sys, x': Sys)
    requires SentOnce(x.t.sent) && Content(x) && Repeats(x.t.sent, x'.t.sent)
    requires forall c <- x'.calls :: c in x.calls && x'.calls[c].msg == x.calls[c].msg
    requires forall i :: 0 <= i < |x'.cmds| && x'.cmds[i].PublishCommand? ==> i < |x.cmds| && x'.cmds[i] == x.cmds[i]
    ensures SentOnce(x'.t.sent) && Content(x')
  {
    var sent, more := x.t.sent, x'.t.sent;
    forall i | |sent| <= i < |more| && more[i].packet.PublishPacket?
      ensures exists n :: 0 <= n < |sent| && sent[n] == Handed(more[i].packet, false) {
      assert Repeat(sent, more[i]);
    }
    forall i, j, id | 0 <= i < j < |more| && Tracked(more[i].packet, id) && Tracked(more[j].packet, id)
      ensures more[j] == Handed(more[i].packet, true)
    {
      Original(sent, more, i, id);
      Original(sent, more, j, id);
    }
    forall c | c in x'.calls && TracksId(x'.calls[c])
      ensures forall i :: 0 <= i < |more| && Tracked(more[i].packet, x'.calls[c].msg.id) ==>
                more[i].packet.msg == x'.calls[c].msg
    {
      forall i | 0 <= i < |more| && Tracked(more[i].packet, x'.calls[c].msg.id)
        ensures more[i].packet.msg == x'.calls[c].msg
      {
        Original(sent, more, i, x'.calls[c].msg.id);
      }
    }
  }

  /** Any tracked packet in the longer history is a copy of the first one in the shorter. */
  lemma Original(sent: seq<Handed>, more: seq<Handed>, i: nat, id: u16)
    requires SentOnce(sent) && Repeats(sent, more) && i < |more| && Tracked(more[i].packet, id)
    ensures exists n :: 0 <= n < |sent| && sent[n].packet == more[i].packet && Tracked(sent[n].packet, id)
                        && (forall m :: 0 <= m < |sent| && Tracked(sent[m].packet, id) ==>
                             sent[m].packet == more[i].packet)
    ensures i >= |sent| ==> more[i].setDup
  {
    if i < |sent| {
      assert sent[i] == more[i];
    } else {
      assert Repeat(sent, more[i]);
      var n :| 0 <= n < |sent| && sent[n] == Handed(more[i].packet, false);
      assert Tracked(sent[n].packet, id);
    }
  }

  // ----- What each event adds to the history of packets -----

  lemma OnPacketRepeats(s: State, p: Packet, now: int, net: Network)
    requires Shapes(s) && (p.SubAckPacket? ==> p.results.Valid())
    ensures Repeats(s.sent, OnPacket(s, p, now, net).0.sent)
  {
    OnPacketSends(s, p, now, net);
  }

  lemma {:induction false} ResentRepeats(s: State, ts: seq<Timeout>, i: nat)
    requires Shapes(s) && Backed(s) && i < |Resent(s, ts)|
    ensures Repeat(s.sent, Resent(s, ts)[i])
    ensures exists k :: Live(s, k) && Resent(s, ts)[i] == Handed(InFlight(s, k), k.ty == Publish)
    decreases |ts|
  {
    var n := if Live(s, ts[0].key) then 1 else 0;
    if i >= n {
      ResentRepeats(s, ts[1..], i - n);
      assert Resent(s, ts)[i] == Resent(s, ts[1..])[i - n];
    } else {
      assert Live(s, ts[0].key) && Resent(s, ts)[i] == Handed(InFlight(s, ts[0].key), ts[0].key.ty == Publish);
    }
  }

  /** Something that may follow `sent` without being new: a ping or a copy of what is in flight. */
  ghost predicate Copied(s: State, h: Handed) {
    h.packet == PingReqPacket || exists k :: Live(s, k) && h == Handed(InFlight(s, k), k.ty == Publish)
  }

  /** What the turns of the alarm loop add is a ping or a copy of something in flight. */
  lemma PassRepeats(s: State, ping: bool, delay: int, clock: nat -> int, n: nat)
    requires Kept(s) && n <= |s.timeouts|
    ensures var sent' := AlarmPass(Pinged(s, ping), n, delay, clock, 0).sent;
            Repeats(s.sent, sent') && forall i :: |s.sent| <= i < |sent'| ==> Copied(s, sent'[i])
  {
    PassExact(s, ping, delay, clock, n);
    ResentCopies(s, ping, s.timeouts[..n][..ExpiredCount(s.timeouts[..n], delay, clock, 0)]);
  }

  lemma ResentCopies(s: State, ping: bool, ts: seq<Timeout>)
    requires Kept(s)
    ensures var sent' := Pinged(s, ping).sent + Resent(s, ts);
            Repeats(s.sent, sent') && forall i :: |s.sent| <= i < |sent'| ==> Copied(s, sent'[i])
  {
    var base := Pinged(s, ping).sent;
    var sent' := base + Resent(s, ts);
    forall i | |s.sent| <= i < |sent'| ensures Repeat(s.sent, sent'[i]) && Copied(s, sent'[i]) {
      if i >= |base| {
        ResentRepeats(s, ts, i - |base|);
        assert sent'[i] == Resent(s, ts)[i - |base|];
      }
    }
  }

  // ----- The history invariant in every run -----

  ghost predicate HistoryInv(x: Sys) {
    SentOnce(x.t.sent) && Content(x)
  }

  lemma ObeyHistory(x: Sys, t': State, now: int)
    requires HistoryInv(x) && IdInv(x) && x.cmds != []
    requires t' == OnCommand(x.t, x.cmds[0], now).(timeouts := t'.timeouts)
    ensures HistoryInv(Obeyed(x, t', now))
  {
    var x' := Obeyed(x, t', now);
    var c := x.cmds[0];
    if c.PublishCommand? {
      var h := Handed(PublishPacket(c.msg), false);
      assert x'.t.sent == x.t.sent + [h];
      assert forall id :: Commanded(c, id) ==> !SentId(x.t.sent, id);
      forall i, j, id | 0 <= i < j < |x'.t.sent| && Tracked(x'.t.sent[i].packet, id) && Tracked(x'.t.sent[j].packet, id)
        ensures x'.t.sent[j] == Handed(x'.t.sent[i].packet, true)
      {
        assert x'.t.sent[i] == x.t.sent[i];
        assert SentId(x.t.sent, id);
        assert j < |x.t.sent| ==> x'.t.sent[j] == x.t.sent[j];
        assert j == |x.t.sent| ==> !Commanded(c, id);
      }
      forall d, i | d in x'.calls && TracksId(x'.calls[d]) && 0 <= i < |x'.t.sent|
          && Tracked(x'.t.sent[i].packet, x'.calls[d].msg.id)
        ensures x'.t.sent[i].packet.msg == x'.calls[d].msg
      {
        if i == |x.t.sent| {
          assert Commanded(x.cmds[0], x.calls[d].msg.id);
        } else {
          assert x'.t.sent[i] == x.t.sent[i];
        }
      }
    } else {
      OtherCommandHistory(x, c, now);
      assert SentOnce(x'.t.sent);
      forall d, i | d in x'.calls && TracksId(x'.calls[d]) && 0 <= i < |x'.t.sent|
          && Tracked(x'.t.sent[i].packet, x'.calls[d].msg.id)
        ensures x'.t.sent[i].packet.msg == x'.calls[d].msg
      {
        assert i < |x.t.sent| && x'.t.sent[i] == x.t.sent[i];
      }
    }
    assert forall i :: 0 <= i < |x'.cmds| ==> x'.cmds[i] == x.cmds[i + 1];
  }

  lemma OtherCommandHistory(x: Sys, c: Command, now: int)
    requires SentOnce(x.t.sent) && !c.PublishCommand?
    ensures x.t.sent <= OnCommand(x.t, c, now).sent && SentOnce(OnCommand(x.t, c, now).sent)
    ensures forall i :: |x.t.sent| <= i < |OnCommand(x.t, c, now).sent| ==>
              !OnCommand(x.t, c, now).sent[i].packet.PublishPacket?
  {
  }

  lemma SubmitHistory(x: Sys, call: nat)
    requires HistoryInv(x) && IdInv(x) && Enabled(x, Submit(call))
    ensures HistoryInv(Step(x, Submit(call)))
  {
    var x' := Step(x, Submit(call));
    if !x.phase.Ended? {
      forall d, i | d in x'.calls && TracksId(x'.calls[d]) && 0 <= i < |x'.cmds|
          && Commanded(x'.cmds[i], x'.calls[d].msg.id)
        ensures x'.cmds[i].msg == x'.calls[d].msg
      {
        if i < |x.cmds| { assert x'.cmds[i] == x.cmds[i]; }
      }
    }
  }

  lemma BeginHistory(x: Sys, e: Event)
    requires HistoryInv(x) && IdInv(x) && e.Begin? && Enabled(x, e) && Step(x, e).allocs <= 65536
    ensures HistoryInv(Step(x, e))
  {
    var x' := Step(x, e);
    if x'.allocs != x.allocs {
      Allocate(x.allocs);
      var id := x.t.shared.nextId;
      assert Unspent(x, id);
      assert forall i :: 0 <= i < |x.t.sent| ==> !Tracked(x.t.sent[i].packet, id);
    }
  }

  lemma StoppedHistory(x: Sys)
    requires HistoryInv(x)
    ensures HistoryInv(Stopped(x))
  {
    RepeatsKeep(x, Stopped(x));
  }

  lemma ReceiveHistory(x: Sys, p: Packet, now: int, net: Network)
    requires TaskInv(x) && HistoryInv(x) && Enabled(x, Receive(p, now, net))
    ensures HistoryInv(Step(x, Receive(p, now, net)))
  {
    OnPacketRepeats(x.t, p, now, net);
    var x' := x.(t := OnPacket(x.t, p, now, net).0, clock := now);
    RepeatsKeep(x, x');
    StoppedHistory(x');
  }

  lemma TickHistory(x: Sys, e: Event)
    requires TaskInv(x) && HistoryInv(x) && Enabled(x, e) && e.Tick?
    ensures HistoryInv(Step(x, e))
  {
    if x.t.signal.Some? {
      PassRepeats(x.t, e.ping, e.delay, e.readings, |x.t.timeouts|);
    }
    RepeatsKeep(x, Step(x, e));
  }

  lemma CutReceiveHistory(x: Sys, p: Packet, now: int)
    requires TaskInv(x) && HistoryInv(x) && Enabled(x, CutReceive(p, now))
    ensures HistoryInv(Step(x, CutReceive(p, now)))
  {
    var x' := x.(t := OnPacketCut(x.t, p, now), clock := now, broken := true);
    RepeatsKeep(x, x');
    StoppedHistory(x');
  }

  lemma CutObeyHistory(x: Sys, now: int)
    requires IdInv(x) && HistoryInv(x) && Enabled(x, CutObey(now))
    ensures HistoryInv(Step(x, CutObey(now)))
  {
    var t' := OnCommandCut(x.t, x.cmds[0], now);
    ObeyHistory(x, t', now);
    StoppedHistory(Obeyed(x, t', now).(broken := true));
  }

  lemma CutTickHistory(x: Sys, e: Event)
    requires TaskInv(x) && HistoryInv(x) && Enabled(x, e) && e.CutTick?
    ensures HistoryInv(Step(x, e))
  {
    PassRepeats(x.t, e.ping, e.delay, e.readings, e.turns);
    var x' := x.(t := OnAlarmCut(x.t, e.ping, e.delay, e.readings, e.turns), clock := e.end, broken := true);
    RepeatsKeep(x, x');
    StoppedHistory(x');
  }

  lemma QuietHistory(x: Sys, e: Event)
    requires HistoryInv(x) && Enabled(x, e) && (Quiet(e) || e.Push?)
    ensures HistoryInv(Step(x, e))
  {
    if Quiet(e) {
      QuietEffect(x, e);
    }
    RepeatsKeep(x, Step(x, e));
  }

  lemma StepHistory(x: Sys, e: Event)
    requires TaskInv(x) && IdInv(x) && HistoryInv(x) && Enabled(x, e) && Step(x, e).allocs <= 65536
    ensures HistoryInv(Step(x, e))
  {
    match e
    case Receive(p, now, net) => ReceiveHistory(x, p, now, net);
    case Obey(now) => ObeyHistory(x, OnCommand(x.t, x.cmds[0], now), now);
    case Tick(_, _, _, _) => TickHistory(x, e);
    case CutReceive(p, now) => CutReceiveHistory(x, p, now);
    case CutObey(now) => CutObeyHistory(x, now);
    case CutTick(_, _, _, _, _) => CutTickHistory(x, e);
    case Exit(_) => StoppedHistory(x);
    case Begin(_, _, _, _, _, _) => BeginHistory(x, e);
    case Submit(call) => SubmitHistory(x, call);
    case _ => QuietHistory(x, e);
  }

  /** In every run with distinct identifiers, a publish goes out once without DUP, and every
  later transmission of it is the same packet with DUP (section 3.3.1.1 of MQTT 3.1.1). */
  lemma {:induction false} EveryRunHistory(connect: ConnectInfo, es: seq<Event>)
    requires Run(Systems.Init(connect), es) && After(Systems.Init(connect), es).allocs <= 65536
    ensures HistoryInv(After(Systems.Init(connect), es))
    decreases |es|
  {
    if es != [] {
      var front, e := es[..|es| - 1], es[|es| - 1];
      var x := After(Systems.Init(connect), front);
      AllocsGrow(x, e);
      EveryRunHistory(connect, front);
      EveryRunIds(connect, front);
      EveryRunTask(connect, front);
      StepHistory(x, e);
    }
  }

  // ----- DISCONNECT comes last -----

  lemma PassNoDisconnect(s: State, ping: bool, delay: int, clock: nat -> int, n: nat)
    requires Kept(s) && NoDisconnect(s.sent) && n <= |s.timeouts|
    ensures NoDisconnect(AlarmPass(Pinged(s, ping), n, delay, clock, 0).sent)
  {
    PassRepeats(s, ping, delay, clock, n);
    var sent' := AlarmPass(Pinged(s, ping), n, delay, clock, 0).sent;
    forall h | h in sent' ensures h.packet != DisconnectPacket {
      var i :| 0 <= i < |sent'| && sent'[i] == h;
      if i >= |s.sent| {
        assert Copied(s, h);
      } else {
        assert sent'[i] == s.sent[i];
      }
    }
  }

  lemma TickNoDisconnect(s: State, ping: bool, delay: int, clock: nat -> int)
    requires Kept(s) && NoDisconnect(s.sent)
    ensures NoDisconnect(OnAlarm(s, ping, delay, clock).sent)
  {
    if s.signal.Some? {
      PassNoDisconnect(s, ping, delay, clock, |s.timeouts|);
    }
  }

  lemma ReceiveNoDisconnect(s: State, p: Packet, now: int, net: Network)
    requires Shapes(s) && NoDisconnect(s.sent) && (p.SubAckPacket? ==> p.results.Valid())
    ensures NoDisconnect(OnPacket(s, p, now, net).0.sent)
  {
    OnPacketSends(s, p, now, net);
    var sent' := OnPacket(s, p, now, net).0.sent;
    if sent' != s.sent {
      assert sent' == s.sent + [sent'[|s.sent|]];
    }
  }

  lemma ObeyNoDisconnect(s: State, c: Command, now: int)
    requires NoDisconnect(s.sent)
    ensures NoDisconnect(OnCommand(s, c, now).sent)
  {
  }

  lemma RunningSends(x: Sys, e: Event)
    requires TaskInv(x) && Enabled(x, e) && NoDisconnect(x.t.sent) && Step(x, e).phase.Running?
    ensures NoDisconnect(Step(x, e).t.sent)
  {
    if e.Receive? {
      ReceiveNoDisconnect(x.t, e.packet, e.now, e.net);
    } else if e.Obey? {
      ObeyNoDisconnect(x.t, x.cmds[0], e.now);
    } else if e.Tick? {
      TickNoDisconnect(x.t, e.ping, e.delay, e.readings);
    } else if IsCallStep(e) {
      CallSteps(x, e);
    } else if IsSubStep(e) {
      SubSteps(x, e);
    }
  }

  lemma RunsOn(x: Sys, e: Event)
    requires Enabled(x, e)
    ensures Step(x, e).phase.Running? ==> x.phase.Running?
  {
    if IsCallStep(e) {
      CallSteps(x, e);
    } else if IsSubStep(e) {
      SubSteps(x, e);
    }
  }

  /** While the task runs, DISCONNECT has not been sent. */
  lemma {:induction false} EveryRunNoDisconnect(connect: ConnectInfo, es: seq<Event>)
    requires Run(Systems.Init(connect), es) && After(Systems.Init(connect), es).phase.Running?
    ensures NoDisconnect(After(Systems.Init(connect), es).t.sent)
    decreases |es|
  {
    if es != [] {
      var front := es[..|es| - 1];
      RunsOn(After(Systems.Init(connect), front), es[|es| - 1]);
      EveryRunNoDisconnect(connect, front);
      EveryRunTask(connect, front);
      RunningSends(After(Systems.Init(connect), front), es[|es| - 1]);
    }
  }
}
