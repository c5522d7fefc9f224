/** What the success of a publish call stands for, in every run against any peer. */
module Completion {
  import opened Wrappers
  import opened ByteIo
  import opened Packets
  import opened Subscriptions
  import opened Protocol
  import opened ProtocolProofs
  import opened Systems
  import opened SystemProofs
  import opened FutureProofs
  import opened Histories

  // ----- What a run keeps -----

  lemma LogStep(x: Sys, e: Event)
    requires Enabled(x, e)
    ensures x.t.log <= Step(x, e).t.log
    ensures forall i :: |x.t.log| <= i < |Step(x, e).t.log| && !Step(x, e).t.log[i].Released? ==> e.Receive?
  {
    if IsTaskStep(e) {
      TaskSteps(x, e);
      if !e.Receive? {
        SilentLog(x, e);
      }
    } else if IsCallStep(e) {
      CallSteps(x, e);
    } else if IsSubStep(e) {
      SubSteps(x, e);
    }
  }

  lemma SilentLog(x: Sys, e: Event)
    requires Enabled(x, e) && IsTaskStep(e) && !e.Receive?
    ensures forall i :: |x.t.log| <= i < |Step(x, e).t.log| ==> Step(x, e).t.log[i].Released?
  {
    match e
    case Obey(now) => ObeyShared(x.t, x.cmds[0], now);
    case CutObey(now) => ObeyShared(x.t, x.cmds[0], now);
    case Tick(ping, delay, readings, end) => OnAlarmKeeps(x.t, ping, delay, readings);
    case CutTick(ping, delay, readings, end, n) => OnAlarmCutKeeps(x.t, ping, delay, readings, n);
    case CutReceive(p, now) =>
  }

  lemma PassSends(s: State, ping: bool, delay: int, clock: nat -> int, n: nat)
    requires n <= |s.timeouts|
    ensures s.sent <= AlarmPass(Pinged(s, ping), n, delay, clock, 0).sent
  {
    PassExact(s, ping, delay, clock, n);
  }

  lemma ObeySent(s: State, c: Command, now: int)
    ensures s.sent <= OnCommand(s, c, now).sent
  {
  }

  lemma CutReceiveSent(s: State, p: Packet, now: int)
    requires CallsForAnswer(s, p)
    ensures s.sent <= OnPacketCut(s, p, now).sent
  {
  }

  lemma StoppedSent(s: State, x: Sys)
    requires s.sent <= x.t.sent
    ensures s.sent <= Stopped(x).t.sent
  {
  }

  lemma TaskSent(x: Sys, e: Event)
    requires TaskInv(x) && Enabled(x, e) && IsTaskStep(e)
    ensures x.t.sent <= Step(x, e).t.sent
  {
    match e
    case Receive(p, now, net) =>
      OnPacketSends(x.t, p, now, net);
      StoppedSent(x.t, x.(t := OnPacket(x.t, p, now, net).0, clock := now));
    case Obey(now) => ObeySent(x.t, x.cmds[0], now);
    case Tick(ping, delay, readings, end) =>
      if x.t.signal.Some? {
        PassSends(x.t, ping, delay, readings, |x.t.timeouts|);
      }
    case CutReceive(p, now) =>
      CutReceiveSent(x.t, p, now);
      StoppedSent(x.t, x.(t := OnPacketCut(x.t, p, now), clock := now, broken := true));
    case CutObey(now) =>
      ObeySent(x.t, x.cmds[0], now);
      StoppedSent(x.t, Obeyed(x, OnCommandCut(x.t, x.cmds[0], now), now).(broken := true));
    case CutTick(ping, delay, readings, end, n) =>
      PassSends(x.t, ping, delay, readings, n);
      StoppedSent(x.t, x.(t := OnAlarmCut(x.t, ping, delay, readings, n), clock := end, broken := true));
  }

  lemma SentStep(x: Sys, e: Event)
    requires TaskInv(x) && Enabled(x, e)
    ensures x.t.sent <= Step(x, e).t.sent
  {
    if IsTaskStep(e) {
      TaskSent(x, e);
    } else if IsCallStep(e) {
      CallSteps(x, e);
    } else if IsSubStep(e) {
      SubSteps(x, e);
    }
  }

  /** Along a run the log and the history of packets only grow, and once the task has stopped it
  does not run again. */
  lemma {:induction false} Prefixes(connect: ConnectInfo, es: seq<Event>, i: nat)
    requires Run(Systems.Init(connect), es) && i <= |es|
    ensures Run(Systems.Init(connect), es[..i])
    ensures var (x, y) := (After(Systems.Init(connect), es[..i]), After(Systems.Init(connect), es));
            x.t.log <= y.t.log && x.t.sent <= y.t.sent && (y.phase.Running? ==> x.phase.Running?)
    decreases |es|
  {
    if i == |es| {
      assert es[..i] == es;
    } else {
      var front := es[..|es| - 1];
      assert es[..i] == front[..i];
      Prefixes(connect, front, i);
      EveryRunTask(connect, front);
      LogStep(After(Systems.Init(connect), front), es[|es| - 1]);
      SentStep(After(Systems.Init(connect), front), es[|es| - 1]);
      RunsOn(After(Systems.Init(connect), front), es[|es| - 1]);
    }
  }

  // ----- Registration -----

  /** Event `r` registered this call, which was waiting for this message. */
  ghost predicate RegisteredAt(connect: ConnectInfo, es: seq<Event>, r: int, call: nat, c: Call) {
    && 0 <= r < |es| && es[r] == Register(call) && Run(Systems.Init(connect), es[..r])
    && var x := After(Systems.Init(connect), es[..r]);
       call in x.calls && x.calls[call].msg == c.msg && |x.t.log| == c.since
  }

  /** A call past its registration was there before, as it is, unless this event registered it. */
  lemma CallKept(x: Sys, e: Event, call: nat)
    requires Enabled(x, e) && call in Step(x, e).calls && !Step(x, e).calls[call].phase.Allocated?
               && e != Register(call)
    ensures var c' := Step(x, e).calls[call];
            && call in x.calls && !x.calls[call].phase.Allocated?
            && x.calls[call].msg == c'.msg && x.calls[call].since == c'.since
  {
    if IsSubStep(e) {
      SubSteps(x, e);
    }
  }

  lemma {:induction false} Registration(connect: ConnectInfo, es: seq<Event>, call: nat)
    requires Run(Systems.Init(connect), es)
    requires var x := After(Systems.Init(connect), es); call in x.calls && !x.calls[call].phase.Allocated?
    ensures exists r :: RegisteredAt(connect, es, r, call, After(Systems.Init(connect), es).calls[call])
    decreases |es|
  {
    var last := |es| - 1;
    var (front, e) := (es[..last], es[last]);
    var (x, c) := (After(Systems.Init(connect), front), After(Systems.Init(connect), es).calls[call]);
    if e == Register(call) {
      assert RegisteredAt(connect, es, last, call, c);
    } else {
      CallKept(x, e, call);
      Registration(connect, front, call);
      var r :| RegisteredAt(connect, front, r, call, x.calls[call]);
      assert es[..r] == front[..r];
      assert RegisteredAt(connect, es, r, call, c);
    }
  }

  // ----- Acknowledgements -----

  /** Event `i` is the acknowledgement of this stage, and found what it answers in flight. */
  ghost predicate AckEvent(connect: ConnectInfo, es: seq<Event>, i: int, stage: Stage, id: u16) {
    && 0 <= i < |es| && Run(Systems.Init(connect), es[..i])
    && es[i].Receive? && es[i].packet == AckPacketOf(stage, id)
    && AnsweredKey(stage, id) in After(Systems.Init(connect), es[..i]).t.pending
  }

  /** The n-th entry of the log was made by that event. */
  ghost predicate LoggedAt(connect: ConnectInfo, es: seq<Event>, i: int, n: nat) {
    && 0 <= i < |es| && Run(Systems.Init(connect), es[..i]) && Run(Systems.Init(connect), es[..i + 1])
    && |After(Systems.Init(connect), es[..i]).t.log| <= n < |After(Systems.Init(connect), es[..i + 1]).t.log|
  }

  lemma {:induction false} AckedByPacket(connect: ConnectInfo, es: seq<Event>, n: nat, stage: Stage, id: u16)
    requires Run(Systems.Init(connect), es)
    requires n < |After(Systems.Init(connect), es).t.log|
               && After(Systems.Init(connect), es).t.log[n] == Acked(stage, id)
    ensures exists i :: AckEvent(connect, es, i, stage, id) && LoggedAt(connect, es, i, n)
    decreases |es|
  {
    var start := Systems.Init(connect);
    if es != [] {
      var last := |es| - 1;
      var (front, e) := (es[..last], es[last]);
      var x := After(start, front);
      LogStep(x, e);
      if n < |x.t.log| {
        AckedByPacket(connect, front, n, stage, id);
        var i :| AckEvent(connect, front, i, stage, id) && LoggedAt(connect, front, i, n);
        assert es[..i] == front[..i] && es[..i + 1] == front[..i + 1];
        assert AckEvent(connect, es, i, stage, id) && LoggedAt(connect, es, i, n);
      } else {
        ReceivedAck(x, e, n, stage, id);
        assert es[..last + 1] == es;
        assert AckEvent(connect, es, last, stage, id) && LoggedAt(connect, es, last, n);
      }
    }
  }

  lemma ReceivedAck(x: Sys, e: Event, n: nat, stage: Stage, id: u16)
    requires Enabled(x, e) && e.Receive? && |x.t.log| <= n < |Step(x, e).t.log|
               && Step(x, e).t.log[n] == Acked(stage, id)
    ensures e.packet == AckPacketOf(stage, id) && AnsweredKey(stage, id) in x.t.pending
  {
    var t' := OnPacket(x.t, e.packet, e.now, e.net).0;
    assert t'.log == Step(x, e).t.log;
    assert AckedSince(t'.log, |x.t.log|, stage, id);
    AckedMeans(x.t, e.packet, e.now, e.net, stage, id);
  }

  /** What is logged after a registration happened after it. */
  lemma LoggedLater(connect: ConnectInfo, es: seq<Event>, r: int, i: int, n: nat, call: nat, c: Call)
    requires Run(Systems.Init(connect), es) && RegisteredAt(connect, es, r, call, c) && LoggedAt(connect, es, i, n)
    requires c.since <= n && i != r
    ensures r < i
  {
    if i < r {
      assert es[..r][..i + 1] == es[..i + 1];
      Prefixes(connect, es[..r], i + 1);
    }
  }

  // ----- The packet is the call's own -----

  /** Event `i` is a PUBACK or PUBREC that found this very message in flight. */
  ghost predicate FoundInFlight(connect: ConnectInfo, es: seq<Event>, i: int, stage: Stage, m: Message) {
    && AckEvent(connect, es, i, stage, m.id) && AnsweredKey(stage, m.id) == Key(Publish, m.id)
    && After(Systems.Init(connect), es[..i]).t.pending[Key(Publish, m.id)] == PublishPacket(m)
  }

  lemma OwnPublish(connect: ConnectInfo, es: seq<Event>, i: int, call: nat)
    requires Run(Systems.Init(connect), es) && After(Systems.Init(connect), es).allocs <= 65536
    requires call in After(Systems.Init(connect), es).calls && TracksId(After(Systems.Init(connect), es).calls[call])
    requires 0 <= i < |es| && Run(Systems.Init(connect), es[..i])
    requires var id := After(Systems.Init(connect), es).calls[call].msg.id;
             Key(Publish, id) in After(Systems.Init(connect), es[..i]).t.pending
    ensures var m := After(Systems.Init(connect), es).calls[call].msg;
            After(Systems.Init(connect), es[..i]).t.pending[Key(Publish, m.id)] == PublishPacket(m)
  {
    var (x, y) := (After(Systems.Init(connect), es[..i]), After(Systems.Init(connect), es));
    var m := y.calls[call].msg;
    var k := Key(Publish, m.id);
    Prefixes(connect, es, i);
    EveryRunTask(connect, es[..i]);
    EveryRunHistory(connect, es);
    assert Live(x.t, k) && Shape(k, x.t.pending[k]);
    var n :| 0 <= n < |x.t.sent| && x.t.sent[n] == Handed(x.t.pending[k], false);
    assert y.t.sent[n] == x.t.sent[n] && Tracked(y.t.sent[n].packet, m.id);
  }

  /** The log entry of a success, its event and its registration. */
  lemma SuccessEvents(connect: ConnectInfo, es: seq<Event>, call: nat) returns (r: int, i: int)
    requires Run(Systems.Init(connect), es) && After(Systems.Init(connect), es).allocs <= 65536
    requires Succeeded(After(Systems.Init(connect), es), call)
    ensures var c := After(Systems.Init(connect), es).calls[call];
            && TracksId(c) && r < i && RegisteredAt(connect, es, r, call, c)
            && AckEvent(connect, es, i, KeyOf(c).0, KeyOf(c).1)
  {
    var x := After(Systems.Init(connect), es);
    var c := x.calls[call];
    EveryRunFutures(connect, es);
    assert CallInv(x, c);
    var n :| c.since <= n < |x.t.log| && x.t.log[n] == Acked(KeyOf(c).0, KeyOf(c).1);
    AckedByPacket(connect, es, n, KeyOf(c).0, KeyOf(c).1);
    i :| AckEvent(connect, es, i, KeyOf(c).0, KeyOf(c).1) && LoggedAt(connect, es, i, n);
    Registration(connect, es, call);
    r :| RegisteredAt(connect, es, r, call, c);
    LoggedLater(connect, es, r, i, n, call, c);
  }

  /** In every run: a call that awaits PUBACK or PUBREC and reports success has had that packet
  processed after it registered, while its own message was in flight. */
  lemma SuccessIsEarned(connect: ConnectInfo, es: seq<Event>, call: nat)
    requires Run(Systems.Init(connect), es) && After(Systems.Init(connect), es).allocs <= 65536
    requires Succeeded(After(Systems.Init(connect), es), call)
    requires !After(Systems.Init(connect), es).calls[call].stage.value.CompStage?
    ensures var c := After(Systems.Init(connect), es).calls[call];
            exists r, i :: r < i && RegisteredAt(connect, es, r, call, c)
                           && FoundInFlight(connect, es, i, c.stage.value, c.msg)
  {
    var c := After(Systems.Init(connect), es).calls[call];
    var r, i := SuccessEvents(connect, es, call);
    OwnPublish(connect, es, i, call);
    assert FoundInFlight(connect, es, i, c.stage.value, c.msg);
  }

  // ----- PUBCOMP -----

  /** The peer sends PUBREC for this identifier only while the publish or the PUBREL is in flight. */
  ghost predicate Solicited(connect: ConnectInfo, es: seq<Event>, id: u16) {
    forall q :: 0 <= q < |es| && es[q].Receive? && es[q].packet == PubRecPacket(id) ==> SolicitedAt(connect, es, q, id)
  }

  ghost predicate SolicitedAt(connect: ConnectInfo, es: seq<Event>, q: int, id: u16) {
    && 0 <= q < |es| && Run(Systems.Init(connect), es[..q])
    && var s := After(Systems.Init(connect), es[..q]).t;
       s.signal.None? || Key(Publish, id) in s.pending || Key(PubRel, id) in s.pending
  }

  lemma OnPacketRelease(s: State, p: Packet, now: int, net: Network, id: u16)
    requires p.SubAckPacket? ==> p.results.Valid()
    requires Key(PubRel, id) in OnPacket(s, p, now, net).0.pending && Key(PubRel, id) !in s.pending
    ensures p == PubRecPacket(id) && s.signal.Some?
  {
  }

  lemma OnCommandRelease(s: State, c: Command, now: int, id: u16)
    ensures Key(PubRel, id) in OnCommand(s, c, now).pending <==> Key(PubRel, id) in s.pending
  {
  }

  /** How a PUBREL comes into flight while the task runs: only by a PUBREC. */
  lemma ReleaseStep(x: Sys, e: Event, id: u16)
    requires Enabled(x, e) && Step(x, e).phase.Running?
    requires Key(PubRel, id) in Step(x, e).t.pending && Key(PubRel, id) !in x.t.pending
    ensures e.Receive? && e.packet == PubRecPacket(id) && x.t.signal.Some?
  {
    if e.Receive? {
      OnPacketRelease(x.t, e.packet, e.now, e.net, id);
    } else if e.Obey? {
      OnCommandRelease(x.t, x.cmds[0], e.now, id);
    } else if e.Tick? {
      OnAlarmKeeps(x.t, e.ping, e.delay, e.readings);
    } else if IsCallStep(e) {
      CallSteps(x, e);
    } else if IsSubStep(e) {
      SubSteps(x, e);
    }
  }

  lemma SolicitedBefore(connect: ConnectInfo, es: seq<Event>, i: nat, id: u16)
    requires Solicited(connect, es, id) && i <= |es|
    ensures Solicited(connect, es[..i], id)
  {
    var front := es[..i];
    forall q | 0 <= q < |front| && front[q].Receive? && front[q].packet == PubRecPacket(id)
      ensures SolicitedAt(connect, front, q, id)
    {
      assert front[..q] == es[..q] && front[q] == es[q];
      assert SolicitedAt(connect, es, q, id);
    }
  }

  lemma AckedLater(connect: ConnectInfo, es: seq<Event>, i: nat, q: int, stage: Stage, id: u16)
    requires i <= |es| && AckEvent(connect, es[..i], q, stage, id)
    ensures AckEvent(connect, es, q, stage, id) && q < i
  {
    assert es[..i][..q] == es[..q];
  }

  lemma {:induction false} ReleaseFrom(connect: ConnectInfo, es: seq<Event>, id: u16)
    requires Run(Systems.Init(connect), es) && Solicited(connect, es, id)
    requires var x := After(Systems.Init(connect), es); x.phase.Running? && Key(PubRel, id) in x.t.pending
    ensures exists q :: AckEvent(connect, es, q, RecStage, id)
    decreases |es|
  {
    var last := |es| - 1;
    var (front, e) := (es[..last], es[last]);
    var x := After(Systems.Init(connect), front);
    if Key(PubRel, id) in x.t.pending {
      RunsOn(x, e);
      SolicitedBefore(connect, es, last, id);
      ReleaseFrom(connect, front, id);
      var q :| AckEvent(connect, front, q, RecStage, id);
      AckedLater(connect, es, last, q, RecStage, id);
    } else {
      ReleaseStep(x, e, id);
      assert SolicitedAt(connect, es, last, id);
      assert AckEvent(connect, es, last, RecStage, id);
    }
  }

  // ----- When a publish is done with -----

  /** Handed over, and no longer in flight. */
  ghost predicate Spent(s: State, id: u16) {
    SentId(s.sent, id) && Key(Publish, id) !in s.pending
  }

  /** A packet takes a publish out of flight exactly if it is the PUBACK or PUBREC for it. */
  lemma OnPacketPublish(s: State, p: Packet, now: int, net: Network, id: u16)
    requires s.signal.Some? && (p.SubAckPacket? ==> p.results.Valid())
    ensures Key(Publish, id) in OnPacket(s, p, now, net).0.pending <==>
              Key(Publish, id) in s.pending && p != PubAckPacket(id) && p != PubRecPacket(id)
  {
    match p
    case PublishPacket(m) => OnPublishPublish(s, m, now, net, id);
    case PubRecPacket(rec) => OnPubRecPublish(s, rec, now, id);
    case _ =>
  }

  lemma OnPublishPublish(s: State, m: Message, now: int, net: Network, id: u16)
    ensures Key(Publish, id) in OnPublish(s, m, now, net).pending <==> Key(Publish, id) in s.pending
  {
  }

  lemma OnPubRecPublish(s: State, rec: u16, now: int, id: u16)
    ensures Key(Publish, id) in OnPubRec(s, rec, now).pending <==> Key(Publish, id) in s.pending && rec != id
  {
  }

  lemma OnCommandPublish(s: State, c: Command, now: int, id: u16)
    ensures Key(Publish, id) in OnCommand(s, c, now).pending <==> Key(Publish, id) in s.pending || Commanded(c, id)
  {
  }

  lemma ReceiveSpends(x: Sys, p: Packet, now: int, net: Network, id: u16)
    requires TaskInv(x) && Enabled(x, Receive(p, now, net)) && Received(x, p, now, net).phase.Running?
    ensures var x' := Received(x, p, now, net);
            Spent(x'.t, id) <==>
              || Spent(x.t, id)
              || (Key(Publish, id) in x.t.pending && (p == PubAckPacket(id) || p == PubRecPacket(id)))
  {
    PendingIsSent(x, id);
    if x.t.signal.Some? {
      OnPacketIds(x.t, p, now, net);
      OnPacketPublish(x.t, p, now, net, id);
    } else {
      assert p.ConnAckPacket?;
    }
  }

  lemma ObeySpends(x: Sys, now: int, id: u16)
    requires CommandIds(x) && x.cmds != []
    ensures Spent(Obeyed(x, OnCommand(x.t, x.cmds[0], now), now).t, id) <==> Spent(x.t, id)
  {
    ObeySends(x.t, x.cmds[0], now, id);
    OnCommandPublish(x.t, x.cmds[0], now, id);
  }

  lemma TickSpends(x: Sys, e: Event, id: u16)
    requires TaskInv(x) && Enabled(x, e) && e.Tick?
    ensures Spent(Step(x, e).t, id) <==> Spent(x.t, id)
  {
    OnAlarmKeeps(x.t, e.ping, e.delay, e.readings);
    if x.t.signal.Some? {
      PassIds(x.t, e.ping, e.delay, e.readings, |x.t.timeouts|);
    }
  }

  /** The event is the PUBACK or PUBREC of this publish, which is in flight. */
  ghost predicate Spends(x: Sys, e: Event, id: u16) {
    && e.Receive? && Key(Publish, id) in x.t.pending
    && (e.packet == PubAckPacket(id) || e.packet == PubRecPacket(id))
  }

  /** While the task runs, what is done with stays so, and only those packets make it so. */
  lemma SpentStep(x: Sys, e: Event, id: u16)
    requires TaskInv(x) && CommandIds(x) && Enabled(x, e) && Step(x, e).phase.Running?
    ensures Spent(Step(x, e).t, id) <==> Spent(x.t, id) || Spends(x, e, id)
  {
    if e.Receive? {
      ReceiveSpends(x, e.packet, e.now, e.net, id);
    } else if e.Obey? {
      ObeySpends(x, e.now, id);
    } else if e.Tick? {
      TickSpends(x, e, id);
    } else if IsCallStep(e) {
      CallSteps(x, e);
    } else if IsSubStep(e) {
      SubSteps(x, e);
    }
  }

  ghost predicate SpendsAt(connect: ConnectInfo, es: seq<Event>, q: int, id: u16) {
    AckEvent(connect, es, q, AckStage, id) || AckEvent(connect, es, q, RecStage, id)
  }

  lemma SpendsLater(connect: ConnectInfo, es: seq<Event>, i: nat, q: int, id: u16)
    requires i <= |es| && q < i
    ensures SpendsAt(connect, es[..i], q, id) <==> SpendsAt(connect, es, q, id)
  {
    if 0 <= q {
      assert es[..i][..q] == es[..q];
    }
  }

  ghost predicate WasSpent(connect: ConnectInfo, es: seq<Event>, id: u16) {
    exists q :: SpendsAt(connect, es, q, id)
  }

  lemma SpendsLast(connect: ConnectInfo, es: seq<Event>, id: u16)
    requires es != [] && Run(Systems.Init(connect), es[..|es| - 1])
    ensures SpendsAt(connect, es, |es| - 1, id) <==>
              Spends(After(Systems.Init(connect), es[..|es| - 1]), es[|es| - 1], id)
  {
  }

  lemma WasSpentSnoc(connect: ConnectInfo, es: seq<Event>, id: u16)
    requires es != []
    ensures WasSpent(connect, es, id) <==>
              WasSpent(connect, es[..|es| - 1], id) || SpendsAt(connect, es, |es| - 1, id)
  {
    var last := |es| - 1;
    if WasSpent(connect, es[..last], id) {
      var q :| SpendsAt(connect, es[..last], q, id);
      SpendsLater(connect, es, last, q, id);
    }
    if WasSpent(connect, es, id) {
      var q :| SpendsAt(connect, es, q, id);
      if q != last {
        SpendsLater(connect, es, last, q, id);
      }
    }
  }

  lemma SpentSnoc(connect: ConnectInfo, es: seq<Event>, id: u16)
    requires es != [] && Run(Systems.Init(connect), es)
    requires After(Systems.Init(connect), es).allocs <= 65536 && After(Systems.Init(connect), es).phase.Running?
    ensures var (x, e) := (After(Systems.Init(connect), es[..|es| - 1]), es[|es| - 1]);
            && x.allocs <= 65536 && x.phase.Running?
            && (Spent(After(Systems.Init(connect), es).t, id) <==> Spent(x.t, id) || Spends(x, e, id))
  {
    var front := es[..|es| - 1];
    var (x, e) := (After(Systems.Init(connect), front), es[|es| - 1]);
    AllocsGrow(x, e);
    RunsOn(x, e);
    EveryRunTask(connect, front);
    EveryRunIds(connect, front);
    SpentStep(x, e, id);
  }

  /** While the task runs, a publish is done with exactly if one of those packets came for it. */
  lemma {:induction false} SpentExactly(connect: ConnectInfo, es: seq<Event>, id: u16)
    requires Run(Systems.Init(connect), es)
    requires After(Systems.Init(connect), es).allocs <= 65536 && After(Systems.Init(connect), es).phase.Running?
    ensures Spent(After(Systems.Init(connect), es).t, id) <==> WasSpent(connect, es, id)
    decreases |es|
  {
    if es == [] {
      assert !SentId(Systems.Init(connect).t.sent, id);
    } else {
      SpentSnoc(connect, es, id);
      SpendsLast(connect, es, id);
      WasSpentSnoc(connect, es, id);
      SpentExactly(connect, es[..|es| - 1], id);
    }
  }

  /** Two such packets for one publish do not both find it. */
  lemma SpentOnce(connect: ConnectInfo, es: seq<Event>, p: int, q: int, id: u16)
    requires Run(Systems.Init(connect), es) && After(Systems.Init(connect), es).allocs <= 65536
    requires SpendsAt(connect, es, p, id) && SpendsAt(connect, es, q, id)
    ensures p == q
  {
    if p < q {
      SpentBefore(connect, es, p, q, id);
    } else if q < p {
      SpentBefore(connect, es, q, p, id);
    }
  }

  lemma SpentBefore(connect: ConnectInfo, es: seq<Event>, p: int, q: int, id: u16)
    requires Run(Systems.Init(connect), es) && After(Systems.Init(connect), es).allocs <= 65536
    requires SpendsAt(connect, es, p, id) && 0 <= p < q < |es| && es[q].Receive?
    ensures Run(Systems.Init(connect), es[..q]) && Spent(After(Systems.Init(connect), es[..q]).t, id)
  {
    EnabledAt(Systems.Init(connect), es, q);
    AllocsMonotone(connect, es, q);
    SpendsLater(connect, es, q, p, id);
    SpentExactly(connect, es[..q], id);
  }

  // ----- PUBCOMP, exactly -----

  /** Before event `i`, this acknowledgement found the publish in flight. */
  ghost predicate AckedBefore(connect: ConnectInfo, es: seq<Event>, i: int, stage: Stage, id: u16) {
    exists q :: q < i && AckEvent(connect, es, q, stage, id)
  }

  /** Before event `i` the message has been handed over and is not in flight, and no PUBACK was it
  that took it out. */
  ghost predicate Cleared(connect: ConnectInfo, es: seq<Event>, i: int, id: u16) {
    && 0 <= i <= |es| && Run(Systems.Init(connect), es[..i]) && Spent(After(Systems.Init(connect), es[..i]).t, id)
    && !AckedBefore(connect, es, i, AckStage, id)
  }

  /** Before a packet comes in, a PUBREC has found the publish in flight exactly if the publish was
  handed over, is not in flight, and was not taken out by a PUBACK. */
  lemma ReceivedExactly(connect: ConnectInfo, es: seq<Event>, i: int, id: u16)
    requires Run(Systems.Init(connect), es) && After(Systems.Init(connect), es).allocs <= 65536
    requires 0 <= i < |es| && es[i].Receive?
    ensures AckedBefore(connect, es, i, RecStage, id) <==> Cleared(connect, es, i, id)
  {
    EnabledAt(Systems.Init(connect), es, i);
    AllocsMonotone(connect, es, i);
    SpentExactly(connect, es[..i], id);
    if AckedBefore(connect, es, i, RecStage, id) {
      var q :| q < i && AckEvent(connect, es, q, RecStage, id);
      SpentBefore(connect, es, q, i, id);
      forall p | p < i && AckEvent(connect, es, p, AckStage, id) ensures false {
        SpentOnce(connect, es, p, q, id);
      }
    }
    if Cleared(connect, es, i, id) {
      var q :| SpendsAt(connect, es[..i], q, id);
      SpendsLater(connect, es, i, q, id);
    }
  }

  /** Before event `i`, a PUBREC found this very message in flight. */
  ghost predicate FoundBefore(connect: ConnectInfo, es: seq<Event>, i: int, m: Message) {
    exists q :: q < i && FoundInFlight(connect, es, q, RecStage, m)
  }

  /** In every run: a call that awaits PUBCOMP and reports success has had a PUBCOMP processed after its
  registration. Before any such PUBCOMP a PUBREC found the call's own message in flight exactly
  if the message was handed over, is not in flight, and was not taken out by a PUBACK. That is so
  if the peer sent no PUBREC that answers nothing. */
  lemma CompletionIsEarned(connect: ConnectInfo, es: seq<Event>, call: nat)
    requires Run(Systems.Init(connect), es) && After(Systems.Init(connect), es).allocs <= 65536
    requires Succeeded(After(Systems.Init(connect), es), call)
    requires After(Systems.Init(connect), es).calls[call].stage.value.CompStage?
    ensures var c := After(Systems.Init(connect), es).calls[call];
            && (exists r, i :: r < i && RegisteredAt(connect, es, r, call, c)
                               && AckEvent(connect, es, i, CompStage, c.msg.id))
            && (forall i :: AckEvent(connect, es, i, CompStage, c.msg.id) ==>
                  && (FoundBefore(connect, es, i, c.msg) <==> Cleared(connect, es, i, c.msg.id))
                  && (Solicited(connect, es, c.msg.id) ==> Cleared(connect, es, i, c.msg.id)))
  {
    var c := After(Systems.Init(connect), es).calls[call];
    var r, i := SuccessEvents(connect, es, call);
    forall i | AckEvent(connect, es, i, CompStage, c.msg.id)
      ensures FoundBefore(connect, es, i, c.msg) <==> Cleared(connect, es, i, c.msg.id)
      ensures Solicited(connect, es, c.msg.id) ==> Cleared(connect, es, i, c.msg.id)
    {
      FoundExactly(connect, es, i, call);
      if Solicited(connect, es, c.msg.id) {
        var q := ReleasedBefore(connect, es, i, c.msg.id);
        ReceivedExactly(connect, es, i, c.msg.id);
      }
    }
  }

  lemma FoundExactly(connect: ConnectInfo, es: seq<Event>, i: int, call: nat)
    requires Run(Systems.Init(connect), es) && After(Systems.Init(connect), es).allocs <= 65536
    requires call in After(Systems.Init(connect), es).calls && TracksId(After(Systems.Init(connect), es).calls[call])
    requires 0 <= i < |es| && es[i].Receive?
    ensures var m := After(Systems.Init(connect), es).calls[call].msg;
            FoundBefore(connect, es, i, m) <==> Cleared(connect, es, i, m.id)
  {
    ReceivedExactly(connect, es, i, After(Systems.Init(connect), es).calls[call].msg.id);
    FoundOwn(connect, es, i, call);
  }

  /** What a PUBREC finds in flight under the identifier of a call is the message of that call. */
  lemma FoundOwn(connect: ConnectInfo, es: seq<Event>, i: int, call: nat)
    requires Run(Systems.Init(connect), es) && After(Systems.Init(connect), es).allocs <= 65536
    requires call in After(Systems.Init(connect), es).calls && TracksId(After(Systems.Init(connect), es).calls[call])
    ensures var m := After(Systems.Init(connect), es).calls[call].msg;
            FoundBefore(connect, es, i, m) <==> AckedBefore(connect, es, i, RecStage, m.id)
  {
    var m := After(Systems.Init(connect), es).calls[call].msg;
    if AckedBefore(connect, es, i, RecStage, m.id) {
      var q :| q < i && AckEvent(connect, es, q, RecStage, m.id);
      OwnPublish(connect, es, q, call);
      assert FoundInFlight(connect, es, q, RecStage, m);
    }
  }

  /** Before a PUBCOMP that counts there was a PUBREC that counted. */
  lemma ReleasedBefore(connect: ConnectInfo, es: seq<Event>, i: int, id: u16) returns (q: int)
    requires Run(Systems.Init(connect), es) && Solicited(connect, es, id) && AckEvent(connect, es, i, CompStage, id)
    ensures q < i && AckEvent(connect, es, q, RecStage, id)
  {
    EnabledAt(Systems.Init(connect), es, i);
    SolicitedBefore(connect, es, i, id);
    ReleaseFrom(connect, es[..i], id);
    q :| AckEvent(connect, es[..i], q, RecStage, id);
    AckedLater(connect, es, i, q, RecStage, id);
  }

  /** A call that awaits PUBCOMP, on a good connection. */
  ghost predicate WaitsForComp(x: Sys, call: nat, now: int) {
    && x.phase.Running? && x.t.signal.Some? && x.clock <= now
    && call in x.calls && x.calls[call].stage == Some(CompStage) && x.calls[call].phase.Submitted?
    && x.calls[call].result.None?
  }

  /** Whatever brought a PUBREL into flight, a PUBCOMP for it completes the waiting call. */
  lemma ReleaseCompletes(connect: ConnectInfo, es: seq<Event>, call: nat, now: int, net: Network)
    requires Run(Systems.Init(connect), es) && After(Systems.Init(connect), es).allocs <= 65536
    requires WaitsForComp(After(Systems.Init(connect), es), call, now)
    requires var x := After(Systems.Init(connect), es); Key(PubRel, x.calls[call].msg.id) in x.t.pending
    ensures var x := After(Systems.Init(connect), es);
            var es' := es + [Receive(PubCompPacket(x.calls[call].msg.id), now, net)] + [Poll(call)];
            && Run(Systems.Init(connect), es')
            && var x' := After(Systems.Init(connect), es');
               && Succeeded(x', call) && x'.calls[call].msg == x.calls[call].msg && TracksId(x'.calls[call])
               && x'.t.sent == x.t.sent && x'.allocs <= 65536
               && var k := Key(Publish, x.calls[call].msg.id); (k in x'.t.pending <==> k in x.t.pending)
  {
    var start := Systems.Init(connect);
    var (x, id) := (After(start, es), After(start, es).calls[call].msg.id);
    EveryRunFutures(connect, es);
    assert CallInv(x, x.calls[call]);
    CompleteUnsolicited(x, id, now, net);
    RunSnoc(start, es, Receive(PubCompPacket(id), now, net));
    RunSnoc(start, es + [Receive(PubCompPacket(id), now, net)], Poll(call));
  }

  /** So it fails whenever the peer likes: if the message has not been handed over, an unsolicited
  PUBREC and a PUBCOMP make the call report success for a message that was never sent. */
  lemma UnsolicitedCompletes(connect: ConnectInfo, es: seq<Event>, call: nat, now: int, net: Network)
    requires Run(Systems.Init(connect), es) && After(Systems.Init(connect), es).allocs <= 65536
    requires var x := After(Systems.Init(connect), es);
             WaitsForComp(x, call, now) && !SentId(x.t.sent, x.calls[call].msg.id)
    ensures var id := After(Systems.Init(connect), es).calls[call].msg.id;
            var (rec, comp) := (Receive(PubRecPacket(id), now, net), Receive(PubCompPacket(id), now, net));
            var es' := es + [rec] + [comp] + [Poll(call)];
            && Run(Systems.Init(connect), es')
            && Succeeded(After(Systems.Init(connect), es'), call)
            && After(Systems.Init(connect), es').calls[call].msg.id == id
            && !SentId(After(Systems.Init(connect), es').t.sent, id)
  {
    var start := Systems.Init(connect);
    var x := After(start, es);
    var id := x.calls[call].msg.id;
    EveryRunTask(connect, es);
    PendingIsSent(x, id);
    ReleaseUnsolicited(x, id, now, net);
    RunSnoc(start, es, Receive(PubRecPacket(id), now, net));
    ReleaseCompletes(connect, es + [Receive(PubRecPacket(id), now, net)], call, now, net);
  }

  lemma ReleaseUnsolicited(x: Sys, id: u16, now: int, net: Network)
    requires x.phase.Running? && x.t.signal.Some? && x.clock <= now && Key(Publish, id) !in x.t.pending
    requires Shapes(x.t) && !SentId(x.t.sent, id)
    ensures var x' := Received(x, PubRecPacket(id), now, net);
            && x'.phase.Running? && x'.t.signal.Some? && x'.clock == now && x'.calls == x.calls
            && x'.allocs == x.allocs && Key(PubRel, id) in x'.t.pending && x'.t.shared == x.t.shared
            && !SentId(x'.t.sent, id)
  {
    SentMore(x.t.sent, Handed(PubRelPacket(id), false), id);
  }

  lemma CompleteUnsolicited(x: Sys, id: u16, now: int, net: Network)
    requires x.phase.Running? && x.t.signal.Some? && Key(PubRel, id) in x.t.pending
    ensures var x' := Received(x, PubCompPacket(id), now, net);
            && x'.phase.Running? && x'.calls == x.calls && x'.t.sent == x.t.sent && x'.allocs == x.allocs
            && (CompStage, id) !in x'.t.shared.notify && x'.t.pending == x.t.pending - {Key(PubRel, id)}
  {
  }

  // ----- The three ways to fail, each with a run -----

  lemma BegunReached(connect: ConnectInfo, net: Network) returns (es: seq<Event>)
    ensures Run(Systems.Init(connect), es)
    ensures var x := After(Systems.Init(connect), es);
            && x.phase.Running? && x.t.signal.Some? && x.clock == 0 && x.allocs == 1 && x.cmds == []
            && x.t.sent == [Handed(ConnectPacket(connect), false)] && x.t.pending == map[] && 0 in x.calls
            && var m := Message(false, ExactlyOnce, false, [], 1, []);
               x.calls[0] == Call(m, Some(CompStage), Allocated, 0, false, None, None)
  {
    var start := Systems.Init(connect);
    RunSnoc(start, [], Receive(ConnAckPacket(Ok(false)), 0, net));
    es := [Receive(ConnAckPacket(Ok(false)), 0, net)];
    RunSnoc(start, es, Begin(0, ExactlyOnce, false, [], [], Some(CompStage)));
    es := es + [Begin(0, ExactlyOnce, false, [], [], Some(CompStage))];
  }

  /** The call has submitted its command, and the task has not yet taken it. */
  lemma SubmittedReached(connect: ConnectInfo, net: Network) returns (es: seq<Event>)
    ensures Run(Systems.Init(connect), es)
    ensures var x := After(Systems.Init(connect), es);
            && WaitsForComp(x, 0, 0) && x.clock == 0 && x.allocs == 1 && !x.calls[0].msg.qos.AtMostOnce?
            && x.t.sent == [Handed(ConnectPacket(connect), false)] && x.t.pending == map[]
            && x.cmds == [PublishCommand(x.calls[0].msg)]
  {
    var start := Systems.Init(connect);
    es := BegunReached(connect, net);
    RunSnoc(start, es, Register(0));
    es := es + [Register(0)];
    RunSnoc(start, es, Submit(0));
    es := es + [Submit(0)];
  }

  /** The message was never handed over. */
  lemma NeverSentYetComplete(connect: ConnectInfo, net: Network) returns (es: seq<Event>)
    ensures Run(Systems.Init(connect), es) && Succeeded(After(Systems.Init(connect), es), 0)
    ensures var x := After(Systems.Init(connect), es); !SentId(x.t.sent, x.calls[0].msg.id)
  {
    es := SubmittedReached(connect, net);
    var id := After(Systems.Init(connect), es).calls[0].msg.id;
    UnsolicitedCompletes(connect, es, 0, 0, net);
    es := es + [Receive(PubRecPacket(id), 0, net)] + [Receive(PubCompPacket(id), 0, net)] + [Poll(0)];
  }

  /** The PUBREC came before the message went out; now both are in flight. */
  lemma BothInFlightReached(connect: ConnectInfo, net: Network) returns (es: seq<Event>)
    ensures Run(Systems.Init(connect), es)
    ensures var x := After(Systems.Init(connect), es);
            && WaitsForComp(x, 0, 0) && x.clock == 0 && x.allocs == 1
            && Key(Publish, x.calls[0].msg.id) in x.t.pending && Key(PubRel, x.calls[0].msg.id) in x.t.pending
  {
    var start := Systems.Init(connect);
    es := SubmittedReached(connect, net);
    var x := After(start, es);
    var rec := Receive(PubRecPacket(x.calls[0].msg.id), 0, net);
    EveryRunTask(connect, es);
    assert !SentId(x.t.sent, x.calls[0].msg.id);
    ReleaseUnsolicited(x, x.calls[0].msg.id, 0, net);
    RunSnoc(start, es, rec);
    es := es + [rec];
    RunSnoc(start, es, Obey(0));
    es := es + [Obey(0)];
  }

  /** The message is still in flight. */
  lemma InFlightYetComplete(connect: ConnectInfo, net: Network) returns (es: seq<Event>)
    ensures Run(Systems.Init(connect), es) && Succeeded(After(Systems.Init(connect), es), 0)
    ensures var x := After(Systems.Init(connect), es); Key(Publish, x.calls[0].msg.id) in x.t.pending
  {
    es := BothInFlightReached(connect, net);
    var id := After(Systems.Init(connect), es).calls[0].msg.id;
    ReleaseCompletes(connect, es, 0, 0, net);
    es := es + [Receive(PubCompPacket(id), 0, net)] + [Poll(0)];
  }

  /** Then a PUBACK has taken the message out. */
  lemma AckedReached(connect: ConnectInfo, net: Network) returns (es: seq<Event>)
    ensures Run(Systems.Init(connect), es) && es != []
    ensures var x := After(Systems.Init(connect), es);
            && WaitsForComp(x, 0, 0) && x.allocs == 1 && Key(PubRel, x.calls[0].msg.id) in x.t.pending
            && AckEvent(connect, es, |es| - 1, AckStage, x.calls[0].msg.id)
  {
    var start := Systems.Init(connect);
    es := BothInFlightReached(connect, net);
    var ack := Receive(PubAckPacket(After(start, es).calls[0].msg.id), 0, net);
    RunSnoc(start, es, ack);
    assert (es + [ack])[..|es|] == es;
    es := es + [ack];
  }

  lemma NeverReceived(connect: ConnectInfo, es: seq<Event>, p: int, id: u16)
    requires Run(Systems.Init(connect), es) && After(Systems.Init(connect), es).allocs <= 65536
    requires AckEvent(connect, es, p, AckStage, id)
    ensures forall q :: !AckEvent(connect, es, q, RecStage, id)
  {
    forall q | AckEvent(connect, es, q, RecStage, id) ensures false {
      SpentOnce(connect, es, p, q, id);
    }
  }

  /** A PUBACK took the message out, and no PUBREC ever found it. */
  lemma AckedYetComplete(connect: ConnectInfo, net: Network) returns (es: seq<Event>)
    ensures Run(Systems.Init(connect), es) && Succeeded(After(Systems.Init(connect), es), 0)
    ensures var id := After(Systems.Init(connect), es).calls[0].msg.id;
            && (exists p :: AckEvent(connect, es, p, AckStage, id))
            && (forall q :: !AckEvent(connect, es, q, RecStage, id))
  {
    var before := AckedReached(connect, net);
    var id := After(Systems.Init(connect), before).calls[0].msg.id;
    ReleaseCompletes(connect, before, 0, 0, net);
    es := before + [Receive(PubCompPacket(id), 0, net)] + [Poll(0)];
    assert es[..|before|] == before;
    AckedLater(connect, es, |before|, |before| - 1, AckStage, id);
    NeverReceived(connect, es, |before| - 1, id);
  }
}
