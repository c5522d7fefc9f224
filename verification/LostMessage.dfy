/** The exception of the end-to-end theorems is real: a run of two clients in which `publish_qos_1`
reports success and the message is never dispatched. It takes a transport that accepts the bytes of
the answer and then fails to flush them, which the trait allows; the TCP transport's flush does
not fail. */
module LostMessages {
  import opened Wrappers
  import opened ByteIo
  import opened Packets
  import opened Subscriptions
  import opened SubscriptionSets
  import opened Protocol
  import opened Systems
  import opened SystemProofs
  import opened FutureProofs
  import opened EndToEnd

  lemma JointRunSnoc(start: Joint, es: seq<JointEvent>, e: JointEvent)
    requires JointRun(start, es) && JointEnabled(JointAfter(start, es), e)
    ensures JointRun(start, es + [e]) && JointAfter(start, es + [e]) == JointStep(JointAfter(start, es), e)
  {
    assert (es + [e])[..|es|] == es;
  }

  const MESSAGE := Message(false, AtLeastOnce, false, [], 1, [])

  /** Connected, and nothing has come in yet. */
  ghost predicate Fresh(x: Sys, connect: ConnectInfo) {
    && x.phase.Running? && x.t.signal.Some? && x.t.signal.value.Ok? && x.clock == 0 && x.t.log == []
    && x.t.pending == map[] && x.t.sent == [Handed(ConnectPacket(connect), false)]
  }

  ghost predicate Waiting(x: Sys) {
    && 0 in x.calls && x.calls[0].stage == Some(AckStage) && x.calls[0].phase.Submitted?
    && x.calls[0].result.None? && x.calls[0].msg == MESSAGE
  }

  ghost predicate Untouched(j: Joint, a: ConnectInfo, b: ConnectInfo) {
    Fresh(j.a, a) && Fresh(j.b, b) && j.atA == j.atB == 0 && j.cut.None?
  }

  lemma BothConnected(a: ConnectInfo, b: ConnectInfo, net: Network) returns (es: seq<JointEvent>)
    ensures JointRun(JointInit(a, b), es)
    ensures var j := JointAfter(JointInit(a, b), es);
            && Untouched(j, a, b) && j.a.allocs == 0 && j.a.t.shared.nextId == 1 && j.a.cmds == [] && j.a.calls == map[]
            && j.b.t.shared.nextId == 1 && j.b.cmds == [] && j.b.t.tree == EMPTY_NODE
  {
    var start := JointInit(a, b);
    var connAck := Receive(ConnAckPacket(Ok(false)), 0, net);
    JointRunSnoc(start, [], LocalB(connAck));
    es := [LocalB(connAck)];
    JointRunSnoc(start, es, LocalA(connAck));
    es := es + [LocalA(connAck)];
  }

  lemma BegunAtA(a: ConnectInfo, b: ConnectInfo, net: Network) returns (es: seq<JointEvent>)
    ensures JointRun(JointInit(a, b), es)
    ensures var j := JointAfter(JointInit(a, b), es);
            && Untouched(j, a, b) && j.a.allocs == 1 && j.a.cmds == []
            && 0 in j.a.calls && j.a.calls[0] == Call(MESSAGE, Some(AckStage), Allocated, 0, false, None, None)
  {
    var start := JointInit(a, b);
    es := BothConnected(a, b, net);
    JointRunSnoc(start, es, LocalA(Begin(0, AtLeastOnce, false, [], [], Some(AckStage))));
    es := es + [LocalA(Begin(0, AtLeastOnce, false, [], [], Some(AckStage)))];
  }

  /** The call has registered and submitted its message. */
  lemma SubmittedAtA(a: ConnectInfo, b: ConnectInfo, net: Network) returns (es: seq<JointEvent>)
    ensures JointRun(JointInit(a, b), es)
    ensures var j := JointAfter(JointInit(a, b), es);
            Untouched(j, a, b) && Waiting(j.a) && j.a.allocs == 1 && j.a.cmds == [PublishCommand(MESSAGE)]
  {
    var start := JointInit(a, b);
    es := BegunAtA(a, b, net);
    JointRunSnoc(start, es, LocalA(Register(0)));
    es := es + [LocalA(Register(0))];
    JointRunSnoc(start, es, LocalA(Submit(0)));
    es := es + [LocalA(Submit(0))];
  }

  /** The task has handed the message over, and it is the next to arrive. */
  lemma SentToB(a: ConnectInfo, b: ConnectInfo, net: Network) returns (es: seq<JointEvent>)
    ensures JointRun(JointInit(a, b), es)
    ensures var j := JointAfter(JointInit(a, b), es);
            && j.a.phase.Running? && j.a.t.signal.Some? && j.a.clock == 0 && Waiting(j.a) && j.a.allocs == 1
            && j.a.t.sent == [Handed(ConnectPacket(a), false), Handed(PublishPacket(MESSAGE), false)]
            && Key(Publish, 1) in j.a.t.pending && Fresh(j.b, b) && j.atA == 0 && j.atB == 1 && j.cut.None?
  {
    var start := JointInit(a, b);
    es := SubmittedAtA(a, b, net);
    var x := JointAfter(start, es).a;
    TaskHandsOver(x);
    JointRunSnoc(start, es, LocalA(Obey(0)));
    es := es + [LocalA(Obey(0))];
    JointRunSnoc(start, es, ArriveAtB(0, net));
    es := es + [ArriveAtB(0, net)];
  }

  lemma TaskHandsOver(x: Sys)
    requires x.cmds == [PublishCommand(MESSAGE)]
    ensures var x' := Obeyed(x, OnCommand(x.t, x.cmds[0], 0), 0);
            && x'.t.sent == x.t.sent + [Handed(PublishPacket(MESSAGE), false)] && Key(Publish, 1) in x'.t.pending
            && x'.calls == x.calls && x'.phase == x.phase && x'.t.signal == x.t.signal && x'.clock == 0
            && x'.allocs == x.allocs
  {
  }

  /** B answers, and its step ends there. */
  lemma CutShort(x: Sys, connect: ConnectInfo)
    requires Fresh(x, connect)
    ensures var p := PublishPacket(MESSAGE);
            && CallsForAnswer(x.t, p)
            && var x' := Stopped(x.(t := OnPacketCut(x.t, p, 0), clock := 0, broken := true));
               && x'.t.log == [] && |x'.t.sent| > 1 && x'.t.sent[0] == Handed(ConnectPacket(connect), false)
               && x'.t.sent[1] == Handed(PubAckPacket(1), false)
  {
  }

  lemma AckArrives(x: Sys, net: Network)
    requires x.phase.Running? && x.t.signal.Some? && Waiting(x) && Key(Publish, 1) in x.t.pending
    ensures var x' := Received(x, PubAckPacket(1), 0, net);
            && Waiting(x') && (AckStage, 1) !in x'.t.shared.notify && x'.allocs == x.allocs && x'.t.sent == x.t.sent
  {
  }

  /** B's answer is on its way, and B has gone. */
  lemma AnsweredByB(a: ConnectInfo, b: ConnectInfo, net: Network) returns (es: seq<JointEvent>)
    ensures JointRun(JointInit(a, b), es)
    ensures var j := JointAfter(JointInit(a, b), es);
            && j.a.phase.Running? && j.a.t.signal.Some? && j.a.clock == 0 && Waiting(j.a) && j.a.allocs == 1
            && Key(Publish, 1) in j.a.t.pending && Lost(j.a.t.sent, j.cut, MESSAGE.id)
            && j.b.t.log == [] && j.atA == 1 && |j.b.t.sent| > 1 && j.b.t.sent[1] == Handed(PubAckPacket(1), false)
  {
    var start := JointInit(a, b);
    es := SentToB(a, b, net);
    CutShort(JointAfter(start, es).b, b);
    JointRunSnoc(start, es, CutAtB(0));
    es := es + [CutAtB(0)];
    JointRunSnoc(start, es, ArriveAtA(0, net));
    es := es + [ArriveAtA(0, net)];
  }

  /** Success is reported, and the message was lost. */
  lemma SucceedsThoughLost(a: ConnectInfo, b: ConnectInfo, net: Network) returns (es: seq<JointEvent>)
    ensures JointRun(JointInit(a, b), es)
    ensures var j := JointAfter(JointInit(a, b), es);
            && j.a.allocs <= 65536 && Succeeded(j.a, 0) && j.a.calls[0].msg == MESSAGE
            && Lost(j.a.t.sent, j.cut, MESSAGE.id) && j.b.t.log == []
  {
    var start := JointInit(a, b);
    es := AnsweredByB(a, b, net);
    AckArrives(JointAfter(start, es).a, net);
    JointRunSnoc(start, es, ArriveAtA(0, net));
    es := es + [ArriveAtA(0, net)];
    JointRunSnoc(start, es, LocalA(Poll(0)));
    es := es + [LocalA(Poll(0))];
  }
}
