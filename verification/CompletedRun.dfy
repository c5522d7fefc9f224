/** The end-to-end theorems are not about nothing: a run of two clients in which B subscribes, A publishes
with QoS 2 and awaits completion, the message is handed to B's queue, and the call succeeds. Every packet
of the handshake in it is one that the other client sent. */
module CompletedRuns {
  import opened Wrappers
  import opened ByteIo
  import opened Packets
  import opened Subscriptions
  import opened Topics
  import opened SubscriptionSets
  import opened Protocol
  import opened ProtocolProofs
  import opened Systems
  import opened SystemProofs
  import opened FutureProofs
  import opened Exchange
  import opened Deliveries
  import opened EndToEnd
  import opened LostMessages

  const TOPIC: seq<byte> := [97]
  const PAYLOAD: seq<byte> := [120]
  const SUBJECT := Message(false, ExactlyOnce, false, TOPIC, 1, PAYLOAD)
  const QUEUE := LossyQueue(7)
  const REQUEST := SubscribePacket(1, [(TOPIC, ExactlyOnce)])
  const GRANT := SubAckPacket(1, Dynamic([Ok(ExactlyOnce)]))

  /** Every queue is open. */
  ghost function AllOpen(): Network {
    _ => Sent
  }

  ghost predicate Alive(x: Sys) {
    x.phase.Running? && x.t.signal.Some? && x.t.signal.value.Ok? && x.clock == 0
  }

  lemma TaskOfB(a: ConnectInfo, b: ConnectInfo, es: seq<JointEvent>)
    requires JointRun(JointInit(a, b), es)
    ensures TaskInv(JointAfter(JointInit(a, b), es).b)
  {
    RunOfB(a, b, es);
    EveryRunTask(b, EventsOfB(JointInit(a, b), es));
  }

  lemma OneLevel()
    ensures Levels(TOPIC) == [TOPIC] && ValidPattern([TOPIC]) && Matches([TOPIC], [TOPIC])
  {
    assert Join([TOPIC]) == TOPIC;
    LevelsInvertsJoin([TOPIC]);
  }

  // ----- B subscribes -----

  /** A is connected and idle. */
  ghost predicate IdleA(x: Sys, connect: ConnectInfo) {
    Fresh(x, connect) && x.allocs == 0 && x.t.shared.nextId == 1 && x.cmds == [] && x.calls == map[]
  }

  lemma AsksBroker(x: Sys)
    requires x.t.tree == EMPTY_NODE && x.t.shared.nextId == 1
    requires x.cmds == [SubscribeCommand(TOPIC, ExactlyOnce, Lossy(7))]
    ensures var x' := Obeyed(x, OnCommand(x.t, x.cmds[0], 0), 0);
            && x'.t.sent == x.t.sent + [Handed(REQUEST, false)] && x'.phase == x.phase && x'.clock == 0
            && x'.t.signal == x.t.signal && x'.t.log == x.t.log && x'.t.pending == x.t.pending && x'.cmds == []
            && 1 in x'.t.pendingSubs && x'.t.pendingSubs[1] == PendingSub(TOPIC, Lossy(7), REQUEST)
  {
    OneLevel();
    assert LeafAt(EMPTY_NODE, [TOPIC]) == None && !HitsHash(EMPTY_NODE, [TOPIC]);
  }

  lemma AskedByB(a: ConnectInfo, b: ConnectInfo) returns (es: seq<JointEvent>)
    ensures JointRun(JointInit(a, b), es)
    ensures var j := JointAfter(JointInit(a, b), es);
            && IdleA(j.a, a) && Alive(j.b) && j.b.t.log == [] && j.b.t.pending == map[]
            && j.b.t.sent == [Handed(ConnectPacket(b), false), Handed(REQUEST, false)]
            && 1 in j.b.t.pendingSubs && j.b.t.pendingSubs[1] == PendingSub(TOPIC, Lossy(7), REQUEST)
            && j.atA == j.atB == 0 && j.cut.None?
  {
    var (start, c) := (JointInit(a, b), SubscribeCommand(TOPIC, ExactlyOnce, Lossy(7)));
    es := BothConnected(a, b, AllOpen());
    JointRunSnoc(start, es, LocalB(Push(c)));
    es := es + [LocalB(Push(c))];
    AsksBroker(JointAfter(start, es).b);
    JointRunSnoc(start, es, LocalB(Obey(0)));
    es := es + [LocalB(Obey(0))];
  }

  lemma GrantArrives(x: Sys)
    requires TaskInv(x) && Alive(x)
    requires 1 in x.t.pendingSubs && x.t.pendingSubs[1] == PendingSub(TOPIC, Lossy(7), REQUEST)
    ensures var x' := Received(x, GRANT, 0, AllOpen());
            && Alive(x') && x'.t.log == x.t.log && x'.t.pending == x.t.pending && x'.t.sent == x.t.sent
            && Holds(x'.t.tree, [TOPIC], QUEUE)
  {
    OneLevel();
    assert GRANT.results.Results() == [Ok(ExactlyOnce)];
    assert Enabled(x, Receive(GRANT, 0, AllOpen()));
    HoldsStep(x, Receive(GRANT, 0, AllOpen()), [TOPIC], QUEUE);
  }

  /** B's queue is subscribed. */
  ghost predicate Listening(x: Sys, connect: ConnectInfo) {
    && Alive(x) && x.t.log == [] && x.t.pending == map[] && Holds(x.t.tree, [TOPIC], QUEUE)
    && x.t.sent == [Handed(ConnectPacket(connect), false), Handed(REQUEST, false)]
  }

  lemma SubscribedByB(a: ConnectInfo, b: ConnectInfo) returns (es: seq<JointEvent>)
    ensures JointRun(JointInit(a, b), es)
    ensures var j := JointAfter(JointInit(a, b), es);
            IdleA(j.a, a) && Listening(j.b, b) && j.atA == j.atB == 0 && j.cut.None?
  {
    var start := JointInit(a, b);
    es := AskedByB(a, b);
    TaskOfB(a, b, es);
    GrantArrives(JointAfter(start, es).b);
    JointRunSnoc(start, es, LocalB(Receive(GRANT, 0, AllOpen())));
    es := es + [LocalB(Receive(GRANT, 0, AllOpen()))];
  }

  // ----- A publishes -----

  ghost predicate Awaited(x: Sys) {
    && 0 in x.calls && x.calls[0].stage == Some(CompStage) && x.calls[0].phase.Submitted? && x.calls[0].result.None?
    && x.calls[0].msg == SUBJECT && x.allocs == 1
  }

  lemma BegunByA(a: ConnectInfo, b: ConnectInfo) returns (es: seq<JointEvent>)
    ensures JointRun(JointInit(a, b), es)
    ensures var j := JointAfter(JointInit(a, b), es);
            && Fresh(j.a, a) && j.a.cmds == [] && j.a.allocs == 1
            && 0 in j.a.calls && j.a.calls[0] == Call(SUBJECT, Some(CompStage), Allocated, 0, false, None, None)
            && Listening(j.b, b) && j.atA == j.atB == 0 && j.cut.None?
  {
    var start := JointInit(a, b);
    es := SubscribedByB(a, b);
    var e := LocalA(Begin(0, ExactlyOnce, false, TOPIC, PAYLOAD, Some(CompStage)));
    JointRunSnoc(start, es, e);
    es := es + [e];
  }

  lemma SubmittedByA(a: ConnectInfo, b: ConnectInfo) returns (es: seq<JointEvent>)
    ensures JointRun(JointInit(a, b), es)
    ensures var j := JointAfter(JointInit(a, b), es);
            && Fresh(j.a, a) && Awaited(j.a) && j.a.cmds == [PublishCommand(SUBJECT)]
            && Listening(j.b, b) && j.atA == j.atB == 0 && j.cut.None?
  {
    var start := JointInit(a, b);
    es := BegunByA(a, b);
    JointRunSnoc(start, es, LocalA(Register(0)));
    es := es + [LocalA(Register(0))];
    JointRunSnoc(start, es, LocalA(Submit(0)));
    es := es + [LocalA(Submit(0))];
  }

  /** The message is handed over and next to arrive. */
  ghost predicate InTransit(x: Sys, connect: ConnectInfo) {
    && Alive(x) && Awaited(x) && x.t.pending == map[Key(Publish, 1) := PublishPacket(SUBJECT)]
    && x.t.sent == [Handed(ConnectPacket(connect), false), Handed(PublishPacket(SUBJECT), false)]
  }

  lemma HandsOver(x: Sys, connect: ConnectInfo)
    requires Fresh(x, connect) && Awaited(x) && x.cmds == [PublishCommand(SUBJECT)]
    ensures InTransit(Obeyed(x, OnCommand(x.t, x.cmds[0], 0), 0), connect)
  {
  }

  lemma SentByA(a: ConnectInfo, b: ConnectInfo) returns (es: seq<JointEvent>)
    ensures JointRun(JointInit(a, b), es)
    ensures var j := JointAfter(JointInit(a, b), es);
            InTransit(j.a, a) && Listening(j.b, b) && j.atA == 0 && j.atB == 1 && j.cut.None?
  {
    var start := JointInit(a, b);
    es := SubmittedByA(a, b);
    HandsOver(JointAfter(start, es).a, a);
    JointRunSnoc(start, es, LocalA(Obey(0)));
    es := es + [LocalA(Obey(0))];
    JointRunSnoc(start, es, ArriveAtB(0, AllOpen()));
    es := es + [ArriveAtB(0, AllOpen())];
  }

  // ----- The handshake -----

  /** The message is in the log, and the queue took it. */
  ghost predicate TookIt(entry: Log) {
    entry.Delivered? && entry.msg == SUBJECT && QUEUE in entry.takers
  }

  lemma MessageTaken(s: State, s': State)
    requires Exchange.Dispatched(s, s', SUBJECT, AllOpen())
    requires s.log == [] && s.pending == map[] && Holds(s.tree, [TOPIC], QUEUE)
    ensures |s'.log| == 1 && TookIt(s'.log[0])
  {
    OneLevel();
    HandedOutMeans(s.tree, [TOPIC], AllOpen(), s'.log[0].takers, QUEUE);
  }

  lemma MessageAnswered(s: State, s': State)
    requires Replied(s, s', PublishPacket(SUBJECT))
    ensures s'.sent == s.sent + [Handed(PubRecPacket(1), false)]
  {
    assert Reply(PublishPacket(SUBJECT)) == [PubRecPacket(1)] && [PubRecPacket(1)][1..] == [];
  }

  lemma MessageArrives(x: Sys, connect: ConnectInfo)
    requires TaskInv(x) && Listening(x, connect)
    ensures var x' := Received(x, PublishPacket(SUBJECT), 0, AllOpen());
            && Alive(x') && |x'.t.log| == 1 && TookIt(x'.t.log[0])
            && x'.t.sent == x.t.sent + [Handed(PubRecPacket(1), false)]
  {
    PacketExact(x.t, PublishPacket(SUBJECT), 0, AllOpen());
    var t' := OnPacket(x.t, PublishPacket(SUBJECT), 0, AllOpen()).0;
    MessageTaken(x.t, t');
    MessageAnswered(x.t, t');
  }

  lemma DispatchedAtB(a: ConnectInfo, b: ConnectInfo) returns (es: seq<JointEvent>)
    ensures JointRun(JointInit(a, b), es)
    ensures var j := JointAfter(JointInit(a, b), es);
            && InTransit(j.a, a) && Alive(j.b) && |j.b.t.log| == 1 && TookIt(j.b.t.log[0])
            && j.b.t.sent ==
               [Handed(ConnectPacket(b), false), Handed(REQUEST, false), Handed(PubRecPacket(1), false)]
            && j.atA == 0 && j.atB == 2 && j.cut.None?
  {
    var start := JointInit(a, b);
    es := SentByA(a, b);
    TaskOfB(a, b, es);
    MessageArrives(JointAfter(start, es).b, b);
    JointRunSnoc(start, es, ArriveAtB(0, AllOpen()));
    es := es + [ArriveAtB(0, AllOpen())];
  }

  lemma RecArrives(x: Sys, connect: ConnectInfo)
    requires InTransit(x, connect)
    ensures var x' := Received(x, PubRecPacket(1), 0, AllOpen());
            && Alive(x') && Awaited(x') && Key(PubRel, 1) in x'.t.pending
            && x'.t.sent == x.t.sent + [Handed(PubRelPacket(1), false)]
  {
  }

  /** Two packets of B that concern the broker have gone by. */
  lemma AnswerIsNext(a: ConnectInfo, b: ConnectInfo) returns (es: seq<JointEvent>)
    ensures JointRun(JointInit(a, b), es)
    ensures var j := JointAfter(JointInit(a, b), es);
            && InTransit(j.a, a) && Alive(j.b) && |j.b.t.log| == 1 && TookIt(j.b.t.log[0])
            && |j.b.t.sent| == 3 && j.b.t.sent[2] == Handed(PubRecPacket(1), false)
            && j.atA == 2 && j.atB == 2 && j.cut.None?
  {
    var start := JointInit(a, b);
    es := DispatchedAtB(a, b);
    JointRunSnoc(start, es, ArriveAtA(0, AllOpen()));
    es := es + [ArriveAtA(0, AllOpen())];
    JointRunSnoc(start, es, ArriveAtA(0, AllOpen()));
    es := es + [ArriveAtA(0, AllOpen())];
  }

  lemma ReceivedAtA(a: ConnectInfo, b: ConnectInfo) returns (es: seq<JointEvent>)
    ensures JointRun(JointInit(a, b), es)
    ensures var j := JointAfter(JointInit(a, b), es);
            && Alive(j.a) && Awaited(j.a) && Key(PubRel, 1) in j.a.t.pending
            && |j.a.t.sent| == 3 && j.a.t.sent[2] == Handed(PubRelPacket(1), false)
            && Alive(j.b) && |j.b.t.log| == 1 && TookIt(j.b.t.log[0]) && |j.b.t.sent| == 3
            && j.atA == 3 && j.atB == 2 && j.cut.None?
  {
    var start := JointInit(a, b);
    es := AnswerIsNext(a, b);
    RecArrives(JointAfter(start, es).a, a);
    JointRunSnoc(start, es, ArriveAtA(0, AllOpen()));
    es := es + [ArriveAtA(0, AllOpen())];
  }

  lemma RelArrives(x: Sys)
    requires Alive(x)
    ensures var x' := Received(x, PubRelPacket(1), 0, AllOpen());
            && Alive(x') && x'.t.log == x.t.log + [Released(1)]
            && x'.t.sent == x.t.sent + [Handed(PubCompPacket(1), false)]
  {
  }

  lemma ReleasedAtB(a: ConnectInfo, b: ConnectInfo) returns (es: seq<JointEvent>)
    ensures JointRun(JointInit(a, b), es)
    ensures var j := JointAfter(JointInit(a, b), es);
            && Alive(j.a) && Awaited(j.a) && Key(PubRel, 1) in j.a.t.pending
            && |j.b.t.log| == 2 && TookIt(j.b.t.log[0]) && j.b.t.log[1] == Released(1)
            && |j.b.t.sent| == 4 && j.b.t.sent[3] == Handed(PubCompPacket(1), false) && j.atA == 3 && j.cut.None?
  {
    var start := JointInit(a, b);
    es := ReceivedAtA(a, b);
    RelArrives(JointAfter(start, es).b);
    JointRunSnoc(start, es, ArriveAtB(0, AllOpen()));
    es := es + [ArriveAtB(0, AllOpen())];
  }

  lemma CompArrives(x: Sys)
    requires Alive(x) && Awaited(x) && Key(PubRel, 1) in x.t.pending
    ensures var x' := Received(x, PubCompPacket(1), 0, AllOpen());
            Alive(x') && Awaited(x') && (CompStage, 1) !in x'.t.shared.notify
  {
  }

  /** The call has succeeded, and the message is where it should be. */
  lemma CompletesEndToEnd(a: ConnectInfo, b: ConnectInfo) returns (es: seq<JointEvent>)
    ensures JointRun(JointInit(a, b), es)
    ensures var j := JointAfter(JointInit(a, b), es);
            && j.a.allocs == 1 && Succeeded(j.a, 0) && j.a.calls[0].stage == Some(CompStage)
            && j.a.calls[0].msg == SUBJECT && j.cut.None?
            && |j.b.t.log| == 2 && TookIt(j.b.t.log[0]) && j.b.t.log[1] == Released(1)
  {
    var start := JointInit(a, b);
    es := ReleasedAtB(a, b);
    CompArrives(JointAfter(start, es).a);
    JointRunSnoc(start, es, ArriveAtA(0, AllOpen()));
    es := es + [ArriveAtA(0, AllOpen())];
    JointRunSnoc(start, es, LocalA(Poll(0)));
    es := es + [LocalA(Poll(0))];
  }
}
