/** Runs in which a subscribe future is not woken, indexes out of bounds, or loses its waker. */
module SubscribeRuns {
  import opened Wrappers
  import opened ByteIo
  import opened Packets
  import opened Subscriptions
  import opened Topics
  import opened SubscriptionSets
  import opened Protocol
  import opened ProtocolProofs
  import opened Systems
  import opened SystemProofs
  import opened FutureProofs
  import opened SubscribeProofs

  // ----- Runs in which a subscriber is not woken -----

  const TOPIC: Topic := [97]

  ghost predicate Drained(x: Sys, step: nat) {
    x.phase.Failing? && x.phase.step == step && x.phase.taken == {} && x.t.woken == {} && x.polls == 0
    && x.t.shared == Shared(1, map[], map[]) && x.waits == Waits(map[], map[], {}, {})
  }

  lemma DrainStep(x: Sys, step: nat)
    requires Drained(x, step) && step < 4
    ensures Drained(CleanedUp(x), step + 1)
  {
    assert FailStage(map[], AckStage) == map[] && FailStage(map[], RecStage) == map[]
             && FailStage(map[], CompStage) == map[];
  }

  lemma DrainedReached(connect: ConnectInfo) returns (es: seq<Event>)
    ensures Run(Systems.Init(connect), es) && Drained(After(Systems.Init(connect), es), 4)
  {
    var start := Systems.Init(connect);
    RunSnoc(start, [], Exit(false));
    es := [Exit(false)];
    for i := 0 to 4
      invariant Run(start, es) && Drained(After(start, es), i)
    {
      DrainStep(After(start, es), i);
      RunSnoc(start, es, Cleanup);
      es := es + [Cleanup];
    }
  }

  /** The list of the topic holds this, and it is the n-th. */
  ghost predicate ListIs(x: Sys, n: nat, ws: seq<Option<Waker>>) {
    WakerList(x, TOPIC) == Some(ws) && Lists(x, TOPIC) == n
  }

  ghost predicate CallIs(x: Sys, call: nat, c: SubCall) {
    call in x.waits.calls && x.waits.calls[call] == c
  }

  const ASK: Command := SubscribeCommand(TOPIC, AtMostOnce, Void)

  /** The first call for a topic: it makes the list, sends its command and is polled. */
  ghost function FirstCall(call: nat): seq<Event> {
    [BeginSubscribe(call, TOPIC)] + [Push(ASK)] + [PollSubscribe(call)]
  }

  lemma FirstPoll(x: Sys, call: nat)
    requires TOPIC !in x.t.shared.subs && call !in x.waits.calls
    ensures var (x1, n) := (SubscribeBegun(x, call, TOPIC), Lists(x, TOPIC) + 1);
            var x2 := x1.(cmds := x1.cmds + [ASK]);
            && call in x2.waits.calls && !OutOfBounds(x2, x2.waits.calls[call])
            && var x3 := SubscribePolled(x2, call);
               && ListIs(x3, n, [Some(x.polls)]) && x3.polls == x.polls + 1
               && x3.waits.calls.Keys == x.waits.calls.Keys + {call}
               && CallIs(x3, call, SubCall(TOPIC, Some(0), n, PastDrain(x.phase), n, Some(x.polls), None))
               && SubStep(x.(cmds := x.cmds + [ASK]), x3)
  {
    var x1 := SubscribeBegun(x, call, TOPIC);
    WithSubsStep(x, x1.waits, x1.t.shared.subs, x1.polls);
    PollSubscribeStep(x1.(cmds := x1.cmds + [ASK]), call);
    assert [] + [Some(x.polls)] == [Some(x.polls)];
  }

  lemma RunBegin(start: Sys, es: seq<Event>, call: nat)
    requires Run(start, es) && !After(start, es).phase.Ended? && call !in After(start, es).waits.calls
    ensures var x1 := SubscribeBegun(After(start, es), call, TOPIC);
            var es' := es + [BeginSubscribe(call, TOPIC)] + [Push(ASK)];
            Run(start, es') && After(start, es') == x1.(cmds := x1.cmds + [ASK])
  {
    RunSnoc(start, es, BeginSubscribe(call, TOPIC));
    RunSnoc(start, es + [BeginSubscribe(call, TOPIC)], Push(ASK));
  }

  lemma RunFirstPoll(start: Sys, es: seq<Event>, call: nat)
    requires Run(start, es) && !After(start, es).phase.Ended?
    requires TOPIC !in After(start, es).t.shared.subs && call !in After(start, es).waits.calls
    ensures Run(start, es + FirstCall(call))
    ensures var (x, x') := (After(start, es), After(start, es + FirstCall(call)));
            var n := Lists(x, TOPIC) + 1;
            && ListIs(x', n, [Some(x.polls)]) && x'.polls == x.polls + 1
            && x'.waits.calls.Keys == x.waits.calls.Keys + {call}
            && CallIs(x', call, SubCall(TOPIC, Some(0), n, PastDrain(x.phase), n, Some(x.polls), None))
            && SubStep(x.(cmds := x.cmds + [ASK]), x')
  {
    var asked := es + [BeginSubscribe(call, TOPIC)] + [Push(ASK)];
    FirstPoll(After(start, es), call);
    RunBegin(start, es, call);
    RunSnoc(start, asked, PollSubscribe(call));
    assert asked + [PollSubscribe(call)] == es + FirstCall(call);
  }

  lemma ClosedSubscriberHangs(connect: ConnectInfo) returns (es: seq<Event>)
    ensures Run(Systems.Init(connect), es) && WaitsInVain(After(Systems.Init(connect), es), 0)
    ensures After(Systems.Init(connect), es).phase == Ended(true)
    ensures After(Systems.Init(connect), es).waits.calls[0].waker == Some(0)
    ensures 0 !in After(Systems.Init(connect), es).t.woken
  {
    var start := Systems.Init(connect);
    RunFirstPoll(start, [], 0);
    es := [] + FirstCall(0);
    RunSnoc(start, es, Exit(true));
    es := es + [Exit(true)];
  }

  lemma LateSubscriberHangs(connect: ConnectInfo) returns (es: seq<Event>)
    ensures Run(Systems.Init(connect), es) && WaitsInVain(After(Systems.Init(connect), es), 0)
    ensures After(Systems.Init(connect), es).phase == Ended(false)
    ensures After(Systems.Init(connect), es).waits.calls[0].waker == Some(0)
    ensures 0 !in After(Systems.Init(connect), es).t.woken
  {
    var start := Systems.Init(connect);
    es := DrainedReached(connect);
    RunFirstPoll(start, es, 0);
    es := es + FirstCall(0);
    RunSnoc(start, es, Cleanup);
    es := es + [Cleanup];
  }

  /** Connected, nothing asked for yet. */
  lemma ConnectedReached(connect: ConnectInfo, net: Network) returns (es: seq<Event>)
    ensures Run(Systems.Init(connect), es)
    ensures var x := After(Systems.Init(connect), es);
            x == Systems.Init(connect).(t := Protocol.Init(connect).(signal := Some(Ok(false))))
  {
    RunSnoc(Systems.Init(connect), [], Receive(ConnAckPacket(Ok(false)), 0, net));
    es := [Receive(ConnAckPacket(Ok(false)), 0, net)];
  }

  /** The first future for the topic has been polled and its subscription is with the broker. */
  ghost predicate Waiting(x: Sys) {
    && x.phase.Running? && x.clock == 0 && x.t.signal.Some? && x.polls == 1 && x.waits.calls.Keys == {0}
    && x.cmds == [] && x.t.shared.nextId == 2 && x.t.woken == {}
    && ListIs(x, 1, [Some(0)]) && CallIs(x, 0, SubCall(TOPIC, Some(0), 1, false, 1, Some(0), None))
    && 1 in x.t.pendingSubs && x.t.pendingSubs[1].topic == TOPIC
  }

  lemma WaitingReached(connect: ConnectInfo, net: Network) returns (es: seq<Event>)
    ensures Run(Systems.Init(connect), es) && Waiting(After(Systems.Init(connect), es))
  {
    var start := Systems.Init(connect);
    es := ConnectedReached(connect, net);
    RunFirstPoll(start, es, 0);
    es := es + FirstCall(0);
    NothingYet();
    AskNow(After(start, es));
    RunSnoc(start, es, Obey(0));
    es := es + [Obey(0)];
  }

  lemma NothingYet()
    ensures !Leaf(EMPTY_NODE, Levels(TOPIC)).subscribed
  {
    EmptyNodeLeaves(Levels(TOPIC));
  }

  /** The broker has refused, and before the waiting future is polled again another call for the same
  topic has made a new list. */
  ghost predicate Refused(x: Sys) {
    && x.phase.Running? && x.polls == 1 && ListIs(x, 2, [])
    && CallIs(x, 0, SubCall(TOPIC, Some(0), 1, false, 1, Some(0), None))
    && CallIs(x, 1, SubCall(TOPIC, None, 0, false, 0, None, None))
  }

  lemma RefusedReached(connect: ConnectInfo, net: Network) returns (es: seq<Event>)
    ensures Run(Systems.Init(connect), es) && Refused(After(Systems.Init(connect), es))
  {
    var start := Systems.Init(connect);
    es := WaitingReached(connect, net);
    var refusal := Receive(SubAckPacket(1, Dynamic([Err(())])), 0, net);
    RunSnoc(start, es, refusal);
    es := es + [refusal];
    RunSnoc(start, es, BeginSubscribe(1, TOPIC));
    es := es + [BeginSubscribe(1, TOPIC)];
  }

  /** Then the next poll of the first future indexes out of bounds. */
  lemma SlotGoesStale(connect: ConnectInfo, net: Network) returns (es: seq<Event>)
    ensures Run(Systems.Init(connect), es) && 0 in After(Systems.Init(connect), es).waits.calls
    ensures var x := After(Systems.Init(connect), es); OutOfBounds(x, x.waits.calls[0])
  {
    es := RefusedReached(connect, net);
  }

  lemma SecondPolled(x: Sys)
    requires Refused(x)
    ensures var x' := SubscribePolled(x, 1);
            && ListIs(x', 2, [Some(1)]) && x'.polls == 2 && x'.phase.Running?
            && CallIs(x', 0, SubCall(TOPIC, Some(0), 1, false, 1, Some(0), None))
            && CallIs(x', 1, SubCall(TOPIC, Some(0), 2, false, 2, Some(1), None))
  {
    assert [] + [Some(1)] == [Some(1)];
  }

  lemma FirstPolledAgain(x: Sys)
    requires ListIs(x, 2, [Some(1)]) && x.polls == 2
    requires CallIs(x, 0, SubCall(TOPIC, Some(0), 1, false, 1, Some(0), None))
    ensures Enabled(x, PollSubscribe(0)) && ListIs(SubscribePolled(x, 0), 2, [Some(2)])
    ensures forall c <- x.waits.calls :: c != 0 ==> CallIs(SubscribePolled(x, 0), c, x.waits.calls[c])
  {
    assert [Some(1)][0 := Some(2)] == [Some(2)];
  }

  /** Or, if the second future is polled in between, the first one takes over its slot. The second
  future's waker is then lost. */
  lemma SlotIsStolen(connect: ConnectInfo, net: Network) returns (es: seq<Event>)
    ensures Run(Systems.Init(connect), es)
    ensures var x := After(Systems.Init(connect), es);
            && 1 in x.waits.calls && WaitsInOwnSlot(x.waits.calls[1]) && x.waits.calls[1].waker == Some(1)
            && ListIs(x, 2, [Some(2)]) && !Somewhere(x, 1)
  {
    var start := Systems.Init(connect);
    es := RefusedReached(connect, net);
    SecondPolled(After(start, es));
    RunSnoc(start, es, PollSubscribe(1));
    es := es + [PollSubscribe(1)];
    var x := After(start, es);
    FirstPolledAgain(x);
    assert StoredAt(x, TOPIC, 0, 1);
    TheftLosesWaker(connect, es, 0, 1);
    RunSnoc(start, es, PollSubscribe(0));
    es := es + [PollSubscribe(0)];
  }

  // A list can also be thrown away. Two calls that find the topic subscribed send their commands only
  // after an unsubscription: both ask the broker, who grants one and refuses the other.

  /** Running, with nothing to obey, before the call that will be forgotten. */
  ghost predicate Calm(x: Sys, subscribed: bool, next: u16) {
    && x.phase.Running? && x.clock == 0 && x.t.signal.Some? && x.cmds == [] && x.polls == 1 && x.t.woken <= {0}
    && 3 !in x.waits.calls && x.t.shared.nextId == next && Leaf(x.t.tree, Levels(TOPIC)).subscribed == subscribed
  }

  lemma TopicLevels()
    ensures Levels(TOPIC) == [[97]] && ValidPattern(Levels(TOPIC))
  {
    assert Join([[97]]) == TOPIC;
    LevelsInvertsJoin([[97]]);
  }

  /** The command of a call when the tree does not have the subscription. */
  lemma AskNow(x: Sys)
    requires x.cmds == [ASK] && !Leaf(x.t.tree, Levels(TOPIC)).subscribed
    ensures OnCommand(x.t, x.cmds[0], 0) == Asked(x.t, TOPIC, AtMostOnce, Void, 0)
  {
    TopicLevels();
  }

  /** And when it has it. */
  lemma ShareNow(x: Sys)
    requires TreeInv(x.t.tree) && x.cmds == [ASK] && Leaf(x.t.tree, Levels(TOPIC)).subscribed
    ensures var t' := OnCommand(x.t, x.cmds[0], 0);
            t' == x.t.(tree := t'.tree) && Leaf(t'.tree, Levels(TOPIC)).subscribed
  {
    TopicLevels();
    var leaf := LeafAt(x.t.tree, Levels(TOPIC)).value;
    AddedValid(leaf, Void);
    SetLeafTree(x.t.tree, Levels(TOPIC), Added(leaf, Void));
  }

  lemma UnsubNow(x: Sys)
    requires TreeInv(x.t.tree) && x.cmds == [UnsubCommand(TOPIC, Immediate)] && Leaf(x.t.tree, Levels(TOPIC)).subscribed
    ensures var t' := OnCommand(x.t, x.cmds[0], 0);
            && TOPIC !in t'.shared.subs && t'.shared.nextId == NextId(x.t.shared.nextId)
            && t'.woken == x.t.woken && t'.signal == x.t.signal && !Leaf(t'.tree, Levels(TOPIC)).subscribed
  {
    TopicLevels();
    SetLeafTree(x.t.tree, Levels(TOPIC), EMPTY);
  }

  ghost predicate AskedFor(x: Sys, id: u16) {
    id in x.t.pendingSubs && x.t.pendingSubs[id].topic == TOPIC
  }

  function Verdict(id: u16, r: SubscriptionResult): Packet {
    SubAckPacket(id, Dynamic([r]))
  }

  lemma GrantNow(x: Sys, id: u16, net: Network)
    requires TreeInv(x.t.tree) && x.t.signal.Some? && AskedFor(x, id)
    ensures var x' := Received(x, Verdict(id, Ok(AtMostOnce)), 0, net);
            && x' == x.(t := x'.t, clock := 0) && x'.t.signal == x.t.signal
            && Leaf(x'.t.tree, Levels(TOPIC)).subscribed && x'.t.shared.nextId == x.t.shared.nextId
            && x'.t.woken == x.t.woken + WakersOf(x.t.shared.subs, TOPIC)
            && TOPIC in x'.t.shared.subs && x'.t.shared.subs[TOPIC].Existing?
            && x'.t.pendingSubs == x.t.pendingSubs - {id}
  {
    TopicLevels();
    SubscribedTree(x.t.tree, TOPIC, x.t.pendingSubs[id].kind);
  }

  lemma RefuseNow(x: Sys, id: u16, net: Network)
    requires x.t.signal.Some? && AskedFor(x, id)
    ensures var x' := Received(x, Verdict(id, Err(())), 0, net);
            && x' == x.(t := x'.t, clock := 0) && x'.t.signal == x.t.signal && x'.t.tree == x.t.tree
            && TOPIC !in x'.t.shared.subs && x'.t.shared.nextId == x.t.shared.nextId
            && x'.t.woken == x.t.woken + WakersOf(x.t.shared.subs, TOPIC)
  {
  }

  /** The first call has been granted its subscription. */
  lemma GrantedReached(connect: ConnectInfo, net: Network) returns (es: seq<Event>)
    ensures Run(Systems.Init(connect), es) && Calm(After(Systems.Init(connect), es), true, 2)
    ensures var x := After(Systems.Init(connect), es);
            x.waits.calls.Keys == {0} && TOPIC in x.t.shared.subs && x.t.shared.subs[TOPIC].Existing?
  {
    var start := Systems.Init(connect);
    es := WaitingReached(connect, net);
    EveryRunTask(connect, es);
    GrantNow(After(start, es), 1, net);
    RunSnoc(start, es, Receive(Verdict(1, Ok(AtMostOnce)), 0, net));
    es := es + [Receive(Verdict(1, Ok(AtMostOnce)), 0, net)];
  }

  /** Two more calls have begun, and then the topic has been unsubscribed. */
  lemma ClearedReached(connect: ConnectInfo, net: Network) returns (es: seq<Event>)
    ensures Run(Systems.Init(connect), es) && Calm(After(Systems.Init(connect), es), false, 3)
    ensures TOPIC !in After(Systems.Init(connect), es).t.shared.subs
  {
    var start := Systems.Init(connect);
    es := GrantedReached(connect, net);
    RunSnoc(start, es, BeginSubscribe(1, TOPIC));
    es := es + [BeginSubscribe(1, TOPIC)];
    RunSnoc(start, es, BeginSubscribe(2, TOPIC));
    es := es + [BeginSubscribe(2, TOPIC)];
    RunUnsub(start, connect, es);
    es := es + [Push(UnsubCommand(TOPIC, Immediate))] + [Obey(0)];
  }

  lemma RunUnsub(start: Sys, connect: ConnectInfo, es: seq<Event>)
    requires start == Systems.Init(connect) && Run(start, es)
    requires var x := After(start, es);
             && x.phase.Running? && x.clock == 0 && x.t.signal.Some? && x.cmds == []
             && Leaf(x.t.tree, Levels(TOPIC)).subscribed
    ensures var (x, es') := (After(start, es), es + [Push(UnsubCommand(TOPIC, Immediate))] + [Obey(0)]);
            && Run(start, es')
            && var x' := After(start, es');
               && x'.phase.Running? && x'.clock == 0 && x'.t.signal.Some? && x'.cmds == [] && x'.polls == x.polls
               && x'.t.woken == x.t.woken && x'.waits.calls == x.waits.calls && TOPIC !in x'.t.shared.subs
               && x'.t.shared.nextId == NextId(x.t.shared.nextId) && !Leaf(x'.t.tree, Levels(TOPIC)).subscribed
  {
    var push := Push(UnsubCommand(TOPIC, Immediate));
    EveryRunTask(connect, es);
    RunSnoc(start, es, push);
    UnsubNow(After(start, es + [push]));
    RunSnoc(start, es + [push], Obey(0));
  }

  /** Now the two calls send their commands, and both ask the broker. */
  lemma RunAsk(start: Sys, es: seq<Event>, next: u16)
    requires Run(start, es) && Calm(After(start, es), false, next) && TOPIC !in After(start, es).t.shared.subs
    ensures var (x, es') := (After(start, es), es + [Push(ASK)] + [Obey(0)]);
            && Run(start, es') && Calm(After(start, es'), false, NextId(next)) && AskedFor(After(start, es'), next)
            && TOPIC !in After(start, es').t.shared.subs
            && forall id: u16 :: id != next && AskedFor(x, id) ==> AskedFor(After(start, es'), id)
  {
    RunSnoc(start, es, Push(ASK));
    AskStep(After(start, es), next);
    RunSnoc(start, es + [Push(ASK)], Obey(0));
  }

  lemma AskStep(x: Sys, next: u16)
    requires Calm(x, false, next) && TOPIC !in x.t.shared.subs
    ensures var x1 := x.(cmds := x.cmds + [ASK]);
            var x' := Obeyed(x1, OnCommand(x1.t, x1.cmds[0], 0), 0);
            && Calm(x', false, NextId(next)) && AskedFor(x', next) && TOPIC !in x'.t.shared.subs
            && forall id: u16 :: id != next && AskedFor(x, id) ==> AskedFor(x', id)
  {
    AskNow(x.(cmds := x.cmds + [ASK]));
  }

  lemma AskedTwiceReached(connect: ConnectInfo, net: Network) returns (es: seq<Event>)
    ensures Run(Systems.Init(connect), es)
    ensures var x := After(Systems.Init(connect), es);
            Calm(x, false, 5) && AskedFor(x, 3) && AskedFor(x, 4) && TOPIC !in x.t.shared.subs
  {
    var start := Systems.Init(connect);
    es := ClearedReached(connect, net);
    RunAsk(start, es, 3);
    es := es + [Push(ASK)] + [Obey(0)];
    RunAsk(start, es, 4);
    es := es + [Push(ASK)] + [Obey(0)];
  }

  /** One was granted, the other refused: the tree has a subscription the map does not have. */
  lemma OutOfStepReached(connect: ConnectInfo, net: Network) returns (es: seq<Event>)
    ensures Run(Systems.Init(connect), es) && Calm(After(Systems.Init(connect), es), true, 5)
    ensures TOPIC !in After(Systems.Init(connect), es).t.shared.subs
  {
    var start := Systems.Init(connect);
    es := AskedTwiceReached(connect, net);
    EveryRunTask(connect, es);
    GrantNow(After(start, es), 3, net);
    RunSnoc(start, es, Receive(Verdict(3, Ok(AtMostOnce)), 0, net));
    es := es + [Receive(Verdict(3, Ok(AtMostOnce)), 0, net)];
    RefuseNow(After(start, es), 4, net);
    RunSnoc(start, es, Receive(Verdict(4, Err(())), 0, net));
    es := es + [Receive(Verdict(4, Err(())), 0, net)];
  }

  /** A new call makes a list and waits in it. Its command finds the subscription in the tree, so that
  the broker is not asked and nothing will settle the list. */
  lemma ForgottenReached(connect: ConnectInfo, net: Network) returns (es: seq<Event>)
    ensures Run(Systems.Init(connect), es)
    ensures var x := After(Systems.Init(connect), es);
            && x.phase.Running? && x.clock == 0 && x.t.signal.Some? && x.cmds == [] && x.t.woken <= {0}
            && Leaf(x.t.tree, Levels(TOPIC)).subscribed && WakerList(x, TOPIC) == Some([Some(1)])
            && 3 in x.waits.calls && WaitsInOwnSlot(x.waits.calls[3]) && x.waits.calls[3].waker == Some(1)
  {
    var start := Systems.Init(connect);
    es := OutOfStepReached(connect, net);
    RunFirstPoll(start, es, 3);
    es := es + FirstCall(3);
    EveryRunTask(connect, es);
    ShareNow(After(start, es));
    RunSnoc(start, es, Obey(0));
    es := es + [Obey(0)];
  }

  /** An unsubscription then throws the list away, and its waker with it. */
  lemma ListIsThrownAway(connect: ConnectInfo, net: Network) returns (es: seq<Event>)
    ensures Run(Systems.Init(connect), es)
    ensures var x := After(Systems.Init(connect), es);
            && 3 in x.waits.calls && WaitsInOwnSlot(x.waits.calls[3]) && x.waits.calls[3].waker == Some(1)
            && TOPIC !in x.t.shared.subs && !Somewhere(x, 1) && x.phase.Running?
  {
    var start := Systems.Init(connect);
    es := ForgottenReached(connect, net);
    var push := Push(UnsubCommand(TOPIC, Immediate));
    RunUnsub(start, connect, es);
    RunSnoc(start, es, push);
    assert StoredAt(After(start, es + [push]), TOPIC, 0, 1);
    DiscardLosesWakers(connect, es + [push], 0, TOPIC, 0, 1);
    RunSnoc(start, es + [push], Obey(0));
    es := es + [push] + [Obey(0)];
  }
}
