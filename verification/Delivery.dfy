/** Subscribers, in every run of the client: whoever subscribes is held by its leaf until it leaves, and a
message is handed to exactly those held by the leaves its topic matches. */
module Deliveries {
  import opened Wrappers
  import opened ByteIo
  import opened Packets
  import opened Subscriptions
  import opened Topics
  import opened SubscriptionSets
  import opened Protocol
  import opened ProtocolProofs
  import opened Systems
  import opened SystemProofs
  import opened Completion
  import opened Exchange

  // ----- Who gets a message -----

  /** The event is a message, other than a repetition, on a connection that has been answered. */
  ghost predicate IsMessage(x: Sys, e: Event, m: Message) {
    && e.Receive? && e.packet == PublishPacket(m) && x.t.signal.Some?
    && !(m.qos.ExactlyOnce? && Key(PubRec, m.id) in x.t.pending)
  }

  /** Event `d` is the arrival of the message of log entry `n`, and its takers were those held by the leaves
  that matched it then. */
  ghost predicate DeliveredBy(connect: ConnectInfo, es: seq<Event>, d: int, n: nat, entry: Log) {
    && 0 <= d < |es| && Run(Systems.Init(connect), es[..d]) && entry.Delivered?
    && var x := After(Systems.Init(connect), es[..d]);
       && |x.t.log| == n && IsMessage(x, es[d], entry.msg)
       && HandedOut(x.t.tree, Levels(entry.msg.topic), es[d].net, entry.takers)
  }

  /** A message is logged only by its arrival. */
  lemma LoggedMessage(x: Sys, e: Event, n: nat)
    requires TaskInv(x) && Enabled(x, e) && |x.t.log| <= n < |Step(x, e).t.log| && Step(x, e).t.log[n].Delivered?
    ensures n == |x.t.log| && IsMessage(x, e, Step(x, e).t.log[n].msg)
    ensures HandedOut(x.t.tree, Levels(Step(x, e).t.log[n].msg.topic), e.net, Step(x, e).t.log[n].takers)
  {
    LogStep(x, e);
    var t' := OnPacket(x.t, e.packet, e.now, e.net).0;
    assert Step(x, e).t.log == t'.log;
    if x.t.signal.Some? {
      PacketExact(x.t, e.packet, e.now, e.net);
    }
  }

  /** In every run, every message in the log was handed to exactly the subscribers of its topic. */
  lemma {:induction false} EveryDelivery(connect: ConnectInfo, es: seq<Event>, n: nat)
    requires Run(Systems.Init(connect), es)
    requires n < |After(Systems.Init(connect), es).t.log| && After(Systems.Init(connect), es).t.log[n].Delivered?
    ensures exists d :: DeliveredBy(connect, es, d, n, After(Systems.Init(connect), es).t.log[n])
    decreases |es|
  {
    if es != [] {
      var last := |es| - 1;
      var (front, e) := (es[..last], es[last]);
      var (x, entry) := (After(Systems.Init(connect), front), After(Systems.Init(connect), es).t.log[n]);
      LogStep(x, e);
      if n < |x.t.log| {
        EveryDelivery(connect, front, n);
        var d :| DeliveredBy(connect, front, d, n, x.t.log[n]);
        assert es[..d] == front[..d];
        assert DeliveredBy(connect, es, d, n, entry);
      } else {
        EveryRunTask(connect, front);
        LoggedMessage(x, e, n);
        assert DeliveredBy(connect, es, last, n, entry);
      }
    }
  }

  // ----- Who is held -----

  /** The leaf of this pattern holds this recipient. */
  ghost predicate Holds(tree: Node, p: seq<Level>, r: Recipient) {
    Held(Leaf(tree, p), r) > 0
  }

  ghost predicate Subscribes(c: Command, p: seq<Level>, r: Recipient) {
    c.SubscribeCommand? && Levels(c.topic) == p && RecipientOf(c.kind) == Some(r)
  }

  /** The broker grants a pending subscription of this recipient. */
  ghost predicate GrantedBy(s: State, p: Packet, levels: seq<Level>, r: Recipient) {
    && s.signal.Some? && p.SubAckPacket? && p.results.Valid() && p.id in s.pendingSubs
    && p.results.Results() != [] && p.results.Results()[0].Ok?
    && Levels(s.pendingSubs[p.id].topic) == levels && RecipientOf(s.pendingSubs[p.id].kind) == Some(r)
  }

  /** The recipient joins: its subscription is granted, or it shares one that exists. */
  ghost predicate Joins(x: Sys, e: Event, p: seq<Level>, r: Recipient) {
    match e
    case Receive(q, _, _) => GrantedBy(x.t, q, p, r)
    case Obey(_) => x.cmds != [] && Subscribes(x.cmds[0], p, r) && Leaf(x.t.tree, p).subscribed
    case _ => false
  }

  ghost predicate Unsubscribes(c: Command, p: seq<Level>, r: Recipient) {
    && c.UnsubCommand? && Levels(c.topic) == p
    && (c.how.Immediate? || r == Callback(c.how.id))
  }

  /** The recipient leaves: a message finds its queue closed, or its pattern is unsubscribed, or it is a
  callback and is removed. */
  ghost predicate Leaves(x: Sys, e: Event, p: seq<Level>, r: Recipient) {
    match e
    case Receive(q, _, net) =>
      q.PublishPacket? && IsMessage(x, e, q.msg) && Matches(p, Levels(q.msg.topic)) && HasClosed(net, r)
    case Obey(_) => x.cmds != [] && Unsubscribes(x.cmds[0], p, r)
    case CutObey(_) => x.cmds != [] && Unsubscribes(x.cmds[0], p, r)
    case _ => false
  }

  /** What a packet does to one recipient of one leaf. */
  lemma PacketHolds(x: Sys, e: Event, p: seq<Level>, r: Recipient)
    requires TaskInv(x) && Enabled(x, e) && e.Receive? && ValidPattern(p)
    ensures Holds(OnPacket(x.t, e.packet, e.now, e.net).0.tree, p, r) <==>
            (Holds(x.t.tree, p, r) && !Leaves(x, e, p, r)) || Joins(x, e, p, r)
  {
    var t' := OnPacket(x.t, e.packet, e.now, e.net).0;
    if x.t.signal.Some? {
      PacketExact(x.t, e.packet, e.now, e.net);
      match e.packet
      case PublishPacket(m) => MessageHolds(x.t, t', m, e.net, p, r);
      case SubAckPacket(id, results) => SubAckHolds(x.t, t', id, results.Results(), p, r);
      case _ =>
    }
  }

  lemma MessageHolds(s: State, s': State, m: Message, net: Network, p: seq<Level>, r: Recipient)
    requires Exchange.Dispatched(s, s', m, net)
    ensures Holds(s'.tree, p, r) <==>
            Holds(s.tree, p, r)
            && ((m.qos.ExactlyOnce? && Key(PubRec, m.id) in s.pending)
                || !Matches(p, Levels(m.topic)) || !HasClosed(net, r))
  {
  }

  lemma SubAckHolds(s: State, s': State, id: u16, results: seq<SubscriptionResult>, p: seq<Level>, r: Recipient)
    requires Decided(s, s', id, results) && ValidPattern(p)
    ensures Holds(s'.tree, p, r) <==>
            || Holds(s.tree, p, r)
            || (id in s.pendingSubs && results != [] && results[0].Ok? && Levels(s.pendingSubs[id].topic) == p
                && RecipientOf(s.pendingSubs[id].kind) == Some(r))
  {
    if id in s.pendingSubs && results != [] && results[0].Ok? {
      var sub := s.pendingSubs[id];
      GainsHolds(s.tree, s'.tree, sub.topic, sub.kind, p, r);
    }
  }

  lemma GainsHolds(tree: Node, tree': Node, topic: seq<byte>, kind: SubscriptionKind, p: seq<Level>, r: Recipient)
    requires TreeGains(tree, tree', topic, kind) && ValidPattern(p)
    ensures Holds(tree', p, r) <==> Holds(tree, p, r) || (Levels(topic) == p && RecipientOf(kind) == Some(r))
  {
    if Levels(topic) == p {
      assert Gains(Leaf(tree, p), Leaf(tree', p), kind);
    }
  }

  /** What a command does to it. */
  lemma CommandHolds(s: State, c: Command, now: int, p: seq<Level>, r: Recipient)
    requires TreeInv(s.tree) && ValidPattern(p)
    ensures Holds(OnCommand(s, c, now).tree, p, r) <==>
            || (Holds(s.tree, p, r) && !Unsubscribes(c, p, r))
            || (Subscribes(c, p, r) && Leaf(s.tree, p).subscribed)
  {
    match c
    case PublishCommand(m) =>
    case SubscribeCommand(topic, qos, kind) =>
      SubscribeExact(s, topic, qos, kind, now);
      if Leaf(s.tree, Levels(topic)).subscribed {
        GainsHolds(s.tree, OnCommand(s, c, now).tree, topic, kind, p, r);
      }
    case UnsubCommand(topic, how) => UnsubHolds(s, topic, how, now, p, r);
  }

  lemma UnsubHolds(s: State, topic: seq<byte>, how: UnsubKind, now: int, p: seq<Level>, r: Recipient)
    requires TreeInv(s.tree)
    ensures Holds(OnCommand(s, UnsubCommand(topic, how), now).tree, p, r) <==>
            Holds(s.tree, p, r) && !Unsubscribes(UnsubCommand(topic, how), p, r)
  {
    match how
    case RemoveCallback(id) => RemoveCallbackExact(s, topic, id, now);
    case Immediate =>
      UnsubscribeExact(s, topic, now);
      EmptyHolds(s.tree, Levels(topic), r);
  }

  /** A leaf that is not subscribed holds nobody. */
  lemma EmptyHolds(tree: Node, p: seq<Level>, r: Recipient)
    requires TreeInv(tree)
    ensures Holds(tree, p, r) ==> Leaf(tree, p).subscribed
    ensures Held(EMPTY, r) == 0
  {
    assert Leaf(tree, p).Valid();
  }

  /** The other events do not touch the tree. */
  lemma SameTree(x: Sys, e: Event)
    requires Enabled(x, e) && !e.Receive? && !e.Obey? && !e.CutObey?
    ensures Step(x, e).t.tree == x.t.tree
  {
    if IsCallStep(e) {
      CallSteps(x, e);
    } else if IsSubStep(e) {
      SubSteps(x, e);
    } else if e.Tick? {
      OnAlarmKeeps(x.t, e.ping, e.delay, e.readings);
    } else if e.CutTick? {
      OnAlarmCutKeeps(x.t, e.ping, e.delay, e.readings, e.turns);
    }
  }

  lemma CutShares(x: Sys, now: int, p: seq<Level>, r: Recipient)
    requires TaskInv(x) && Enabled(x, CutObey(now))
    ensures !(Subscribes(x.cmds[0], p, r) && Leaf(x.t.tree, p).subscribed)
  {
    var c := x.cmds[0];
    if Subscribes(c, p, r) {
      SubscribeExact(x.t, c.topic, c.qos, c.kind, now);
    }
  }

  /** A step changes whom a leaf holds exactly by joining and leaving. */
  lemma HoldsStep(x: Sys, e: Event, p: seq<Level>, r: Recipient)
    requires TaskInv(x) && Enabled(x, e) && ValidPattern(p)
    ensures Holds(Step(x, e).t.tree, p, r) <==> (Holds(x.t.tree, p, r) && !Leaves(x, e, p, r)) || Joins(x, e, p, r)
  {
    if e.Receive? {
      PacketHolds(x, e, p, r);
    } else if e.Obey? {
      CommandHolds(x.t, x.cmds[0], e.now, p, r);
    } else if e.CutObey? {
      CommandHolds(x.t, x.cmds[0], e.now, p, r);
      CutShares(x, e.now, p, r);
    } else {
      SameTree(x, e);
    }
  }

  ghost predicate JoinsAt(connect: ConnectInfo, es: seq<Event>, g: int, p: seq<Level>, r: Recipient) {
    0 <= g < |es| && Run(Systems.Init(connect), es[..g]) && Joins(After(Systems.Init(connect), es[..g]), es[g], p, r)
  }

  ghost predicate LeavesAt(connect: ConnectInfo, es: seq<Event>, g: int, p: seq<Level>, r: Recipient) {
    0 <= g < |es| && Run(Systems.Init(connect), es[..g]) && Leaves(After(Systems.Init(connect), es[..g]), es[g], p, r)
  }

  /** It joined, and has not left since. */
  ghost predicate StayedSince(connect: ConnectInfo, es: seq<Event>, g: int, p: seq<Level>, r: Recipient) {
    JoinsAt(connect, es, g, p, r) && forall i :: g < i ==> !LeavesAt(connect, es, i, p, r)
  }

  lemma EmptyTree(p: seq<Level>, r: Recipient)
    ensures !Holds(EMPTY_NODE, p, r)
  {
    EmptyNodeLeaves(p);
  }

  lemma SameAt(connect: ConnectInfo, es: seq<Event>, i: int, p: seq<Level>, r: Recipient)
    requires 0 <= i < |es| - 1
    ensures JoinsAt(connect, es, i, p, r) <==> JoinsAt(connect, es[..|es| - 1], i, p, r)
    ensures LeavesAt(connect, es, i, p, r) <==> LeavesAt(connect, es[..|es| - 1], i, p, r)
  {
    assert es[..i] == es[..|es| - 1][..i];
  }

  lemma StayedBefore(connect: ConnectInfo, es: seq<Event>, g: int, p: seq<Level>, r: Recipient)
    requires StayedSince(connect, es, g, p, r) && g < |es| - 1
    ensures StayedSince(connect, es[..|es| - 1], g, p, r)
  {
    var front := es[..|es| - 1];
    SameAt(connect, es, g, p, r);
    forall i | g < i ensures !LeavesAt(connect, front, i, p, r) {
      if i < |es| - 1 {
        SameAt(connect, es, i, p, r);
      }
    }
  }

  lemma StaysOn(connect: ConnectInfo, es: seq<Event>, g: int, p: seq<Level>, r: Recipient)
    requires es != [] && StayedSince(connect, es[..|es| - 1], g, p, r) && !LeavesAt(connect, es, |es| - 1, p, r)
    ensures StayedSince(connect, es, g, p, r)
  {
    SameAt(connect, es, g, p, r);
    forall i | g < i ensures !LeavesAt(connect, es, i, p, r) {
      if i < |es| - 1 {
        SameAt(connect, es, i, p, r);
      }
    }
  }

  ghost predicate Stayed(connect: ConnectInfo, es: seq<Event>, p: seq<Level>, r: Recipient) {
    exists g :: StayedSince(connect, es, g, p, r)
  }

  lemma StayedSnoc(connect: ConnectInfo, es: seq<Event>, p: seq<Level>, r: Recipient)
    requires es != []
    ensures var last := |es| - 1;
            Stayed(connect, es, p, r) <==>
            || (Stayed(connect, es[..last], p, r) && !LeavesAt(connect, es, last, p, r))
            || JoinsAt(connect, es, last, p, r)
  {
    var last := |es| - 1;
    if Stayed(connect, es, p, r) && !JoinsAt(connect, es, last, p, r) {
      var g :| StayedSince(connect, es, g, p, r);
      assert g != last;
      StayedBefore(connect, es, g, p, r);
      assert !LeavesAt(connect, es, last, p, r);
    }
    if Stayed(connect, es[..last], p, r) && !LeavesAt(connect, es, last, p, r) {
      var g :| StayedSince(connect, es[..last], g, p, r);
      StaysOn(connect, es, g, p, r);
    }
    if JoinsAt(connect, es, last, p, r) {
      assert StayedSince(connect, es, last, p, r);
    }
  }

  /** In every run, a leaf holds exactly those who have joined and not left since. */
  lemma {:induction false} HeldExactly(connect: ConnectInfo, es: seq<Event>, p: seq<Level>, r: Recipient)
    requires Run(Systems.Init(connect), es) && ValidPattern(p)
    ensures Holds(After(Systems.Init(connect), es).t.tree, p, r) <==> Stayed(connect, es, p, r)
    decreases |es|
  {
    if es == [] {
      EmptyTree(p, r);
    } else {
      var (front, last) := (es[..|es| - 1], |es| - 1);
      HeldExactly(connect, front, p, r);
      StayedStep(connect, es, p, r);
      HoldsAfter(connect, es, p, r);
    }
  }

  lemma StayedStep(connect: ConnectInfo, es: seq<Event>, p: seq<Level>, r: Recipient)
    requires es != [] && Run(Systems.Init(connect), es)
    ensures var (x, last) := (After(Systems.Init(connect), es[..|es| - 1]), |es| - 1);
            Stayed(connect, es, p, r) <==>
            (Stayed(connect, es[..last], p, r) && !Leaves(x, es[last], p, r)) || Joins(x, es[last], p, r)
  {
    StayedSnoc(connect, es, p, r);
    AtLast(connect, es, p, r);
  }

  lemma HoldsAfter(connect: ConnectInfo, es: seq<Event>, p: seq<Level>, r: Recipient)
    requires es != [] && Run(Systems.Init(connect), es) && ValidPattern(p)
    ensures var (x, last) := (After(Systems.Init(connect), es[..|es| - 1]), |es| - 1);
            Holds(After(Systems.Init(connect), es).t.tree, p, r) <==>
            (Holds(x.t.tree, p, r) && !Leaves(x, es[last], p, r)) || Joins(x, es[last], p, r)
  {
    EveryRunTask(connect, es[..|es| - 1]);
    HoldsStep(After(Systems.Init(connect), es[..|es| - 1]), es[|es| - 1], p, r);
  }

  lemma AtLast(connect: ConnectInfo, es: seq<Event>, p: seq<Level>, r: Recipient)
    requires es != [] && Run(Systems.Init(connect), es)
    ensures var (x, last) := (After(Systems.Init(connect), es[..|es| - 1]), |es| - 1);
            && (JoinsAt(connect, es, last, p, r) <==> Joins(x, es[last], p, r))
            && (LeavesAt(connect, es, last, p, r) <==> Leaves(x, es[last], p, r))
  {
  }

  /** In every run, the takers of a message are exactly those who could take it and had subscribed, with a
  pattern that matches its topic, and not left since. */
  lemma TakersExactly(connect: ConnectInfo, es: seq<Event>, d: int, n: nat, entry: Log, r: Recipient)
    requires DeliveredBy(connect, es, d, n, entry)
    ensures r in entry.takers <==>
            Accepts(es[d].net, r)
            && exists p :: Matches(p, Levels(entry.msg.topic)) && Stayed(connect, es[..d], p, r)
  {
    var (x, topic) := (After(Systems.Init(connect), es[..d]), Levels(entry.msg.topic));
    HandedOutMeans(x.t.tree, topic, es[d].net, entry.takers, r);
    forall p | Matches(p, topic) ensures Held(Leaf(x.t.tree, p), r) > 0 <==> Stayed(connect, es[..d], p, r) {
      MatchesPositionwise(p, topic);
      HeldExactly(connect, es[..d], p, r);
    }
  }
}
