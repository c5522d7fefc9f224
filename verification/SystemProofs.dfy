/** Theorems over every run of the client, against any peer. */
module SystemProofs {
  import opened Wrappers
  import opened ByteIo
  import opened Packets
  import opened Subscriptions
  import opened Topics
  import opened SubscriptionSets
  import opened Protocol
  import opened ProtocolProofs
  import opened Systems

  // ----- What the clients' steps leave alone -----

  /** A step of a publish call, or a command from a client. */
  ghost predicate IsCallStep(e: Event) {
    e.Begin? || e.Register? || e.Submit? || e.Poll? || e.Drop? || e.Push?
  }

  ghost predicate IsSubStep(e: Event) {
    e.BeginSubscribe? || e.PollSubscribe? || e.DropSubscribe?
  }

  /** The task is where it was. */
  ghost predicate SameTask(x: Sys, x': Sys) {
    && x'.t == x.t.(shared := x'.t.shared)
    && x'.clock == x.clock && x'.phase == x.phase && x'.broken == x.broken && x.polls <= x'.polls
  }

  ghost predicate CallStep(x: Sys, x': Sys) {
    SameTask(x, x') && x'.t.shared.subs == x.t.shared.subs && x'.waits == x.waits && x.cmds <= x'.cmds
  }

  ghost predicate SubStep(x: Sys, x': Sys) {
    && SameTask(x, x') && x'.t.shared == x.t.shared.(subs := x'.t.shared.subs)
    && x'.cmds == x.cmds && x'.calls == x.calls && x'.allocs == x.allocs
  }

  /** No subscription comes into existence. */
  ghost predicate NoneGranted(x: Sys, x': Sys) {
    forall t <- x'.t.shared.subs :: x'.t.shared.subs[t].Existing? ==>
      t in x.t.shared.subs && x'.t.shared.subs[t] == x.t.shared.subs[t]
  }

  lemma BeganStep(x: Sys, call: nat, qos: QoS, retain: bool, topic: seq<byte>, payload: seq<byte>, stage: Option<Stage>)
    ensures CallStep(x, Began(x, call, qos, retain, topic, payload, stage))
  {
  }

  lemma RegisterStep(x: Sys, call: nat)
    requires call in x.calls
    ensures CallStep(x, DidRegister(x, call)) && CallStep(x, Dropped(x, call))
  {
  }

  lemma SubmitStep(x: Sys, call: nat)
    requires call in x.calls
    ensures CallStep(x, Submitting(x, call))
  {
    RegisterStep(x, call);
  }

  lemma PollStep(x: Sys, call: nat)
    requires call in x.calls && x.calls[call].stage.Some?
    ensures CallStep(x, Polled(x, call))
  {
  }

  lemma CallSteps(x: Sys, e: Event)
    requires Enabled(x, e) && IsCallStep(e)
    ensures CallStep(x, Step(x, e))
  {
    match e
    case Begin(call, qos, retain, topic, payload, stage) => BeganStep(x, call, qos, retain, topic, payload, stage);
    case Register(call) => RegisterStep(x, call);
    case Submit(call) => SubmitStep(x, call);
    case Poll(call) => PollStep(x, call);
    case Drop(call) => RegisterStep(x, call);
    case Push(_) =>
  }

  lemma WithSubsStep(x: Sys, waits: Waits, subs: map<seq<byte>, SubscriptionState>, polls: nat)
    requires x.polls <= polls
    ensures SubStep(x, WithSubs(x, waits, subs, polls)) && SubStep(x, x.(waits := waits))
  {
  }

  lemma PollSubscribeStep(x: Sys, call: nat)
    requires call in x.waits.calls && !OutOfBounds(x, x.waits.calls[call])
    ensures SubStep(x, SubscribePolled(x, call)) && NoneGranted(x, SubscribePolled(x, call))
  {
    var x' := SubscribePolled(x, call);
    WithSubsStep(x, x'.waits, x'.t.shared.subs, x'.polls);
  }

  lemma DropSubscribeStep(x: Sys, call: nat)
    requires call in x.waits.calls && !OutOfBounds(x, x.waits.calls[call])
    ensures SubStep(x, SubscribeDropped(x, call)) && NoneGranted(x, SubscribeDropped(x, call))
  {
    var x' := SubscribeDropped(x, call);
    WithSubsStep(x, x'.waits, x'.t.shared.subs, x'.polls);
  }

  lemma SubSteps(x: Sys, e: Event)
    requires Enabled(x, e) && IsSubStep(e)
    ensures SubStep(x, Step(x, e)) && NoneGranted(x, Step(x, e))
  {
    match e
    case BeginSubscribe(call, topic) =>
      var x' := SubscribeBegun(x, call, topic);
      WithSubsStep(x, x'.waits, x'.t.shared.subs, x'.polls);
    case PollSubscribe(call) => PollSubscribeStep(x, call);
    case DropSubscribe(call) => DropSubscribeStep(x, call);
  }

  // ----- What the task keeps in every run -----

  /** Until a step is cut short: everything in flight will be repeated, and the identifiers being
  answered are exactly those delivered and not released. */
  ghost predicate TaskCore(x: Sys) {
    && Kept(x.t) && OncePerRelease(x.t.log) && Agreement(x.t)
    && (!x.broken ==> FlightInv(x.t, x.clock) && ReceiverInv(x.t))
    && (forall i :: 0 <= i < |x.cmds| ==> Acceptable(x.cmds[i]))
    && (forall c <- x.calls :: !x.calls[c].msg.dup)
  }

  ghost predicate TaskInv(x: Sys) {
    TaskCore(x) && (x.broken ==> !x.phase.Running?)
  }

  lemma InitTask(connect: ConnectInfo)
    ensures TaskInv(Systems.Init(connect))
  {
    var x := Systems.Init(connect);
    forall p ensures Leaf(x.t.tree, p).Valid() {
      EmptyNodeLeaves(p);
    }
    EmptyNodeLeaves([]);
    assert x.t.sent[..0] == [];
  }

  lemma StoppedTask(x: Sys)
    requires TaskCore(x)
    ensures TaskInv(Stopped(x))
  {
    if x.t.signal.Some? {
      QueueKept(x.t, DisconnectPacket);
      if !x.broken {
        QueueFlight(x.t, DisconnectPacket, false, x.clock);
      }
    }
  }

  /** A step that touches only the shared maps and the wake-ups. */
  lemma SharedStepTask(x: Sys, x': Sys)
    requires TaskInv(x)
    requires x'.t == x.t.(shared := x'.t.shared, woken := x'.t.woken) && x'.clock == x.clock && x'.broken == x.broken
    requires x'.broken ==> !x'.phase.Running?
    requires forall t <- x'.t.shared.subs :: x'.t.shared.subs[t].Existing? ==>
               t in x.t.shared.subs && x.t.shared.subs[t].Existing?
    requires forall i :: 0 <= i < |x'.cmds| ==> Acceptable(x'.cmds[i])
    requires forall c <- x'.calls :: !x'.calls[c].msg.dup
    ensures TaskInv(x')
  {
    if !x.broken {
      LessFlight(x.t, x'.t, x.clock);
    }
    forall k | Live(x'.t, k) ensures Handed(InFlight(x'.t, k), false) in x'.t.sent {
      assert Live(x.t, k);
    }
  }

  lemma ReceiveTask(x: Sys, p: Packet, now: int, net: Network)
    requires TaskInv(x) && Enabled(x, Receive(p, now, net))
    ensures TaskInv(Step(x, Receive(p, now, net)))
  {
    LaterFlight(x.t, x.clock, now);
    OnPacketFlight(x.t, p, now, net);
    OnPacketReceiver(x.t, p, now, net);
    OnPacketAgreement(x.t, p, now, net);
    var x' := x.(t := OnPacket(x.t, p, now, net).0, clock := now);
    StoppedTask(x');
  }

  lemma ObeyTask(x: Sys, now: int)
    requires TaskInv(x) && Enabled(x, Obey(now))
    ensures TaskInv(Step(x, Obey(now)))
  {
    LaterFlight(x.t, x.clock, now);
    OnCommandFlight(x.t, x.cmds[0], now);
    OnCommandReceiver(x.t, x.cmds[0], now);
    OnCommandAgreement(x.t, x.cmds[0], now);
  }

  lemma TickTask(x: Sys, ping: bool, delay: int, readings: nat -> int, end: int)
    requires TaskInv(x) && Enabled(x, Tick(ping, delay, readings, end))
    ensures TaskInv(Step(x, Tick(ping, delay, readings, end)))
  {
    OnAlarmFlight(x.t, ping, delay, readings, x.clock, end);
    OnAlarmKeeps(x.t, ping, delay, readings);
  }

  lemma CutReceiveTask(x: Sys, p: Packet, now: int)
    requires TaskInv(x) && Enabled(x, CutReceive(p, now))
    ensures TaskInv(Step(x, CutReceive(p, now)))
  {
    LaterFlight(x.t, x.clock, now);
    OnPacketCutFlight(x.t, p, now);
    OnPacketCutAgreement(x.t, p, now);
    if p.PubRelPacket? {
      LogMore(x.t.log, Released(p.id));
    }
    StoppedTask(x.(t := OnPacketCut(x.t, p, now), clock := now, broken := true));
  }

  lemma CutObeyTask(x: Sys, now: int)
    requires TaskInv(x) && Enabled(x, CutObey(now))
    ensures TaskInv(Step(x, CutObey(now)))
  {
    LaterFlight(x.t, x.clock, now);
    OnCommandFlight(x.t, x.cmds[0], now);
    OnCommandReceiver(x.t, x.cmds[0], now);
    OnCommandAgreement(x.t, x.cmds[0], now);
    TimeoutsKept(OnCommand(x.t, x.cmds[0], now), x.t.timeouts);
    StoppedTask(Obeyed(x, OnCommandCut(x.t, x.cmds[0], now), now).(broken := true));
  }

  lemma CutTickTask(x: Sys, e: Event)
    requires TaskInv(x) && Enabled(x, e) && e.CutTick?
    ensures TaskInv(Step(x, e))
  {
    PassFlight(x.t, e.ping, e.delay, e.readings, e.turns, x.clock, e.end);
    OnAlarmCutKeeps(x.t, e.ping, e.delay, e.readings, e.turns);
    var t' := OnAlarmCut(x.t, e.ping, e.delay, e.readings, e.turns);
    TimeoutsKept(AlarmPass(Pinged(x.t, e.ping), e.turns, e.delay, e.readings, 0), t'.timeouts);
    StoppedTask(x.(t := t', clock := e.end, broken := true));
  }

  lemma CallTask(x: Sys, e: Event)
    requires TaskInv(x) && Enabled(x, e) && IsCallStep(e)
    ensures TaskInv(Step(x, e))
  {
    CallSteps(x, e);
    CallStepClean(x, e);
    SharedStepTask(x, Step(x, e));
  }

  /** Clients ask for publishes without DUP only. */
  lemma CallStepClean(x: Sys, e: Event)
    requires TaskCore(x) && Enabled(x, e) && IsCallStep(e)
    ensures forall i :: 0 <= i < |Step(x, e).cmds| ==> Acceptable(Step(x, e).cmds[i])
    ensures forall c <- Step(x, e).calls :: !Step(x, e).calls[c].msg.dup
  {
  }

  lemma SubscribeTask(x: Sys, e: Event)
    requires TaskInv(x) && Enabled(x, e) && IsSubStep(e)
    ensures TaskInv(Step(x, e))
  {
    SubSteps(x, e);
    SharedStepTask(x, Step(x, e));
  }

  lemma CleanupTask(x: Sys)
    requires TaskInv(x) && x.phase.Failing?
    ensures TaskInv(CleanedUp(x))
  {
    SharedStepTask(x, CleanedUp(x));
  }

  lemma StepTask(x: Sys, e: Event)
    requires TaskInv(x) && Enabled(x, e)
    ensures TaskInv(Step(x, e))
  {
    match e
    case Receive(p, now, net) => ReceiveTask(x, p, now, net);
    case Obey(now) => ObeyTask(x, now);
    case Tick(ping, delay, readings, end) => TickTask(x, ping, delay, readings, end);
    case CutReceive(p, now) => CutReceiveTask(x, p, now);
    case CutObey(now) => CutObeyTask(x, now);
    case CutTick(_, _, _, _, _) => CutTickTask(x, e);
    case Exit(closed) => StoppedTask(x);
    case Cleanup => CleanupTask(x);
    case BeginSubscribe(_, _) => SubscribeTask(x, e);
    case PollSubscribe(_) => SubscribeTask(x, e);
    case DropSubscribe(_) => SubscribeTask(x, e);
    case _ => CallTask(x, e);
  }

  /** In every state of every run, until a step is cut short: everything in flight has a timeout,
  timeouts are in order, and QoS 2 identifiers are remembered exactly. In every state: DUP marks
  only what went out before, and the subscriptions clients see are subscribed in the tree. */
  lemma {:induction false} EveryRunTask(connect: ConnectInfo, es: seq<Event>)
    requires Run(Systems.Init(connect), es)
    ensures TaskInv(After(Systems.Init(connect), es))
    decreases |es|
  {
    if es == [] {
      InitTask(connect);
    } else {
      EveryRunTask(connect, es[..|es| - 1]);
      StepTask(After(Systems.Init(connect), es[..|es| - 1]), es[|es| - 1]);
    }
  }

  // ----- Identifiers -----

  /** The identifier of the n-th allocation, and the identifiers of the first n. */
  function IdAt(n: nat): u16 {
    (1 + n) % 65536
  }

  predicate Used(n: nat, id: u16) {
    (id + 65535) % 65536 < n
  }

  // The counter, in runs of any length.

  /** The counter moves exactly with an allocation. */
  lemma StepCounts(x: Sys, e: Event)
    requires Enabled(x, e)
    ensures var x' := Step(x, e);
            && x.allocs <= x'.allocs <= x.allocs + 1
            && x'.t.shared.nextId == if x'.allocs == x.allocs then x.t.shared.nextId else NextId(x.t.shared.nextId)
  {
    if IsTaskStep(e) {
      LoopCounts(x, e);
    } else if IsSubStep(e) {
      SubSteps(x, e);
    }
  }

  /** A step of the running task, cut short or not. */
  ghost predicate IsTaskStep(e: Event) {
    e.Receive? || e.Obey? || e.Tick? || e.CutReceive? || e.CutObey? || e.CutTick?
  }

  lemma LoopCounts(x: Sys, e: Event)
    requires Enabled(x, e) && IsTaskStep(e)
    ensures var x' := Step(x, e);
            && x.allocs <= x'.allocs <= x.allocs + 1
            && x'.t.shared.nextId == if x'.allocs == x.allocs then x.t.shared.nextId else NextId(x.t.shared.nextId)
  {
    match e
    case Receive(p, now, net) => OnPacketKeys(x.t, p, now, net);
    case Obey(now) => ObeyAllocates(x.t, x.cmds[0], now);
    case CutReceive(_, _) =>
    case CutObey(now) => ObeyAllocates(x.t, x.cmds[0], now);
    case Tick(ping, delay, readings, end) => OnAlarmKeeps(x.t, ping, delay, readings);
    case CutTick(ping, delay, readings, end, n) => OnAlarmCutKeeps(x.t, ping, delay, readings, n);
  }

  /** In every state of every run the counter is what the number of allocations makes it. */
  lemma {:induction false} EveryRunCounts(connect: ConnectInfo, es: seq<Event>)
    requires Run(Systems.Init(connect), es)
    ensures var x := After(Systems.Init(connect), es); x.t.shared.nextId == IdAt(x.allocs)
    decreases |es|
  {
    if es != [] {
      var front := es[..|es| - 1];
      EveryRunCounts(connect, front);
      StepCounts(After(Systems.Init(connect), front), es[|es| - 1]);
      NextIdAt(After(Systems.Init(connect), front).allocs);
    }
  }

  lemma NextIdAt(n: nat)
    ensures NextId(IdAt(n)) == IdAt(n + 1)
  {
  }

  lemma {:induction false} AllocsMonotone(connect: ConnectInfo, es: seq<Event>, i: nat)
    requires Run(Systems.Init(connect), es) && i <= |es|
    ensures Run(Systems.Init(connect), es[..i])
    ensures After(Systems.Init(connect), es[..i]).allocs <= After(Systems.Init(connect), es).allocs
    decreases |es|
  {
    if i == |es| {
      assert es[..i] == es;
    } else {
      var front := es[..|es| - 1];
      assert es[..i] == front[..i];
      AllocsMonotone(connect, front, i);
      StepCounts(After(Systems.Init(connect), front), es[|es| - 1]);
    }
  }

  ghost function AllocsAfter(connect: ConnectInfo, es: seq<Event>): nat
    requires Run(Systems.Init(connect), es)
  {
    After(Systems.Init(connect), es).allocs
  }

  /** Event `i` of a run takes an identifier from the counter. */
  ghost predicate AllocatesAt(connect: ConnectInfo, es: seq<Event>, i: nat) {
    && i < |es| && Run(Systems.Init(connect), es[..i]) && Run(Systems.Init(connect), es[..i + 1])
    && AllocsAfter(connect, es[..i + 1]) == AllocsAfter(connect, es[..i]) + 1
  }

  /** The identifier it takes. */
  ghost function IdTaken(connect: ConnectInfo, es: seq<Event>, i: nat): u16
    requires AllocatesAt(connect, es, i)
  {
    After(Systems.Init(connect), es[..i]).t.shared.nextId
  }

  lemma TakenId(connect: ConnectInfo, es: seq<Event>, i: nat)
    requires AllocatesAt(connect, es, i)
    ensures IdTaken(connect, es, i) == IdAt(AllocsAfter(connect, es[..i]))
  {
    EveryRunCounts(connect, es[..i]);
  }

  lemma AllocationOrder(connect: ConnectInfo, es: seq<Event>, i: nat, j: nat)
    requires i < j && AllocatesAt(connect, es, i) && AllocatesAt(connect, es, j)
    ensures AllocsAfter(connect, es[..i]) < AllocsAfter(connect, es[..j])
  {
    assert es[..j][..i + 1] == es[..i + 1];
    AllocsMonotone(connect, es[..j], i + 1);
  }

  /** Any two allocations of a run, by clients or by the task, however far apart: they give the
  same identifier exactly if their distance is a multiple of 65536. So any 65536 consecutive
  ones are pairwise distinct, and the invalid zero is the last of each round. */
  lemma AllocationsDistinct(connect: ConnectInfo, es: seq<Event>, i: nat, j: nat)
    requires i < j && AllocatesAt(connect, es, i) && AllocatesAt(connect, es, j)
    ensures var (n, m) := (AllocsAfter(connect, es[..i]), AllocsAfter(connect, es[..j]));
            && n < m
            && (IdTaken(connect, es, i) == IdTaken(connect, es, j) <==> (m - n) % 65536 == 0)
            && (IdTaken(connect, es, i) == 0 <==> n % 65536 == 65535)
  {
    AllocationOrder(connect, es, i, j);
    TakenId(connect, es, i);
    TakenId(connect, es, j);
    IdsRepeat(AllocsAfter(connect, es[..i]), AllocsAfter(connect, es[..j]));
  }

  lemma IdsRepeat(n: nat, m: nat)
    requires n <= m
    ensures IdAt(n) == IdAt(m) <==> (m - n) % 65536 == 0
    ensures IdAt(n) == 0 <==> n % 65536 == 65535
  {
    var (q, r) := (n / 65536, n % 65536);
    var (d, e) := ((m - n) / 65536, (m - n) % 65536);
    assert 1 + n == 65536 * q + (1 + r) && 1 + m == 65536 * (q + d) + (1 + r + e);
  }

  // The identifiers in use, until the counter comes round.

  lemma Allocate(n: nat)
    requires n < 65536
    ensures !Used(n, IdAt(n)) && Used(n + 1, IdAt(n)) && NextId(IdAt(n)) == IdAt(n + 1)
    ensures forall id: u16 :: Used(n, id) ==> Used(n + 1, id)
  {
  }

  ghost predicate Tracked(p: Packet, id: u16) {
    p.PublishPacket? && !p.msg.qos.AtMostOnce? && p.msg.id == id
  }

  /** A publish with this identifier has been handed over. */
  ghost predicate SentId(sent: seq<Handed>, id: u16) {
    exists i :: 0 <= i < |sent| && Tracked(sent[i].packet, id)
  }

  ghost predicate Commanded(c: Command, id: u16) {
    c.PublishCommand? && !c.msg.qos.AtMostOnce? && c.msg.id == id
  }

  ghost predicate TracksId(c: Call) {
    !c.msg.qos.AtMostOnce?
  }

  ghost predicate CallIds(x: Sys) {
    && (forall c <- x.calls :: TracksId(x.calls[c]) ==> Used(x.allocs, x.calls[c].msg.id))
    && (forall c, d :: c in x.calls && d in x.calls && c != d && TracksId(x.calls[c]) && TracksId(x.calls[d]) ==>
          x.calls[c].msg.id != x.calls[d].msg.id)
    && (forall c <- x.calls :: TracksId(x.calls[c]) && !x.calls[c].phase.Submitted? ==>
          Unspent(x, x.calls[c].msg.id))
  }

  /** Neither commanded nor sent. */
  ghost predicate Unspent(x: Sys, id: u16) {
    !SentId(x.t.sent, id) && forall i :: 0 <= i < |x.cmds| ==> !Commanded(x.cmds[i], id)
  }

  ghost predicate CommandIds(x: Sys) {
    && (forall i, id :: 0 <= i < |x.cmds| && Commanded(x.cmds[i], id) ==> Used(x.allocs, id) && !SentId(x.t.sent, id))
    && (forall i, j, id :: 0 <= i < j < |x.cmds| && Commanded(x.cmds[i], id) ==> !Commanded(x.cmds[j], id))
  }

  ghost predicate FlightIds(x: Sys) {
    && x.t.shared.nextId == IdAt(x.allocs)
    && (forall id :: SentId(x.t.sent, id) ==> Used(x.allocs, id))
    && (forall id: u16 :: Key(Unsubscribe, id) in x.t.pending || id in x.t.pendingSubs ==> Used(x.allocs, id))
  }

  ghost predicate IdInv(x: Sys) {
    CallIds(x) && CommandIds(x) && FlightIds(x)
  }

  lemma SentMore(sent: seq<Handed>, h: Handed, id: u16)
    ensures SentId(sent + [h], id) <==> SentId(sent, id) || Tracked(h.packet, id)
  {
    var more := sent + [h];
    if SentId(sent, id) {
      var i :| 0 <= i < |sent| && Tracked(sent[i].packet, id);
      assert Tracked(more[i].packet, id);
    }
    if Tracked(h.packet, id) {
      assert Tracked(more[|sent|].packet, id);
    }
  }

  /** No new publish identifier is handed over. */
  ghost predicate SameIds(a: seq<Handed>, b: seq<Handed>) {
    forall id :: SentId(b, id) <==> SentId(a, id)
  }

  lemma QueueIds(sent: seq<Handed>, h: Handed)
    requires !h.packet.PublishPacket? || Handed(h.packet, false) in sent
    ensures SameIds(sent, sent + [h])
  {
    forall id ensures SentId(sent + [h], id) <==> SentId(sent, id) {
      SentMore(sent, h, id);
      if Tracked(h.packet, id) {
        var i :| 0 <= i < |sent| && sent[i] == Handed(h.packet, false);
        assert Tracked(sent[i].packet, id);
      }
    }
  }

  lemma OnPubRecSends(s: State, id: u16, now: int)
    requires Shapes(s)
    ensures OnPubRec(s, id, now).sent == s.sent + [Handed(PubRelPacket(id), false)]
  {
  }

  /** A packet is answered by at most one packet, which is no publish. */
  lemma OnPacketSends(s: State, p: Packet, now: int, net: Network)
    requires Shapes(s) && (p.SubAckPacket? ==> p.results.Valid())
    ensures var s' := OnPacket(s, p, now, net).0;
            s'.sent == s.sent || (s.sent < s'.sent && |s'.sent| == |s.sent| + 1
                && !s'.sent[|s.sent|].packet.PublishPacket? && !s'.sent[|s.sent|].packet.DisconnectPacket?)
  {
    if p.PubRecPacket? {
      OnPubRecSends(s, p.id, now);
    }
  }

  lemma OnPacketKeys(s: State, p: Packet, now: int, net: Network)
    requires p.SubAckPacket? ==> p.results.Valid()
    ensures var s' := OnPacket(s, p, now, net).0;
            && s'.shared.nextId == s.shared.nextId
            && (forall id: u16 :: Key(Unsubscribe, id) in s'.pending ==> Key(Unsubscribe, id) in s.pending)
            && (forall id <- s'.pendingSubs :: id in s.pendingSubs)
  {
    if s.signal.Some? {
      match p
      case PublishPacket(m) => PublishKeys(s, m, now, net);
      case PubRecPacket(id) => PubRecKeys(s, id, now);
      case _ =>
    }
  }

  ghost predicate NoNewAsks(s: State, s': State) {
    && s'.shared.nextId == s.shared.nextId && s'.pendingSubs == s.pendingSubs
    && (forall id: u16 :: Key(Unsubscribe, id) in s'.pending ==> Key(Unsubscribe, id) in s.pending)
  }

  lemma PublishKeys(s: State, m: Message, now: int, net: Network)
    ensures NoNewAsks(s, OnPublish(s, m, now, net))
  {
  }

  lemma PubRecKeys(s: State, id: u16, now: int)
    ensures NoNewAsks(s, OnPubRec(s, id, now))
  {
  }

  lemma OnPacketIds(s: State, p: Packet, now: int, net: Network)
    requires Shapes(s) && (p.SubAckPacket? ==> p.results.Valid())
    ensures var s' := OnPacket(s, p, now, net).0;
            && SameIds(s.sent, s'.sent)
            && s'.shared.nextId == s.shared.nextId
            && (forall id: u16 :: Key(Unsubscribe, id) in s'.pending ==> Key(Unsubscribe, id) in s.pending)
            && (forall id <- s'.pendingSubs :: id in s.pendingSubs)
  {
    var s' := OnPacket(s, p, now, net).0;
    OnPacketKeys(s, p, now, net);
    OnPacketSends(s, p, now, net);
    if s'.sent != s.sent {
      var h := s'.sent[|s.sent|];
      assert s'.sent == s.sent + [h];
      QueueIds(s.sent, h);
    }
  }

  lemma {:induction false} ResentIds(s: State, sent: seq<Handed>, ts: seq<Timeout>)
    requires Shapes(s) && forall k :: Live(s, k) ==> Handed(InFlight(s, k), false) in sent
    ensures SameIds(sent, sent + Resent(s, ts))
    decreases |ts|
  {
    if ts == [] {
      assert sent + [] == sent;
    } else if Live(s, ts[0].key) {
      var h := Handed(InFlight(s, ts[0].key), ts[0].key.ty == Publish);
      QueueIds(sent, h);
      ResentIds(s, sent + [h], ts[1..]);
      Assoc(sent, [h], Resent(s, ts[1..]));
    } else {
      ResentIds(s, sent, ts[1..]);
      assert [] + Resent(s, ts[1..]) == Resent(s, ts[1..]);
    }
  }

  lemma PassIds(s: State, ping: bool, delay: int, clock: nat -> int, n: nat)
    requires Kept(s) && n <= |s.timeouts|
    ensures SameIds(s.sent, AlarmPass(Pinged(s, ping), n, delay, clock, 0).sent)
  {
    PassExact(s, ping, delay, clock, n);
    QueueIds(s.sent, Handed(PingReqPacket, false));
    var ts := s.timeouts[..n];
    ResentIds(s, Pinged(s, ping).sent, ts[..ExpiredCount(ts, delay, clock, 0)]);
  }

  /** Nothing about identifiers changes. */
  lemma QuietIds(x: Sys, x': Sys)
    requires IdInv(x)
    requires SameIds(x.t.sent, x'.t.sent) && x'.cmds == x.cmds && x'.allocs == x.allocs
    requires x'.t.shared.nextId == x.t.shared.nextId
    requires forall id: u16 :: Key(Unsubscribe, id) in x'.t.pending ==> Key(Unsubscribe, id) in x.t.pending
    requires forall id <- x'.t.pendingSubs :: id in x.t.pendingSubs
    requires forall c <- x'.calls ::
             c in x.calls && x'.calls[c].msg == x.calls[c].msg
                 && (x.calls[c].phase.Submitted? ==> x'.calls[c].phase.Submitted?)
    ensures IdInv(x')
  {
    forall id ensures Unspent(x, id) ==> Unspent(x', id) {}
  }

  /** `t'` is what the command leads to, but for the timeout queue. */
  lemma ObeyIds(x: Sys, t': State, now: int)
    requires IdInv(x) && x.cmds != [] && Obeyed(x, t', now).allocs <= 65536
    requires t' == OnCommand(x.t, x.cmds[0], now).(timeouts := t'.timeouts)
    ensures IdInv(Obeyed(x, t', now))
  {
    var x' := Obeyed(x, t', now);
    var c := x.cmds[0];
    ObeyAllocates(x.t, c, now);
    if x'.allocs != x.allocs {
      Allocate(x.allocs);
    }
    forall id ensures SentId(x'.t.sent, id) <==> SentId(x.t.sent, id) || Commanded(c, id) {
      ObeySends(x.t, c, now, id);
    }
    ObeyMovesCommand(x, x');
  }

  /** Taking a command moves its identifier from the queue to what was sent. */
  lemma ObeyMovesCommand(x: Sys, x': Sys)
    requires CallIds(x) && CommandIds(x) && x.cmds != []
    requires x'.cmds == x.cmds[1..] && x'.calls == x.calls
    requires forall id :: SentId(x'.t.sent, id) <==> SentId(x.t.sent, id) || Commanded(x.cmds[0], id)
    requires forall id: u16 :: Used(x.allocs, id) ==> Used(x'.allocs, id)
    ensures CallIds(x') && CommandIds(x')
    ensures forall id :: SentId(x'.t.sent, id) && !SentId(x.t.sent, id) ==> Used(x.allocs, id)
  {
    assert forall i :: 0 <= i < |x'.cmds| ==> x'.cmds[i] == x.cmds[i + 1];
    forall id | Unspent(x, id) ensures Unspent(x', id) {
      assert !Commanded(x.cmds[0], id);
    }
    forall i, id | 0 <= i < |x'.cmds| && Commanded(x'.cmds[i], id)
      ensures Used(x'.allocs, id) && !SentId(x'.t.sent, id)
    {
      assert Commanded(x.cmds[i + 1], id);
    }
  }

  lemma ObeyAllocates(s: State, c: Command, now: int)
    ensures var s' := OnCommand(s, c, now);
            && (s'.shared.nextId == s.shared.nextId || s'.shared.nextId == NextId(s.shared.nextId))
            && forall id: u16 :: Key(Unsubscribe, id) in s'.pending || id in s'.pendingSubs ==>
                 || Key(Unsubscribe, id) in s.pending || id in s.pendingSubs
                 || (id == s.shared.nextId && s'.shared.nextId != s.shared.nextId)
  {
  }

  lemma ObeySends(s: State, c: Command, now: int, id: u16)
    ensures SentId(OnCommand(s, c, now).sent, id) <==> SentId(s.sent, id) || Commanded(c, id)
  {
    var s' := OnCommand(s, c, now);
    if s'.sent != s.sent {
      var h := s'.sent[|s.sent|];
      assert s'.sent == s.sent + [h];
      SentMore(s.sent, h, id);
    }
  }

  lemma BeginIds(x: Sys, e: Event)
    requires IdInv(x) && e.Begin? && Enabled(x, e) && Step(x, e).allocs <= 65536
    ensures IdInv(Step(x, e))
  {
    var x' := Step(x, e);
    assert x'.t.sent == x.t.sent && x'.cmds == x.cmds;
    if x'.allocs != x.allocs {
      Allocate(x.allocs);
      assert Unspent(x, x.t.shared.nextId);
      assert forall id :: Used(x.allocs, id) ==> Used(x'.allocs, id);
    }
    forall id ensures Unspent(x, id) ==> Unspent(x', id) {}
  }

  lemma SubmitIds(x: Sys, call: nat)
    requires IdInv(x) && call in x.calls && x.calls[call].phase.Registered?
    ensures IdInv(Submitting(x, call))
  {
    var x' := Submitting(x, call);
    if x.phase.Ended? {
      QuietIds(x, x');
    } else {
      var n := |x.cmds|;
      assert x'.cmds == x.cmds + [PublishCommand(x.calls[call].msg)];
      forall i, id | 0 <= i < |x'.cmds| && Commanded(x'.cmds[i], id)
        ensures Used(x'.allocs, id) && !SentId(x'.t.sent, id) {
        if i < n { assert x'.cmds[i] == x.cmds[i]; }
      }
      forall i, j, id | 0 <= i < j < |x'.cmds| && Commanded(x'.cmds[i], id) ensures !Commanded(x'.cmds[j], id) {
        assert x'.cmds[i] == x.cmds[i];
        if j < n { assert x'.cmds[j] == x.cmds[j]; }
      }
      forall c | c in x'.calls && TracksId(x'.calls[c]) && !x'.calls[c].phase.Submitted?
        ensures Unspent(x', x'.calls[c].msg.id) {
        assert Unspent(x, x.calls[c].msg.id);
      }
    }
  }

  lemma StoppedIds(x: Sys)
    requires IdInv(x)
    ensures IdInv(Stopped(x))
  {
    QueueIds(x.t.sent, Handed(DisconnectPacket, false));
    QuietIds(x, Stopped(x));
  }

  lemma ReceiveIds(x: Sys, p: Packet, now: int, net: Network)
    requires TaskInv(x) && IdInv(x) && Enabled(x, Receive(p, now, net))
    ensures IdInv(Step(x, Receive(p, now, net)))
  {
    OnPacketIds(x.t, p, now, net);
    var x' := x.(t := OnPacket(x.t, p, now, net).0, clock := now);
    QuietIds(x, x');
    StoppedIds(x');
  }

  lemma TickIds(x: Sys, ping: bool, delay: int, readings: nat -> int, end: int)
    requires TaskInv(x) && IdInv(x) && Enabled(x, Tick(ping, delay, readings, end))
    ensures IdInv(Step(x, Tick(ping, delay, readings, end)))
  {
    PassIds(x.t, ping, delay, readings, |x.t.timeouts|);
    OnAlarmKeeps(x.t, ping, delay, readings);
    QuietIds(x, Step(x, Tick(ping, delay, readings, end)));
  }

  lemma CutReceiveIds(x: Sys, p: Packet, now: int)
    requires TaskInv(x) && IdInv(x) && Enabled(x, CutReceive(p, now))
    ensures IdInv(Step(x, CutReceive(p, now)))
  {
    var t' := OnPacketCut(x.t, p, now);
    var h := t'.sent[|x.t.sent|];
    assert t'.sent == x.t.sent + [h] && !h.packet.PublishPacket?;
    QueueIds(x.t.sent, h);
    var x' := x.(t := t', clock := now, broken := true);
    QuietIds(x, x');
    StoppedIds(x');
  }

  lemma CutTickIds(x: Sys, e: Event)
    requires TaskInv(x) && IdInv(x) && Enabled(x, e) && e.CutTick?
    ensures IdInv(Step(x, e))
  {
    PassIds(x.t, e.ping, e.delay, e.readings, e.turns);
    OnAlarmCutKeeps(x.t, e.ping, e.delay, e.readings, e.turns);
    var x' := x.(t := OnAlarmCut(x.t, e.ping, e.delay, e.readings, e.turns), clock := e.end, broken := true);
    QuietIds(x, x');
    StoppedIds(x');
  }

  lemma PushIds(x: Sys, c: Command)
    requires IdInv(x) && Enabled(x, Push(c))
    ensures IdInv(Step(x, Push(c)))
  {
    var x' := Step(x, Push(c));
    forall i, id | 0 <= i < |x'.cmds| && Commanded(x'.cmds[i], id) ensures i < |x.cmds| && x'.cmds[i] == x.cmds[i] {
    }
    forall id ensures Unspent(x, id) ==> Unspent(x', id) {}
  }

  /** The events of the clients and of the cleanup that neither allocate nor send. */
  ghost predicate Quiet(e: Event) {
    e.Cleanup? || e.Register? || e.Poll? || e.Drop? || IsSubStep(e)
  }

  ghost predicate QuietStep(x: Sys, x': Sys) {
    && x'.t == x.t.(shared := x'.t.shared, woken := x'.t.woken) && x'.t.shared.nextId == x.t.shared.nextId
    && x'.cmds == x.cmds && x'.allocs == x.allocs && x'.clock == x.clock && x'.broken == x.broken
    && forall c <- x'.calls :: c in x.calls && x'.calls[c].msg == x.calls[c].msg
                               && (x.calls[c].phase.Submitted? ==> x'.calls[c].phase.Submitted?)
  }

  lemma RegisterQuiet(x: Sys, call: nat)
    requires call in x.calls && x.calls[call].phase.Allocated?
    ensures QuietStep(x, DidRegister(x, call))
  {
  }

  lemma DropQuiet(x: Sys, call: nat)
    requires call in x.calls
    ensures QuietStep(x, Dropped(x, call))
  {
  }

  lemma PollQuiet(x: Sys, call: nat)
    requires call in x.calls && x.calls[call].stage.Some?
    ensures QuietStep(x, Polled(x, call))
  {
  }

  lemma CleanupQuiet(x: Sys)
    requires x.phase.Failing?
    ensures QuietStep(x, CleanedUp(x))
  {
  }

  lemma QuietEffect(x: Sys, e: Event)
    requires Quiet(e) && Enabled(x, e)
    ensures QuietStep(x, Step(x, e))
  {
    match e
    case Cleanup => CleanupQuiet(x);
    case Register(call) => RegisterQuiet(x, call);
    case Poll(call) => PollQuiet(x, call);
    case Drop(call) => DropQuiet(x, call);
    case _ => SubSteps(x, e);
  }

  lemma CutObeyIds(x: Sys, now: int)
    requires IdInv(x) && Enabled(x, CutObey(now)) && Step(x, CutObey(now)).allocs <= 65536
    ensures IdInv(Step(x, CutObey(now)))
  {
    var t' := OnCommandCut(x.t, x.cmds[0], now);
    ObeyIds(x, t', now);
    var x' := Obeyed(x, t', now);
    QuietIds(x', x'.(broken := true));
    StoppedIds(x'.(broken := true));
  }

  lemma ExitIds(x: Sys, closed: bool)
    requires IdInv(x) && Enabled(x, Exit(closed))
    ensures IdInv(Step(x, Exit(closed)))
  {
    StoppedIds(x);
    QuietIds(x, x.(phase := Ended(true)));
  }

  lemma StepIds(x: Sys, e: Event)
    requires TaskInv(x) && IdInv(x) && Enabled(x, e) && Step(x, e).allocs <= 65536
    ensures IdInv(Step(x, e))
  {
    if IsTaskStep(e) {
      LoopIds(x, e);
    } else if Quiet(e) {
      QuietEffect(x, e);
      QuietIds(x, Step(x, e));
    } else if e.Begin? {
      BeginIds(x, e);
    } else if e.Submit? {
      SubmitIds(x, e.call);
    } else if e.Push? {
      PushIds(x, e.command);
    } else {
      ExitIds(x, e.closed);
    }
  }

  lemma LoopIds(x: Sys, e: Event)
    requires TaskInv(x) && IdInv(x) && Enabled(x, e) && Step(x, e).allocs <= 65536
    requires IsTaskStep(e)
    ensures IdInv(Step(x, e))
  {
    match e
    case Receive(p, now, net) => ReceiveIds(x, p, now, net);
    case Obey(now) => ObeyIds(x, OnCommand(x.t, x.cmds[0], now), now);
    case Tick(ping, delay, readings, end) => TickIds(x, ping, delay, readings, end);
    case CutReceive(p, now) => CutReceiveIds(x, p, now);
    case CutObey(now) => CutObeyIds(x, now);
    case CutTick(_, _, _, _, _) => CutTickIds(x, e);
  }

  lemma AllocsGrow(x: Sys, e: Event)
    requires Enabled(x, e)
    ensures x.allocs <= Step(x, e).allocs <= x.allocs + 1
  {
    StepCounts(x, e);
  }

  /** In runs with at most 65536 allocations, by clients and task in any interleaving, no two
  live uses of an identifier collide. */
  lemma {:induction false} EveryRunIds(connect: ConnectInfo, es: seq<Event>)
    requires Run(Systems.Init(connect), es) && After(Systems.Init(connect), es).allocs <= 65536
    ensures IdInv(After(Systems.Init(connect), es))
    decreases |es|
  {
    if es == [] {
      var x := Systems.Init(connect);
      assert forall id :: !SentId(x.t.sent, id);
    } else {
      var front, e := es[..|es| - 1], es[|es| - 1];
      AllocsGrow(After(Systems.Init(connect), front), e);
      EveryRunIds(connect, front);
      EveryRunTask(connect, front);
      StepIds(After(Systems.Init(connect), front), e);
    }
  }

  /** In such runs the "only new packets" complaint of `queue_internal_packet_with_timeout` is
  never reached: a publish finds its identifier free, and so does a packet that takes a new one. */
  lemma OnlyNewPackets(connect: ConnectInfo, es: seq<Event>, now: int)
    requires Run(Systems.Init(connect), es) && Enabled(After(Systems.Init(connect), es), Obey(now))
    requires Step(After(Systems.Init(connect), es), Obey(now)).allocs <= 65536
    ensures var x := After(Systems.Init(connect), es);
            var c := x.cmds[0];
            && (c.PublishCommand? && !c.msg.qos.AtMostOnce? ==> Key(Publish, c.msg.id) !in x.t.pending)
            && (Step(x, Obey(now)).allocs != x.allocs ==>
                  Key(Unsubscribe, x.t.shared.nextId) !in x.t.pending && x.t.shared.nextId !in x.t.pendingSubs)
  {
    var x := After(Systems.Init(connect), es);
    var c := x.cmds[0];
    AllocsGrow(x, Obey(now));
    EveryRunTask(connect, es);
    EveryRunIds(connect, es);
    if x.allocs < 65536 {
      Allocate(x.allocs);
    }
    if c.PublishCommand? && !c.msg.qos.AtMostOnce? {
      PendingIsSent(x, c.msg.id);
      assert Commanded(c, c.msg.id);
    }
  }

  lemma PendingIsSent(x: Sys, id: u16)
    requires TaskInv(x)
    ensures Key(Publish, id) in x.t.pending ==> SentId(x.t.sent, id)
  {
    var k := Key(Publish, id);
    if k in x.t.pending {
      assert Live(x.t, k);
      var i :| 0 <= i < |x.t.sent| && x.t.sent[i] == Handed(InFlight(x.t, k), false);
      assert Tracked(x.t.sent[i].packet, id);
    }
  }
}
