/** Where things come from, in every run: the message of a publish call is what its caller passed, and a
request to the broker is what a command asked for. */
module Origins {
  import opened Wrappers
  import opened ByteIo
  import opened Packets
  import opened Subscriptions
  import opened Topics
  import opened SubscriptionSets
  import opened Protocol
  import opened ProtocolProofs
  import opened Systems
  import opened SystemProofs
  import opened Completion
  import opened Exchange

  // ----- Publish calls -----

  /** The message is made of the arguments of the call, without DUP. */
  ghost predicate Carries(m: Message, e: Event)
    requires e.Begin?
  {
    m.topic == e.topic && m.payload == e.payload && m.qos == e.qos && m.retain == e.retain && !m.dup
  }

  /** Event `k` began this call, and no later event has begun another one of the same number. */
  ghost predicate BegunAt(es: seq<Event>, k: int, call: nat) {
    && 0 <= k < |es| && es[k].Begin? && es[k].call == call
    && forall i :: k < i < |es| && es[i].Begin? ==> es[i].call != call
  }

  /** The call is that of event `k`: its message has the arguments, and the identifier taken there. */
  ghost predicate MadeBy(connect: ConnectInfo, es: seq<Event>, k: int, c: Call) {
    && 0 <= k < |es| && es[k].Begin? && Run(Systems.Init(connect), es[..k])
    && Carries(c.msg, es[k]) && c.stage == es[k].stage
    && c.msg.id == if es[k].qos.AtMostOnce? then 0 else After(Systems.Init(connect), es[..k]).t.shared.nextId
  }

  lemma BeginMakes(x: Sys, e: Event)
    requires Enabled(x, e) && e.Begin?
    ensures var c := Step(x, e).calls[e.call];
            && Carries(c.msg, e) && c.stage == e.stage
            && c.msg.id == if e.qos.AtMostOnce? then 0 else x.t.shared.nextId
  {
  }

  /** Nothing but its beginning makes a call or changes its message. */
  lemma CallStays(x: Sys, e: Event, call: nat)
    requires Enabled(x, e) && call in Step(x, e).calls && !(e.Begin? && e.call == call)
    ensures call in x.calls && Step(x, e).calls[call].msg == x.calls[call].msg
    ensures Step(x, e).calls[call].stage == x.calls[call].stage
  {
    if IsSubStep(e) {
      SubSteps(x, e);
    }
  }

  /** In every run, every publish call carries what its caller passed. */
  lemma {:induction false} CallOrigin(connect: ConnectInfo, es: seq<Event>, call: nat)
    requires Run(Systems.Init(connect), es) && call in After(Systems.Init(connect), es).calls
    ensures exists k :: BegunAt(es, k, call) && MadeBy(connect, es, k, After(Systems.Init(connect), es).calls[call])
    decreases |es|
  {
    var last := |es| - 1;
    var (front, e) := (es[..last], es[last]);
    var (x, c) := (After(Systems.Init(connect), front), After(Systems.Init(connect), es).calls[call]);
    if e.Begin? && e.call == call {
      BeginMakes(x, e);
      assert BegunAt(es, last, call) && MadeBy(connect, es, last, c);
    } else {
      CallStays(x, e, call);
      CallOrigin(connect, front, call);
      var k :| BegunAt(front, k, call) && MadeBy(connect, front, k, x.calls[call]);
      StillMadeBy(connect, es, k, call, x.calls[call], c);
    }
  }

  lemma StillMadeBy(connect: ConnectInfo, es: seq<Event>, k: int, call: nat, c: Call, c': Call)
    requires es != [] && BegunAt(es[..|es| - 1], k, call) && MadeBy(connect, es[..|es| - 1], k, c)
    requires !(es[|es| - 1].Begin? && es[|es| - 1].call == call) && c'.msg == c.msg && c'.stage == c.stage
    ensures BegunAt(es, k, call) && MadeBy(connect, es, k, c')
  {
    var front := es[..|es| - 1];
    assert es[..k] == front[..k] && es[k] == front[k];
    assert forall i :: 0 <= i < |front| ==> es[i] == front[i];
  }

  // ----- Requests to the broker -----

  /** Event `k` obeyed this command. */
  ghost predicate ObeyedAt(connect: ConnectInfo, es: seq<Event>, k: int, c: Command) {
    && 0 <= k < |es| && (es[k].Obey? || es[k].CutObey?) && Run(Systems.Init(connect), es[..k])
    && var x := After(Systems.Init(connect), es[..k]); x.cmds != [] && x.cmds[0] == c
  }

  /** The packet was the next one handed over, and carries the identifier taken. */
  ghost predicate SentBy(connect: ConnectInfo, es: seq<Event>, k: int, sent: seq<Handed>, p: Packet, id: u16)
    requires 0 <= k < |es| && Run(Systems.Init(connect), es[..k])
  {
    var x := After(Systems.Init(connect), es[..k]);
    |x.t.sent| < |sent| && sent[|x.t.sent|] == Handed(p, false) && x.t.shared.nextId == id
  }

  /** The pending subscription is that of the command obeyed at `k`. */
  ghost predicate SubAskedAt(connect: ConnectInfo, es: seq<Event>, k: int, id: u16, sub: PendingSub,
                             sent: seq<Handed>) {
    exists qos ::
      && ObeyedAt(connect, es, k, SubscribeCommand(sub.topic, qos, sub.kind))
      && sub.packet == SubscribePacket(id, [(sub.topic, qos)]) && SentBy(connect, es, k, sent, sub.packet, id)
  }

  ghost predicate UnsubAskedAt(connect: ConnectInfo, es: seq<Event>, k: int, id: u16, p: Packet, sent: seq<Handed>) {
    exists topic ::
      && ObeyedAt(connect, es, k, UnsubCommand(topic, Immediate))
      && p == UnsubscribePacket(id, [topic]) && SentBy(connect, es, k, sent, p, id)
  }

  /** What a command adds to the requests in flight. */
  lemma CommandAsks(s: State, c: Command, now: int, id: u16)
    requires TreeInv(s.tree)
    ensures var s' := OnCommand(s, c, now);
            && (id in s'.pendingSubs && !(id in s.pendingSubs && s'.pendingSubs[id] == s.pendingSubs[id]) ==>
                  && c.SubscribeCommand? && id == s.shared.nextId
                  && s'.pendingSubs[id] == PendingSub(c.topic, c.kind, SubscribePacket(id, [(c.topic, c.qos)]))
                  && s'.sent == s.sent + [Handed(s'.pendingSubs[id].packet, false)])
            && var k := Key(Unsubscribe, id);
               (k in s'.pending && !(k in s.pending && s'.pending[k] == s.pending[k]) ==>
                  && c.UnsubCommand? && c.how.Immediate? && id == s.shared.nextId
                  && s'.pending[k] == UnsubscribePacket(id, [c.topic])
                  && s'.sent == s.sent + [Handed(s'.pending[k], false)])
  {
    match c
    case PublishCommand(m) => PublishExact(s, m, now);
    case SubscribeCommand(topic, qos, kind) => SubscribeExact(s, topic, qos, kind, now);
    case UnsubCommand(topic, how) =>
      match how
      case RemoveCallback(cb) => RemoveCallbackExact(s, topic, cb, now);
      case Immediate => UnsubscribeExact(s, topic, now);
  }

  /** No request comes into flight. */
  ghost predicate NoneAsked(s: State, s': State) {
    && (forall id <- s'.pendingSubs :: id in s.pendingSubs && s'.pendingSubs[id] == s.pendingSubs[id])
    && (forall k <- s'.pending :: k.ty == Unsubscribe ==> k in s.pending && s'.pending[k] == s.pending[k])
  }

  lemma PacketAsksNothing(s: State, p: Packet, now: int, net: Network)
    requires Shapes(s) && TreeInv(s.tree) && (p.SubAckPacket? ==> p.results.Valid())
    ensures NoneAsked(s, OnPacket(s, p, now, net).0)
  {
    if s.signal.Some? {
      PacketExact(s, p, now, net);
    }
  }

  /** Only commands ask. */
  lemma OthersAskNothing(x: Sys, e: Event)
    requires TaskInv(x) && Enabled(x, e) && !e.Obey? && !e.CutObey?
    ensures NoneAsked(x.t, Step(x, e).t)
  {
    if IsTaskStep(e) {
      TaskAsksNothing(x, e);
    } else if IsCallStep(e) {
      CallSteps(x, e);
    } else if IsSubStep(e) {
      SubSteps(x, e);
    } else if e.Cleanup? {
      CleanupQuiet(x);
    }
  }

  lemma TaskAsksNothing(x: Sys, e: Event)
    requires TaskInv(x) && Enabled(x, e) && IsTaskStep(e) && !e.Obey? && !e.CutObey?
    ensures NoneAsked(x.t, Step(x, e).t)
  {
    match e
    case Receive(p, now, net) => PacketAsksNothing(x.t, p, now, net);
    case CutReceive(p, now) => CutExact(x.t, p, now);
    case Tick(ping, delay, readings, _) => OnAlarmKeeps(x.t, ping, delay, readings);
    case CutTick(ping, delay, readings, _, n) => OnAlarmCutKeeps(x.t, ping, delay, readings, n);
  }

  /** A state in which every request in flight has its origin in the run. */
  ghost predicate AllAsked(connect: ConnectInfo, es: seq<Event>, x: Sys) {
    && (forall id <- x.t.pendingSubs :: exists k :: SubAskedAt(connect, es, k, id, x.t.pendingSubs[id], x.t.sent))
    && (forall id: u16 :: Key(Unsubscribe, id) in x.t.pending ==>
          exists k :: UnsubAskedAt(connect, es, k, id, x.t.pending[Key(Unsubscribe, id)], x.t.sent))
  }

  lemma SubAskedStill(connect: ConnectInfo, es: seq<Event>, k: int, id: u16, sub: PendingSub,
                      sent: seq<Handed>, more: seq<Handed>)
    requires es != [] && SubAskedAt(connect, es[..|es| - 1], k, id, sub, sent) && sent <= more
    ensures SubAskedAt(connect, es, k, id, sub, more)
  {
    assert es[..|es| - 1][..k] == es[..k];
  }

  lemma UnsubAskedStill(connect: ConnectInfo, es: seq<Event>, k: int, id: u16, p: Packet,
                        sent: seq<Handed>, more: seq<Handed>)
    requires es != [] && UnsubAskedAt(connect, es[..|es| - 1], k, id, p, sent) && sent <= more
    ensures UnsubAskedAt(connect, es, k, id, p, more)
  {
    assert es[..|es| - 1][..k] == es[..k];
  }

  /** What an event leaves in flight was there before or is asked for by it. */
  lemma StepAsks(x: Sys, e: Event, id: u16)
    requires TaskInv(x) && Enabled(x, e)
    ensures var (t, t') := (x.t, Step(x, e).t);
            && (id in t'.pendingSubs && !(id in t.pendingSubs && t'.pendingSubs[id] == t.pendingSubs[id]) ==>
                  && (e.Obey? || e.CutObey?) && x.cmds != [] && x.cmds[0].SubscribeCommand? && id == t.shared.nextId
                  && (var c := x.cmds[0];
                      t'.pendingSubs[id] == PendingSub(c.topic, c.kind, SubscribePacket(id, [(c.topic, c.qos)])))
                  && t.sent + [Handed(t'.pendingSubs[id].packet, false)] <= t'.sent)
            && var k := Key(Unsubscribe, id);
               (k in t'.pending && !(k in t.pending && t'.pending[k] == t.pending[k]) ==>
                  && (e.Obey? || e.CutObey?) && x.cmds != [] && x.cmds[0] == UnsubCommand(x.cmds[0].topic, Immediate)
                  && id == t.shared.nextId && t'.pending[k] == UnsubscribePacket(id, [x.cmds[0].topic])
                  && t.sent + [Handed(t'.pending[k], false)] <= t'.sent)
  {
    if e.Obey? || e.CutObey? {
      CommandAsks(x.t, x.cmds[0], e.now, id);
    } else {
      OthersAskNothing(x, e);
    }
  }

  lemma SubOriginStep(connect: ConnectInfo, es: seq<Event>, id: u16)
    requires es != [] && Run(Systems.Init(connect), es)
    requires AllAsked(connect, es[..|es| - 1], After(Systems.Init(connect), es[..|es| - 1]))
    requires id in After(Systems.Init(connect), es).t.pendingSubs
    ensures var t := After(Systems.Init(connect), es).t;
            exists k :: SubAskedAt(connect, es, k, id, t.pendingSubs[id], t.sent)
  {
    var last := |es| - 1;
    var (x, t') := (After(Systems.Init(connect), es[..last]), After(Systems.Init(connect), es).t);
    EveryRunTask(connect, es[..last]);
    StepAsks(x, es[last], id);
    SentStep(x, es[last]);
    if id in x.t.pendingSubs && t'.pendingSubs[id] == x.t.pendingSubs[id] {
      var k :| SubAskedAt(connect, es[..last], k, id, x.t.pendingSubs[id], x.t.sent);
      SubAskedStill(connect, es, k, id, x.t.pendingSubs[id], x.t.sent, t'.sent);
    } else {
      var c := x.cmds[0];
      assert ObeyedAt(connect, es, last, SubscribeCommand(c.topic, c.qos, c.kind));
      assert SentBy(connect, es, last, t'.sent, t'.pendingSubs[id].packet, id);
      assert SubAskedAt(connect, es, last, id, t'.pendingSubs[id], t'.sent);
    }
  }

  lemma UnsubOriginStep(connect: ConnectInfo, es: seq<Event>, id: u16)
    requires es != [] && Run(Systems.Init(connect), es)
    requires AllAsked(connect, es[..|es| - 1], After(Systems.Init(connect), es[..|es| - 1]))
    requires Key(Unsubscribe, id) in After(Systems.Init(connect), es).t.pending
    ensures var t := After(Systems.Init(connect), es).t;
            exists k :: UnsubAskedAt(connect, es, k, id, t.pending[Key(Unsubscribe, id)], t.sent)
  {
    var (last, key) := (|es| - 1, Key(Unsubscribe, id));
    var (x, t') := (After(Systems.Init(connect), es[..last]), After(Systems.Init(connect), es).t);
    EveryRunTask(connect, es[..last]);
    StepAsks(x, es[last], id);
    SentStep(x, es[last]);
    if key in x.t.pending && t'.pending[key] == x.t.pending[key] {
      var k :| UnsubAskedAt(connect, es[..last], k, id, x.t.pending[key], x.t.sent);
      UnsubAskedStill(connect, es, k, id, x.t.pending[key], x.t.sent, t'.sent);
    } else {
      assert ObeyedAt(connect, es, last, UnsubCommand(x.cmds[0].topic, Immediate));
      assert SentBy(connect, es, last, t'.sent, t'.pending[key], id);
      assert UnsubAskedAt(connect, es, last, id, t'.pending[key], t'.sent);
    }
  }

  /** In every run: every SUBSCRIBE in flight holds the topic and quality of service of the command that asked
  for it and is kept with that command's recipient; every UNSUBSCRIBE in flight holds its command's
  topic; each under the identifier taken, and each handed over then. */
  lemma {:induction false} RequestOrigin(connect: ConnectInfo, es: seq<Event>)
    requires Run(Systems.Init(connect), es)
    ensures AllAsked(connect, es, After(Systems.Init(connect), es))
    decreases |es|
  {
    if es != [] {
      RequestOrigin(connect, es[..|es| - 1]);
      var x := After(Systems.Init(connect), es);
      forall id | id in x.t.pendingSubs
        ensures exists k :: SubAskedAt(connect, es, k, id, x.t.pendingSubs[id], x.t.sent)
      {
        SubOriginStep(connect, es, id);
      }
      forall id: u16 | Key(Unsubscribe, id) in x.t.pending
        ensures exists k :: UnsubAskedAt(connect, es, k, id, x.t.pending[Key(Unsubscribe, id)], x.t.sent)
      {
        UnsubOriginStep(connect, es, id);
      }
    }
  }

  // ----- The command queue -----

  /** What an event puts into the queue and what it takes out. */
  ghost function Puts(x: Sys, e: Event): seq<Command>
    requires Enabled(x, e)
  {
    if e.Push? then [e.command]
    else if e.Submit? && !x.phase.Ended? then [PublishCommand(x.calls[e.call].msg)]
    else []
  }

  ghost function Takes(x: Sys, e: Event): seq<Command>
    requires Enabled(x, e)
  {
    if e.Obey? || e.CutObey? then [x.cmds[0]] else []
  }

  /** The commands a run has put into the queue, in order. */
  ghost function Issued(connect: ConnectInfo, es: seq<Event>): seq<Command>
    requires Run(Systems.Init(connect), es)
    decreases |es|
  {
    if es == [] then []
    else
      var (front, e) := (es[..|es| - 1], es[|es| - 1]);
      Issued(connect, front) + Puts(After(Systems.Init(connect), front), e)
  }

  /** The commands the task has obeyed, in order. */
  ghost function Carried(connect: ConnectInfo, es: seq<Event>): seq<Command>
    requires Run(Systems.Init(connect), es)
    decreases |es|
  {
    if es == [] then []
    else
      var (front, e) := (es[..|es| - 1], es[|es| - 1]);
      Carried(connect, front) + Takes(After(Systems.Init(connect), front), e)
  }

  lemma QueueStep(x: Sys, e: Event)
    requires Enabled(x, e)
    ensures x.cmds + Puts(x, e) == Takes(x, e) + Step(x, e).cmds
  {
    if !e.Push? && !e.Submit? && !e.Obey? && !e.CutObey? {
      QueueStays(x, e);
      assert x.cmds + [] == x.cmds && [] + x.cmds == x.cmds;
    } else if e.Submit? && x.phase.Ended? {
      assert x.cmds + [] == x.cmds && [] + x.cmds == x.cmds;
    }
  }

  lemma QueueStays(x: Sys, e: Event)
    requires Enabled(x, e) && !e.Push? && !e.Submit? && !e.Obey? && !e.CutObey?
    ensures Step(x, e).cmds == x.cmds
  {
    if IsSubStep(e) {
      SubSteps(x, e);
    }
  }

  lemma MovesOn<T>(issued: seq<T>, carried: seq<T>, cmds: seq<T>, puts: seq<T>, takes: seq<T>, cmds': seq<T>)
    requires issued == carried + cmds && cmds + puts == takes + cmds'
    ensures issued + puts == carried + takes + cmds'
  {
    Assoc(carried, cmds, puts);
    Assoc(carried, takes, cmds');
  }

  /** In every run, the commands obeyed and then those waiting are the commands issued, in order: none is lost,
  none comes twice, none overtakes another. */
  lemma {:induction false} CommandsInOrder(connect: ConnectInfo, es: seq<Event>)
    requires Run(Systems.Init(connect), es)
    ensures Issued(connect, es) == Carried(connect, es) + After(Systems.Init(connect), es).cmds
    decreases |es|
  {
    if es != [] {
      var (front, e) := (es[..|es| - 1], es[|es| - 1]);
      var x := After(Systems.Init(connect), front);
      CommandsInOrder(connect, front);
      QueueStep(x, e);
      MovesOn(Issued(connect, front), Carried(connect, front), x.cmds, Puts(x, e), Takes(x, e), Step(x, e).cmds);
    }
  }
}
