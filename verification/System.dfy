/** The whole client: the transceiver task, the publish and subscribe calls of src/lib.rs with
the futures of src/futures.rs, and the end of the task. Each lock-protected section is one step;
steps of the task and of any number of client tasks interleave freely, and the peer is
arbitrary. A step of the task may be cut short by an I/O error at the packet it hands over. */
module Systems {
  import opened Wrappers
  import opened ByteIo
  import opened Packets
  import opened Subscriptions
  import opened Protocol
  import opened ProtocolProofs

  /** How far a publish call has come: identifier allocated, future registered, command sent. */
  datatype CallPhase = Allocated | Registered | Submitted

  /** A publish call in progress. `since` and `late` record when its future was registered:
  the length of the log, and whether its notifier map had already been failed. `waker` is
  the one its last pending poll left behind; `result` is what the future resolved to. */
  datatype Call = Call(
    msg: Message, stage: Option<Stage>, phase: CallPhase,
    since: nat, late: bool, waker: Option<Waker>, result: Option<bool>)

  /** A subscribe call in progress. `slot` is the index its first pending poll was given, `period`
  the list that index belongs to and `late` whether that list came after the map was drained;
  `polled` is the list its last pending poll wrote to, `waker` what it wrote. */
  datatype SubCall = SubCall(
    topic: seq<byte>, slot: Option<nat>, period: nat, late: bool,
    polled: nat, waker: Option<Waker>, result: Option<Result<QoS, ()>>)

  /** The task: running, cleaning up after a stop request or an I/O error, or over. */
  datatype Phase = Running | Failing(step: nat, taken: set<Waker>) | Ended(closed: bool)

  /** The subscribe calls in progress. The rest is history: how many lists of wakers each topic has
  had, which slots of them were written by a future that was given its slot in an older list,
  and which lists an unsubscription threw away. */
  datatype Waits = Waits(
    calls: map<nat, SubCall>, lists: map<seq<byte>, nat>,
    stolen: set<(seq<byte>, nat, nat)>, discarded: set<(seq<byte>, nat)>)

  /** The task with its commands, and the calls. `broken` records that a step was cut short, `allocs`
  and `polls` count the identifiers allocated and the polls made. */
  datatype Sys = Sys(
    t: State, clock: int, phase: Phase, broken: bool, cmds: seq<Command>,
    calls: map<nat, Call>, waits: Waits, allocs: nat, polls: nat)

  datatype Event =
    | Receive(packet: Packet, now: int, net: Network)
    | Obey(now: int)
    | Tick(ping: bool, delay: int, readings: nat -> int, end: int)
    | CutReceive(packet: Packet, now: int)
    | CutObey(now: int)
    | CutTick(ping: bool, delay: int, readings: nat -> int, end: int, turns: nat)
    | Exit(closed: bool)
    | Cleanup
    | Begin(call: nat, qos: QoS, retain: bool, topic: seq<byte>, payload: seq<byte>, stage: Option<Stage>)
    | Register(call: nat)
    | Submit(call: nat)
    | Poll(call: nat)
    | Drop(call: nat)
    | Push(command: Command)
    | BeginSubscribe(call: nat, topic: seq<byte>)
    | PollSubscribe(call: nat)
    | DropSubscribe(call: nat)

  function Init(connect: ConnectInfo): Sys {
    Sys(Protocol.Init(connect), 0, Running, false, [], map[], Waits(map[], map[], {}, {}), 0, 0)
  }

  // ----- The task -----

  /** The end of the main loop by a stop request or an error: DISCONNECT is handed over if the
  connection was answered, then the cleanup begins. */
  function Stopped(x: Sys): Sys {
    x.(phase := Failing(0, {}), t := if x.t.signal.Some? then Queue(x.t, DisconnectPacket, false) else x.t)
  }

  function Received(x: Sys, p: Packet, now: int, net: Network): Sys
    requires p.SubAckPacket? ==> p.results.Valid()
  {
    var (t', stop) := OnPacket(x.t, p, now, net);
    var x' := x.(t := t', clock := now);
    if stop then Stopped(x') else x'
  }

  /** The first command has been taken and has led to `t'`. */
  function Obeyed(x: Sys, t': State, now: int): Sys
    requires x.cmds != []
  {
    x.(t := t', cmds := x.cmds[1..], clock := now,
       allocs := if t'.shared.nextId == x.t.shared.nextId then x.allocs else x.allocs + 1,
       waits := x.waits.(discarded := x.waits.discarded + Discards(x, t')))
  }

  function Lists(x: Sys, topic: seq<byte>): nat {
    if topic in x.waits.lists then x.waits.lists[topic] else 0
  }

  /** The lists of wakers that are gone although nobody has settled them. */
  function Discards(x: Sys, t': State): set<(seq<byte>, nat)> {
    var subs := x.t.shared.subs;
    set topic <- subs | subs[topic].Awaited? && topic !in t'.shared.subs :: (topic, Lists(x, topic))
  }

  function StageAt(step: nat): Option<Stage> {
    if step == 0 then Some(AckStage)
    else if step == 1 then Some(RecStage)
    else if step == 2 then Some(CompStage)
    else None
  }

  /** `fail_notify_map`. */
  function FailStage(notify: map<(Stage, u16), NotifyResult>, stage: Stage): map<(Stage, u16), NotifyResult> {
    map k <- notify :: if k.0 == stage then NotifyFailed else notify[k]
  }

  function WakersAt(notify: map<(Stage, u16), NotifyResult>, stage: Stage): set<Waker> {
    set k <- notify | k.0 == stage && notify[k].WithWaker? :: notify[k].waker
  }

  function SubWakers(subs: map<seq<byte>, SubscriptionState>): set<Waker> {
    set topic <- subs, w <- WakersOf(subs, topic) :: w
  }

  /** Three notifier maps, then the subscriptions, then the wake-ups. */
  function CleanedUp(x: Sys): Sys
    requires x.phase.Failing?
  {
    var sh := x.t.shared;
    match StageAt(x.phase.step)
    case Some(stage) =>
      x.(t := x.t.(shared := sh.(notify := FailStage(sh.notify, stage))),
         phase := Failing(x.phase.step + 1, x.phase.taken + WakersAt(sh.notify, stage)))
    case None =>
      if x.phase.step == 3 then
        x.(t := x.t.(shared := sh.(subs := map[])), phase := Failing(4, x.phase.taken + SubWakers(sh.subs)))
      else x.(t := x.t.(woken := x.t.woken + x.phase.taken), phase := Ended(false))
  }

  // ----- Publish calls -----

  function Began(x: Sys, call: nat, qos: QoS, retain: bool, topic: seq<byte>, payload: seq<byte>,
                 stage: Option<Stage>): Sys {
    var id := if qos.AtMostOnce? then 0 else x.t.shared.nextId;
    var c := Call(Message(false, qos, retain, topic, id, payload), stage, Allocated, 0, false, None, None);
    var x1 := x.(calls := x.calls[call := c]);
    if qos.AtMostOnce? then x1
    else x1.(t := x.t.(shared := x.t.shared.(nextId := NextId(id))), allocs := x.allocs + 1)
  }

  function KeyOf(c: Call): (Stage, u16)
    requires c.stage.Some?
  {
    (c.stage.value, c.msg.id)
  }

  /** The map of this stage has been failed already. */
  predicate PastStage(phase: Phase, stage: Stage) {
    match phase
    case Running => false
    case Failing(step, _) => step > (match stage case AckStage => 0 case RecStage => 1 case CompStage => 2)
    case Ended(_) => true
  }

  function WithNotify(x: Sys, notify: map<(Stage, u16), NotifyResult>): Sys {
    x.(t := x.t.(shared := x.t.shared.(notify := notify)))
  }

  /** `PublishFuture::new`, if the call awaits anything. */
  function DidRegister(x: Sys, call: nat): Sys
    requires call in x.calls
  {
    var c := x.calls[call];
    var c' := c.(phase := Registered, since := |x.t.log|);
    if c.stage.None? then x.(calls := x.calls[call := c'])
    else
      WithNotify(x.(calls := x.calls[call := c'.(late := PastStage(x.phase, c.stage.value))]),
                 x.t.shared.notify[KeyOf(c) := WithoutWaker])
  }

  /** `PublishFuture::drop`. */
  function Dropped(x: Sys, call: nat): Sys
    requires call in x.calls
  {
    var c := x.calls[call];
    var x1 := x.(calls := x.calls - {call});
    if c.stage.Some? && c.phase != Allocated && c.result.None? then WithNotify(x1, x.t.shared.notify - {KeyOf(c)})
    else x1
  }

  /** The command channel is open until the task is over; after that the call fails. */
  function Submitting(x: Sys, call: nat): Sys
    requires call in x.calls
  {
    if x.phase.Ended? then Dropped(x, call)
    else
      x.(cmds := x.cmds + [PublishCommand(x.calls[call].msg)],
         calls := x.calls[call := x.calls[call].(phase := Submitted)])
  }

  /** `PublishFuture::poll`; every poll brings a waker of its own. */
  function Polled(x: Sys, call: nat): Sys
    requires call in x.calls && x.calls[call].stage.Some?
  {
    var c := x.calls[call];
    if c.result.Some? then x
    else if KeyOf(c) !in x.t.shared.notify then x.(calls := x.calls[call := c.(result := Some(false))])
    else if x.t.shared.notify[KeyOf(c)].NotifyFailed? then x.(calls := x.calls[call := c.(result := Some(true))])
    else
      WithNotify(x.(calls := x.calls[call := c.(waker := Some(x.polls))], polls := x.polls + 1),
                 x.t.shared.notify[KeyOf(c) := WithWaker(x.polls)])
  }

  // ----- Subscribe calls -----

  function WithSubs(x: Sys, waits: Waits, subs: map<seq<byte>, SubscriptionState>, polls: nat): Sys {
    x.(t := x.t.(shared := x.t.shared.(subs := subs)), waits := waits, polls := polls)
  }

  function WithCall(w: Waits, call: nat, c: SubCall): Waits {
    w.(calls := w.calls[call := c])
  }

  /** The start of `subscribe`: a topic nobody asked for becomes awaited, with a new list. */
  function SubscribeBegun(x: Sys, call: nat, topic: seq<byte>): Sys {
    var ws := x.waits.(calls := x.waits.calls[call := SubCall(topic, None, 0, false, 0, None, None)]);
    if topic in x.t.shared.subs then x.(waits := ws)
    else
      var lists := ws.lists[topic := Lists(x, topic) + 1];
      WithSubs(x, ws.(lists := lists), x.t.shared.subs[topic := Awaited([])], x.polls)
  }

  /** The list that now collects wakers for a topic. */
  function WakerList(x: Sys, topic: seq<byte>): Option<seq<Option<Waker>>> {
    if topic in x.t.shared.subs && x.t.shared.subs[topic].Awaited? then Some(x.t.shared.subs[topic].wakers) else None
  }

  /** The index a future remembers is outside the list. */
  predicate OutOfBounds(x: Sys, c: SubCall) {
    && c.result.None? && c.slot.Some? && WakerList(x, c.topic).Some?
    && c.slot.value >= |WakerList(x, c.topic).value|
  }

  /** The index a future remembers belongs to an older list. */
  predicate Stale(x: Sys, c: SubCall) {
    c.slot.Some? && c.period != Lists(x, c.topic)
  }

  /** A stale index within the list is the slot of another future. */
  function Stealing(x: Sys, c: SubCall): Waits {
    if Stale(x, c) then x.waits.(stolen := x.waits.stolen + {(c.topic, Lists(x, c.topic), c.slot.value)}) else x.waits
  }

  /** A pending poll steals a slot, or takes its own one (again). */
  function Claiming(x: Sys, c: SubCall, free: nat): Waits {
    if Stale(x, c) then Stealing(x, c)
    else
      var slot := if c.slot.Some? then c.slot.value else free;
      x.waits.(stolen := x.waits.stolen - {(c.topic, Lists(x, c.topic), slot)})
  }

  /** The subscription map has been drained. */
  predicate PastDrain(phase: Phase) {
    (phase.Failing? && phase.step > 3) || phase == Ended(false)
  }

  /** `SubscribeFuture::poll`. */
  function SubscribePolled(x: Sys, call: nat): Sys
    requires call in x.waits.calls && !OutOfBounds(x, x.waits.calls[call])
  {
    var (c, subs) := (x.waits.calls[call], x.t.shared.subs);
    if c.result.Some? then x
    else if c.topic !in subs then x.(waits := WithCall(x.waits, call, c.(result := Some(Err(())))))
    else match subs[c.topic]
      case Existing(qos) => x.(waits := WithCall(x.waits, call, c.(result := Some(Ok(qos)))))
      case Awaited(ws) =>
        var c' := PendingCall(x, c, |ws|);
        var ws' := if c.slot.None? then ws + [Some(x.polls)] else ws[c.slot.value := Some(x.polls)];
        WithSubs(x, WithCall(Claiming(x, c, |ws|), call, c'), subs[c.topic := Awaited(ws')], x.polls + 1)
  }

  /** What a pending poll records: the slot, if it is the first, and the waker. */
  function PendingCall(x: Sys, c: SubCall, free: nat): SubCall {
    var list := Lists(x, c.topic);
    var c1 := if c.slot.None? then c.(slot := Some(free), period := list, late := PastDrain(x.phase)) else c;
    c1.(polled := list, waker := Some(x.polls))
  }

  /** `SubscribeFuture::drop`. */
  function SubscribeDropped(x: Sys, call: nat): Sys
    requires call in x.waits.calls && !OutOfBounds(x, x.waits.calls[call])
  {
    var c := x.waits.calls[call];
    if c.result.None? && c.slot.Some? && WakerList(x, c.topic).Some? then
      var w := Stealing(x, c);
      WithSubs(x, w.(calls := w.calls - {call}),
               x.t.shared.subs[c.topic := Awaited(WakerList(x, c.topic).value[c.slot.value := None])], x.polls)
    else x.(waits := x.waits.(calls := x.waits.calls - {call}))
  }

  // ----- Runs -----

  predicate StageFits(qos: QoS, stage: Option<Stage>) {
    stage.Some? ==> if stage.value.AckStage? then qos.AtLeastOnce? else qos.ExactlyOnce?
  }

  ghost predicate ClockFits(x: Sys, readings: nat -> int, end: int) {
    Monotone(readings) && x.clock <= readings(0) && forall i: nat :: readings(i) <= end
  }

  ghost predicate Enabled(x: Sys, e: Event) {
    match e
    case Receive(p, now, _) => x.phase.Running? && x.clock <= now && (p.SubAckPacket? ==> p.results.Valid())
    case Obey(now) => x.phase.Running? && x.clock <= now && x.t.signal.Some? && x.cmds != []
    case Tick(_, _, readings, end) => x.phase.Running? && ClockFits(x, readings, end)
    case CutReceive(p, now) => x.phase.Running? && x.clock <= now && CallsForAnswer(x.t, p)
    case CutObey(now) =>
      && x.phase.Running? && x.clock <= now && x.t.signal.Some? && x.cmds != []
      && OnCommand(x.t, x.cmds[0], now).sent != x.t.sent
    case CutTick(ping, delay, readings, end, n) =>
      x.phase.Running? && ClockFits(x, readings, end) && CutsAt(x.t, ping, delay, readings, n)
    case Exit(_) => x.phase.Running?
    case Cleanup => x.phase.Failing?
    case Begin(call, qos, _, _, _, stage) => call !in x.calls && StageFits(qos, stage)
    case Register(call) => call in x.calls && x.calls[call].phase.Allocated?
    case Submit(call) => call in x.calls && x.calls[call].phase.Registered?
    case Poll(call) => call in x.calls && x.calls[call].phase.Submitted? && x.calls[call].stage.Some?
    case Drop(call) => call in x.calls
    case Push(c) => !c.PublishCommand? && !x.phase.Ended?
    case BeginSubscribe(call, _) => call !in x.waits.calls
    case PollSubscribe(call) => call in x.waits.calls && !OutOfBounds(x, x.waits.calls[call])
    case DropSubscribe(call) => call in x.waits.calls && !OutOfBounds(x, x.waits.calls[call])
  }

  ghost function Step(x: Sys, e: Event): Sys
    requires Enabled(x, e)
  {
    match e
    case Receive(p, now, net) => Received(x, p, now, net)
    case Obey(now) => Obeyed(x, OnCommand(x.t, x.cmds[0], now), now)
    case Tick(ping, delay, readings, end) => x.(t := OnAlarm(x.t, ping, delay, readings), clock := end)
    case CutReceive(p, now) => Stopped(x.(t := OnPacketCut(x.t, p, now), clock := now, broken := true))
    case CutObey(now) => Stopped(Obeyed(x, OnCommandCut(x.t, x.cmds[0], now), now).(broken := true))
    case CutTick(ping, delay, readings, end, n) =>
      Stopped(x.(t := OnAlarmCut(x.t, ping, delay, readings, n), clock := end, broken := true))
    case Exit(closed) => if closed then x.(phase := Ended(true)) else Stopped(x)
    case Cleanup => CleanedUp(x)
    case Begin(call, qos, retain, topic, payload, stage) => Began(x, call, qos, retain, topic, payload, stage)
    case Register(call) => DidRegister(x, call)
    case Submit(call) => Submitting(x, call)
    case Poll(call) => Polled(x, call)
    case Drop(call) => Dropped(x, call)
    case Push(c) => x.(cmds := x.cmds + [c])
    case BeginSubscribe(call, topic) => SubscribeBegun(x, call, topic)
    case PollSubscribe(call) => SubscribePolled(x, call)
    case DropSubscribe(call) => SubscribeDropped(x, call)
  }

  /** A run: every event is enabled in the state the events before it lead to. */
  ghost predicate Run(start: Sys, es: seq<Event>)
    decreases |es|, 0
  {
    es == [] || (Run(start, es[..|es| - 1]) && Enabled(After(start, es[..|es| - 1]), es[|es| - 1]))
  }

  ghost function After(start: Sys, es: seq<Event>): Sys
    requires Run(start, es)
    decreases |es|, 1
  {
    if es == [] then start else Step(After(start, es[..|es| - 1]), es[|es| - 1])
  }

  lemma RunSnoc(start: Sys, es: seq<Event>, e: Event)
    requires Run(start, es) && Enabled(After(start, es), e)
    ensures Run(start, es + [e]) && After(start, es + [e]) == Step(After(start, es), e)
  {
    assert (es + [e])[..|es|] == es;
  }

  /** Every prefix of a run is a run that enables the next event. */
  lemma {:induction false} EnabledAt(start: Sys, es: seq<Event>, i: nat)
    requires Run(start, es) && i < |es|
    ensures Run(start, es[..i]) && Enabled(After(start, es[..i]), es[i])
    decreases |es|
  {
    var last := |es| - 1;
    if i < last {
      assert es[..last][..i] == es[..i] && es[..last][i] == es[i];
      EnabledAt(start, es[..last], i);
    }
  }
}
