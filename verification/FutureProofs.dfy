/** Publish futures: sound completion, no lost wake-up, and what the end of the task does. */
module FutureProofs {
  import opened Wrappers
  import opened ByteIo
  import opened Packets
  import opened Subscriptions
  import opened Protocol
  import opened ProtocolProofs
  import opened Systems
  import opened SystemProofs

  /** The acknowledgement of this stage cleared a packet in flight after position `since`. */
  ghost predicate AckedSince(log: seq<Log>, since: nat, stage: Stage, id: u16) {
    exists i :: since <= i < |log| && log[i] == Acked(stage, id)
  }

  ghost predicate Awaiting(c: Call) {
    c.stage.Some? && !c.phase.Allocated?
  }

  /** The call has reported success. */
  ghost predicate Succeeded(x: Sys, call: nat) {
    call in x.calls && Awaiting(x.calls[call]) && x.calls[call].result == Some(false)
  }

  ghost predicate IsTaken(x: Sys, w: Waker) {
    w in x.t.woken || (x.phase.Failing? && w in x.phase.taken)
  }

  /** Success is earned: the future resolves to success only by an acknowledgement, and as long
  as it is unresolved its entry is there exactly until that acknowledgement. */
  ghost predicate Sound(x: Sys, c: Call)
    requires Awaiting(c)
  {
    && c.since <= |x.t.log|
    && (c.result.None? ==> (KeyOf(c) in x.t.shared.notify <==> !AckedSince(x.t.log, c.since, KeyOf(c).0, KeyOf(c).1)))
    && (c.result == Some(false) ==> AckedSince(x.t.log, c.since, KeyOf(c).0, KeyOf(c).1))
    && (c.result == Some(true) ==> PastStage(x.phase, KeyOf(c).0))
  }

  /** The waker of the last pending poll is in the map or has been taken for waking. */
  ghost predicate Wakeable(x: Sys, c: Call)
    requires Awaiting(c)
  {
    c.result.None? && c.waker.Some? ==>
      (KeyOf(c) in x.t.shared.notify && x.t.shared.notify[KeyOf(c)] == WithWaker(c.waker.value))
          || IsTaken(x, c.waker.value)
  }

  /** Once its map has been failed, the entry of a future that was there is failed; a future
  registered later, or left behind by a closed connection, is not. */
  ghost predicate FailedExactly(x: Sys, c: Call)
    requires Awaiting(c)
  {
    && (c.late ==> PastStage(x.phase, KeyOf(c).0))
    && (c.result.None? && KeyOf(c) in x.t.shared.notify ==>
          (x.t.shared.notify[KeyOf(c)].NotifyFailed? <==>
             PastStage(x.phase, KeyOf(c).0) && !c.late && x.phase != Ended(true)))
  }

  ghost predicate CallInv(x: Sys, c: Call) {
    && StageFits(c.msg.qos, c.stage)
    && (c.phase.Allocated? ==> c.waker.None? && c.result.None?)
    && (Awaiting(c) ==> Sound(x, c) && Wakeable(x, c) && FailedExactly(x, c))
  }

  /** Every waker in the system comes from a poll that has happened. */
  ghost predicate Tokens(x: Sys) {
    StateTokens(x.t, x.polls) && (x.phase.Failing? ==> forall w <- x.phase.taken :: w < x.polls)
  }

  ghost predicate StateTokens(s: State, polls: nat) {
    && (forall w <- s.woken :: w < polls)
    && (forall k <- s.shared.notify :: s.shared.notify[k].WithWaker? ==> s.shared.notify[k].waker < polls)
    && (forall t <- s.shared.subs :: forall w <- WakersOf(s.shared.subs, t) :: w < polls)
  }

  ghost predicate FutureInv(x: Sys) {
    && (forall c <- x.calls :: CallInv(x, x.calls[c]))
    && (x.phase.Failing? ==> x.phase.step <= 4)
    && Tokens(x)
  }

  // ----- The task's own steps -----

  /** What any step of the running task does to the notifier maps: an entry stays as it is, or
  goes with an acknowledgement in the log and its waker woken. */
  ghost predicate NotifyStep(s: State, s': State) {
    && s.log <= s'.log && s.woken <= s'.woken
    && (forall k <- s'.shared.notify ::
          k in s.shared.notify && s'.shared.notify[k] == s.shared.notify[k] && !AckedSince(s'.log, |s.log|, k.0, k.1))
    && (forall k <- s.shared.notify :: k in s'.shared.notify ||
          (AckedSince(s'.log, |s.log|, k.0, k.1)
           && (s.shared.notify[k].WithWaker? ==> s.shared.notify[k].waker in s'.woken)))
  }

  lemma AcknowledgeNotify(s: State, key: Key, stage: Stage)
    ensures NotifyStep(s, Acknowledge(s, key, stage))
    ensures Acknowledge(s, key, stage).woken <= s.woken + NotifyWakers(s)
  {
    var s' := Acknowledge(s, key, stage);
    if key in s.pending {
      assert s'.log[|s.log|] == Acked(stage, key.id);
    }
  }

  ghost function NotifyWakers(s: State): set<Waker> {
    set k <- s.shared.notify | s.shared.notify[k].WithWaker? :: s.shared.notify[k].waker
  }

  /** A step that leaves the notifier maps alone and acknowledges nothing. */
  lemma SilentNotify(s: State, s': State)
    requires s.log <= s'.log && s.woken <= s'.woken && s'.shared.notify == s.shared.notify
    requires forall i :: |s.log| <= i < |s'.log| ==> !s'.log[i].Acked?
    ensures NotifyStep(s, s')
  {
  }

  lemma PubRecNotify(s: State, id: u16, now: int)
    ensures NotifyStep(s, OnPubRec(s, id, now))
  {
    AcknowledgeNotify(Releasing(s, id, now), Key(Publish, id), RecStage);
  }

  lemma OnPacketNotify(s: State, p: Packet, now: int, net: Network)
    requires p.SubAckPacket? ==> p.results.Valid()
    ensures NotifyStep(s, OnPacket(s, p, now, net).0)
  {
    if s.signal.Some? {
      match p
      case PubAckPacket(id) => AcknowledgeNotify(s, Key(Publish, id), AckStage);
      case PubRecPacket(id) => PubRecNotify(s, id, now);
      case PubCompPacket(id) => AcknowledgeNotify(s, Key(PubRel, id), CompStage);
      case _ => SilentNotify(s, OnPacket(s, p, now, net).0);
    }
  }

  lemma AckedGrows(log: seq<Log>, log': seq<Log>, since: nat, stage: Stage, id: u16)
    requires log <= log' && AckedSince(log, since, stage, id)
    ensures AckedSince(log', since, stage, id)
  {
    var i :| since <= i < |log| && log[i] == Acked(stage, id);
    assert log'[i] == Acked(stage, id);
  }

  lemma AckedNew(log: seq<Log>, log': seq<Log>, since: nat, stage: Stage, id: u16)
    requires log <= log' && AckedSince(log', since, stage, id)
    ensures AckedSince(log, since, stage, id) || AckedSince(log', |log|, stage, id)
  {
    var i :| since <= i < |log'| && log'[i] == Acked(stage, id);
    if i < |log| {
      assert log[i] == Acked(stage, id);
    }
  }

  /** A step of the running task keeps every call's invariant. */
  lemma TaskStepCall(x: Sys, x': Sys, c: Call)
    requires CallInv(x, c) && x.phase.Running?
    requires NotifyStep(x.t, x'.t)
    requires x'.phase.Running? || x'.phase == Failing(0, {})
    ensures CallInv(x', c)
  {
    if Awaiting(c) {
      var k := KeyOf(c);
      if AckedSince(x.t.log, c.since, k.0, k.1) {
        AckedGrows(x.t.log, x'.t.log, c.since, k.0, k.1);
      } else if AckedSince(x'.t.log, c.since, k.0, k.1) {
        AckedNew(x.t.log, x'.t.log, c.since, k.0, k.1);
      }
    }
  }

  lemma TaskStepFutures(x: Sys, x': Sys)
    requires FutureInv(x) && x.phase.Running? && NotifyStep(x.t, x'.t) && Tokens(x')
    requires x'.phase.Running? || x'.phase == Failing(0, {})
    requires x'.calls == x.calls
    ensures FutureInv(x')
  {
    forall c | c in x'.calls ensures CallInv(x', x'.calls[c]) {
      TaskStepCall(x, x', x.calls[c]);
    }
  }

  lemma OnPacketTokens(s: State, p: Packet, now: int, net: Network, polls: nat)
    requires StateTokens(s, polls) && (p.SubAckPacket? ==> p.results.Valid())
    ensures StateTokens(OnPacket(s, p, now, net).0, polls)
  {
    if s.signal.Some? {
      match p
      case PubAckPacket(id) => AcknowledgeTokens(s, Key(Publish, id), AckStage, polls);
      case PubRecPacket(id) => AcknowledgeTokens(Releasing(s, id, now), Key(Publish, id), RecStage, polls);
      case PubCompPacket(id) => AcknowledgeTokens(s, Key(PubRel, id), CompStage, polls);
      case SubAckPacket(id, results) => SubAckTokens(s, id, results.Results(), polls);
      case _ =>
    }
  }

  lemma AcknowledgeTokens(s: State, key: Key, stage: Stage, polls: nat)
    requires StateTokens(s, polls)
    ensures StateTokens(Acknowledge(s, key, stage), polls)
  {
    AcknowledgeNotify(s, key, stage);
    assert Acknowledge(s, key, stage).shared.subs == s.shared.subs;
  }

  lemma SubAckTokens(s: State, id: u16, results: seq<SubscriptionResult>, polls: nat)
    requires StateTokens(s, polls)
    ensures StateTokens(OnSubAck(s, id, results), polls)
  {
    var s' := OnSubAck(s, id, results);
    forall t, w | t in s'.shared.subs && w in WakersOf(s'.shared.subs, t) ensures w < polls {
      assert WakersOf(s'.shared.subs, t) == WakersOf(s.shared.subs, t) || WakersOf(s'.shared.subs, t) == {};
      assert t in s.shared.subs;
    }
  }

  /** What a step of the running task does to the state that matters here. */
  ghost predicate TaskStep(s: State, s': State, polls: nat) {
    NotifyStep(s, s') && (StateTokens(s, polls) ==> StateTokens(s', polls))
  }

  lemma StoppedStep(s: State, x: Sys)
    requires TaskStep(s, x.t, x.polls)
    ensures TaskStep(s, Stopped(x).t, x.polls)
  {
  }

  lemma ReceiveStep(x: Sys, p: Packet, now: int, net: Network)
    requires p.SubAckPacket? ==> p.results.Valid()
    ensures TaskStep(x.t, Received(x, p, now, net).t, x.polls)
  {
    OnPacketNotify(x.t, p, now, net);
    if StateTokens(x.t, x.polls) {
      OnPacketTokens(x.t, p, now, net, x.polls);
    }
    StoppedStep(x.t, x.(t := OnPacket(x.t, p, now, net).0, clock := now));
  }

  /** A step that leaves the shared maps alone, but for subscriptions that are removed. */
  lemma PlainStep(s: State, s': State, polls: nat)
    requires s.log <= s'.log && s'.woken == s.woken && s'.shared.notify == s.shared.notify
    requires forall i :: |s.log| <= i < |s'.log| ==> !s'.log[i].Acked?
    requires forall t <- s'.shared.subs :: t in s.shared.subs && s'.shared.subs[t] == s.shared.subs[t]
    ensures TaskStep(s, s', polls)
  {
    SilentNotify(s, s');
    assert forall t <- s'.shared.subs :: WakersOf(s'.shared.subs, t) == WakersOf(s.shared.subs, t);
  }

  lemma ObeyStep(s: State, c: Command, now: int, polls: nat)
    ensures TaskStep(s, OnCommand(s, c, now), polls) && TaskStep(s, OnCommandCut(s, c, now), polls)
  {
    ObeyShared(s, c, now);
    PlainStep(s, OnCommand(s, c, now), polls);
    PlainStep(s, OnCommandCut(s, c, now), polls);
  }

  lemma ObeyShared(s: State, c: Command, now: int)
    ensures var s' := OnCommand(s, c, now);
            && s'.log == s.log && s'.woken == s.woken && s'.shared.notify == s.shared.notify
            && forall t <- s'.shared.subs :: t in s.shared.subs && s'.shared.subs[t] == s.shared.subs[t]
  {
  }

  lemma TickStep(s: State, s': State, polls: nat)
    requires SameButSent(s, s')
    ensures TaskStep(s, s', polls)
  {
    PlainStep(s, s', polls);
  }

  lemma CutReceiveStep(s: State, p: Packet, now: int, polls: nat)
    requires CallsForAnswer(s, p)
    ensures TaskStep(s, OnPacketCut(s, p, now), polls)
  {
    PlainStep(s, OnPacketCut(s, p, now), polls);
  }

  lemma CutStep(x: Sys, e: Event)
    requires Enabled(x, e) && (e.CutReceive? || e.CutObey? || e.CutTick?)
    ensures TaskStep(x.t, Step(x, e).t, x.polls)
  {
    match e
    case CutReceive(p, now) =>
      CutReceiveStep(x.t, p, now, x.polls);
      StoppedStep(x.t, x.(t := OnPacketCut(x.t, p, now), clock := now, broken := true));
    case CutObey(now) =>
      ObeyStep(x.t, x.cmds[0], now, x.polls);
      StoppedStep(x.t, Obeyed(x, OnCommandCut(x.t, x.cmds[0], now), now).(broken := true));
    case CutTick(ping, delay, readings, end, n) =>
      OnAlarmCutKeeps(x.t, ping, delay, readings, n);
      TickStep(x.t, OnAlarmCut(x.t, ping, delay, readings, n), x.polls);
      StoppedStep(x.t, x.(t := OnAlarmCut(x.t, ping, delay, readings, n), clock := end, broken := true));
  }

  lemma TaskSteps(x: Sys, e: Event)
    requires Enabled(x, e) && IsTaskStep(e)
    ensures TaskStep(x.t, Step(x, e).t, x.polls)
  {
    match e
    case Receive(p, now, net) => ReceiveStep(x, p, now, net);
    case Obey(now) => ObeyStep(x.t, x.cmds[0], now, x.polls);
    case Tick(ping, delay, readings, end) =>
      OnAlarmKeeps(x.t, ping, delay, readings);
      TickStep(x.t, OnAlarm(x.t, ping, delay, readings), x.polls);
    case _ => CutStep(x, e);
  }

  lemma RunningFutures(x: Sys, e: Event)
    requires FutureInv(x) && Enabled(x, e) && IsTaskStep(e)
    ensures FutureInv(Step(x, e))
  {
    TaskSteps(x, e);
    TaskStepFutures(x, Step(x, e));
  }

  // ----- The end of the task -----

  lemma ExitFutures(x: Sys, closed: bool)
    requires FutureInv(x) && Enabled(x, Exit(closed))
    ensures FutureInv(Step(x, Exit(closed)))
  {
    var x' := Step(x, Exit(closed));
    forall c | c in x'.calls ensures CallInv(x', x'.calls[c]) {
      assert CallInv(x, x.calls[c]);
    }
  }

  lemma FailStageSound(x: Sys, c: Call, stage: Stage)
    requires Awaiting(c) && Sound(x, c) && x.phase.Failing? && StageAt(x.phase.step) == Some(stage)
    ensures Sound(CleanedUp(x), c)
  {
  }

  lemma FailStageWakeable(x: Sys, c: Call, stage: Stage)
    requires Awaiting(c) && Wakeable(x, c) && x.phase.Failing? && StageAt(x.phase.step) == Some(stage)
    ensures Wakeable(CleanedUp(x), c)
  {
    var notify := x.t.shared.notify;
    if KeyOf(c) in notify && KeyOf(c).0 == stage {
      assert notify[KeyOf(c)].WithWaker? ==> notify[KeyOf(c)].waker in WakersAt(notify, stage);
    }
  }

  lemma FailStageExactly(x: Sys, c: Call, stage: Stage)
    requires Awaiting(c) && FailedExactly(x, c) && x.phase.Failing? && StageAt(x.phase.step) == Some(stage)
    ensures FailedExactly(CleanedUp(x), c)
  {
  }

  lemma FailStageCall(x: Sys, c: Call, stage: Stage)
    requires CallInv(x, c) && x.phase.Failing? && StageAt(x.phase.step) == Some(stage)
    ensures CallInv(CleanedUp(x), c)
  {
    if Awaiting(c) {
      FailStageSound(x, c, stage);
      FailStageWakeable(x, c, stage);
      FailStageExactly(x, c, stage);
    }
  }

  lemma LastStepsCall(x: Sys, c: Call)
    requires CallInv(x, c) && x.phase.Failing? && 3 <= x.phase.step <= 4
    ensures CallInv(CleanedUp(x), c)
  {
  }

  lemma CleanupCall(x: Sys, c: Call)
    requires CallInv(x, c) && x.phase.Failing? && x.phase.step <= 4
    ensures CallInv(CleanedUp(x), c)
  {
    if x.phase.step < 3 {
      FailStageCall(x, c, StageAt(x.phase.step).value);
    } else {
      LastStepsCall(x, c);
    }
  }

  lemma CleanupFutures(x: Sys)
    requires FutureInv(x) && x.phase.Failing?
    ensures FutureInv(CleanedUp(x))
  {
    forall c | c in x.calls ensures CallInv(CleanedUp(x), x.calls[c]) {
      CleanupCall(x, x.calls[c]);
    }
  }

  // ----- The clients' steps -----

  /** Another call's key is another key. */
  lemma KeysDiffer(x: Sys, a: nat, b: nat)
    requires CallIds(x) && FutureInv(x) && a in x.calls && b in x.calls && a != b
    requires x.calls[a].stage.Some? && x.calls[b].stage.Some?
    ensures KeyOf(x.calls[a]) != KeyOf(x.calls[b])
  {
    assert CallInv(x, x.calls[a]) && CallInv(x, x.calls[b]);
  }

  /** A step at one key of the maps leaves the calls with other keys alone. */
  lemma OtherCall(x: Sys, x': Sys, c: Call, k: (Stage, u16))
    requires CallInv(x, c) && (c.stage.Some? ==> KeyOf(c) != k)
    requires x'.t == x.t.(shared := x'.t.shared) && x'.phase == x.phase
    requires forall j :: j != k ==> (j in x'.t.shared.notify <==> j in x.t.shared.notify)
    requires forall j :: j != k && j in x.t.shared.notify ==> x'.t.shared.notify[j] == x.t.shared.notify[j]
    ensures CallInv(x', c)
  {
  }

  lemma RegisterFutures(x: Sys, call: nat)
    requires FutureInv(x) && CallIds(x) && call in x.calls && x.calls[call].phase.Allocated?
    ensures FutureInv(DidRegister(x, call))
  {
    var x' := DidRegister(x, call);
    forall c | c in x'.calls ensures CallInv(x', x'.calls[c]) {
      assert CallInv(x, x.calls[c]);
      if c != call && x.calls[call].stage.Some? {
        if x.calls[c].stage.Some? { KeysDiffer(x, c, call); }
        OtherCall(x, x', x.calls[c], KeyOf(x.calls[call]));
      }
    }
  }

  lemma PollFutures(x: Sys, call: nat)
    requires FutureInv(x) && CallIds(x) && call in x.calls && x.calls[call].phase.Submitted?
               && x.calls[call].stage.Some?
    ensures FutureInv(Polled(x, call))
  {
    var x' := Polled(x, call);
    forall c | c in x'.calls ensures CallInv(x', x'.calls[c]) {
      assert CallInv(x, x.calls[c]);
      if c != call {
        if x.calls[c].stage.Some? { KeysDiffer(x, c, call); }
        OtherCall(x, x', x.calls[c], KeyOf(x.calls[call]));
      }
    }
  }

  lemma DropFutures(x: Sys, call: nat)
    requires FutureInv(x) && CallIds(x) && call in x.calls
    ensures FutureInv(Dropped(x, call))
  {
    var x' := Dropped(x, call);
    forall c | c in x'.calls ensures CallInv(x', x'.calls[c]) {
      assert CallInv(x, x.calls[c]);
      if x.calls[call].stage.Some? {
        if x.calls[c].stage.Some? { KeysDiffer(x, c, call); }
        OtherCall(x, x', x.calls[c], KeyOf(x.calls[call]));
      }
    }
  }

  lemma BeginFutures(x: Sys, e: Event)
    requires FutureInv(x) && e.Begin? && Enabled(x, e)
    ensures FutureInv(Step(x, e))
  {
    var x' := Began(x, e.call, e.qos, e.retain, e.topic, e.payload, e.stage);
    BeganStep(x, e.call, e.qos, e.retain, e.topic, e.payload, e.stage);
    assert x'.t.shared.notify == x.t.shared.notify;
    forall c | c in x'.calls ensures CallInv(x', x'.calls[c]) {
      if c != e.call { assert CallInv(x, x.calls[c]); }
    }
  }

  /** The only waker a step of a subscribe call can add is the one of this poll. */
  lemma SubStepWakers(x: Sys, e: Event, t: seq<byte>)
    requires Enabled(x, e) && IsSubStep(e) && t in Step(x, e).t.shared.subs
    ensures var x' := Step(x, e);
            WakersOf(x'.t.shared.subs, t) <=
            WakersOf(x.t.shared.subs, t) + (if x'.polls > x.polls then {x.polls} else {})
  {
    if e.PollSubscribe? || e.DropSubscribe? {
      var c := x.waits.calls[e.call];
      if WakerList(x, c.topic).Some? && c.result.None? {
        AwakeUpdate(WakerList(x, c.topic).value, if c.slot.Some? then c.slot.value else 0, x.polls);
      }
    }
  }

  lemma SubscribeFutures(x: Sys, e: Event)
    requires FutureInv(x) && Enabled(x, e) && IsSubStep(e)
    ensures FutureInv(Step(x, e))
  {
    var x' := Step(x, e);
    SubSteps(x, e);
    forall c | c in x'.calls ensures CallInv(x', x'.calls[c]) {
      assert CallInv(x, x.calls[c]);
    }
    forall t, w | t in x'.t.shared.subs && w in WakersOf(x'.t.shared.subs, t) ensures w < x'.polls {
      SubStepWakers(x, e, t);
      assert w in WakersOf(x.t.shared.subs, t) ==> t in x.t.shared.subs;
    }
  }

  lemma AwakeUpdate(ws: seq<Option<Waker>>, i: nat, w: Waker)
    ensures Awake(ws + [Some(w)]) <= Awake(ws) + {w}
    ensures i < |ws| ==> Awake(ws[i := Some(w)]) <= Awake(ws) + {w} && Awake(ws[i := None]) <= Awake(ws)
  {
  }

  lemma SubmitFutures(x: Sys, call: nat)
    requires FutureInv(x) && CallIds(x) && Enabled(x, Submit(call))
    ensures FutureInv(Step(x, Submit(call)))
  {
    if x.phase.Ended? {
      DropFutures(x, call);
    } else {
      var x' := Step(x, Submit(call));
      forall c | c in x'.calls ensures CallInv(x', x'.calls[c]) {
        assert CallInv(x, x.calls[c]);
      }
    }
  }

  lemma PushFutures(x: Sys, c: Command)
    requires FutureInv(x) && Enabled(x, Push(c))
    ensures FutureInv(Step(x, Push(c)))
  {
    var x' := Step(x, Push(c));
    forall c | c in x'.calls ensures CallInv(x', x'.calls[c]) {
      assert CallInv(x, x.calls[c]);
    }
  }

  lemma StepFutures(x: Sys, e: Event)
    requires FutureInv(x) && CallIds(x) && Enabled(x, e)
    ensures FutureInv(Step(x, e))
  {
    match e
    case Exit(closed) => ExitFutures(x, closed);
    case Cleanup => CleanupFutures(x);
    case Begin(_, _, _, _, _, _) => BeginFutures(x, e);
    case Register(call) => RegisterFutures(x, call);
    case Submit(call) => SubmitFutures(x, call);
    case Poll(call) => PollFutures(x, call);
    case Drop(call) => DropFutures(x, call);
    case Push(c) => PushFutures(x, c);
    case BeginSubscribe(_, _) => SubscribeFutures(x, e);
    case PollSubscribe(_) => SubscribeFutures(x, e);
    case DropSubscribe(_) => SubscribeFutures(x, e);
    case _ => RunningFutures(x, e);
  }

  /** In every state of every run with distinct identifiers: futures succeed only by an
  acknowledgement that cleared a packet in flight after they were registered, their last
  waker is stored or taken for waking, and failure is exactly the failure of their map. */
  lemma {:induction false} EveryRunFutures(connect: ConnectInfo, es: seq<Event>)
    requires Run(Systems.Init(connect), es) && After(Systems.Init(connect), es).allocs <= 65536
    ensures FutureInv(After(Systems.Init(connect), es))
    decreases |es|
  {
    if es != [] {
      var front, e := es[..|es| - 1], es[|es| - 1];
      var x := After(Systems.Init(connect), front);
      AllocsGrow(x, e);
      EveryRunFutures(connect, front);
      EveryRunIds(connect, front);
      StepFutures(x, e);
    }
  }

  // ----- What the invariant means -----

  function AckPacketOf(stage: Stage, id: u16): Packet {
    match stage case AckStage => PubAckPacket(id) case RecStage => PubRecPacket(id) case CompStage => PubCompPacket(id)
  }

  function AnsweredKey(stage: Stage, id: u16): Key {
    match stage case AckStage => Key(Publish, id) case RecStage => Key(Publish, id) case CompStage => Key(PubRel, id)
  }

  /** The one acknowledgement a packet can add to the log. */
  ghost function NewAcks(s: State, p: Packet): set<(Stage, u16)> {
    match p
    case PubAckPacket(id) => if Key(Publish, id) in s.pending then {(AckStage, id)} else {}
    case PubRecPacket(id) => if Key(Publish, id) in s.pending then {(RecStage, id)} else {}
    case PubCompPacket(id) => if Key(PubRel, id) in s.pending then {(CompStage, id)} else {}
    case _ => {}
  }

  lemma OnPacketLog(s: State, p: Packet, now: int, net: Network)
    requires s.signal.Some? && (p.SubAckPacket? ==> p.results.Valid())
    ensures var s' := OnPacket(s, p, now, net).0;
            && (NewAcks(s, p) == {} ==> forall i :: |s.log| <= i < |s'.log| ==> !s'.log[i].Acked?)
            && (forall k <- NewAcks(s, p) :: s'.log == s.log + [Acked(k.0, k.1)]
                 && AnsweredKey(k.0, k.1) !in s'.pending)
  {
  }

  /** What an acknowledgement in the log stands for: that packet was processed while the packet
  it answers was in flight, and took it out of flight. */
  lemma AckedMeans(s: State, p: Packet, now: int, net: Network, stage: Stage, id: u16)
    requires p.SubAckPacket? ==> p.results.Valid()
    ensures var s' := OnPacket(s, p, now, net).0;
            AckedSince(s'.log, |s.log|, stage, id) <==>
              && s.signal.Some? && p == AckPacketOf(stage, id)
              && AnsweredKey(stage, id) in s.pending && AnsweredKey(stage, id) !in s'.pending
  {
    var s' := OnPacket(s, p, now, net).0;
    if s.signal.Some? {
      OnPacketLog(s, p, now, net);
      assert (stage, id) in NewAcks(s, p) <==> p == AckPacketOf(stage, id) && AnsweredKey(stage, id) in s.pending;
      if (stage, id) in NewAcks(s, p) {
        assert s'.log[|s.log|] == Acked(stage, id);
      } else {
        forall i | |s.log| <= i < |s'.log| ensures s'.log[i] != Acked(stage, id) {
          if k :| k in NewAcks(s, p) {
            assert s'.log[i] == Acked(k.0, k.1);
          }
        }
      }
    }
  }

  /** Once acknowledged, the next poll succeeds. */
  lemma PollAfterAck(x: Sys, call: nat)
    requires FutureInv(x) && Enabled(x, Poll(call)) && x.calls[call].result.None?
    ensures var c := x.calls[call];
            Step(x, Poll(call)).calls[call].result == Some(false) <==>
              AckedSince(x.t.log, c.since, KeyOf(c).0, KeyOf(c).1)
  {
    assert CallInv(x, x.calls[call]);
  }

  /** The waker of a pending poll is new: nothing has woken it before. */
  lemma PollLeavesFreshWaker(x: Sys, call: nat)
    requires FutureInv(x) && Enabled(x, Poll(call)) && Step(x, Poll(call)).calls[call].result.None?
    ensures var x' := Step(x, Poll(call));
            && x'.calls[call].waker == Some(x.polls) && !IsTaken(x', x.polls)
            && x'.t.shared.notify[KeyOf(x.calls[call])] == WithWaker(x.polls)
  {
  }

  /** After the task is over, an unacknowledged future is released by its next poll exactly if
  the connection was not simply closed and the future was registered before its map was
  failed; its last waker has then been woken. */
  lemma ShutdownExactly(connect: ConnectInfo, es: seq<Event>, call: nat)
    requires Run(Systems.Init(connect), es) && After(Systems.Init(connect), es).allocs <= 65536
    requires var x := After(Systems.Init(connect), es);
             && x.phase.Ended? && Enabled(x, Poll(call)) && x.calls[call].result.None?
             && !AckedSince(x.t.log, x.calls[call].since, KeyOf(x.calls[call]).0, KeyOf(x.calls[call]).1)
    ensures var x := After(Systems.Init(connect), es);
            var c := x.calls[call];
            && (Step(x, Poll(call)).calls[call].result == Some(true) <==> !x.phase.closed && !c.late)
            && (Step(x, Poll(call)).calls[call].result.None? <==> x.phase.closed || c.late)
            && (!x.phase.closed && !c.late && c.waker.Some? ==> c.waker.value in x.t.woken)
  {
    var x := After(Systems.Init(connect), es);
    EveryRunFutures(connect, es);
    assert CallInv(x, x.calls[call]);
  }

  /** A call that waits on an entry nobody will fail or remove. */
  ghost predicate Hung(x: Sys, call: nat) {
    && x.phase.Ended? && call in x.calls && Awaiting(x.calls[call]) && x.calls[call].phase.Submitted?
    && x.calls[call].result.None?
    && KeyOf(x.calls[call]) in x.t.shared.notify && !x.t.shared.notify[KeyOf(x.calls[call])].NotifyFailed?
  }

  /** A step at another key of the maps leaves it waiting. */
  lemma HungElsewhere(x: Sys, x': Sys, call: nat)
    requires Hung(x, call) && x'.phase == x.phase && call in x'.calls && x'.calls[call] == x.calls[call]
    requires var k := KeyOf(x.calls[call]);
             k in x'.t.shared.notify && x'.t.shared.notify[k] == x.t.shared.notify[k]
    ensures Hung(x', call)
  {
  }

  lemma HungCallStep(x: Sys, e: Event, call: nat)
    requires FutureInv(x) && CallIds(x) && Hung(x, call) && Enabled(x, e) && e != Drop(call)
    requires e.Register? || e.Submit? || e.Poll? || e.Drop?
    ensures Hung(Step(x, e), call)
  {
    if e.call != call {
      if x.calls[e.call].stage.Some? {
        KeysDiffer(x, e.call, call);
      }
      HungElsewhere(x, Step(x, e), call);
    }
  }

  /** It waits forever: whatever happens, short of dropping it, it keeps waiting. */
  lemma HungStays(x: Sys, e: Event, call: nat)
    requires FutureInv(x) && CallIds(x) && Hung(x, call) && Enabled(x, e) && e != Drop(call)
    ensures Hung(Step(x, e), call)
  {
    if e.Register? || e.Submit? || e.Poll? || e.Drop? {
      HungCallStep(x, e, call);
    } else if IsSubStep(e) {
      SubSteps(x, e);
    } else if e.Begin? {
      BeganStep(x, e.call, e.qos, e.retain, e.topic, e.payload, e.stage);
      HungElsewhere(x, Step(x, e), call);
    }
  }

  /** A publish awaiting PUBACK when the peer closes the connection is never released. */
  lemma ClosedConnectionHangs(connect: ConnectInfo) returns (es: seq<Event>)
    ensures Run(Systems.Init(connect), es) && Hung(After(Systems.Init(connect), es), 0)
    ensures After(Systems.Init(connect), es).phase == Ended(true)
  {
    var start := Systems.Init(connect);
    es := [];
    RunSnoc(start, es, Begin(0, AtLeastOnce, false, [], [], Some(AckStage)));
    es := es + [Begin(0, AtLeastOnce, false, [], [], Some(AckStage))];
    RunSnoc(start, es, Register(0));
    es := es + [Register(0)];
    RunSnoc(start, es, Submit(0));
    es := es + [Submit(0)];
    RunSnoc(start, es, Exit(true));
    es := es + [Exit(true)];
  }

  /** Call 0 awaits PUBACK on an entry made after that map was failed. */
  ghost predicate LateWaiting(x: Sys, step: nat) {
    && x.phase.Failing? && x.phase.step == step && step > 0
    && 0 in x.calls && Awaiting(x.calls[0]) && x.calls[0].phase.Submitted? && x.calls[0].result.None?
    && KeyOf(x.calls[0]) == (AckStage, 1)
    && (AckStage, 1) in x.t.shared.notify && !x.t.shared.notify[(AckStage, 1)].NotifyFailed?
  }

  lemma LateWaitingReached(connect: ConnectInfo) returns (es: seq<Event>)
    ensures Run(Systems.Init(connect), es) && LateWaiting(After(Systems.Init(connect), es), 1)
  {
    var start := Systems.Init(connect);
    es := [];
    RunSnoc(start, es, Exit(false));
    es := es + [Exit(false)];
    RunSnoc(start, es, Cleanup);
    es := es + [Cleanup];
    RunSnoc(start, es, Begin(0, AtLeastOnce, false, [], [], Some(AckStage)));
    es := es + [Begin(0, AtLeastOnce, false, [], [], Some(AckStage))];
    RunSnoc(start, es, Register(0));
    es := es + [Register(0)];
    RunSnoc(start, es, Submit(0));
    es := es + [Submit(0)];
  }

  lemma LateWaitingStays(x: Sys, step: nat)
    requires LateWaiting(x, step)
    ensures step < 4 ==> LateWaiting(CleanedUp(x), step + 1)
    ensures step == 4 ==> Hung(CleanedUp(x), 0) && CleanedUp(x).phase == Ended(false)
  {
  }

  /** Nor is one that registers after its map was failed and submits before the task is gone. */
  lemma LateRegistrationHangs(connect: ConnectInfo) returns (es: seq<Event>)
    ensures Run(Systems.Init(connect), es) && Hung(After(Systems.Init(connect), es), 0)
    ensures After(Systems.Init(connect), es).phase == Ended(false)
  {
    var start := Systems.Init(connect);
    es := LateWaitingReached(connect);
    for i := 1 to 4
      invariant Run(start, es) && LateWaiting(After(start, es), i)
    {
      LateWaitingStays(After(start, es), i);
      RunSnoc(start, es, Cleanup);
      es := es + [Cleanup];
    }
    LateWaitingStays(After(start, es), 4);
    RunSnoc(start, es, Cleanup);
    es := es + [Cleanup];
  }

  // ----- The cleanup wakes everyone -----

  lemma TakenStays(x: Sys, e: Event, w: Waker)
    requires Enabled(x, e) && IsTaken(x, w)
    ensures IsTaken(Step(x, e), w)
  {
    if IsTaskStep(e) {
      TaskSteps(x, e);
    } else if IsCallStep(e) {
      CallSteps(x, e);
    } else if IsSubStep(e) {
      SubSteps(x, e);
    }
  }

  /** The wakers the next step of the cleanup finds: those of one notifier map, or those of all
  awaited subscriptions. */
  ghost function ToCollect(x: Sys): set<Waker>
    requires x.phase.Failing?
  {
    match StageAt(x.phase.step)
    case Some(stage) => WakersAt(x.t.shared.notify, stage)
    case None => if x.phase.step == 3 then SubWakers(x.t.shared.subs) else {}
  }

  /** This event is a step of the cleanup that collects this waker. */
  ghost predicate Collects(x: Sys, e: Event, w: Waker) {
    e == Cleanup && x.phase.Failing? && w in ToCollect(x)
  }

  lemma CollectTakes(x: Sys, e: Event, w: Waker)
    requires Enabled(x, e) && Collects(x, e, w)
    ensures IsTaken(Step(x, e), w)
  {
  }

  lemma {:induction false} TakenForever(start: Sys, es: seq<Event>, i: nat, w: Waker)
    requires Run(start, es) && i < |es| && Run(start, es[..i]) && Collects(After(start, es[..i]), es[i], w)
    ensures IsTaken(After(start, es), w)
    decreases |es|
  {
    var last := |es| - 1;
    if i == last {
      CollectTakes(After(start, es[..i]), es[i], w);
    } else {
      assert es[..last][..i] == es[..i] && es[..last][i] == es[i];
      TakenForever(start, es[..last], i, w);
      TakenStays(After(start, es[..last]), es[last], w);
    }
  }

  /** In every run: whatever waker is stored in a map when the cleanup reaches that map has been
  woken when the task is over, whatever the clients do meanwhile. */
  lemma CleanupWakesAll(connect: ConnectInfo, es: seq<Event>, i: nat, w: Waker)
    requires Run(Systems.Init(connect), es) && i < |es|
    requires Run(Systems.Init(connect), es[..i]) && Collects(After(Systems.Init(connect), es[..i]), es[i], w)
    requires After(Systems.Init(connect), es).phase.Ended?
    ensures w in After(Systems.Init(connect), es).t.woken
  {
    TakenForever(Systems.Init(connect), es, i, w);
  }
}
