/** Subscribe futures: when a pending poll's waker is kept, and what the end of the task does. */
module SubscribeProofs {
  import opened Wrappers
  import opened ByteIo
  import opened Packets
  import opened Subscriptions
  import opened Topics
  import opened SubscriptionSets
  import opened Protocol
  import opened ProtocolProofs
  import opened Systems
  import opened SystemProofs
  import opened FutureProofs

  type Topic = seq<byte>

  /** This waker is in this slot. */
  ghost predicate StoredAt(x: Sys, t: Topic, i: int, w: Waker) {
    WakerList(x, t).Some? && 0 <= i < |WakerList(x, t).value| && WakerList(x, t).value[i] == Some(w)
  }

  /** The list in which the future has its slot still collects wakers. */
  ghost predicate Current(x: Sys, c: SubCall) {
    c.slot.Some? && WakerList(x, c.topic).Some? && Lists(x, c.topic) == c.period
  }

  /** Unresolved, and last polled in the list its slot belongs to. */
  ghost predicate WaitsInOwnSlot(c: SubCall) {
    c.result.None? && c.slot.Some? && c.waker.Some? && c.polled == c.period
  }

  /** A future with a slot of an older list has written to this one's slot. */
  ghost predicate Robbed(x: Sys, c: SubCall)
    requires c.slot.Some?
  {
    (c.topic, c.period, c.slot.value) in x.waits.stolen
  }

  /** An unsubscription threw the list away. */
  ghost predicate ThrownAway(x: Sys, c: SubCall) {
    (c.topic, c.period) in x.waits.discarded
  }

  /** The waker is stored somewhere, or taken for waking. */
  ghost predicate Somewhere(x: Sys, w: Waker) {
    || IsTaken(x, w)
    || (exists t, i :: StoredAt(x, t, i, w))
    || (exists k :: k in x.t.shared.notify && x.t.shared.notify[k] == WithWaker(w))
  }

  /** While its list is there the waker is in its slot; when the list is gone the waker has been taken
  for waking. If the slot was stolen or the list thrown away, the waker is lost. */
  ghost predicate Accounted(x: Sys, c: SubCall)
    requires WaitsInOwnSlot(c)
  {
    if Robbed(x, c) || ThrownAway(x, c) then !Somewhere(x, c.waker.value)
    else if Current(x, c) then StoredAt(x, c.topic, c.slot.value, c.waker.value)
    else IsTaken(x, c.waker.value)
  }

  ghost predicate WaitInv(x: Sys, c: SubCall) {
    && (c.slot.Some? <==> c.waker.Some?) && (c.waker.Some? ==> c.waker.value < x.polls)
    && (c.slot.Some? ==> 0 < c.period <= Lists(x, c.topic))
    && (Current(x, c) ==> c.slot.value < |WakerList(x, c.topic).value|)
    && (WaitsInOwnSlot(c) ==> Accounted(x, c))
    && (c.slot.Some? && c.late ==> PastDrain(x.phase) && Current(x, c))
    && (Current(x, c) && PastDrain(x.phase) ==> c.late)
  }

  /** A list that was thrown away does not come back. */
  ghost predicate DiscardedGone(x: Sys) {
    forall d <- x.waits.discarded ::
      d.1 <= Lists(x, d.0) && (d.1 == Lists(x, d.0) ==> WakerList(x, d.0).None?)
  }

  /** Two futures never have the same slot of the same list. */
  ghost predicate SlotsDiffer(x: Sys) {
    forall a, b :: a in x.waits.calls && b in x.waits.calls && a != b ==> Apart(x.waits.calls[a], x.waits.calls[b])
  }

  ghost predicate Apart(c: SubCall, d: SubCall) {
    c.slot.Some? && c.slot == d.slot && c.topic == d.topic ==> c.period != d.period
  }

  /** Every waker is in one place only, and none that is stored has been taken. */
  ghost predicate OnePlace(x: Sys) {
    && (forall t, i, u, j, w :: StoredAt(x, t, i, w) && StoredAt(x, u, j, w) ==> t == u && i == j)
    && (forall t, i, w :: StoredAt(x, t, i, w) ==> !IsTaken(x, w))
    && (forall t, i, w, k :: StoredAt(x, t, i, w) && k in x.t.shared.notify ==> x.t.shared.notify[k] != WithWaker(w))
  }

  ghost predicate WaitsInv(x: Sys) {
    && (forall c <- x.waits.calls :: WaitInv(x, x.waits.calls[c]))
    && (forall t <- x.t.shared.subs :: x.t.shared.subs[t].Awaited? ==> Lists(x, t) > 0)
    && SlotsDiffer(x) && OnePlace(x) && DiscardedGone(x) && Tokens(x)
  }

  lemma StoredIsOld(x: Sys, t: Topic, i: int, w: Waker)
    requires Tokens(x) && StoredAt(x, t, i, w)
    ensures w < x.polls
  {
    assert w in WakersOf(x.t.shared.subs, t);
  }

  // ----- Wakers are numbered by their polls -----

  /** A step of a publish call puts no waker into its map but the one of this poll. */
  ghost predicate NotifyFresh(x: Sys, x': Sys) {
    forall k <- x'.t.shared.notify :: x'.t.shared.notify[k].WithWaker? ==>
      || (k in x.t.shared.notify && x'.t.shared.notify[k] == x.t.shared.notify[k])
      || (x'.t.shared.notify[k].waker == x.polls && x'.polls > x.polls)
  }

  lemma CallNotify(x: Sys, e: Event)
    requires Enabled(x, e) && IsCallStep(e)
    ensures NotifyFresh(x, Step(x, e))
  {
    match e
    case Begin(call, qos, retain, topic, payload, stage) =>
      assert Began(x, call, qos, retain, topic, payload, stage).t.shared.notify == x.t.shared.notify;
    case Poll(call) => PollNotify(x, call);
    case _ =>
  }

  lemma PollNotify(x: Sys, call: nat)
    requires call in x.calls && x.calls[call].stage.Some?
    ensures NotifyFresh(x, Polled(x, call))
  {
  }

  lemma CallTokens(x: Sys, e: Event)
    requires Tokens(x) && Enabled(x, e) && IsCallStep(e)
    ensures Tokens(Step(x, e))
  {
    CallSteps(x, e);
    CallNotify(x, e);
  }

  lemma SubTokens(x: Sys, e: Event)
    requires Tokens(x) && Enabled(x, e) && IsSubStep(e)
    ensures Tokens(Step(x, e))
  {
    var x' := Step(x, e);
    SubSteps(x, e);
    forall t, w | t in x'.t.shared.subs && w in WakersOf(x'.t.shared.subs, t) ensures w < x'.polls {
      SubStepWakers(x, e, t);
      assert w in WakersOf(x.t.shared.subs, t) ==> t in x.t.shared.subs;
    }
  }

  lemma CleanupTokens(x: Sys)
    requires Tokens(x) && x.phase.Failing?
    ensures Tokens(CleanedUp(x))
  {
  }

  lemma StepTokens(x: Sys, e: Event)
    requires Tokens(x) && Enabled(x, e)
    ensures Tokens(Step(x, e))
  {
    if IsTaskStep(e) {
      TaskSteps(x, e);
    } else if IsCallStep(e) {
      CallTokens(x, e);
    } else if IsSubStep(e) {
      SubTokens(x, e);
    } else if e.Cleanup? {
      CleanupTokens(x);
    }
  }

  // ----- Steps of the task -----

  /** A list of wakers stays as it is, or goes: then its wakers are woken or its topic is in `gone`.
  What else is woken comes from the notifier maps. */
  ghost predicate ListsStep(s: State, s': State, gone: set<Topic>) {
    && s.woken <= s'.woken
    && (forall t <- s'.shared.subs :: s'.shared.subs[t].Awaited? ==>
          t in s.shared.subs && s'.shared.subs[t] == s.shared.subs[t])
    && (forall t <- s.shared.subs :: s.shared.subs[t].Awaited? ==>
          || (t in s'.shared.subs && s'.shared.subs[t] == s.shared.subs[t])
          || WakersOf(s.shared.subs, t) <= s'.woken || t in gone)
    && (forall w <- s'.woken :: w in s.woken || w in NotifyWakers(s) || WokenFromList(s, s', w))
    && (forall k <- s'.shared.notify :: s'.shared.notify[k].WithWaker? ==>
          k in s.shared.notify && s'.shared.notify[k] == s.shared.notify[k])
  }

  ghost predicate WokenFromList(s: State, s': State, w: Waker) {
    exists t :: t in s.shared.subs && w in WakersOf(s.shared.subs, t)
        && !(t in s'.shared.subs && s'.shared.subs[t].Awaited?)
  }

  /** Only the history of packets and the log differ, or the notifier maps. */
  lemma SameLists(s: State, s': State)
    requires s'.shared.subs == s.shared.subs && s.woken <= s'.woken <= s.woken + NotifyWakers(s)
    requires forall k <- s'.shared.notify :: k in s.shared.notify && s'.shared.notify[k] == s.shared.notify[k]
    ensures ListsStep(s, s', {})
  {
  }

  lemma AcknowledgeLists(s: State, s1: State, key: Key, stage: Stage)
    requires s1.shared == s.shared && s1.woken == s.woken
    ensures ListsStep(s, Acknowledge(s1, key, stage), {})
  {
    AcknowledgeNotify(s1, key, stage);
    SameLists(s, Acknowledge(s1, key, stage));
  }

  lemma SubAckLists(s: State, id: u16, results: seq<SubscriptionResult>)
    ensures ListsStep(s, OnSubAck(s, id, results), {})
  {
    var s' := OnSubAck(s, id, results);
    if id in s.pendingSubs && results != [] {
      var topic := s.pendingSubs[id].topic;
      forall w | w in s'.woken ensures w in s.woken || WokenFromList(s, s', w) {
        if w in WakersOf(s.shared.subs, topic) {
          assert topic in s.shared.subs && !(topic in s'.shared.subs && s'.shared.subs[topic].Awaited?);
        }
      }
    }
  }

  lemma OnPacketLists(s: State, p: Packet, now: int, net: Network)
    requires p.SubAckPacket? ==> p.results.Valid()
    ensures ListsStep(s, OnPacket(s, p, now, net).0, {})
  {
    var s' := OnPacket(s, p, now, net).0;
    if s.signal.None? {
      SameLists(s, s');
    } else {
      match p
      case PubAckPacket(id) => AcknowledgeLists(s, s, Key(Publish, id), AckStage);
      case PubRecPacket(id) => AcknowledgeLists(s, Releasing(s, id, now), Key(Publish, id), RecStage);
      case PubCompPacket(id) => AcknowledgeLists(s, s, Key(PubRel, id), CompStage);
      case SubAckPacket(id, results) => SubAckLists(s, id, results.Results());
      case _ => SameLists(s, s');
    }
  }

  /** The topics whose lists a command makes disappear. */
  ghost function Gone(s: State, s': State): set<Topic> {
    set t <- s.shared.subs | s.shared.subs[t].Awaited? && t !in s'.shared.subs
  }

  lemma ObeyLists(s: State, s': State, c: Command, now: int)
    requires s' == OnCommand(s, c, now).(timeouts := s'.timeouts)
    ensures ListsStep(s, s', Gone(s, s'))
  {
    ObeyShared(s, c, now);
  }

  /** The state of the calls and of the phase, across a step of the task. */
  ghost predicate TaskWaits(x: Sys, x': Sys, gone: set<Topic>) {
    && ListsStep(x.t, x'.t, gone)
    && x'.waits == x.waits.(discarded := x'.waits.discarded) && x.waits.discarded <= x'.waits.discarded
    && (forall d <- x'.waits.discarded :: d in x.waits.discarded || (d.0 in gone && d.1 == Lists(x, d.0)))
    && (forall t <- gone ::
          (t, Lists(x, t)) in x'.waits.discarded && WakerList(x, t).Some? && WakerList(x', t).None?)
    && (gone != {} ==> x'.t.woken == x.t.woken)
    && x.phase.Running? && (x'.phase.Running? || x'.phase == Failing(0, {})) && x'.polls == x.polls
  }

  lemma StoppedWaits(x: Sys, x': Sys, gone: set<Topic>)
    requires TaskWaits(x, x', gone)
    ensures TaskWaits(x, Stopped(x'), gone)
  {
    assert ListsStep(x.t, Stopped(x').t, gone) by {
      assert Stopped(x').t.shared == x'.t.shared && Stopped(x').t.woken == x'.t.woken;
    }
  }

  lemma ReceiveWaits(x: Sys, p: Packet, now: int, net: Network)
    requires x.phase.Running? && (p.SubAckPacket? ==> p.results.Valid())
    ensures TaskWaits(x, Received(x, p, now, net), {})
  {
    OnPacketLists(x.t, p, now, net);
    StoppedWaits(x, x.(t := OnPacket(x.t, p, now, net).0, clock := now), {});
  }

  lemma ObeyWaits(x: Sys, t': State, now: int)
    requires x.phase.Running? && x.cmds != [] && t' == OnCommand(x.t, x.cmds[0], now).(timeouts := t'.timeouts)
    ensures TaskWaits(x, Obeyed(x, t', now), Gone(x.t, t'))
  {
    ObeyLists(x.t, t', x.cmds[0], now);
    forall t | t in Gone(x.t, t') ensures (t, Lists(x, t)) in Discards(x, t') {
    }
  }

  lemma PlainWaits(x: Sys, t': State, clock: int, broken: bool)
    requires x.phase.Running? && t'.shared == x.t.shared && t'.woken == x.t.woken
    ensures TaskWaits(x, x.(t := t', clock := clock, broken := broken), {})
  {
    SameLists(x.t, t');
  }

  lemma CutWaits(x: Sys, e: Event)
    requires Enabled(x, e) && (e.CutReceive? || e.CutTick?)
    ensures TaskWaits(x, Step(x, e), {})
  {
    if e.CutReceive? {
      PlainWaits(x, OnPacketCut(x.t, e.packet, e.now), e.now, true);
      StoppedWaits(x, x.(t := OnPacketCut(x.t, e.packet, e.now), clock := e.now, broken := true), {});
    } else {
      var t' := OnAlarmCut(x.t, e.ping, e.delay, e.readings, e.turns);
      OnAlarmCutKeeps(x.t, e.ping, e.delay, e.readings, e.turns);
      PlainWaits(x, t', e.end, true);
      StoppedWaits(x, x.(t := t', clock := e.end, broken := true), {});
    }
  }

  lemma TaskStepWaits(x: Sys, e: Event) returns (gone: set<Topic>)
    requires Enabled(x, e) && IsTaskStep(e)
    ensures TaskWaits(x, Step(x, e), gone)
  {
    gone := {};
    match e
    case Receive(p, now, net) => ReceiveWaits(x, p, now, net);
    case Obey(now) =>
      var t' := OnCommand(x.t, x.cmds[0], now);
      gone := Gone(x.t, t');
      ObeyWaits(x, t', now);
    case CutObey(now) =>
      var t' := OnCommandCut(x.t, x.cmds[0], now);
      gone := Gone(x.t, t');
      ObeyWaits(x, t', now);
      StoppedWaits(x, Obeyed(x, t', now).(broken := true), gone);
    case Tick(ping, delay, readings, end) =>
      OnAlarmKeeps(x.t, ping, delay, readings);
      PlainWaits(x, OnAlarm(x.t, ping, delay, readings), end, x.broken);
    case _ => CutWaits(x, e);
  }

  lemma TaskSomewhere(x: Sys, x': Sys, gone: set<Topic>, w: Waker)
    requires TaskWaits(x, x', gone) && Somewhere(x', w)
    ensures Somewhere(x, w)
  {
    if IsTaken(x', w) {
      if w in NotifyWakers(x.t) {
        var k :| k in x.t.shared.notify && x.t.shared.notify[k] == WithWaker(w);
      } else if w !in x.t.woken {
        var t :| t in x.t.shared.subs && w in WakersOf(x.t.shared.subs, t);
        var j :| 0 <= j < |x.t.shared.subs[t].wakers| && x.t.shared.subs[t].wakers[j] == Some(w);
        assert StoredAt(x, t, j, w);
      }
    } else if t, i :| StoredAt(x', t, i, w) {
      assert StoredAt(x, t, i, w);
    }
  }

  /** The wakers of a list that is thrown away are lost. */
  lemma DiscardLoses(x: Sys, x': Sys, gone: set<Topic>, t: Topic, i: int, w: Waker)
    requires TaskWaits(x, x', gone) && OnePlace(x) && t in gone && StoredAt(x, t, i, w)
    ensures !Somewhere(x', w)
  {
    forall u, j ensures !StoredAt(x', u, j, w) {
      if StoredAt(x', u, j, w) {
        assert StoredAt(x, u, j, w);
      }
    }
  }

  lemma TaskWaitInv(x: Sys, x': Sys, gone: set<Topic>, c: SubCall)
    requires TaskWaits(x, x', gone) && WaitInv(x, c) && OnePlace(x)
    ensures WaitInv(x', c)
  {
    if WaitsInOwnSlot(c) {
      TaskAccounted(x, x', gone, c);
    }
  }

  lemma TaskAccounted(x: Sys, x': Sys, gone: set<Topic>, c: SubCall)
    requires TaskWaits(x, x', gone) && WaitInv(x, c) && OnePlace(x) && WaitsInOwnSlot(c)
    ensures Accounted(x', c)
  {
    var w := c.waker.value;
    if Robbed(x, c) || ThrownAway(x, c) {
      if Somewhere(x', w) {
        TaskSomewhere(x, x', gone, w);
      }
    } else if ThrownAway(x', c) {
      DiscardLoses(x, x', gone, c.topic, c.slot.value, w);
    } else if Current(x, c) && !Current(x', c) {
      assert c.topic !in gone;
      assert w in WakersOf(x.t.shared.subs, c.topic);
    }
  }

  lemma TaskOnePlace(x: Sys, x': Sys, gone: set<Topic>)
    requires TaskWaits(x, x', gone) && OnePlace(x)
    ensures OnePlace(x')
  {
    forall t, i, w | StoredAt(x', t, i, w) ensures StoredAt(x, t, i, w) && !IsTaken(x', w) {
      assert StoredAt(x, t, i, w);
      if w in x'.t.woken && w !in x.t.woken && w !in NotifyWakers(x.t) {
        var u :| u in x.t.shared.subs && w in WakersOf(x.t.shared.subs, u)
                 && !(u in x'.t.shared.subs && x'.t.shared.subs[u].Awaited?);
        var j :| 0 <= j < |x.t.shared.subs[u].wakers| && x.t.shared.subs[u].wakers[j] == Some(w);
        assert StoredAt(x, u, j, w);
      }
    }
  }

  lemma TaskDiscarded(x: Sys, x': Sys, gone: set<Topic>)
    requires TaskWaits(x, x', gone) && DiscardedGone(x)
    ensures DiscardedGone(x')
  {
    forall d | d in x'.waits.discarded && d.1 == Lists(x', d.0) ensures WakerList(x', d.0).None? {
      if d in x.waits.discarded {
        assert WakerList(x, d.0).None?;
      }
    }
  }

  lemma TaskWaitsInv(x: Sys, e: Event)
    requires WaitsInv(x) && Enabled(x, e) && IsTaskStep(e)
    ensures WaitsInv(Step(x, e))
  {
    var x' := Step(x, e);
    var gone := TaskStepWaits(x, e);
    forall c | c in x'.waits.calls ensures WaitInv(x', x'.waits.calls[c]) {
      TaskWaitInv(x, x', gone, x.waits.calls[c]);
    }
    TaskDiscarded(x, x', gone);
    TaskOnePlace(x, x', gone);
    StepTokens(x, e);
  }

  // ----- Steps of publish calls, and the end of the task -----

  lemma CallSomewhere(x: Sys, e: Event, w: Waker)
    requires Enabled(x, e) && IsCallStep(e) && w < x.polls && Somewhere(Step(x, e), w)
    ensures Somewhere(x, w)
  {
    var x' := Step(x, e);
    CallSteps(x, e);
    CallNotify(x, e);
    if t, i :| StoredAt(x', t, i, w) {
      assert StoredAt(x, t, i, w);
    }
  }

  /** A step that leaves the lists, the phase and what was woken alone, and puts no waker into the
  notifier maps but the one of this poll. */
  lemma CallWait(x: Sys, e: Event, c: SubCall)
    requires Enabled(x, e) && IsCallStep(e) && WaitInv(x, c)
    ensures WaitInv(Step(x, e), c)
  {
    CallSteps(x, e);
    if WaitsInOwnSlot(c) && Somewhere(Step(x, e), c.waker.value) {
      CallSomewhere(x, e, c.waker.value);
    }
  }

  lemma CallWaitsInv(x: Sys, e: Event)
    requires WaitsInv(x) && Enabled(x, e) && IsCallStep(e)
    ensures WaitsInv(Step(x, e))
  {
    var x' := Step(x, e);
    CallSteps(x, e);
    CallNotify(x, e);
    CallTokens(x, e);
    forall t, i, w | StoredAt(x', t, i, w) ensures StoredAt(x, t, i, w) && w < x.polls {
      assert StoredAt(x, t, i, w);
      StoredIsOld(x, t, i, w);
    }
    forall c | c in x'.waits.calls ensures WaitInv(x', x'.waits.calls[c]) {
      CallWait(x, e, x.waits.calls[c]);
    }
  }

  lemma ExitWaitsInv(x: Sys, closed: bool)
    requires WaitsInv(x) && Enabled(x, Exit(closed))
    ensures WaitsInv(Step(x, Exit(closed)))
  {
    var x' := Step(x, Exit(closed));
    forall t, i, w | StoredAt(x', t, i, w) ensures StoredAt(x, t, i, w) {
    }
    forall c | c in x'.waits.calls ensures WaitInv(x', x'.waits.calls[c]) {
      ExitWait(x, closed, x.waits.calls[c]);
    }
  }

  lemma ExitSomewhere(x: Sys, closed: bool, w: Waker)
    requires Enabled(x, Exit(closed)) && Somewhere(Step(x, Exit(closed)), w)
    ensures Somewhere(x, w)
  {
    var x' := Step(x, Exit(closed));
    if t, i :| StoredAt(x', t, i, w) {
      assert StoredAt(x, t, i, w);
    }
  }

  lemma ExitWait(x: Sys, closed: bool, c: SubCall)
    requires Enabled(x, Exit(closed)) && WaitInv(x, c)
    ensures WaitInv(Step(x, Exit(closed)), c)
  {
    if WaitsInOwnSlot(c) && Somewhere(Step(x, Exit(closed)), c.waker.value) {
      ExitSomewhere(x, closed, c.waker.value);
    }
  }

  lemma CleanupSomewhere(x: Sys, w: Waker)
    requires x.phase.Failing? && Somewhere(CleanedUp(x), w)
    ensures Somewhere(x, w)
  {
    var x' := CleanedUp(x);
    if t, i :| StoredAt(x', t, i, w) {
      assert StoredAt(x, t, i, w);
    } else if IsTaken(x', w) && !IsTaken(x, w) {
      if x.phase.step == 3 {
        var t :| t in x.t.shared.subs && w in WakersOf(x.t.shared.subs, t);
        var j :| 0 <= j < |x.t.shared.subs[t].wakers| && x.t.shared.subs[t].wakers[j] == Some(w);
        assert StoredAt(x, t, j, w);
      } else {
        var k :| k in x.t.shared.notify && x.t.shared.notify[k] == WithWaker(w);
      }
    }
  }

  lemma CleanupWaitInv(x: Sys, c: SubCall)
    requires WaitInv(x, c) && x.phase.Failing?
    ensures WaitInv(CleanedUp(x), c)
  {
    if WaitsInOwnSlot(c) {
      if Robbed(x, c) || ThrownAway(x, c) {
        if Somewhere(CleanedUp(x), c.waker.value) {
          CleanupSomewhere(x, c.waker.value);
        }
      } else if x.phase.step == 3 && Current(x, c) {
        assert c.waker.value in WakersOf(x.t.shared.subs, c.topic);
      }
    }
  }

  lemma CleanupOnePlace(x: Sys)
    requires OnePlace(x) && x.phase.Failing?
    ensures OnePlace(CleanedUp(x))
  {
    var x' := CleanedUp(x);
    forall t, i, w | StoredAt(x', t, i, w) ensures StoredAt(x, t, i, w) && !IsTaken(x', w) {
      assert StoredAt(x, t, i, w);
    }
  }

  lemma CleanupWaitsInv(x: Sys)
    requires WaitsInv(x) && x.phase.Failing?
    ensures WaitsInv(CleanedUp(x))
  {
    var x' := CleanedUp(x);
    forall c | c in x'.waits.calls ensures WaitInv(x', x'.waits.calls[c]) {
      CleanupWaitInv(x, x.waits.calls[c]);
    }
    CleanupOnePlace(x);
    CleanupTokens(x);
  }

  // ----- Steps of subscribe calls -----

  lemma BeginSomewhere(x: Sys, call: nat, topic: Topic, w: Waker)
    requires Somewhere(SubscribeBegun(x, call, topic), w)
    ensures Somewhere(x, w)
  {
    var x' := SubscribeBegun(x, call, topic);
    if t, i :| StoredAt(x', t, i, w) {
      assert StoredAt(x, t, i, w);
    }
  }

  lemma BeginWaitInv(x: Sys, call: nat, topic: Topic, c: SubCall)
    requires WaitInv(x, c)
    ensures WaitInv(SubscribeBegun(x, call, topic), c)
  {
    if WaitsInOwnSlot(c) && Somewhere(SubscribeBegun(x, call, topic), c.waker.value) {
      BeginSomewhere(x, call, topic, c.waker.value);
    }
  }

  lemma BeginOnePlace(x: Sys, call: nat, topic: Topic)
    requires OnePlace(x)
    ensures OnePlace(SubscribeBegun(x, call, topic))
  {
    var x' := SubscribeBegun(x, call, topic);
    forall t, i, w | StoredAt(x', t, i, w) ensures StoredAt(x, t, i, w) {
    }
  }

  lemma BeginWaitsInv(x: Sys, call: nat, topic: Topic)
    requires WaitsInv(x) && call !in x.waits.calls
    ensures WaitsInv(SubscribeBegun(x, call, topic))
  {
    BeginCalls(x, call, topic);
    BeginOnePlace(x, call, topic);
    BeginTokens(x, call, topic);
  }

  lemma BeginCalls(x: Sys, call: nat, topic: Topic)
    requires (forall c <- x.waits.calls :: WaitInv(x, x.waits.calls[c])) && call !in x.waits.calls
    ensures var x' := SubscribeBegun(x, call, topic);
            forall c <- x'.waits.calls :: WaitInv(x', x'.waits.calls[c])
  {
    var x' := SubscribeBegun(x, call, topic);
    forall c | c in x'.waits.calls ensures WaitInv(x', x'.waits.calls[c]) {
      if c != call {
        BeginWaitInv(x, call, topic, x.waits.calls[c]);
      }
    }
  }

  lemma BeginTokens(x: Sys, call: nat, topic: Topic)
    requires Tokens(x)
    ensures Tokens(SubscribeBegun(x, call, topic))
  {
    var (subs, x') := (x.t.shared.subs, SubscribeBegun(x, call, topic));
    WithSubsStep(x, x'.waits, x'.t.shared.subs, x'.polls);
    assert forall t <- x'.t.shared.subs :: t in subs && t != topic ==>
             WakersOf(x'.t.shared.subs, t) == WakersOf(subs, t);
  }

  /** A step at slot `i` of the current list of a topic, by a future with that slot. */
  ghost predicate SlotStep(x: Sys, x': Sys, t: Topic, i: nat) {
    && WakerList(x, t).Some? && WakerList(x', t).Some?
    && i <= |WakerList(x, t).value|
    && |WakerList(x', t).value| == |WakerList(x, t).value| + (if i == |WakerList(x, t).value| then 1 else 0)
    && (forall j :: 0 <= j < |WakerList(x, t).value| && j != i ==>
         WakerList(x', t).value[j] == WakerList(x, t).value[j])
    && (forall u :: u != t ==> WakerList(x', u) == WakerList(x, u))
    && (i < |WakerList(x', t).value| && WakerList(x', t).value[i].Some? ==> WakerList(x', t).value[i] == Some(x.polls))
    && x'.waits.lists == x.waits.lists && x'.waits.discarded == x.waits.discarded
    && (forall key :: key != (t, Lists(x, t), i) ==> (key in x'.waits.stolen <==> key in x.waits.stolen))
    && SameTask(x, x') && x'.t.shared.notify == x.t.shared.notify
  }

  lemma SlotSomewhere(x: Sys, x': Sys, t: Topic, i: nat, w: Waker)
    requires SlotStep(x, x', t, i) && w < x.polls && Somewhere(x', w)
    ensures Somewhere(x, w)
  {
    if u, j :| StoredAt(x', u, j, w) {
      assert StoredAt(x, u, j, w);
    }
  }

  /** The waker that was in the slot is lost. */
  lemma SlotLoses(x: Sys, x': Sys, t: Topic, i: nat, w: Waker)
    requires SlotStep(x, x', t, i) && w < x.polls && OnePlace(x) && StoredAt(x, t, i, w)
    ensures !Somewhere(x', w)
  {
    forall u, j ensures !StoredAt(x', u, j, w) {
      if StoredAt(x', u, j, w) {
        assert StoredAt(x, u, j, w);
      }
    }
  }

  /** Every other future keeps its waker, unless the slot was its own. */
  lemma OthersWait(x: Sys, x': Sys, t: Topic, i: nat, d: SubCall)
    requires SlotStep(x, x', t, i) && WaitInv(x, d) && OnePlace(x) && DiscardedGone(x)
    requires d.topic == t && d.slot == Some(i) && d.period == Lists(x, t) ==> (t, Lists(x, t), i) in x'.waits.stolen
    ensures WaitInv(x', d)
  {
    if WaitsInOwnSlot(d) {
      if Robbed(x, d) || ThrownAway(x, d) {
        if Somewhere(x', d.waker.value) {
          SlotSomewhere(x, x', t, i, d.waker.value);
        }
      } else if d.topic == t && d.slot == Some(i) && d.period == Lists(x, t) {
        SlotLoses(x, x', t, i, d.waker.value);
      }
    }
  }

  lemma SlotOnePlace(x: Sys, x': Sys, t: Topic, i: nat)
    requires SlotStep(x, x', t, i) && OnePlace(x) && Tokens(x)
    ensures OnePlace(x')
  {
    forall u, j, w | StoredAt(x', u, j, w)
      ensures (w == x.polls && u == t && j == i) || (w < x.polls && StoredAt(x, u, j, w))
    {
      if !(u == t && j == i) {
        assert StoredAt(x, u, j, w);
        StoredIsOld(x, u, j, w);
      }
    }
  }

  lemma SubsAwaited(x: Sys, x': Sys, t: Topic, i: nat)
    requires SlotStep(x, x', t, i) && forall t <- x.t.shared.subs :: x.t.shared.subs[t].Awaited? ==> Lists(x, t) > 0
    ensures forall t <- x'.t.shared.subs :: x'.t.shared.subs[t].Awaited? ==> Lists(x', t) > 0
  {
    forall u | u in x'.t.shared.subs && x'.t.shared.subs[u].Awaited? ensures Lists(x', u) > 0 {
      assert WakerList(x', u).Some?;
      assert WakerList(x, u).Some?;
    }
  }

  /** The poll goes on waiting. */
  ghost predicate StaysPending(x: Sys, c: SubCall) {
    c.result.None? && WakerList(x, c.topic).Some? && !OutOfBounds(x, c)
  }

  ghost function SlotOf(x: Sys, c: SubCall): nat
    requires WakerList(x, c.topic).Some?
  {
    if c.slot.Some? then c.slot.value else |WakerList(x, c.topic).value|
  }

  lemma PendingSlotStep(x: Sys, call: nat)
    requires call in x.waits.calls && StaysPending(x, x.waits.calls[call])
    ensures var (x', c) := (SubscribePolled(x, call), x.waits.calls[call]);
            && SlotStep(x, x', c.topic, SlotOf(x, c)) && x'.polls == x.polls + 1
            && SlotOf(x, c) < |WakerList(x', c.topic).value|
            && WakerList(x', c.topic).value[SlotOf(x, c)] == Some(x.polls)
            && x'.waits.calls == x.waits.calls[call := PendingCall(x, c, |WakerList(x, c.topic).value|)]
            && (Stale(x, c) <==> (c.topic, Lists(x, c.topic), SlotOf(x, c)) in x'.waits.stolen)
  {
    PollSubscribeStep(x, call);
  }

  /** The caller's own state after a pending poll. */
  lemma PendingOwn(x: Sys, call: nat)
    requires WaitsInv(x) && call in x.waits.calls && StaysPending(x, x.waits.calls[call])
    ensures var x' := SubscribePolled(x, call); WaitInv(x', x'.waits.calls[call])
  {
    PendingSlotStep(x, call);
    assert WaitInv(x, x.waits.calls[call]);
  }

  /** A slot that is given out is nobody's; a slot that is used again is another's only if stale. */
  lemma PendingApart(x: Sys, call: nat, other: nat)
    requires WaitsInv(x) && call in x.waits.calls && StaysPending(x, x.waits.calls[call])
    requires other in x.waits.calls && other != call
    ensures var (x', c, d) := (SubscribePolled(x, call), x.waits.calls[call], x.waits.calls[other]);
            && Apart(x'.waits.calls[call], d) && Apart(d, x'.waits.calls[call])
            && (d.topic == c.topic && d.slot == Some(SlotOf(x, c)) && d.period == Lists(x, c.topic) ==> Stale(x, c))
  {
    PendingSlotStep(x, call);
    var (c, d) := (x.waits.calls[call], x.waits.calls[other]);
    assert WaitInv(x, d) && WaitInv(x, c) && Apart(c, d) && Apart(d, c);
    if d.topic == c.topic && d.slot.Some? && d.period == Lists(x, c.topic) {
      assert Current(x, d);
    }
  }

  lemma PendingWaitsInv(x: Sys, call: nat)
    requires WaitsInv(x) && call in x.waits.calls && StaysPending(x, x.waits.calls[call])
    ensures WaitsInv(SubscribePolled(x, call))
  {
    var (x', c) := (SubscribePolled(x, call), x.waits.calls[call]);
    PendingSlotStep(x, call);
    forall d | d in x'.waits.calls
      ensures WaitInv(x', x'.waits.calls[d])
      ensures d != call ==>
                Apart(x'.waits.calls[call], x'.waits.calls[d]) && Apart(x'.waits.calls[d], x'.waits.calls[call])
    {
      if d == call {
        PendingOwn(x, call);
      } else {
        PendingApart(x, call, d);
        OthersWait(x, x', c.topic, SlotOf(x, c), x.waits.calls[d]);
      }
    }
    SlotOnePlace(x, x', c.topic, SlotOf(x, c));
    SubsAwaited(x, x', c.topic, SlotOf(x, c));
    SubTokens(x, PollSubscribe(call));
  }

  /** A poll that resolves changes the caller's state only. */
  lemma ResolvedWaitsInv(x: Sys, call: nat, c': SubCall)
    requires WaitsInv(x) && call in x.waits.calls
    requires c' == x.waits.calls[call].(result := c'.result) && c'.result.Some?
    ensures WaitsInv(x.(waits := WithCall(x.waits, call, c')))
  {
    var x' := x.(waits := WithCall(x.waits, call, c'));
    forall t, i, w | StoredAt(x', t, i, w) ensures StoredAt(x, t, i, w) {
    }
    forall d | d in x'.waits.calls ensures WaitInv(x', x'.waits.calls[d]) {
      assert WaitInv(x, x.waits.calls[d]);
    }
    forall a, b | a in x'.waits.calls && b in x'.waits.calls && a != b
      ensures Apart(x'.waits.calls[a], x'.waits.calls[b])
    {
      assert Apart(x.waits.calls[a], x.waits.calls[b]);
    }
  }

  lemma PollWaitsInv(x: Sys, call: nat)
    requires WaitsInv(x) && call in x.waits.calls && !OutOfBounds(x, x.waits.calls[call])
    ensures WaitsInv(SubscribePolled(x, call))
  {
    var c := x.waits.calls[call];
    if StaysPending(x, c) {
      PendingWaitsInv(x, call);
    } else if c.result.None? {
      var x' := SubscribePolled(x, call);
      ResolvedWaitsInv(x, call, x'.waits.calls[call]);
    }
  }

  lemma DropSlotStep(x: Sys, call: nat)
    requires call in x.waits.calls && StaysPending(x, x.waits.calls[call]) && x.waits.calls[call].slot.Some?
    ensures var (x', c) := (SubscribeDropped(x, call), x.waits.calls[call]);
            && SlotStep(x, x', c.topic, c.slot.value) && x'.polls == x.polls
            && WakerList(x', c.topic).value[c.slot.value].None?
            && x'.waits.calls == x.waits.calls - {call}
            && (Stale(x, c) ==> (c.topic, Lists(x, c.topic), c.slot.value) in x'.waits.stolen)
  {
    DropSubscribeStep(x, call);
  }

  lemma DropPendingInv(x: Sys, call: nat)
    requires WaitsInv(x) && call in x.waits.calls && StaysPending(x, x.waits.calls[call])
               && x.waits.calls[call].slot.Some?
    ensures WaitsInv(SubscribeDropped(x, call))
  {
    var (x', c) := (SubscribeDropped(x, call), x.waits.calls[call]);
    DropSlotStep(x, call);
    forall d | d in x'.waits.calls ensures WaitInv(x', x'.waits.calls[d]) {
      var e := x.waits.calls[d];
      assert Apart(c, e) && WaitInv(x, e);
      OthersWait(x, x', c.topic, c.slot.value, e);
    }
    SlotOnePlace(x, x', c.topic, c.slot.value);
    SubsAwaited(x, x', c.topic, c.slot.value);
    SubTokens(x, DropSubscribe(call));
  }

  lemma DropWaitsInv(x: Sys, call: nat)
    requires WaitsInv(x) && call in x.waits.calls && !OutOfBounds(x, x.waits.calls[call])
    ensures WaitsInv(SubscribeDropped(x, call))
  {
    var (x', c) := (SubscribeDropped(x, call), x.waits.calls[call]);
    if StaysPending(x, c) && c.slot.Some? {
      DropPendingInv(x, call);
    } else {
      forall t, i, w | StoredAt(x', t, i, w) ensures StoredAt(x, t, i, w) {
      }
      forall d | d in x'.waits.calls ensures WaitInv(x', x'.waits.calls[d]) {
        assert WaitInv(x, x.waits.calls[d]);
      }
    }
  }

  lemma StepWaits(x: Sys, e: Event)
    requires WaitsInv(x) && Enabled(x, e)
    ensures WaitsInv(Step(x, e))
  {
    match e
    case Exit(closed) => ExitWaitsInv(x, closed);
    case Cleanup => CleanupWaitsInv(x);
    case BeginSubscribe(call, topic) => BeginWaitsInv(x, call, topic);
    case PollSubscribe(call) => PollWaitsInv(x, call);
    case DropSubscribe(call) => DropWaitsInv(x, call);
    case _ =>
      if IsTaskStep(e) {
        TaskWaitsInv(x, e);
      } else {
        CallWaitsInv(x, e);
      }
  }

  /** In every state of every run: a future that waits in its own slot finds its last waker there as
  long as the list exists, and taken for waking when it is gone, unless the slot was stolen or
  the list thrown away. */
  lemma {:induction false} EveryRunWaits(connect: ConnectInfo, es: seq<Event>)
    requires Run(Systems.Init(connect), es)
    ensures WaitsInv(After(Systems.Init(connect), es))
    decreases |es|
  {
    if es != [] {
      var front := es[..|es| - 1];
      EveryRunWaits(connect, front);
      StepWaits(After(Systems.Init(connect), front), es[|es| - 1]);
    }
  }

  // ----- The end of the task -----

  /** When the task is over, the last waker of a future that waits in its own slot has been woken
  exactly if its list is gone, was not thrown away, and the slot was not stolen. After a regular end
  the list is still there exactly if it was made after the map had been drained; after a closed
  connection, if nothing settled it. */
  lemma SubscribersAtEnd(connect: ConnectInfo, es: seq<Event>, call: nat)
    requires Run(Systems.Init(connect), es) && After(Systems.Init(connect), es).phase.Ended?
    requires var x := After(Systems.Init(connect), es);
             call in x.waits.calls && WaitsInOwnSlot(x.waits.calls[call])
    ensures var x := After(Systems.Init(connect), es);
            var c := x.waits.calls[call];
            && (c.waker.value in x.t.woken <==> !Current(x, c) && !ThrownAway(x, c) && !Robbed(x, c))
            && (!x.phase.closed ==> (Current(x, c) <==> c.late))
            && (Current(x, c) && !Robbed(x, c) ==> StoredAt(x, c.topic, c.slot.value, c.waker.value))
  {
    var x := After(Systems.Init(connect), es);
    EveryRunWaits(connect, es);
    assert WaitInv(x, x.waits.calls[call]);
  }

  /** Such a future is not woken any more: whatever happens, short of dropping it, it goes on
  waiting, and nothing is ever woken again. */
  ghost predicate WaitsInVain(x: Sys, call: nat) {
    && x.phase.Ended? && call in x.waits.calls && x.waits.calls[call].result.None?
    && Current(x, x.waits.calls[call])
  }

  lemma VainSlotStep(x: Sys, x': Sys, t: Topic, i: nat, call: nat)
    requires SlotStep(x, x', t, i) && WaitsInVain(x, call) && call in x'.waits.calls
    requires var (c, d) := (x.waits.calls[call], x'.waits.calls[call]);
             d.topic == c.topic && d.slot == c.slot && d.period == c.period && d.result == c.result
    ensures WaitsInVain(x', call)
  {
  }

  lemma VainSubStep(x: Sys, e: Event, call: nat)
    requires WaitsInVain(x, call) && Enabled(x, e) && IsSubStep(e) && e != DropSubscribe(call)
    ensures WaitsInVain(Step(x, e), call)
  {
    match e
    case BeginSubscribe(_, _) =>
    case PollSubscribe(other) => VainPoll(x, other, call);
    case DropSubscribe(other) => VainDrop(x, other, call);
  }

  lemma VainPoll(x: Sys, other: nat, call: nat)
    requires WaitsInVain(x, call) && other in x.waits.calls && !OutOfBounds(x, x.waits.calls[other])
    ensures WaitsInVain(SubscribePolled(x, other), call)
  {
    var c := x.waits.calls[other];
    if StaysPending(x, c) {
      PendingSlotStep(x, other);
      VainSlotStep(x, SubscribePolled(x, other), c.topic, SlotOf(x, c), call);
    }
  }

  lemma VainDrop(x: Sys, other: nat, call: nat)
    requires WaitsInVain(x, call) && other in x.waits.calls && !OutOfBounds(x, x.waits.calls[other]) && other != call
    ensures WaitsInVain(SubscribeDropped(x, other), call)
  {
    var c := x.waits.calls[other];
    if StaysPending(x, c) && c.slot.Some? {
      DropSlotStep(x, other);
      VainSlotStep(x, SubscribeDropped(x, other), c.topic, c.slot.value, call);
    }
  }

  lemma VainStays(x: Sys, e: Event, call: nat)
    requires WaitsInVain(x, call) && Enabled(x, e) && e != DropSubscribe(call)
    ensures WaitsInVain(Step(x, e), call) && Step(x, e).t.woken == x.t.woken
  {
    if IsCallStep(e) {
      CallSteps(x, e);
    } else {
      SubSteps(x, e);
      VainSubStep(x, e, call);
    }
  }

  // ----- Slots of older lists -----

  /** The index a future remembers is outside the list only if it belongs to an older one. */
  lemma PanicsOnlyIfStale(connect: ConnectInfo, es: seq<Event>, call: nat)
    requires Run(Systems.Init(connect), es) && call in After(Systems.Init(connect), es).waits.calls
    ensures var x := After(Systems.Init(connect), es);
            var c := x.waits.calls[call];
            OutOfBounds(x, c) ==> Stale(x, c)
  {
    var x := After(Systems.Init(connect), es);
    EveryRunWaits(connect, es);
    assert WaitInv(x, x.waits.calls[call]);
  }

  /** And when it belongs to an older list but is within the new one, polling or dropping takes the
  waker of the future whose slot it is: that waker is lost. */
  lemma TheftLosesWaker(connect: ConnectInfo, es: seq<Event>, thief: nat, w: Waker)
    requires Run(Systems.Init(connect), es)
    requires var x := After(Systems.Init(connect), es);
             && thief in x.waits.calls && StaysPending(x, x.waits.calls[thief]) && Stale(x, x.waits.calls[thief])
             && StoredAt(x, x.waits.calls[thief].topic, x.waits.calls[thief].slot.value, w)
    ensures var x := After(Systems.Init(connect), es);
            !Somewhere(SubscribePolled(x, thief), w) && !Somewhere(SubscribeDropped(x, thief), w) && w < x.polls
  {
    var x := After(Systems.Init(connect), es);
    var c := x.waits.calls[thief];
    EveryRunWaits(connect, es);
    StoredIsOld(x, c.topic, c.slot.value, w);
    PendingSlotStep(x, thief);
    SlotLoses(x, SubscribePolled(x, thief), c.topic, c.slot.value, w);
    DropSlotStep(x, thief);
    SlotLoses(x, SubscribeDropped(x, thief), c.topic, c.slot.value, w);
  }

  // ----- Lists that are thrown away -----

  /** The command is an immediate unsubscription of a topic the tree has as subscribed, and futures
  await that topic. */
  ghost predicate ThrowsAway(x: Sys, c: Command, t: Topic) {
    c == UnsubCommand(t, Immediate) && Leaf(x.t.tree, Levels(t)).subscribed && WakerList(x, t).Some?
  }

  /** A command discards the current list of a topic exactly then. */
  lemma DiscardsExactly(x: Sys, t': State, now: int, t: Topic, n: nat)
    requires x.cmds != [] && t' == OnCommand(x.t, x.cmds[0], now).(timeouts := t'.timeouts)
    ensures (t, n) in Discards(x, t') <==> ThrowsAway(x, x.cmds[0], t) && n == Lists(x, t)
  {
    var c := x.cmds[0];
    if c.UnsubCommand? {
      HashHidesLeaf(x.t.tree, Levels(c.topic));
    }
    assert t'.shared.subs == if c.UnsubCommand? && c.how.Immediate? && Leaf(x.t.tree, Levels(c.topic)).subscribed
                             then x.t.shared.subs - {c.topic} else x.t.shared.subs;
  }

  /** Then every waker in the list is lost. */
  lemma DiscardLosesWakers(connect: ConnectInfo, es: seq<Event>, now: int, t: Topic, i: int, w: Waker)
    requires Run(Systems.Init(connect), es) && Enabled(After(Systems.Init(connect), es), Obey(now))
    requires var x := After(Systems.Init(connect), es); ThrowsAway(x, x.cmds[0], t) && StoredAt(x, t, i, w)
    ensures var x := After(Systems.Init(connect), es); !Somewhere(Step(x, Obey(now)), w) && w < x.polls
  {
    var x := After(Systems.Init(connect), es);
    var t' := OnCommand(x.t, x.cmds[0], now);
    EveryRunWaits(connect, es);
    StoredIsOld(x, t, i, w);
    DiscardsExactly(x, t', now, t, Lists(x, t));
    ObeyWaits(x, t', now);
    DiscardLoses(x, Obeyed(x, t', now), Gone(x.t, t'), t, i, w);
  }

  // ----- A lost waker stays lost -----

  lemma SubSomewhere(x: Sys, e: Event, w: Waker)
    requires Enabled(x, e) && IsSubStep(e) && w < x.polls && Somewhere(Step(x, e), w)
    ensures Somewhere(x, w)
  {
    if e.BeginSubscribe? {
      BeginSomewhere(x, e.call, e.topic, w);
    } else {
      var c := x.waits.calls[e.call];
      if StaysPending(x, c) && e.PollSubscribe? {
        PendingSlotStep(x, e.call);
        SlotSomewhere(x, SubscribePolled(x, e.call), c.topic, SlotOf(x, c), w);
      } else if StaysPending(x, c) && c.slot.Some? {
        DropSlotStep(x, e.call);
        SlotSomewhere(x, SubscribeDropped(x, e.call), c.topic, c.slot.value, w);
      } else {
        SameSomewhere(x, Step(x, e), w);
      }
    }
  }

  lemma SameSomewhere(x: Sys, x': Sys, w: Waker)
    requires x'.t == x.t && x'.phase == x.phase && Somewhere(x', w)
    ensures Somewhere(x, w)
  {
    if t, i :| StoredAt(x', t, i, w) {
      assert StoredAt(x, t, i, w);
    }
  }

  /** No event brings a waker back. */
  lemma SomewhereStep(x: Sys, e: Event, w: Waker)
    requires Enabled(x, e) && w < x.polls && Somewhere(Step(x, e), w)
    ensures Somewhere(x, w)
  {
    if IsTaskStep(e) {
      var gone := TaskStepWaits(x, e);
      TaskSomewhere(x, Step(x, e), gone, w);
    } else if IsCallStep(e) {
      CallSomewhere(x, e, w);
    } else if IsSubStep(e) {
      SubSomewhere(x, e, w);
    } else if e.Cleanup? {
      CleanupSomewhere(x, w);
    } else {
      ExitSomewhere(x, e.closed, w);
    }
  }

  lemma PollsGrow(x: Sys, e: Event)
    requires Enabled(x, e)
    ensures x.polls <= Step(x, e).polls
  {
    if IsCallStep(e) {
      CallSteps(x, e);
    } else if IsSubStep(e) {
      SubSteps(x, e);
    }
  }

  /** Along every run a lost waker stays lost; it is never woken. */
  lemma {:induction false} LostForever(start: Sys, es: seq<Event>, i: nat, w: Waker)
    requires Run(start, es) && i <= |es| && Run(start, es[..i])
    requires w < After(start, es[..i]).polls && !Somewhere(After(start, es[..i]), w)
    ensures w < After(start, es).polls && !Somewhere(After(start, es), w)
    decreases |es|
  {
    if i == |es| {
      assert es[..i] == es;
    } else {
      var front := es[..|es| - 1];
      assert front[..i] == es[..i];
      LostForever(start, front, i, w);
      LostStep(After(start, front), es[|es| - 1], w);
    }
  }

  lemma LostStep(x: Sys, e: Event, w: Waker)
    requires Enabled(x, e) && w < x.polls && !Somewhere(x, w)
    ensures w < Step(x, e).polls && !Somewhere(Step(x, e), w)
  {
    PollsGrow(x, e);
    if Somewhere(Step(x, e), w) {
      SomewhereStep(x, e, w);
    }
  }

  // ----- Success is earned -----

  /** The event is the SUBACK that grants this quality of service to a pending request for the topic. */
  ghost predicate Grants(x: Sys, e: Event, t: Topic, qos: QoS) {
    && e.Receive? && e.packet.SubAckPacket? && x.t.signal.Some? && e.packet.id in x.t.pendingSubs
    && x.t.pendingSubs[e.packet.id].topic == t
    && e.packet.results.Valid() && e.packet.results.Results() != [] && e.packet.results.Results()[0] == Ok(qos)
  }

  lemma SubAckGrants(s: State, id: u16, results: seq<SubscriptionResult>, t: Topic)
    ensures var subs' := OnSubAck(s, id, results).shared.subs;
            t in subs' && subs'[t].Existing? ==>
              || (t in s.shared.subs && s.shared.subs[t] == subs'[t])
              || (id in s.pendingSubs && s.pendingSubs[id].topic == t
                  && results != [] && results[0] == Ok(subs'[t].qos))
  {
  }

  lemma OtherPacketGrants(s: State, p: Packet, now: int, net: Network)
    requires (s.signal.None? || !p.SubAckPacket?) && (p.SubAckPacket? ==> p.results.Valid())
    ensures OnPacket(s, p, now, net).0.shared.subs == s.shared.subs
  {
  }

  lemma PacketGrants(x: Sys, e: Event, t: Topic)
    requires Enabled(x, e) && e.Receive?
    ensures var subs' := Step(x, e).t.shared.subs;
            t in subs' && subs'[t].Existing? ==>
              (t in x.t.shared.subs && x.t.shared.subs[t] == subs'[t]) || Grants(x, e, t, subs'[t].qos)
  {
    if x.t.signal.Some? && e.packet.SubAckPacket? {
      SubAckGrants(x.t, e.packet.id, e.packet.results.Results(), t);
    } else {
      OtherPacketGrants(x.t, e.packet, e.now, e.net);
    }
  }

  lemma TaskGrants(x: Sys, e: Event, t: Topic)
    requires Enabled(x, e) && IsTaskStep(e) && !e.Receive?
    ensures var subs' := Step(x, e).t.shared.subs;
            t in subs' ==> t in x.t.shared.subs && x.t.shared.subs[t] == subs'[t]
  {
    match e
    case Obey(now) => ObeyShared(x.t, x.cmds[0], now);
    case CutObey(now) => ObeyShared(x.t, x.cmds[0], now);
    case Tick(ping, delay, readings, end) => OnAlarmKeeps(x.t, ping, delay, readings);
    case CutTick(ping, delay, readings, end, n) => OnAlarmCutKeeps(x.t, ping, delay, readings, n);
    case CutReceive(p, now) =>
  }

  /** A subscription comes to exist only so. */
  lemma ExistingStep(x: Sys, e: Event, t: Topic)
    requires Enabled(x, e)
    ensures var subs' := Step(x, e).t.shared.subs;
            t in subs' && subs'[t].Existing? ==>
              (t in x.t.shared.subs && x.t.shared.subs[t] == subs'[t]) || Grants(x, e, t, subs'[t].qos)
  {
    if e.Receive? {
      PacketGrants(x, e, t);
    } else if IsTaskStep(e) {
      TaskGrants(x, e, t);
    } else if IsCallStep(e) {
      CallSteps(x, e);
    } else if IsSubStep(e) {
      SubSteps(x, e);
    }
  }

  ghost predicate ResultFrom(x: Sys, call: nat, c': SubCall) {
    c'.result.Some? && c'.result.value.Ok? ==>
      || (call in x.waits.calls && x.waits.calls[call].topic == c'.topic && x.waits.calls[call].result == c'.result)
      || (c'.topic in x.t.shared.subs && x.t.shared.subs[c'.topic] == Existing(c'.result.value.value))
  }

  lemma PollResult(x: Sys, other: nat, call: nat)
    requires other in x.waits.calls && !OutOfBounds(x, x.waits.calls[other]) && call in x.waits.calls
    ensures call in SubscribePolled(x, other).waits.calls
    ensures ResultFrom(x, call, SubscribePolled(x, other).waits.calls[call])
  {
  }

  /** A call succeeds only by a poll that finds the subscription. */
  lemma ResultStep(x: Sys, e: Event, call: nat)
    requires Enabled(x, e) && call in Step(x, e).waits.calls
    ensures ResultFrom(x, call, Step(x, e).waits.calls[call])
  {
    if IsTaskStep(e) {
      var gone := TaskStepWaits(x, e);
    } else if IsCallStep(e) {
      CallSteps(x, e);
    } else if e.PollSubscribe? {
      PollResult(x, e.call, call);
    } else {
      OtherResults(x, e, call);
    }
  }

  lemma OtherResults(x: Sys, e: Event, call: nat)
    requires Enabled(x, e) && (e.BeginSubscribe? || e.DropSubscribe? || e.Exit? || e.Cleanup?)
    requires call in Step(x, e).waits.calls
    ensures ResultFrom(x, call, Step(x, e).waits.calls[call])
  {
  }

  ghost predicate GrantedAt(connect: ConnectInfo, es: seq<Event>, i: int, t: Topic, qos: QoS) {
    && 0 <= i < |es| && Run(Systems.Init(connect), es[..i])
    && Grants(After(Systems.Init(connect), es[..i]), es[i], t, qos)
  }

  ghost predicate Granted(connect: ConnectInfo, es: seq<Event>, t: Topic, qos: QoS) {
    exists i :: GrantedAt(connect, es, i, t, qos)
  }

  lemma GrantedLater(connect: ConnectInfo, es: seq<Event>, n: nat, t: Topic, qos: QoS)
    requires n <= |es| && Granted(connect, es[..n], t, qos)
    ensures Granted(connect, es, t, qos)
  {
    var i :| GrantedAt(connect, es[..n], i, t, qos);
    assert es[..n][..i] == es[..i];
    assert GrantedAt(connect, es, i, t, qos);
  }

  lemma {:induction false} ExistingWasGranted(connect: ConnectInfo, es: seq<Event>, t: Topic)
    requires Run(Systems.Init(connect), es)
    requires var subs := After(Systems.Init(connect), es).t.shared.subs; t in subs && subs[t].Existing?
    ensures Granted(connect, es, t, After(Systems.Init(connect), es).t.shared.subs[t].qos)
    decreases |es|
  {
    var last := |es| - 1;
    var x := After(Systems.Init(connect), es[..last]);
    var qos := After(Systems.Init(connect), es).t.shared.subs[t].qos;
    ExistingStep(x, es[last], t);
    if t in x.t.shared.subs && x.t.shared.subs[t] == Existing(qos) {
      ExistingWasGranted(connect, es[..last], t);
      GrantedLater(connect, es, last, t, qos);
    } else {
      assert GrantedAt(connect, es, last, t, qos);
    }
  }

  /** In every run, a subscribe future that reports success was granted its quality of service: a SUBACK
  that says so was processed while the request for its topic was pending. */
  lemma {:induction false} SubscribeIsEarned(connect: ConnectInfo, es: seq<Event>, call: nat)
    requires Run(Systems.Init(connect), es) && call in After(Systems.Init(connect), es).waits.calls
    requires var r := After(Systems.Init(connect), es).waits.calls[call].result; r.Some? && r.value.Ok?
    ensures var c := After(Systems.Init(connect), es).waits.calls[call];
            Granted(connect, es, c.topic, c.result.value.value)
    decreases |es|
  {
    var last := |es| - 1;
    var (x, c) := (After(Systems.Init(connect), es[..last]), After(Systems.Init(connect), es).waits.calls[call]);
    ResultStep(x, es[last], call);
    if call in x.waits.calls && x.waits.calls[call].topic == c.topic && x.waits.calls[call].result == c.result {
      SubscribeIsEarned(connect, es[..last], call);
    } else {
      ExistingWasGranted(connect, es[..last], c.topic);
    }
    GrantedLater(connect, es, last, c.topic, c.result.value.value);
  }
}
