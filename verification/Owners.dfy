/** Nothing is left behind in the shared maps: whatever waits there belongs to a call that is still
waiting, in every run. */
module Owners {
  import opened Wrappers
  import opened ByteIo
  import opened Packets
  import opened Subscriptions
  import opened Protocol
  import opened ProtocolProofs
  import opened Systems
  import opened SystemProofs
  import opened FutureProofs
  import opened SubscribeProofs

  // ----- The notifier maps -----

  /** The call is unresolved and waits under this key, with this waker if it has left one. */
  ghost predicate WaitsOn(x: Sys, c: nat, k: (Stage, u16)) {
    && c in x.calls && Awaiting(x.calls[c]) && x.calls[c].result.None? && KeyOf(x.calls[c]) == k
    && (k in x.t.shared.notify && x.t.shared.notify[k].WithWaker? ==>
          x.calls[c].waker == Some(x.t.shared.notify[k].waker))
  }

  /** Every entry that has not been failed has such a call; a call that has not registered is unresolved. */
  ghost predicate Owned(x: Sys) {
    && (forall k <- x.t.shared.notify :: !x.t.shared.notify[k].NotifyFailed? ==> exists c :: WaitsOn(x, c, k))
    && (forall c <- x.calls :: x.calls[c].phase.Allocated? ==> x.calls[c].result.None?)
  }

  /** Entries go, are failed, or stay; calls stay. */
  lemma LessOwned(x: Sys, x': Sys)
    requires Owned(x)
    requires forall k <- x'.t.shared.notify :: !x'.t.shared.notify[k].NotifyFailed? ==>
               && k in x.t.shared.notify && x'.t.shared.notify[k] == x.t.shared.notify[k]
               && forall c :: WaitsOn(x, c, k) ==>
                    && c in x'.calls && x'.calls[c].(phase := x.calls[c].phase) == x.calls[c]
                    && !x'.calls[c].phase.Allocated?
    requires forall c <- x'.calls :: x'.calls[c].phase.Allocated? ==> x'.calls[c].result.None?
    ensures Owned(x')
  {
    forall k | k in x'.t.shared.notify && !x'.t.shared.notify[k].NotifyFailed? ensures exists c :: WaitsOn(x', c, k) {
      var c :| WaitsOn(x, c, k);
      assert WaitsOn(x', c, k);
    }
  }

  lemma RegisterOwned(x: Sys, call: nat)
    requires Owned(x) && call in x.calls && x.calls[call].phase.Allocated?
    ensures Owned(DidRegister(x, call))
  {
    var x' := DidRegister(x, call);
    forall k | k in x'.t.shared.notify && !x'.t.shared.notify[k].NotifyFailed? ensures exists c :: WaitsOn(x', c, k) {
      if x.calls[call].stage.Some? && k == KeyOf(x.calls[call]) {
        assert WaitsOn(x', call, k);
      } else {
        var c :| WaitsOn(x, c, k);
        assert WaitsOn(x', c, k);
      }
    }
  }

  lemma DropOwned(x: Sys, call: nat)
    requires Owned(x) && call in x.calls
    ensures Owned(Dropped(x, call))
  {
    var x' := Dropped(x, call);
    forall k | k in x'.t.shared.notify && !x'.t.shared.notify[k].NotifyFailed? ensures exists c :: WaitsOn(x', c, k) {
      var c :| WaitsOn(x, c, k);
      assert c != call;
      assert WaitsOn(x', c, k);
    }
  }

  lemma PollOwned(x: Sys, call: nat)
    requires Owned(x) && call in x.calls && Awaiting(x.calls[call])
    ensures Owned(Polled(x, call))
  {
    var x' := Polled(x, call);
    forall k | k in x'.t.shared.notify && !x'.t.shared.notify[k].NotifyFailed? ensures exists c :: WaitsOn(x', c, k) {
      if k == KeyOf(x.calls[call]) && x.calls[call].result.None? {
        assert WaitsOn(x', call, k);
      } else {
        var c :| WaitsOn(x, c, k);
        assert WaitsOn(x', c, k);
      }
    }
  }

  lemma CallOwned(x: Sys, e: Event)
    requires Owned(x) && Enabled(x, e) && IsCallStep(e)
    ensures Owned(Step(x, e))
  {
    match e
    case Register(call) => RegisterOwned(x, call);
    case Drop(call) => DropOwned(x, call);
    case Poll(call) => PollOwned(x, call);
    case Submit(call) =>
      if x.phase.Ended? {
        DropOwned(x, call);
      } else {
        LessOwned(x, Step(x, e));
      }
    case Begin(_, _, _, _, _, _) => LessOwned(x, Step(x, e));
    case Push(_) => LessOwned(x, Step(x, e));
  }

  lemma OwnedStep(x: Sys, e: Event)
    requires Owned(x) && Enabled(x, e)
    ensures Owned(Step(x, e))
  {
    if IsCallStep(e) {
      CallOwned(x, e);
    } else {
      OthersLeave(x, e);
      LessOwned(x, Step(x, e));
    }
  }

  /** No other step makes an entry or touches a call. */
  lemma OthersLeave(x: Sys, e: Event)
    requires Enabled(x, e) && !IsCallStep(e)
    ensures Step(x, e).calls == x.calls
    ensures forall k <- Step(x, e).t.shared.notify :: !Step(x, e).t.shared.notify[k].NotifyFailed? ==>
              k in x.t.shared.notify && Step(x, e).t.shared.notify[k] == x.t.shared.notify[k]
  {
    if IsTaskStep(e) {
      TaskSteps(x, e);
    } else if IsSubStep(e) {
      SubSteps(x, e);
    }
  }

  // ----- The lists of wakers -----

  /** The call is unresolved and left this waker in this slot of the current list. */
  ghost predicate LeftBy(x: Sys, c: nat, t: Topic, i: int, w: Waker) {
    && c in x.waits.calls
    && var s := x.waits.calls[c];
       && s.topic == t && s.slot.Some? && s.slot.value == i && s.polled == Lists(x, t)
       && s.waker == Some(w) && s.result.None?
  }

  ghost predicate SlotsOwned(x: Sys) {
    forall t, i, w :: StoredAt(x, t, i, w) ==> exists c :: LeftBy(x, c, t, i, w)
  }

  lemma LessSlots(x: Sys, x': Sys)
    requires SlotsOwned(x) && x'.waits.calls == x.waits.calls && x'.waits.lists == x.waits.lists
    requires forall t, i, w :: StoredAt(x', t, i, w) ==> StoredAt(x, t, i, w)
    ensures SlotsOwned(x')
  {
    forall t, i, w | StoredAt(x', t, i, w) ensures exists c :: LeftBy(x', c, t, i, w) {
      var c :| LeftBy(x, c, t, i, w);
      assert LeftBy(x', c, t, i, w);
    }
  }

  lemma BeginSlots(x: Sys, call: nat, topic: Topic)
    requires SlotsOwned(x) && call !in x.waits.calls
    ensures SlotsOwned(SubscribeBegun(x, call, topic))
  {
    var x' := SubscribeBegun(x, call, topic);
    forall t, i, w | StoredAt(x', t, i, w) ensures exists c :: LeftBy(x', c, t, i, w) {
      assert StoredAt(x, t, i, w);
      var c :| LeftBy(x, c, t, i, w);
      assert LeftBy(x', c, t, i, w);
    }
  }

  lemma PendingSlots(x: Sys, call: nat)
    requires SlotsOwned(x) && call in x.waits.calls && StaysPending(x, x.waits.calls[call])
    ensures SlotsOwned(SubscribePolled(x, call))
  {
    var (x', s) := (SubscribePolled(x, call), x.waits.calls[call]);
    PendingSlotStep(x, call);
    var n := SlotOf(x, s);
    forall t, i, w | StoredAt(x', t, i, w) ensures exists c :: LeftBy(x', c, t, i, w) {
      if t == s.topic && i == n {
        assert LeftBy(x', call, t, i, w);
      } else {
        assert StoredAt(x, t, i, w);
        var c :| LeftBy(x, c, t, i, w);
        assert c != call;
        assert LeftBy(x', c, t, i, w);
      }
    }
  }

  lemma ResolvedSlots(x: Sys, call: nat)
    requires SlotsOwned(x) && call in x.waits.calls && !StaysPending(x, x.waits.calls[call])
    requires !OutOfBounds(x, x.waits.calls[call])
    ensures SlotsOwned(SubscribePolled(x, call))
  {
    var x' := SubscribePolled(x, call);
    forall t, i, w | StoredAt(x', t, i, w) ensures exists c :: LeftBy(x', c, t, i, w) {
      assert StoredAt(x, t, i, w);
      var c :| LeftBy(x, c, t, i, w);
      assert LeftBy(x', c, t, i, w);
    }
  }

  lemma DropSlots(x: Sys, call: nat)
    requires SlotsOwned(x) && call in x.waits.calls && !OutOfBounds(x, x.waits.calls[call])
    ensures SlotsOwned(SubscribeDropped(x, call))
  {
    var (x', s) := (SubscribeDropped(x, call), x.waits.calls[call]);
    if StaysPending(x, s) && s.slot.Some? {
      DropSlotStep(x, call);
    }
    forall t, i, w | StoredAt(x', t, i, w) ensures exists c :: LeftBy(x', c, t, i, w) {
      assert StoredAt(x, t, i, w);
      var c :| LeftBy(x, c, t, i, w);
      assert c != call;
      assert LeftBy(x', c, t, i, w);
    }
  }

  lemma SubSlots(x: Sys, e: Event)
    requires SlotsOwned(x) && Enabled(x, e) && IsSubStep(e)
    ensures SlotsOwned(Step(x, e))
  {
    match e
    case BeginSubscribe(call, topic) => BeginSlots(x, call, topic);
    case PollSubscribe(call) =>
      if StaysPending(x, x.waits.calls[call]) {
        PendingSlots(x, call);
      } else {
        ResolvedSlots(x, call);
      }
    case DropSubscribe(call) => DropSlots(x, call);
  }

  lemma TaskSlots(x: Sys, e: Event)
    requires SlotsOwned(x) && Enabled(x, e) && IsTaskStep(e)
    ensures SlotsOwned(Step(x, e))
  {
    var gone := TaskStepWaits(x, e);
    LessSlots(x, Step(x, e));
  }

  lemma SlotsStep(x: Sys, e: Event)
    requires SlotsOwned(x) && Enabled(x, e)
    ensures SlotsOwned(Step(x, e))
  {
    if IsSubStep(e) {
      SubSlots(x, e);
    } else if IsTaskStep(e) {
      TaskSlots(x, e);
    } else {
      if IsCallStep(e) {
        CallSteps(x, e);
      }
      LessSlots(x, Step(x, e));
    }
  }

  /** In every run, whoever is stored in a notifier map or in a list of wakers is still waiting for it: a
  dropped call and a resolved one leave nothing behind. */
  lemma {:induction false} EveryEntryIsOwned(connect: ConnectInfo, es: seq<Event>)
    requires Run(Systems.Init(connect), es)
    ensures Owned(After(Systems.Init(connect), es)) && SlotsOwned(After(Systems.Init(connect), es))
    decreases |es|
  {
    if es != [] {
      var (front, e) := (es[..|es| - 1], es[|es| - 1]);
      EveryEntryIsOwned(connect, front);
      OwnedStep(After(Systems.Init(connect), front), e);
      SlotsStep(After(Systems.Init(connect), front), e);
    }
  }
}
