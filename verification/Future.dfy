/** The state the client handles share with the task (src/shared.rs), the futures that wait on it
(src/futures.rs) and the calls that make them (src/lib.rs), updated in place. Every access is
one locked section; each method here is the step of the same name in `Systems`: the ghost
parameter `x` is a system that has this shared state, and the result is that of its step. */
module ClientFutures {
  import opened Wrappers
  import opened ByteIo
  import opened Packets
  import opened Protocol
  import opened Subscriptions
  import opened Systems

  /** `FailStage` and `WakersAt`, entry by entry. */
  ghost function FailKeys(notify: map<(Stage, u16), NotifyResult>,
                          keys: set<(Stage, u16)>): map<(Stage, u16), NotifyResult> {
    map k <- notify :: if k in keys then NotifyFailed else notify[k]
  }

  ghost function WakersIn(notify: map<(Stage, u16), NotifyResult>, keys: set<(Stage, u16)>): set<Waker> {
    set k <- keys | k in notify && notify[k].WithWaker? :: notify[k].waker
  }

  lemma FailOne(notify: map<(Stage, u16), NotifyResult>, keys: set<(Stage, u16)>, k: (Stage, u16))
    requires k in notify
    ensures FailKeys(notify, keys + {k}) == FailKeys(notify, keys)[k := NotifyFailed]
    ensures WakersIn(notify, keys + {k}) ==
            WakersIn(notify, keys) + (if notify[k].WithWaker? then {notify[k].waker} else {})
  {
  }

  lemma MoveOne<T>(all: set<T>, todo: set<T>, x: T)
    requires todo <= all && x in todo
    ensures all - todo + {x} == all - (todo - {x})
  {
  }

  lemma FailAll(notify: map<(Stage, u16), NotifyResult>, keys: set<(Stage, u16)>, stage: Stage)
    requires keys == set k <- notify | k.0 == stage
    ensures FailKeys(notify, keys) == FailStage(notify, stage) && WakersIn(notify, keys) == WakersAt(notify, stage)
    ensures FailKeys(notify, {}) == notify && WakersIn(notify, {}) == {}
  {
  }

  ghost function SubWakersIn(subs: map<seq<byte>, SubscriptionState>, topics: set<seq<byte>>): set<Waker> {
    set t <- topics, w <- WakersOf(subs, t) :: w
  }

  lemma SubWakersInAdd(subs: map<seq<byte>, SubscriptionState>, topics: set<seq<byte>>, t: seq<byte>)
    ensures SubWakersIn(subs, topics + {t}) == SubWakersIn(subs, topics) + WakersOf(subs, t)
  {
    var more := topics + {t};
    forall w | w in SubWakersIn(subs, topics) + WakersOf(subs, t) ensures w in SubWakersIn(subs, more) {
      if w in WakersOf(subs, t) {
        assert t in more;
      } else {
        var u :| u in topics && w in WakersOf(subs, u);
        assert u in more;
      }
    }
  }

  ghost predicate Drained(before: map<seq<byte>, SubscriptionState>, subs: map<seq<byte>, SubscriptionState>,
                          done: set<seq<byte>>) {
    done !! subs.Keys && done + subs.Keys == before.Keys && forall t <- subs :: subs[t] == before[t]
  }

  lemma DrainOne(before: map<seq<byte>, SubscriptionState>, subs: map<seq<byte>, SubscriptionState>,
                 done: set<seq<byte>>, t: seq<byte>)
    requires Drained(before, subs, done) && t in subs
    ensures Drained(before, subs - {t}, done + {t}) && |subs - {t}| < |subs|
    ensures SubWakersIn(before, done + {t}) == SubWakersIn(before, done) + WakersOf(before, t)
  {
    SubWakersInAdd(before, done, t);
    assert (subs - {t}).Keys < subs.Keys;
    assert |(subs - {t}).Keys| < |subs.Keys|;
  }

  class ClientShared {
    var nextPacketId: u16
    var notify: map<(Stage, u16), NotifyResult>
    var subs: map<seq<byte>, SubscriptionState>

    constructor ()
      ensures View() == Shared(1, map[], map[])
    {
      nextPacketId, notify, subs := 1, map[], map[];
    }

    ghost function View(): Shared
      reads this
    {
      Shared(nextPacketId, notify, subs)
    }

    /** `fetch_add` on the wrapping counter. */
    method FetchAdd() returns (id: u16)
      modifies this`nextPacketId
      ensures id == old(nextPacketId) && nextPacketId == NextId(id)
    {
      id := nextPacketId;
      nextPacketId := if id == 65535 then 0 else id + 1;
    }

    /** Every entry of one map becomes failed, its waker is collected. */
    method FailNotifyMap(stage: Stage) returns (wakers: set<Waker>)
      modifies this`notify
      ensures notify == FailStage(old(notify), stage) && wakers == WakersAt(old(notify), stage)
    {
      wakers := {};
      var todo := set k <- notify | k.0 == stage;
      ghost var all, done: set<(Stage, u16)>, before := todo, {}, notify;
      FailAll(before, all, stage);
      while todo != {}
        invariant todo <= all && done == all - todo && all <= before.Keys
        invariant notify == FailKeys(before, done) && wakers == WakersIn(before, done)
        decreases |todo|
      {
        var k :| k in todo;
        FailOne(before, done, k);
        MoveOne(all, todo, k);
        if notify[k].WithWaker? {
          wakers := wakers + {notify[k].waker};
        }
        notify := notify[k := NotifyFailed];
        todo, done := todo - {k}, done + {k};
      }
      assert done == all;
    }

    /** Empties the subscription map; the wakers of awaited subscriptions are collected. */
    method DrainSubs() returns (wakers: set<Waker>)
      modifies this`subs
      ensures subs == map[] && wakers == SubWakers(old(subs))
    {
      wakers := {};
      ghost var done: set<seq<byte>> := {};
      while subs != map[]
        invariant Drained(old(subs), subs, done) && wakers == SubWakersIn(old(subs), done)
        decreases |subs|
      {
        assert subs.Keys != {};
        var t :| t in subs;
        DrainOne(old(subs), subs, done, t);
        if subs[t].Awaited? {
          wakers := wakers + Awake(subs[t].wakers);
        }
        subs := subs - {t};
        done := done + {t};
      }
      assert done == old(subs).Keys;
    }
  }

  // ----- Awaiting a publish stage -----

  /** `Panicked` is an index out of bounds. */
  datatype Poll<T> = Ready(value: T) | Pending | Panicked

  class PublishFuture {
    const shared: ClientShared
    const stage: Stage
    const id: u16
    var result: Option<bool>

    /** This future is the one of `call`, and `x` has the same shared state. */
    ghost predicate Is(x: Sys, call: nat)
      reads this, shared
    {
      && x.t.shared == shared.View()
      && call in x.calls && Awaits(x.calls[call], stage, id) && x.calls[call].result == result
    }

    constructor (shared: ClientShared, stage: Stage, id: u16, ghost x: Sys, ghost call: nat)
      requires x.t.shared == shared.View()
      requires call in x.calls && Awaits(x.calls[call], stage, id) && x.calls[call].result.None?
      modifies shared`notify
      ensures this.shared == shared && this.stage == stage && this.id == id
      ensures Is(DidRegister(x, call), call)
    {
      this.shared, this.stage, this.id, result := shared, stage, id, None;
      shared.notify := shared.notify[(stage, id) := WithoutWaker];
    }

    method Poll(waker: Waker, ghost x: Sys, ghost call: nat) returns (r: Poll<bool>)
      requires Is(x, call) && waker == x.polls
      modifies this`result, shared`notify
      ensures Is(Polled(x, call), call)
      ensures r == if result.Some? then Ready(result.value) else Pending
    {
      if result.Some? {
        return Ready(result.value);
      }
      var key := (stage, id);
      if key in shared.notify {
        if shared.notify[key].NotifyFailed? {
          result := Some(true);
          r := Ready(true);
        } else {
          shared.notify := shared.notify[key := WithWaker(waker)];
          r := Pending;
        }
      } else {
        result := Some(false);
        r := Ready(false);
      }
    }

    method Drop(ghost x: Sys, ghost call: nat)
      requires Is(x, call) && !x.calls[call].phase.Allocated?
      modifies shared`notify
      ensures shared.View() == Dropped(x, call).t.shared
    {
      if result.None? {
        shared.notify := shared.notify - {(stage, id)};
      }
    }
  }

  predicate Awaits(c: Call, stage: Stage, id: u16) {
    c.stage == Some(stage) && c.msg.id == id
  }

  // ----- Awaiting a subscription -----

  class SubscribeFuture {
    const shared: ClientShared
    const topic: seq<byte>
    var wakerIndex: Option<nat>
    var result: Option<Result<QoS, ()>>

    /** This future is the one of `call`, and `x` has the same shared state. */
    ghost predicate Is(x: Sys, call: nat)
      reads this, shared
    {
      && x.t.shared == shared.View() && call in x.waits.calls
      && var c := x.waits.calls[call];
         c.topic == topic && c.slot == wakerIndex && c.result == result
    }

    constructor (shared: ClientShared, topic: seq<byte>, ghost x: Sys, ghost call: nat)
      requires SubscribeBegun(x, call, topic).t.shared == shared.View()
      ensures this.shared == shared && this.topic == topic
      ensures Is(SubscribeBegun(x, call, topic), call)
    {
      this.shared, this.topic, wakerIndex, result := shared, topic, None, None;
    }

    /** A poll panics exactly if the remembered slot is outside the list; otherwise it is the step of
    this call. A pending poll leaves its waker in the remembered slot, which is the future's own
    unless the slot is stale. */
    method Poll(waker: Waker, ghost x: Sys, ghost call: nat) returns (r: Poll<Result<QoS, ()>>)
      requires Is(x, call) && waker == x.polls
      modifies this`wakerIndex, this`result, shared`subs
      ensures r.Panicked? <==> OutOfBounds(x, x.waits.calls[call])
      ensures Is(if r.Panicked? then x else SubscribePolled(x, call), call)
      ensures r.Ready? <==> result.Some?
      ensures r.Ready? ==> result == Some(r.value)
      ensures r.Pending? ==>
                && wakerIndex.Some? && topic in shared.subs && shared.subs[topic].Awaited?
                && wakerIndex.value < |shared.subs[topic].wakers|
                && shared.subs[topic].wakers[wakerIndex.value] == Some(waker)
      ensures r.Pending? ==>
                var stolen := SubscribePolled(x, call).waits.stolen;
                if Stale(x, x.waits.calls[call]) then (topic, Lists(x, topic), wakerIndex.value) in stolen
                else (topic, Lists(x, topic), wakerIndex.value) !in stolen
    {
      if result.Some? {
        return Ready(result.value);
      }
      if topic !in shared.subs {
        result := Some(Err(()));
        return Ready(Err(()));
      }
      match shared.subs[topic] {
        case Existing(qos) =>
          result := Some(Ok(qos));
          r := Ready(Ok(qos));
        case Awaited(wakers) =>
          if wakerIndex.Some? {
            if wakerIndex.value >= |wakers| {
              return Panicked;
            }
            shared.subs := shared.subs[topic := Awaited(wakers[wakerIndex.value := Some(waker)])];
          } else {
            shared.subs := shared.subs[topic := Awaited(wakers + [Some(waker)])];
            wakerIndex := Some(|wakers|);
          }
          r := Pending;
      }
    }

    /** True if dropping panics. */
    method Drop(ghost x: Sys, ghost call: nat) returns (panicked: bool)
      requires Is(x, call)
      modifies shared`subs
      ensures panicked <==> OutOfBounds(x, x.waits.calls[call])
      ensures shared.View() == if panicked then x.t.shared else SubscribeDropped(x, call).t.shared
      ensures !panicked && shared.View() != x.t.shared && Stale(x, x.waits.calls[call]) ==>
                (topic, Lists(x, topic), wakerIndex.value) in SubscribeDropped(x, call).waits.stolen
    {
      panicked := false;
      if result.None? && wakerIndex.Some? && topic in shared.subs && shared.subs[topic].Awaited? {
        var wakers := shared.subs[topic].wakers;
        if wakerIndex.value >= |wakers| {
          return true;
        }
        shared.subs := shared.subs[topic := Awaited(wakers[wakerIndex.value := None])];
      }
    }
  }

  // ----- The calls -----

  /** Allocates the identifier and builds the message of a publish call. */
  method MakePublishCmd(shared: ClientShared, qos: QoS, retain: bool, topic: seq<byte>, payload: seq<byte>,
                        ghost x: Sys, ghost call: nat, ghost stage: Option<Stage>) returns (m: Message)
    requires x.t.shared == shared.View()
    modifies shared`nextPacketId
    ensures var x' := Began(x, call, qos, retain, topic, payload, stage);
            shared.View() == x'.t.shared && m == x'.calls[call].msg
    ensures m.topic == topic && m.payload == payload && m.qos == qos && m.retain == retain && !m.dup
    ensures m.id == if qos.AtMostOnce? then 0 else old(shared.nextPacketId)
    ensures shared.nextPacketId == if qos.AtMostOnce? then old(shared.nextPacketId) else NextId(m.id)
  {
    var id: u16 := 0;
    if qos != AtMostOnce {
      id := shared.FetchAdd();
    }
    m := Message(false, qos, retain, topic, id, payload);
  }

  datatype SubWait = DontWait(qos: QoS) | WaitBefore | WaitAfter

  /** The locked section at the start of `subscribe`: of any number of callers that find the
  topic unknown, the first makes the entry and sends the command, the others wait for it. */
  method StartSubscribe(shared: ClientShared, topic: seq<byte>, ghost x: Sys,
                        ghost call: nat) returns (wait: SubWait)
    requires x.t.shared == shared.View()
    modifies shared`subs
    ensures shared.View() == SubscribeBegun(x, call, topic).t.shared && topic in shared.subs
    ensures wait.WaitAfter? <==> topic !in old(shared.subs)
    ensures wait.DontWait? ==> shared.subs[topic] == Existing(wait.qos)
    ensures !wait.DontWait? ==> shared.subs[topic].Awaited?
  {
    if topic in shared.subs {
      return match shared.subs[topic] case Existing(qos) => DontWait(qos) case Awaited(_) => WaitBefore;
    }
    shared.subs := shared.subs[topic := Awaited([])];
    wait := WaitAfter;
  }
}
