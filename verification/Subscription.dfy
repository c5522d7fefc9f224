/** A leaf of the subscription tree (src/transceiver/subscription.rs): the queues and
callbacks that receive the messages of one topic pattern. */
module Subscriptions {
  import opened Wrappers

  type QueueId = int
  type CallbackId = int

  /** What handing a message to a queue gives. An unbounded queue is never full. */
  datatype SendOutcome = Sent | Full | Closed

  type Network = QueueId -> SendOutcome

  datatype SubscriptionKind = Void | Lossy(queue: QueueId) | Unbounded(queue: QueueId) | FastCallback(id: CallbackId)

  datatype Recipient = LossyQueue(queue: QueueId) | UnboundedQueue(queue: QueueId) | Callback(id: CallbackId)

  datatype Subscription = Subscription(
    lossy: seq<QueueId>, unbounded: seq<QueueId>, callbacks: seq<CallbackId>, subscribed: bool)
  {
    /** Callbacks are ordered by identifier; a leaf without subscription is empty. */
    ghost predicate Valid() {
      && Sorted(callbacks)
      && (!subscribed ==> lossy == [] && unbounded == [] && callbacks == [])
    }
  }

  const EMPTY: Subscription := Subscription([], [], [], false)

  // ----- Pruning -----

  function SwapRemove<T>(v: seq<T>, i: nat): (r: seq<T>)
    requires i < |v|
    ensures |r| == |v| - 1
  {
    var last := |v| - 1;
    if i == last then v[..last] else v[..last][i := v[last]]
  }

  lemma SwapRemoveParts<T>(v: seq<T>, i: nat)
    requires i < |v|
    ensures SwapRemove(v, i)[..i] == v[..i]
    ensures multiset(SwapRemove(v, i)[i..]) == multiset(v[i + 1..])
  {
    var last := |v| - 1;
    if i < last {
      assert SwapRemove(v, i)[i..] == [v[last]] + v[i + 1..last];
      assert v[i + 1..] == v[i + 1..last] + [v[last]];
    } else {
      assert SwapRemove(v, i)[i..] == [] && v[i + 1..] == [];
    }
  }

  /** What stays of `v` when the elements from `i` on are tested, and the tested elements in order. */
  function PruneFrom<T>(v: seq<T>, drop: T -> bool, i: nat): (r: (seq<T>, seq<T>))
    requires i <= |v|
    decreases |v| - i
  {
    if i == |v| then (v, [])
    else if drop(v[i]) then
      var (kept, calls) := PruneFrom(SwapRemove(v, i), drop, i);
      (kept, [v[i]] + calls)
    else
      var (kept, calls) := PruneFrom(v, drop, i + 1);
      (kept, [v[i]] + calls)
  }

  /** `prune` runs its predicate, which sends the message, exactly once on every element, and
  keeps exactly the elements that do not satisfy it. */
  lemma PruneTestsEachOnce<T>(v: seq<T>, drop: T -> bool, i: nat, x: T)
    requires i <= |v|
    ensures multiset(PruneFrom(v, drop, i).1) == multiset(v[i..])
    ensures multiset(PruneFrom(v, drop, i).0)[x] == multiset(v[..i])[x] + (if drop(x) then 0 else multiset(v[i..])[x])
  {
    PruneTests(v, drop, i);
    PruneKeeps(v, drop, i, x);
  }

  lemma {:induction false} PruneTests<T>(v: seq<T>, drop: T -> bool, i: nat)
    requires i <= |v|
    ensures multiset(PruneFrom(v, drop, i).1) == multiset(v[i..])
    decreases |v| - i
  {
    if i < |v| {
      assert v[i..] == [v[i]] + v[i + 1..];
      if drop(v[i]) {
        SwapRemoveParts(v, i);
        PruneTests(SwapRemove(v, i), drop, i);
      } else {
        PruneTests(v, drop, i + 1);
      }
    }
  }

  lemma {:induction false} PruneKeeps<T>(v: seq<T>, drop: T -> bool, i: nat, x: T)
    requires i <= |v|
    ensures multiset(PruneFrom(v, drop, i).0)[x] == multiset(v[..i])[x] + (if drop(x) then 0 else multiset(v[i..])[x])
    decreases |v| - i
  {
    if i == |v| {
      assert v[..i] == v && v[i..] == [];
    } else {
      assert v[i..] == [v[i]] + v[i + 1..];
      if drop(v[i]) {
        SwapRemoveParts(v, i);
        PruneKeeps(SwapRemove(v, i), drop, i, x);
      } else {
        assert v[..i + 1] == v[..i] + [v[i]];
        PruneKeeps(v, drop, i + 1, x);
      }
    }
  }

  lemma PruneExact<T>(v: seq<T>, drop: T -> bool, x: T)
    ensures multiset(PruneFrom(v, drop, 0).1) == multiset(v)
    ensures multiset(PruneFrom(v, drop, 0).0)[x] == if drop(x) then 0 else multiset(v)[x]
  {
    PruneTestsEachOnce(v, drop, 0, x);
    assert v[0..] == v && v[..0] == [];
  }

  method Prune<T>(v: seq<T>, drop: T -> bool) returns (kept: seq<T>, calls: seq<T>)
    ensures (kept, calls) == PruneFrom(v, drop, 0)
  {
    kept, calls := v, [];
    var i := 0;
    assert [] + PruneFrom(v, drop, 0).1 == PruneFrom(v, drop, 0).1;
    while i < |kept|
      invariant 0 <= i <= |kept|
      invariant PruneFrom(v, drop, 0) == (PruneFrom(kept, drop, i).0, calls + PruneFrom(kept, drop, i).1)
      decreases |kept| - i
    {
      var x := kept[i];
      ghost var rest := PruneFrom(kept, drop, i).1[1..];
      Shift(calls, x, rest);
      assert PruneFrom(kept, drop, i).1 == [x] + rest;
      calls := calls + [x];
      if drop(x) {
        kept := SwapRemove(kept, i);
      } else {
        i := i + 1;
      }
      assert PruneFrom(kept, drop, i).1 == rest;
    }
    assert calls + [] == calls;
  }

  lemma Shift<T>(a: seq<T>, x: T, b: seq<T>)
    ensures a + ([x] + b) == (a + [x]) + b
  {
  }

  // ----- Dispatching to a leaf -----

  function IsClosed(net: Network): QueueId -> bool {
    q => net(q) == Closed
  }

  function TakersOfLossy(calls: seq<QueueId>, net: Network): seq<Recipient> {
    if calls == [] then []
    else (if net(calls[0]) == Sent then [LossyQueue(calls[0])] else []) + TakersOfLossy(calls[1..], net)
  }

  function TakersOfUnbounded(calls: seq<QueueId>, net: Network): seq<Recipient> {
    if calls == [] then []
    else (if net(calls[0]) != Closed then [UnboundedQueue(calls[0])] else []) + TakersOfUnbounded(calls[1..], net)
  }

  function CallbackTakers(ids: seq<CallbackId>): seq<Recipient> {
    if ids == [] then [] else [Callback(ids[0])] + CallbackTakers(ids[1..])
  }

  /** The leaf after a message, without its closed queues. */
  function AfterDispatch(s: Subscription, net: Network): Subscription {
    s.(lossy := PruneFrom(s.lossy, IsClosed(net), 0).0, unbounded := PruneFrom(s.unbounded, IsClosed(net), 0).0)
  }

  /** Who takes the message, in order. */
  function Takers(s: Subscription, net: Network): seq<Recipient> {
    TakersOfLossy(PruneFrom(s.lossy, IsClosed(net), 0).1, net)
    + TakersOfUnbounded(PruneFrom(s.unbounded, IsClosed(net), 0).1, net)
    + CallbackTakers(s.callbacks)
  }

  lemma {:induction false} TakersCount(calls: seq<QueueId>, net: Network, q: QueueId)
    ensures multiset(TakersOfLossy(calls, net))[LossyQueue(q)] == if net(q) == Sent then multiset(calls)[q] else 0
    ensures multiset(TakersOfUnbounded(calls, net))[UnboundedQueue(q)] ==
            if net(q) == Closed then 0 else multiset(calls)[q]
    ensures forall r <- TakersOfLossy(calls, net) :: r.LossyQueue?
    ensures forall r <- TakersOfUnbounded(calls, net) :: r.UnboundedQueue?
  {
    if calls != [] {
      assert calls == [calls[0]] + calls[1..];
      TakersCount(calls[1..], net, q);
    }
  }

  lemma {:induction false} CallbackTakersCount(ids: seq<CallbackId>, c: CallbackId)
    ensures multiset(CallbackTakers(ids))[Callback(c)] == multiset(ids)[c]
    ensures forall r <- CallbackTakers(ids) :: r.Callback?
  {
    if ids != [] {
      assert ids == [ids[0]] + ids[1..];
      CallbackTakersCount(ids[1..], c);
    }
  }

  /** Each queue that can take the message takes it once per registration, each callback is
  called once per registration, and exactly the closed queues are dropped. */
  lemma LeafDispatchExact(s: Subscription, net: Network, q: QueueId, c: CallbackId)
    ensures multiset(Takers(s, net))[LossyQueue(q)] == if net(q) == Sent then multiset(s.lossy)[q] else 0
    ensures multiset(Takers(s, net))[UnboundedQueue(q)] == if net(q) == Closed then 0 else multiset(s.unbounded)[q]
    ensures multiset(Takers(s, net))[Callback(c)] == multiset(s.callbacks)[c]
    ensures multiset(AfterDispatch(s, net).lossy)[q] == if net(q) == Closed then 0 else multiset(s.lossy)[q]
    ensures multiset(AfterDispatch(s, net).unbounded)[q] == if net(q) == Closed then 0 else multiset(s.unbounded)[q]
  {
    var closed := IsClosed(net);
    PruneExact(s.lossy, closed, q);
    PruneExact(s.unbounded, closed, q);
    var offered, sent := PruneFrom(s.lossy, closed, 0).1, PruneFrom(s.unbounded, closed, 0).1;
    TakersCount(offered, net, q);
    TakersCount(sent, net, q);
    CallbackTakersCount(s.callbacks, c);
    CountParts(TakersOfLossy(offered, net), TakersOfUnbounded(sent, net), CallbackTakers(s.callbacks), q, c);
  }

  /** Three lists of different kinds do not share recipients. */
  lemma CountParts(a: seq<Recipient>, b: seq<Recipient>, d: seq<Recipient>, q: QueueId, c: CallbackId)
    requires forall r <- a :: r.LossyQueue?
    requires forall r <- b :: r.UnboundedQueue?
    requires forall r <- d :: r.Callback?
    ensures multiset(a + b + d)[LossyQueue(q)] == multiset(a)[LossyQueue(q)]
    ensures multiset(a + b + d)[UnboundedQueue(q)] == multiset(b)[UnboundedQueue(q)]
    ensures multiset(a + b + d)[Callback(c)] == multiset(d)[Callback(c)]
  {
    assert LossyQueue(q) !in b && LossyQueue(q) !in d;
    assert UnboundedQueue(q) !in a && UnboundedQueue(q) !in d;
    assert Callback(c) !in a && Callback(c) !in b;
  }

  /** How often a leaf holds a recipient. */
  function Held(s: Subscription, r: Recipient): nat {
    match r
    case LossyQueue(q) => multiset(s.lossy)[q]
    case UnboundedQueue(q) => multiset(s.unbounded)[q]
    case Callback(c) => multiset(s.callbacks)[c]
  }

  /** The recipient can take a message now: a bounded queue may be full, a callback always can. */
  predicate Accepts(net: Network, r: Recipient) {
    match r
    case LossyQueue(q) => net(q) == Sent
    case UnboundedQueue(q) => net(q) != Closed
    case Callback(_) => true
  }

  /** The recipient is a queue whose other end is gone. */
  predicate HasClosed(net: Network, r: Recipient) {
    !r.Callback? && net(r.queue) == Closed
  }

  /** What a message does to a leaf that gets it: exactly the closed queues go. */
  ghost predicate Pruned(s: Subscription, s': Subscription, net: Network) {
    s'.subscribed == s.subscribed && forall r :: Held(s', r) == if HasClosed(net, r) then 0 else Held(s, r)
  }

  /** Every recipient of a leaf gets a message once per registration, if it can take it. */
  lemma LeafHandsOut(s: Subscription, net: Network, r: Recipient)
    ensures multiset(Takers(s, net))[r] == if Accepts(net, r) then Held(s, r) else 0
    ensures Held(AfterDispatch(s, net), r) == if HasClosed(net, r) then 0 else Held(s, r)
  {
    LeafDispatchExact(s, net, if r.Callback? then 0 else r.queue, if r.Callback? then r.id else 0);
  }

  lemma LeafIsPruned(s: Subscription, net: Network)
    ensures Pruned(s, AfterDispatch(s, net), net)
  {
    forall r ensures Held(AfterDispatch(s, net), r) == if HasClosed(net, r) then 0 else Held(s, r) {
      LeafHandsOut(s, net, r);
    }
  }

  /** Dispatching keeps a leaf valid and its subscription flag. */
  lemma DispatchKeepsLeafValid(s: Subscription, net: Network)
    requires s.Valid()
    ensures AfterDispatch(s, net).Valid() && AfterDispatch(s, net).subscribed == s.subscribed
  {
  }

  /** `Subscription::dispatch`. */
  method DispatchLeaf(s: Subscription, net: Network) returns (s': Subscription, takers: seq<Recipient>)
    ensures s' == AfterDispatch(s, net) && takers == Takers(s, net)
  {
    var lossy, offered := Prune(s.lossy, IsClosed(net));
    var unbounded, sent := Prune(s.unbounded, IsClosed(net));
    takers := TakersOfLossy(offered, net) + TakersOfUnbounded(sent, net);
    ghost var queues := takers;
    for i := 0 to |s.callbacks|
      invariant takers + CallbackTakers(s.callbacks[i..]) == queues + CallbackTakers(s.callbacks)
    {
      assert s.callbacks[i..][1..] == s.callbacks[i + 1..];
      Shift(takers, Callback(s.callbacks[i]), CallbackTakers(s.callbacks[i + 1..]));
      takers := takers + [Callback(s.callbacks[i])];
    }
    assert takers + [] == takers;
    s' := s.(lossy := lossy, unbounded := unbounded);
  }

  // ----- Callbacks -----

  predicate Sorted(ids: seq<CallbackId>) {
    forall i, j :: 0 <= i < j < |ids| ==> ids[i] < ids[j]
  }

  /** `binary_search_by_key`: the index of `id`, or the index at which to insert it. */
  method BinarySearch(ids: seq<CallbackId>, id: CallbackId) returns (r: Result<nat, nat>)
    requires Sorted(ids)
    ensures r.Ok? ==> r.value < |ids| && ids[r.value] == id
    ensures r.Err? ==> r.error <= |ids| && id !in ids
    ensures r.Err? ==>
              (forall i :: 0 <= i < r.error ==> ids[i] < id) && (forall i :: r.error <= i < |ids| ==> id < ids[i])
  {
    var lo: nat, hi: nat := 0, |ids|;
    while lo < hi
      invariant 0 <= lo <= hi <= |ids|
      invariant forall i :: 0 <= i < lo ==> ids[i] < id
      invariant forall i :: hi <= i < |ids| ==> id < ids[i]
    {
      var mid := (lo + hi) / 2;
      if ids[mid] == id {
        return Ok(mid);
      } else if ids[mid] < id {
        lo := mid + 1;
      } else {
        hi := mid;
      }
    }
    r := Err(lo);
  }

  /** Keeps the vector sorted and adds exactly one identifier, or nothing if it is there. */
  method AddFastCallback(ids: seq<CallbackId>, id: CallbackId) returns (r: seq<CallbackId>)
    requires Sorted(ids)
    ensures Sorted(r)
    ensures forall x :: x in r <==> x in ids || x == id
    ensures r == WithCallback(ids, id)
  {
    SortedInsertUnique(ids, id);
    if |ids| == 0 || id > ids[|ids| - 1] {
      r := ids + [id];
    } else {
      var at := BinarySearch(ids, id);
      match at {
        case Err(index) => r := ids[..index] + [id] + ids[index..];
        case Ok(_) => r := ids;
      }
    }
    SameSorted(r, WithCallback(ids, id));
  }

  /** Removes the identifier if it is there. */
  method RemoveFastCallback(ids: seq<CallbackId>, id: CallbackId) returns (r: seq<CallbackId>)
    requires Sorted(ids)
    ensures Sorted(r)
    ensures forall x :: x in r <==> x in ids && x != id
    ensures r == WithoutCallback(ids, id)
  {
    var at := BinarySearch(ids, id);
    match at {
      case Ok(index) => r := ids[..index] + ids[index + 1..];
      case Err(_) => r := ids;
    }
    RemoveUnique(ids, id);
    SameSorted(r, WithoutCallback(ids, id));
  }

  function WithCallback(ids: seq<CallbackId>, id: CallbackId): seq<CallbackId> {
    if ids == [] then [id]
    else if ids[0] < id then [ids[0]] + WithCallback(ids[1..], id)
    else if ids[0] == id then ids
    else [id] + ids
  }

  function WithoutCallback(ids: seq<CallbackId>, id: CallbackId): seq<CallbackId> {
    if ids == [] then [] else if ids[0] == id then ids[1..] else [ids[0]] + WithoutCallback(ids[1..], id)
  }

  lemma HeadIsLeast(ids: seq<CallbackId>, rest: seq<CallbackId>, id: CallbackId)
    requires ids != [] && Sorted(ids) && ids[0] < id && Sorted(rest)
    requires forall x :: x in rest ==> x in ids[1..] || x == id
    ensures Sorted([ids[0]] + rest)
    ensures ids[0] !in rest
  {
    forall i | 0 <= i < |rest| ensures ids[0] < rest[i] {
      assert rest[i] in rest;
    }
  }

  lemma {:induction false} SortedInsertUnique(ids: seq<CallbackId>, id: CallbackId)
    requires Sorted(ids)
    ensures Sorted(WithCallback(ids, id))
    ensures forall x :: x in WithCallback(ids, id) <==> x in ids || x == id
  {
    if ids != [] && ids[0] < id {
      SortedInsertUnique(ids[1..], id);
      assert ids == [ids[0]] + ids[1..];
      HeadIsLeast(ids, WithCallback(ids[1..], id), id);
    }
  }

  lemma {:induction false} RemoveUnique(ids: seq<CallbackId>, id: CallbackId)
    requires Sorted(ids)
    ensures Sorted(WithoutCallback(ids, id))
    ensures forall x :: x in WithoutCallback(ids, id) <==> x in ids && x != id
  {
    if ids != [] {
      assert ids == [ids[0]] + ids[1..];
      if ids[0] != id {
        RemoveUnique(ids[1..], id);
        HeadIsLeast(ids, WithoutCallback(ids[1..], id), ids[0] + 1);
      }
    }
  }

  /** A strictly sorted vector is determined by its elements. */
  lemma {:induction false} SameSorted(a: seq<CallbackId>, b: seq<CallbackId>)
    requires Sorted(a) && Sorted(b) && forall x :: x in a <==> x in b
    ensures a == b
  {
    assert a != [] ==> a[0] in a;
    assert b != [] ==> b[0] in b;
    if a != [] && b != [] {
      assert a[0] == b[0];
      assert a == [a[0]] + a[1..] && b == [b[0]] + b[1..];
      HeadIsLeast(a, a[1..], a[0] + 1);
      HeadIsLeast(b, b[1..], b[0] + 1);
      forall x ensures x in a[1..] <==> x in b[1..] {
        assert x in a <==> x == a[0] || x in a[1..];
        assert x in b <==> x == b[0] || x in b[1..];
      }
      SameSorted(a[1..], b[1..]);
    }
  }

  /** `Subscription::add`, on a leaf that is subscribed. */
  function Added(s: Subscription, kind: SubscriptionKind): (r: Subscription) {
    match kind
    case Void => s
    case Lossy(q) => s.(lossy := s.lossy + [q])
    case Unbounded(q) => s.(unbounded := s.unbounded + [q])
    case FastCallback(id) => s.(callbacks := WithCallback(s.callbacks, id))
  }

  function RecipientOf(kind: SubscriptionKind): Option<Recipient> {
    match kind
    case Void => None
    case Lossy(q) => Some(LossyQueue(q))
    case Unbounded(q) => Some(UnboundedQueue(q))
    case FastCallback(id) => Some(Callback(id))
  }

  /** The leaf is subscribed and holds the recipient of `kind` once more, a callback just once; it holds
  everyone else as before. */
  ghost predicate Gains(s: Subscription, s': Subscription, kind: SubscriptionKind) {
    && s'.subscribed
    && forall r :: Held(s', r) ==
         if RecipientOf(kind) != Some(r) then Held(s, r) else if r.Callback? then 1 else Held(s, r) + 1
  }

  /** The leaf no longer holds this callback, and everyone else as before. */
  ghost predicate Loses(s: Subscription, s': Subscription, id: CallbackId) {
    s'.subscribed == s.subscribed && forall r :: Held(s', r) == if r == Callback(id) then 0 else Held(s, r)
  }

  /** A strictly sorted vector holds each of its elements once. */
  lemma {:induction false} SortedCount(ids: seq<CallbackId>, x: CallbackId)
    requires Sorted(ids)
    ensures multiset(ids)[x] == if x in ids then 1 else 0
  {
    if ids != [] {
      assert ids == [ids[0]] + ids[1..];
      HeadIsLeast(ids, ids[1..], ids[0] + 1);
      SortedCount(ids[1..], x);
    }
  }

  lemma InsertedCount(ids: seq<CallbackId>, id: CallbackId, x: CallbackId)
    requires Sorted(ids)
    ensures multiset(WithCallback(ids, id))[x] == if x == id then 1 else multiset(ids)[x]
  {
    SortedInsertUnique(ids, id);
    SortedCount(ids, x);
    SortedCount(WithCallback(ids, id), x);
  }

  lemma AddedHeld(s: Subscription, kind: SubscriptionKind, r: Recipient)
    requires s.Valid()
    ensures Held(Added(s, kind), r) ==
            if RecipientOf(kind) != Some(r) then Held(s, r) else if r.Callback? then 1 else Held(s, r) + 1
  {
    if kind.FastCallback? && r.Callback? {
      InsertedCount(s.callbacks, kind.id, r.id);
    }
  }

  lemma AddedGains(s: Subscription, kind: SubscriptionKind)
    requires s.Valid()
    ensures Gains(s, Added(s.(subscribed := true), kind), kind)
  {
    var s1 := s.(subscribed := true);
    forall r ensures Held(Added(s1, kind), r) ==
                     if RecipientOf(kind) != Some(r) then Held(s, r) else if r.Callback? then 1 else Held(s, r) + 1 {
      AddedHeld(s1, kind, r);
      assert Held(s1, r) == Held(s, r);
    }
  }

  lemma WithoutLoses(s: Subscription, id: CallbackId)
    requires s.Valid()
    ensures Loses(s, s.(callbacks := WithoutCallback(s.callbacks, id)), id)
  {
    RemoveUnique(s.callbacks, id);
    forall x ensures multiset(WithoutCallback(s.callbacks, id))[x] == if x == id then 0 else multiset(s.callbacks)[x] {
      SortedCount(s.callbacks, x);
      SortedCount(WithoutCallback(s.callbacks, id), x);
    }
  }

  method Add(s: Subscription, kind: SubscriptionKind) returns (r: Subscription)
    requires s.Valid() && s.subscribed
    ensures r == Added(s, kind) && r.Valid() && Gains(s, r, kind)
  {
    AddedGains(s, kind);
    match kind
    case Void => r := s;
    case Lossy(q) => r := s.(lossy := s.lossy + [q]);
    case Unbounded(q) => r := s.(unbounded := s.unbounded + [q]);
    case FastCallback(id) =>
      var ids := AddFastCallback(s.callbacks, id);
      r := s.(callbacks := ids);
  }
}
