/** Topic levels and the `*`/`#` patterns of src/transceiver/subscription.rs. */
module Topics {
  import opened Wrappers
  import opened ByteIo

  const SLASH: byte := 47

  type Level = seq<byte>
  const STAR: Level := [42]  // single-level wildcard of the code
  const HASH: Level := [35]  // recursive wildcard

  /** First level, and the rest of the path if there is a slash. */
  datatype TopicSlicer = TopicSlicer(head: Level, tail: Option<seq<byte>>)

  function Slice(s: seq<byte>): (r: TopicSlicer)
    ensures SLASH !in r.head
    ensures s == r.head + (if r.tail.Some? then [SLASH] + r.tail.value else [])
    ensures r.tail.Some? ==> |r.tail.value| < |s|
  {
    if s == [] then TopicSlicer([], None)
    else if s[0] == SLASH then TopicSlicer([], Some(s[1..]))
    else
      var r := Slice(s[1..]);
      TopicSlicer([s[0]] + r.head, r.tail)
  }

  function Levels(s: seq<byte>): (ls: seq<Level>)
    ensures ls != [] && forall l <- ls :: SLASH !in l
    decreases |s|
  {
    var r := Slice(s);
    if r.tail.None? then [r.head] else [r.head] + Levels(r.tail.value)
  }

  function Join(ls: seq<Level>): seq<byte>
    requires ls != []
  {
    if |ls| == 1 then ls[0] else ls[0] + [SLASH] + Join(ls[1..])
  }

  lemma {:induction false} JoinInvertsLevels(s: seq<byte>)
    ensures Join(Levels(s)) == s
    decreases |s|
  {
    var r := Slice(s);
    if r.tail.Some? {
      JoinInvertsLevels(r.tail.value);
      assert Levels(s)[1..] == Levels(r.tail.value);
    }
  }

  lemma {:induction false} SliceOfJoin(head: Level, rest: seq<byte>)
    requires SLASH !in head
    ensures Slice(head) == TopicSlicer(head, None)
    ensures Slice(head + [SLASH] + rest) == TopicSlicer(head, Some(rest))
  {
    var s := head + [SLASH] + rest;
    if head == [] {
      assert s[1..] == rest;
    } else {
      SliceOfJoin(head[1..], rest);
      assert s[1..] == head[1..] + [SLASH] + rest;
      assert head == [head[0]] + head[1..];
    }
  }

  /** Topics and their level sequences are the same thing: distinct topics have distinct levels. */
  lemma {:induction false} LevelsInvertsJoin(ls: seq<Level>)
    requires ls != [] && forall l <- ls :: SLASH !in l
    ensures Levels(Join(ls)) == ls
  {
    if |ls| == 1 {
      SliceOfJoin(ls[0], []);
    } else {
      LevelsInvertsJoin(ls[1..]);
      SliceOfJoin(ls[0], Join(ls[1..]));
      assert ls == [ls[0]] + ls[1..];
    }
  }

  /** `#` only as the last level. */
  predicate ValidPattern(p: seq<Level>) {
    p != [] && forall i :: 0 <= i < |p| - 1 ==> p[i] != HASH
  }

  /** The code's matching rule, level by level: `*` stands for one level, a final `#` for one
  or more. */
  predicate Matches(p: seq<Level>, topic: seq<Level>) {
    if p == [] || topic == [] then false
    else if |p| == 1 then p[0] == HASH || (|topic| == 1 && (p[0] == STAR || p[0] == topic[0]))
    else |topic| > 1 && p[0] != HASH && (p[0] == STAR || p[0] == topic[0]) && Matches(p[1..], topic[1..])
  }

  /** The same rule without recursion. */
  lemma {:induction false} MatchesPositionwise(p: seq<Level>, topic: seq<Level>)
    requires topic != []
    ensures Matches(p, topic) <==>
              && ValidPattern(p)
              && (if p[|p| - 1] == HASH then |p| <= |topic| else |p| == |topic|)
              && (forall i :: 0 <= i < |p| && i < |topic| && p[i] != HASH ==> p[i] == STAR || p[i] == topic[i])
  {
    if |p| > 1 && |topic| > 1 {
      var p', t' := p[1..], topic[1..];
      MatchesPositionwise(p', t');
      assert p == [p[0]] + p' && topic == [topic[0]] + t';
      assert p'[|p'| - 1] == p[|p| - 1];
      if ValidPattern(p) {
        assert forall i :: 0 <= i < |p'| - 1 ==> p'[i] == p[i + 1];
      }
      if Matches(p, topic) {
        forall i | 0 <= i < |p| && i < |topic| && p[i] != HASH ensures p[i] == STAR || p[i] == topic[i] {
          if i > 0 { assert p[i] == p'[i - 1] && topic[i] == t'[i - 1]; }
        }
        forall i | 0 <= i < |p| - 1 ensures p[i] != HASH {
          if i > 0 { assert p[i] == p'[i - 1]; }
        }
      }
    }
  }
}

/** The subscription tree: an index from topic patterns to leaves. */
module SubscriptionSets {
  import opened Wrappers
  import opened ByteIo
  import opened Subscriptions
  import opened Topics

  datatype Node = Node(exact: map<Level, Entry>, any: Option<Entry>, anyRecursive: Subscription)
  datatype Entry = Entry(sub: Subscription, children: Node)

  const EMPTY_NODE: Node := Node(map[], None, EMPTY)
  const EMPTY_ENTRY: Entry := Entry(EMPTY, EMPTY_NODE)

  /** No wildcard is ever stored as an exact level. */
  ghost predicate Clean(n: Node) {
    && STAR !in n.exact && HASH !in n.exact
    && (n.any.Some? ==> Clean(n.any.value.children))
    && forall k <- n.exact :: Clean(n.exact[k].children)
  }

  function Child(n: Node, l: Level): Option<Entry> {
    if l == STAR then n.any else if l in n.exact then Some(n.exact[l]) else None
  }

  function WithChild(n: Node, l: Level, e: Entry): Node {
    if l == STAR then n.(any := Some(e)) else n.(exact := n.exact[l := e])
  }

  /** The leaf a pattern addresses, if its nodes exist. */
  function LeafAt(n: Node, p: seq<Level>): Option<Subscription> {
    if p == [] then None
    else if |p| == 1 then
      if p[0] == HASH then Some(n.anyRecursive)
      else match Child(n, p[0]) case None => None case Some(e) => Some(e.sub)
    else if p[0] == HASH then None
    else match Child(n, p[0]) case None => None case Some(e) => LeafAt(e.children, p[1..])
  }

  function Leaf(n: Node, p: seq<Level>): Subscription {
    match LeafAt(n, p) case None => EMPTY case Some(s) => s
  }

  ghost predicate AllLeavesValid(n: Node) {
    forall p :: Leaf(n, p).Valid()
  }

  // ----- Dispatch -----

  function DispatchEntry(e: Entry, rest: seq<Level>, net: Network): (Entry, seq<Recipient>)
    decreases |rest|, 1
  {
    if rest == [] then (Entry(AfterDispatch(e.sub, net), e.children), Takers(e.sub, net))
    else
      var (c, t) := DispatchNode(e.children, rest, net);
      (Entry(e.sub, c), t)
  }

  function DispatchNode(n: Node, topic: seq<Level>, net: Network): (Node, seq<Recipient>)
    requires topic != []
    decreases |topic|, 0
  {
    var n0 := n.(anyRecursive := AfterDispatch(n.anyRecursive, net));
    var (n1, t1) :=
      if n0.any.Some? then
        var (e, t) := DispatchEntry(n0.any.value, topic[1..], net);
        (n0.(any := Some(e)), t)
      else (n0, []);
    var (n2, t2) :=
      if topic[0] in n1.exact then
        var (e, t) := DispatchEntry(n1.exact[topic[0]], topic[1..], net);
        (n1.(exact := n1.exact[topic[0] := e]), t)
      else (n1, []);
    (n2, Takers(n.anyRecursive, net) + t1 + t2)
  }

  function Prefixes(l: Level, ps: seq<seq<Level>>): (r: seq<seq<Level>>)
    ensures |r| == |ps| && forall i :: 0 <= i < |r| ==> r[i] == [l] + ps[i]
  {
    seq(|ps|, i requires 0 <= i < |ps| => [l] + ps[i])
  }

  /** The patterns of the leaves a dispatch reaches, in the order it reaches them. */
  ghost function VisitedEntry(e: Entry, rest: seq<Level>): seq<seq<Level>>
    decreases |rest|, 1
  {
    if rest == [] then [[]] else Visited(e.children, rest)
  }

  ghost function Visited(n: Node, topic: seq<Level>): seq<seq<Level>>
    requires topic != []
    decreases |topic|, 0
  {
    [[HASH]]
    + (if n.any.Some? then Prefixes(STAR, VisitedEntry(n.any.value, topic[1..])) else [])
    + (if topic[0] in n.exact then Prefixes(topic[0], VisitedEntry(n.exact[topic[0]], topic[1..])) else [])
  }

  ghost predicate Distinct<T>(s: seq<T>) {
    forall i, j :: 0 <= i < j < |s| ==> s[i] != s[j]
  }

  /** What a walk below an entry finds: its own leaf at [], its children's elsewhere. */
  ghost function LeafBelow(e: Entry, p: seq<Level>): Option<Subscription> {
    if p == [] then Some(e.sub) else LeafAt(e.children, p)
  }

  ghost predicate MatchesBelow(p: seq<Level>, rest: seq<Level>) {
    if rest == [] then p == [] else Matches(p, rest)
  }

  lemma LeafStep(n: Node, l: Level, p: seq<Level>)
    requires l != HASH
    ensures LeafAt(n, [l] + p) == (match Child(n, l) case None => None case Some(e) => LeafBelow(e, p))
  {
    assert ([l] + p)[1..] == p;
  }

  lemma MatchStep(l: Level, p: seq<Level>, topic: seq<Level>)
    requires l != HASH && topic != []
    ensures Matches([l] + p, topic) <==> (l == STAR || l == topic[0]) && MatchesBelow(p, topic[1..])
  {
    assert ([l] + p)[1..] == p;
  }

  lemma {:induction false} VisitedEntryExact(e: Entry, rest: seq<Level>, p: seq<Level>)
    requires Clean(e.children)
    ensures p in VisitedEntry(e, rest) <==> LeafBelow(e, p).Some? && MatchesBelow(p, rest)
    ensures Distinct(VisitedEntry(e, rest))
    decreases |rest|, 1
  {
    if rest != [] {
      VisitedExact(e.children, rest, p);
    }
  }

  lemma PrefixesIn(l: Level, ps: seq<seq<Level>>, p: seq<Level>)
    ensures p in Prefixes(l, ps) <==> p != [] && p[0] == l && p[1..] in ps
  {
    if p in Prefixes(l, ps) {
      var i :| 0 <= i < |ps| && Prefixes(l, ps)[i] == p;
      assert p[1..] == ps[i];
    }
    if p != [] && p[0] == l && p[1..] in ps {
      var i :| 0 <= i < |ps| && ps[i] == p[1..];
      assert p == [l] + p[1..] == Prefixes(l, ps)[i];
    }
  }

  lemma PrefixesDistinct(l: Level, ps: seq<seq<Level>>)
    requires Distinct(ps)
    ensures Distinct(Prefixes(l, ps))
  {
    var r := Prefixes(l, ps);
    forall i, j | 0 <= i < j < |r| ensures r[i] != r[j] {
      assert r[i][1..] == ps[i] && r[j][1..] == ps[j];
    }
  }

  /** A dispatch reaches exactly the leaves whose pattern matches the topic, each once. */
  lemma {:induction false} VisitedExact(n: Node, topic: seq<Level>, p: seq<Level>)
    requires topic != [] && Clean(n)
    ensures p in Visited(n, topic) <==> LeafAt(n, p).Some? && Matches(p, topic)
    ensures Distinct(Visited(n, topic))
    decreases |topic|, 0
  {
    var rest := topic[1..];
    var q := if p == [] then [] else p[1..];
    var va := if n.any.Some? then Prefixes(STAR, VisitedEntry(n.any.value, rest)) else [];
    var ve := if topic[0] in n.exact then Prefixes(topic[0], VisitedEntry(n.exact[topic[0]], rest)) else [];
    if n.any.Some? {
      VisitedEntryExact(n.any.value, rest, q);
      PrefixesIn(STAR, VisitedEntry(n.any.value, rest), p);
      PrefixesDistinct(STAR, VisitedEntry(n.any.value, rest));
    }
    if topic[0] in n.exact {
      VisitedEntryExact(n.exact[topic[0]], rest, q);
      PrefixesIn(topic[0], VisitedEntry(n.exact[topic[0]], rest), p);
      PrefixesDistinct(topic[0], VisitedEntry(n.exact[topic[0]], rest));
    }
    assert Visited(n, topic) == [[HASH]] + va + ve;
    assert p in Visited(n, topic) <==> p == [HASH] || p in va || p in ve;
    assert Distinct(Visited(n, topic)) by { DistinctParts(n, topic, va, ve); }
    if p != [] && p[0] != HASH {
      assert p == [p[0]] + q;
      LeafStep(n, p[0], q);
      MatchStep(p[0], q, topic);
    } else if p != [] {
      assert |p| == 1 ==> p == [HASH];
    }
  }

  lemma DistinctParts(n: Node, topic: seq<Level>, va: seq<seq<Level>>, ve: seq<seq<Level>>)
    requires topic != [] && Clean(n) && Distinct(va) && Distinct(ve)
    requires forall p <- va :: p != [] && p[0] == STAR
    requires ve != [] ==> topic[0] in n.exact
    requires forall p <- ve :: p != [] && p[0] == topic[0]
    ensures Distinct([[HASH]] + va + ve)
  {
    var all := [[HASH]] + va + ve;
    forall i, j | 0 <= i < j < |all| ensures all[i] != all[j] {
      if j <= |va| {
        assert all[j] in va;
      } else {
        assert all[j] in ve;
        if 1 <= i <= |va| { assert all[i] in va; }
      }
    }
  }

  /** What the leaves of a list of patterns deliver. */
  ghost function Gather(n: Node, ps: seq<seq<Level>>, net: Network): seq<Recipient> {
    if ps == [] then [] else Takers(Leaf(n, ps[0]), net) + Gather(n, ps[1..], net)
  }

  lemma GatherCons(n: Node, p: seq<Level>, ps: seq<seq<Level>>, net: Network)
    ensures Gather(n, [p] + ps, net) == Takers(Leaf(n, p), net) + Gather(n, ps, net)
  {
    assert ([p] + ps)[1..] == ps;
  }

  lemma {:induction false} GatherAppend(n: Node, a: seq<seq<Level>>, b: seq<seq<Level>>, net: Network)
    ensures Gather(n, a + b, net) == Gather(n, a, net) + Gather(n, b, net)
  {
    if a == [] {
      assert a + b == b;
    } else {
      var first, rest := a[0], a[1..];
      assert a + b == [first] + (rest + b);
      GatherAppend(n, rest, b, net);
      GatherCons(n, first, rest + b, net);
      assert Gather(n, a, net) == Takers(Leaf(n, first), net) + Gather(n, rest, net);
      Assoc(Takers(Leaf(n, first), net), Gather(n, rest, net), Gather(n, b, net));
    }
  }

  lemma {:induction false} GatherBelow(n: Node, l: Level, e: Entry, ps: seq<seq<Level>>, net: Network)
    requires l != HASH && Child(n, l) == Some(e) && [] !in ps
    ensures Gather(n, Prefixes(l, ps), net) == Gather(e.children, ps, net)
  {
    if ps != [] {
      LeafStep(n, l, ps[0]);
      assert Prefixes(l, ps)[1..] == Prefixes(l, ps[1..]);
      GatherBelow(n, l, e, ps[1..], net);
    }
  }

  lemma {:induction false} EntryDelivers(n: Node, l: Level, e: Entry, rest: seq<Level>, net: Network)
    requires Clean(n) && l != HASH && Child(n, l) == Some(e) && Clean(e.children)
    ensures DispatchEntry(e, rest, net).1 == Gather(n, Prefixes(l, VisitedEntry(e, rest)), net)
    decreases |rest|, 1
  {
    if rest == [] {
      LeafStep(n, l, []);
      assert Prefixes(l, [[]]) == [[l] + []];
      assert Prefixes(l, [[]])[1..] == [];
    } else {
      DispatchDelivers(e.children, rest, net);
      VisitedExact(e.children, rest, []);
      GatherBelow(n, l, e, Visited(e.children, rest), net);
    }
  }

  /** The recipients of a dispatch are those of the leaves it reaches, in order. */
  lemma {:induction false} DispatchDelivers(n: Node, topic: seq<Level>, net: Network)
    requires topic != [] && Clean(n)
    ensures DispatchNode(n, topic, net).1 == Gather(n, Visited(n, topic), net)
    decreases |topic|, 0
  {
    var rest := topic[1..];
    var va := if n.any.Some? then Prefixes(STAR, VisitedEntry(n.any.value, rest)) else [];
    var ve := if topic[0] in n.exact then Prefixes(topic[0], VisitedEntry(n.exact[topic[0]], rest)) else [];
    if n.any.Some? {
      EntryDelivers(n, STAR, n.any.value, rest, net);
    }
    if topic[0] in n.exact {
      EntryDelivers(n, topic[0], n.exact[topic[0]], rest, net);
    }
    GatherAppend(n, [[HASH]], va, net);
    GatherAppend(n, [[HASH]] + va, ve, net);
    assert Gather(n, [[HASH]], net) == Takers(n.anyRecursive, net) + Gather(n, [], net);
  }

  /** Matching leaves lose their closed queues; every other leaf is untouched. */
  lemma {:induction false} DispatchUpdates(n: Node, topic: seq<Level>, net: Network, p: seq<Level>)
    requires topic != [] && Clean(n)
    ensures Clean(DispatchNode(n, topic, net).0)
    ensures LeafAt(DispatchNode(n, topic, net).0, p) ==
            match LeafAt(n, p)
            case None => None
            case Some(s) => Some(if Matches(p, topic) then AfterDispatch(s, net) else s)
    decreases |topic|, 0
  {
    var rest := topic[1..];
    var q := if p == [] then [] else p[1..];
    var n' := DispatchNode(n, topic, net).0;
    if n.any.Some? {
      EntryUpdates(n.any.value, rest, net, q);
    }
    if topic[0] in n.exact {
      EntryUpdates(n.exact[topic[0]], rest, net, q);
    }
    if p != [] && p[0] != HASH {
      assert p == [p[0]] + q;
      LeafStep(n, p[0], q);
      LeafStep(n', p[0], q);
      MatchStep(p[0], q, topic);
    }
  }

  lemma {:induction false} EntryUpdates(e: Entry, rest: seq<Level>, net: Network, p: seq<Level>)
    requires Clean(e.children)
    ensures Clean(DispatchEntry(e, rest, net).0.children)
    ensures LeafBelow(DispatchEntry(e, rest, net).0, p) ==
            match LeafBelow(e, p)
            case None => None
            case Some(s) => Some(if MatchesBelow(p, rest) then AfterDispatch(s, net) else s)
    decreases |rest|, 1
  {
    if rest != [] {
      DispatchUpdates(e.children, rest, net, p);
    }
  }

  // ----- The tree as an index over a flat table of subscriptions -----

  type Table = map<seq<Level>, Subscription>

  /** Every pattern addresses its table entry; absent patterns address empty leaves. */
  ghost predicate Represents(n: Node, table: Table) {
    && (forall p <- table :: ValidPattern(p))
    && forall p :: Leaf(n, p) == if p in table then table[p] else EMPTY
  }

  /** The simple form: test every stored pattern against the topic. */
  function LinearScan(ps: seq<seq<Level>>, table: Table, topic: seq<Level>, net: Network): seq<Recipient>
    requires forall p <- ps :: p in table
  {
    if ps == [] then []
    else (if Matches(ps[0], topic) then Takers(table[ps[0]], net) else []) + LinearScan(ps[1..], table, topic, net)
  }

  function AfterScan(table: Table, topic: seq<Level>, net: Network): Table {
    map p <- table :: if Matches(p, topic) then AfterDispatch(table[p], net) else table[p]
  }

  ghost function Share(n: Node, p: seq<Level>, topic: seq<Level>, net: Network): seq<Recipient> {
    if Matches(p, topic) then Takers(Leaf(n, p), net) else []
  }

  ghost function Collect(n: Node, ps: seq<seq<Level>>, topic: seq<Level>, net: Network): seq<Recipient> {
    if ps == [] then [] else Share(n, ps[0], topic, net) + Collect(n, ps[1..], topic, net)
  }

  lemma {:induction false} CollectRemove(n: Node, ps: seq<seq<Level>>, i: nat, topic: seq<Level>, net: Network)
    requires i < |ps|
    ensures multiset(Collect(n, ps, topic, net)) ==
            multiset(Share(n, ps[i], topic, net)) + multiset(Collect(n, ps[..i] + ps[i + 1..], topic, net))
  {
    if i == 0 {
      assert ps[..0] + ps[1..] == ps[1..];
    } else {
      CollectRemove(n, ps[1..], i - 1, topic, net);
      var less := ps[..i] + ps[i + 1..];
      assert less[1..] == ps[1..][..i - 1] + ps[1..][i..];
      assert less[0] == ps[0] && ps[1..][i - 1] == ps[i];
    }
  }

  lemma {:induction false} CollectNothing(n: Node, ps: seq<seq<Level>>, topic: seq<Level>, net: Network)
    requires forall p <- ps :: Share(n, p, topic, net) == []
    ensures Collect(n, ps, topic, net) == []
  {
    if ps != [] {
      CollectNothing(n, ps[1..], topic, net);
    }
  }

  /** Two duplicate-free lists that differ only in patterns without share collect the same. */
  lemma {:induction false} CollectSame(n: Node, a: seq<seq<Level>>, b: seq<seq<Level>>, topic: seq<Level>, net: Network)
    requires Distinct(a) && Distinct(b)
    requires forall p <- a :: p in b || Share(n, p, topic, net) == []
    requires forall p <- b :: p in a || Share(n, p, topic, net) == []
    ensures multiset(Collect(n, a, topic, net)) == multiset(Collect(n, b, topic, net))
  {
    if a == [] {
      CollectNothing(n, b, topic, net);
    } else {
      var x, a' := a[0], a[1..];
      assert x !in a' && a == [x] + a';
      if x in b {
        var i :| 0 <= i < |b| && b[i] == x;
        var b' := b[..i] + b[i + 1..];
        CollectRemove(n, b, i, topic, net);
        RemoveAt(b, i);
        CollectSame(n, a', b', topic, net);
      } else {
        CollectSame(n, a', b, topic, net);
      }
    }
  }

  lemma RemoveAt<T(!new)>(b: seq<T>, i: nat)
    requires Distinct(b) && i < |b|
    ensures Distinct(b[..i] + b[i + 1..]) && b[i] !in b[..i] + b[i + 1..]
    ensures forall p :: p in b <==> p == b[i] || p in b[..i] + b[i + 1..]
  {
    assert b == b[..i] + [b[i]] + b[i + 1..];
  }

  lemma {:induction false} GatherIsCollect(n: Node, ps: seq<seq<Level>>, topic: seq<Level>, net: Network)
    requires forall p <- ps :: Matches(p, topic)
    ensures Gather(n, ps, net) == Collect(n, ps, topic, net)
  {
    if ps != [] {
      GatherIsCollect(n, ps[1..], topic, net);
    }
  }

  lemma {:induction false} ScanIsCollect(n: Node, ps: seq<seq<Level>>, table: Table, topic: seq<Level>, net: Network)
    requires Represents(n, table) && forall p <- ps :: p in table
    ensures LinearScan(ps, table, topic, net) == Collect(n, ps, topic, net)
  {
    if ps != [] {
      ScanIsCollect(n, ps[1..], table, topic, net);
    }
  }

  /** Dispatching through the tree delivers what testing every stored pattern would deliver,
  and leaves the tree representing the table that test would leave. */
  lemma DispatchRefinesLinearScan(n: Node, table: Table, ps: seq<seq<Level>>, topic: seq<Level>, net: Network)
    requires topic != [] && Clean(n) && Represents(n, table)
    requires Distinct(ps) && forall p :: p in ps <==> p in table
    ensures multiset(DispatchNode(n, topic, net).1) == multiset(LinearScan(ps, table, topic, net))
    ensures Clean(DispatchNode(n, topic, net).0)
    ensures Represents(DispatchNode(n, topic, net).0, AfterScan(table, topic, net))
  {
    var visited := Visited(n, topic);
    forall p ensures p in visited <==> LeafAt(n, p).Some? && Matches(p, topic) {
      VisitedExact(n, topic, p);
    }
    VisitedExact(n, topic, []);
    DispatchDelivers(n, topic, net);
    GatherIsCollect(n, visited, topic, net);
    ScanIsCollect(n, ps, table, topic, net);
    assert Takers(EMPTY, net) == [];
    CollectSame(n, visited, ps, topic, net);
    DispatchUpdatesTable(n, table, topic, net);
  }

  lemma DispatchUpdatesTable(n: Node, table: Table, topic: seq<Level>, net: Network)
    requires topic != [] && Clean(n) && Represents(n, table)
    ensures Clean(DispatchNode(n, topic, net).0)
    ensures Represents(DispatchNode(n, topic, net).0, AfterScan(table, topic, net))
  {
    DispatchUpdates(n, topic, net, []);
    forall p ensures Leaf(DispatchNode(n, topic, net).0, p) ==
                     (if p in table then AfterScan(table, topic, net)[p] else EMPTY) {
      DispatchUpdates(n, topic, net, p);
      assert AfterDispatch(EMPTY, net) == EMPTY;
    }
  }

  // ----- Who is handed a message -----

  /** A list of exactly the patterns in the tree that match a topic, each once. */
  ghost predicate Matching(n: Node, topic: seq<Level>, ps: seq<seq<Level>>) {
    Distinct(ps) && forall p :: p in ps <==> LeafAt(n, p).Some? && Matches(p, topic)
  }

  /** How often the leaves of these patterns hold a recipient. */
  ghost function HeldBy(n: Node, ps: seq<seq<Level>>, r: Recipient): nat {
    if ps == [] then 0 else Held(Leaf(n, ps[0]), r) + HeldBy(n, ps[1..], r)
  }

  /** `takers` are the recipients of all matching leaves that can take the message, each as often as those
  leaves hold it, and nobody else. */
  ghost predicate HandedOut(n: Node, topic: seq<Level>, net: Network, takers: seq<Recipient>) {
    exists ps :: Matching(n, topic, ps)
                 && forall r :: multiset(takers)[r] == if Accepts(net, r) then HeldBy(n, ps, r) else 0
  }

  /** Exactly the matching leaves have lost exactly their closed queues. */
  ghost predicate PrunedTree(n: Node, n': Node, topic: seq<Level>, net: Network) {
    forall p :: if Matches(p, topic) then Pruned(Leaf(n, p), Leaf(n', p), net) else Leaf(n', p) == Leaf(n, p)
  }

  lemma {:induction false} GatherCounts(n: Node, ps: seq<seq<Level>>, net: Network, r: Recipient)
    ensures multiset(Gather(n, ps, net))[r] == if Accepts(net, r) then HeldBy(n, ps, r) else 0
  {
    if ps != [] {
      LeafHandsOut(Leaf(n, ps[0]), net, r);
      GatherCounts(n, ps[1..], net, r);
    }
  }

  /** A dispatch hands the message to whom the matching leaves hold, and prunes those leaves. */
  lemma DispatchHandsOut(n: Node, topic: seq<Level>, net: Network)
    requires topic != [] && Clean(n)
    ensures HandedOut(n, topic, net, DispatchNode(n, topic, net).1)
    ensures PrunedTree(n, DispatchNode(n, topic, net).0, topic, net)
  {
    var ps := Visited(n, topic);
    forall p ensures p in ps <==> LeafAt(n, p).Some? && Matches(p, topic) {
      VisitedExact(n, topic, p);
    }
    VisitedExact(n, topic, []);
    assert Matching(n, topic, ps);
    DispatchDelivers(n, topic, net);
    forall r ensures multiset(Gather(n, ps, net))[r] == if Accepts(net, r) then HeldBy(n, ps, r) else 0 {
      GatherCounts(n, ps, net, r);
    }
    var n' := DispatchNode(n, topic, net).0;
    forall p ensures if Matches(p, topic) then Pruned(Leaf(n, p), Leaf(n', p), net) else Leaf(n', p) == Leaf(n, p) {
      DispatchUpdates(n, topic, net, p);
      LeafIsPruned(Leaf(n, p), net);
    }
  }

  /** Who is among the takers: exactly those that can take the message and are held by a matching leaf. */
  lemma HandedOutMeans(n: Node, topic: seq<Level>, net: Network, takers: seq<Recipient>, r: Recipient)
    requires HandedOut(n, topic, net, takers)
    ensures r in takers <==> Accepts(net, r) && exists p :: Matches(p, topic) && Held(Leaf(n, p), r) > 0
  {
    var ps :| Matching(n, topic, ps)
              && forall r :: multiset(takers)[r] == if Accepts(net, r) then HeldBy(n, ps, r) else 0;
    assert r in takers <==> multiset(takers)[r] > 0;
    HeldByMeans(n, ps, r);
    if p :| Matches(p, topic) && Held(Leaf(n, p), r) > 0 {
      assert Held(EMPTY, r) == 0;
      assert p in ps;
    }
  }

  lemma {:induction false} HeldByMeans(n: Node, ps: seq<seq<Level>>, r: Recipient)
    ensures HeldBy(n, ps, r) > 0 <==> exists p <- ps :: Held(Leaf(n, p), r) > 0
  {
    if ps != [] {
      HeldByMeans(n, ps[1..], r);
      assert ps == [ps[0]] + ps[1..];
    }
  }

  // ----- Creating and changing leaves -----

  function ChildOrNew(n: Node, l: Level): Entry {
    match Child(n, l) case None => EMPTY_ENTRY case Some(e) => e
  }

  /** The nodes `get_or_create` adds, up to the first misplaced `#`. */
  function Grow(n: Node, p: seq<Level>): Node
    requires p != []
    decreases |p|
  {
    if p[0] == HASH then n
    else
      var e := ChildOrNew(n, p[0]);
      WithChild(n, p[0], if |p| == 1 then e else Entry(e.sub, Grow(e.children, p[1..])))
  }

  function SetLeaf(n: Node, p: seq<Level>, s: Subscription): Node
    requires LeafAt(n, p).Some?
  {
    if |p| == 1 then
      if p[0] == HASH then n.(anyRecursive := s)
      else WithChild(n, p[0], Entry(s, Child(n, p[0]).value.children))
    else
      var e := Child(n, p[0]).value;
      WithChild(n, p[0], Entry(e.sub, SetLeaf(e.children, p[1..], s)))
  }

  lemma EmptyNodeLeaves(q: seq<Level>)
    ensures Leaf(EMPTY_NODE, q) == EMPTY && Clean(EMPTY_NODE)
  {
  }

  lemma WithChildLeaf(n: Node, l: Level, e: Entry, q: seq<Level>)
    requires l != HASH
    ensures LeafAt(WithChild(n, l, e), q) ==
            if q != [] && q[0] == l then LeafBelow(e, q[1..]) else LeafAt(n, q)
    ensures Clean(n) && Clean(e.children) ==> Clean(WithChild(n, l, e))
  {
    var n' := WithChild(n, l, e);
    if q != [] && q[0] != HASH {
      assert q == [q[0]] + q[1..];
      LeafStep(n, q[0], q[1..]);
      LeafStep(n', q[0], q[1..]);
    }
  }

  /** Growing, even along a path that turns out invalid, adds empty leaves and nothing else. */
  lemma {:induction false} GrowKeepsLeaves(n: Node, p: seq<Level>, q: seq<Level>)
    requires p != [] && Clean(n)
    ensures Clean(Grow(n, p))
    ensures Leaf(Grow(n, p), q) == Leaf(n, q)
    ensures LeafAt(n, q).Some? ==> LeafAt(Grow(n, p), q) == LeafAt(n, q)
    decreases |p|
  {
    if p[0] != HASH {
      var e := ChildOrNew(n, p[0]);
      var e' := if |p| == 1 then e else Entry(e.sub, Grow(e.children, p[1..]));
      EmptyNodeLeaves([]);
      if |p| > 1 {
        GrowKeepsLeaves(e.children, p[1..], if q == [] then [] else q[1..]);
      }
      WithChildLeaf(n, p[0], e', q);
      if q != [] && q[0] == p[0] {
        assert q == [q[0]] + q[1..];
        LeafStep(n, q[0], q[1..]);
        EmptyNodeLeaves(q[1..]);
      }
    }
  }

  lemma {:induction false} GrowReaches(n: Node, p: seq<Level>)
    requires ValidPattern(p)
    ensures LeafAt(Grow(n, p), p).Some?
    decreases |p|
  {
    if p[0] != HASH {
      var e := ChildOrNew(n, p[0]);
      if |p| > 1 {
        GrowReaches(e.children, p[1..]);
      }
      WithChildLeaf(n, p[0], if |p| == 1 then e else Entry(e.sub, Grow(e.children, p[1..])), p);
    } else {
      assert |p| == 1;
    }
  }

  /** A child that delivers what the old one did, or nothing if there was none. */
  lemma ReplacedChild(n: Node, l: Level, e: Entry, topic: seq<Level>, net: Network)
    requires topic != []
    requires DispatchEntry(e, topic[1..], net).1 == DispatchEntry(ChildOrNew(n, l), topic[1..], net).1
    ensures DispatchNode(WithChild(n, l, e), topic, net).1 == DispatchNode(n, topic, net).1
  {
    EmptyDispatch(topic[1..], net);
  }

  lemma {:induction false} GrownEntry(e: Entry, p: seq<Level>, rest: seq<Level>, net: Network)
    requires p != []
    ensures DispatchEntry(Entry(e.sub, Grow(e.children, p)), rest, net).1 == DispatchEntry(e, rest, net).1
    decreases |p|, 1
  {
    if rest != [] {
      GrowKeepsDispatch(e.children, p, rest, net);
    }
  }

  /** Growing changes no dispatch result. */
  lemma {:induction false} GrowKeepsDispatch(n: Node, p: seq<Level>, topic: seq<Level>, net: Network)
    requires p != [] && topic != []
    ensures DispatchNode(Grow(n, p), topic, net).1 == DispatchNode(n, topic, net).1
    decreases |p|, 0
  {
    if p[0] != HASH {
      var e := ChildOrNew(n, p[0]);
      if |p| == 1 {
        ReplacedChild(n, p[0], e, topic, net);
      } else {
        GrownEntry(e, p[1..], topic[1..], net);
        ReplacedChild(n, p[0], Entry(e.sub, Grow(e.children, p[1..])), topic, net);
      }
    }
  }

  lemma EmptyDispatch(rest: seq<Level>, net: Network)
    ensures DispatchEntry(EMPTY_ENTRY, rest, net).1 == []
  {
    assert Takers(EMPTY, net) == [];
    if rest != [] {
      assert DispatchNode(EMPTY_NODE, rest, net).1 == [];
    }
  }

  /** Creating nodes is invisible: no leaf, no dispatch result changes; a valid pattern gets a leaf. */
  lemma GrowIsInvisible(n: Node, p: seq<Level>)
    requires p != [] && Clean(n)
    ensures Clean(Grow(n, p)) && forall q :: Leaf(Grow(n, p), q) == Leaf(n, q)
    ensures forall t, net :: t != [] ==> DispatchNode(Grow(n, p), t, net).1 == DispatchNode(n, t, net).1
    ensures LeafAt(Grow(n, p), p).Some? <==> ValidPattern(p)
  {
    GrowKeepsLeaves(n, p, p);
    forall q ensures Leaf(Grow(n, p), q) == Leaf(n, q) {
      GrowKeepsLeaves(n, p, q);
    }
    forall t, net: Network | t != [] ensures DispatchNode(Grow(n, p), t, net).1 == DispatchNode(n, t, net).1 {
      GrowKeepsDispatch(n, p, t, net);
    }
    if ValidPattern(p) {
      GrowReaches(n, p);
    }
    if LeafAt(Grow(n, p), p).Some? {
      LeafMeansValid(Grow(n, p), p);
    }
  }

  /** Writing a leaf changes the leaf of that pattern and no other. */
  lemma {:induction false} SetLeafLocal(n: Node, p: seq<Level>, s: Subscription, q: seq<Level>)
    requires LeafAt(n, p).Some? && Clean(n)
    ensures Clean(SetLeaf(n, p, s))
    ensures LeafAt(SetLeaf(n, p, s), q) == if q == p then Some(s) else LeafAt(n, q)
    decreases |p|
  {
    if p[0] == HASH {
      assert p == [HASH] && (|q| == 1 ==> q == [q[0]]);
    } else {
      var e := Child(n, p[0]).value;
      var e' := if |p| == 1 then Entry(s, e.children) else Entry(e.sub, SetLeaf(e.children, p[1..], s));
      var q' := if q == [] then [] else q[1..];
      if |p| > 1 {
        SetLeafLocal(e.children, p[1..], s, q');
      }
      WithChildLeaf(n, p[0], e', q);
      if q != [] && q[0] == p[0] {
        assert q == [q[0]] + q' && p == [p[0]] + p[1..];
        LeafStep(n, q[0], q');
      }
    }
  }

  /** `get` meets a `#` that is not last before it meets a missing node. */
  predicate HitsHash(n: Node, p: seq<Level>) {
    && |p| > 1
    && (p[0] == HASH || (Child(n, p[0]).Some? && HitsHash(Child(n, p[0]).value.children, p[1..])))
  }

  /** A pattern that `get` reports as invalid has no leaf. */
  lemma {:induction false} HashHidesLeaf(n: Node, p: seq<Level>)
    ensures HitsHash(n, p) ==> LeafAt(n, p).None?
  {
    if |p| > 1 && p[0] != HASH && Child(n, p[0]).Some? {
      HashHidesLeaf(Child(n, p[0]).value.children, p[1..]);
    }
  }

  /** All the levels of `p` exist as nodes. */
  ghost predicate HasPath(n: Node, p: seq<Level>) {
    p == [] || (p[0] != HASH && Child(n, p[0]).Some? && HasPath(Child(n, p[0]).value.children, p[1..]))
  }

  /** When `get` reports an invalid pattern: exactly when the nodes before the first misplaced
  `#` exist. The documented "Err if the pattern is invalid" holds in that case only. */
  lemma {:induction false} ErrExactly(n: Node, p: seq<Level>)
    requires Clean(n)
    ensures HitsHash(n, p) <==> exists i :: 0 <= i < |p| - 1 && p[i] == HASH && HasPath(n, p[..i])
    ensures HitsHash(n, p) ==> !ValidPattern(p)
  {
    if |p| > 1 {
      if p[0] == HASH {
        assert HasPath(n, p[..0]);
      } else if Child(n, p[0]).Some? {
        var c := Child(n, p[0]).value.children;
        ErrExactly(c, p[1..]);
        if HitsHash(n, p) {
          var i :| 0 <= i < |p[1..]| - 1 && p[1..][i] == HASH && HasPath(c, p[1..][..i]);
          assert p[..i + 1][1..] == p[1..][..i];
          assert p[i + 1] == HASH && HasPath(n, p[..i + 1]);
        }
        if i :| 0 <= i < |p| - 1 && p[i] == HASH && HasPath(n, p[..i]) {
          assert p[..i][1..] == p[1..][..i - 1];
          assert p[1..][i - 1] == HASH && HasPath(c, p[1..][..i - 1]);
        }
      } else {
        forall i | 0 <= i < |p| - 1 && p[i] == HASH ensures !HasPath(n, p[..i]) {
          assert p[..i][0] == p[0];
        }
      }
    }
  }

  /** An invalid pattern that `get` does not report: `a/#/b` in a tree without `a`. */
  lemma InvalidYetNotReported()
    ensures var p := Levels([97, SLASH, 35, SLASH, 98]);
            !ValidPattern(p) && !HitsHash(EMPTY_NODE, p) && LeafAt(EMPTY_NODE, p) == None
  {
    var s: seq<byte> := [97, SLASH, 35, SLASH, 98];
    assert s == Join([[97], HASH, [98]]) by {
      assert Join([[98]]) == [98];
      assert [HASH, [98]][1..] == [[98]];
      assert Join([HASH, [98]]) == HASH + [SLASH] + [98];
      assert [[97], HASH, [98]][1..] == [HASH, [98]];
    }
    LevelsInvertsJoin([[97], HASH, [98]]);
    assert Levels(s)[1] == HASH;
  }

  lemma EveryListing(n: Node, table: Table, topic: seq<Level>, net: Network)
    requires topic != [] && Clean(n) && Represents(n, table)
    ensures forall ps: seq<seq<Level>> :: Distinct(ps) && (forall p :: p in ps <==> p in table) ==>
              multiset(DispatchNode(n, topic, net).1) == multiset(LinearScan(ps, table, topic, net))
    ensures Clean(DispatchNode(n, topic, net).0)
    ensures Represents(DispatchNode(n, topic, net).0, AfterScan(table, topic, net))
    ensures (forall p <- table :: table[p].Valid()) ==>
              forall p <- AfterScan(table, topic, net) :: AfterScan(table, topic, net)[p].Valid()
  {
    forall ps: seq<seq<Level>> | Distinct(ps) && forall p :: p in ps <==> p in table
      ensures multiset(DispatchNode(n, topic, net).1) == multiset(LinearScan(ps, table, topic, net))
    {
      DispatchRefinesLinearScan(n, table, ps, topic, net);
    }
    DispatchRefinesLinearScan(n, table, Listing(table.Keys), topic, net);
    forall p | p in table && table[p].Valid() ensures AfterDispatch(table[p], net).Valid() {
      DispatchKeepsLeafValid(table[p], net);
    }
  }

  /** What `get` returns, in terms of the table. */
  lemma GetFindsTable(n: Node, table: Table, p: seq<Level>)
    requires Clean(n) && Represents(n, table)
    ensures LeafAt(n, p).Some? ==> ValidPattern(p) && LeafAt(n, p).value == (if p in table then table[p] else EMPTY)
    ensures LeafAt(n, p).None? && p in table ==> table[p] == EMPTY
    ensures HitsHash(n, p) ==> p !in table
  {
    ErrExactly(n, p);
    if LeafAt(n, p).Some? {
      LeafMeansValid(n, p);
    }
    assert Leaf(n, p) == if p in table then table[p] else EMPTY;
  }

  class SubscriptionSet {
    var root: Node
    ghost var table: Table

    ghost predicate Valid()
      reads this
    {
      && Clean(root) && Represents(root, table)
      && (forall p <- table :: table[p].Valid())
    }

    constructor ()
      ensures Valid() && table == map[] && root == EMPTY_NODE
    {
      root := EMPTY_NODE;
      table := map[];
      new;
      forall p ensures Leaf(root, p) == EMPTY {
        EmptyNodeLeaves(p);
      }
    }

    /** Delivers to the queues and callbacks of every matching pattern. */
    method Dispatch(topic: seq<byte>, net: Network) returns (takers: seq<Recipient>)
      requires Valid()
      modifies this
      ensures Valid() && table == AfterScan(old(table), Levels(topic), net)
      ensures (root, takers) == DispatchNode(old(root), Levels(topic), net)
      ensures forall ps: seq<seq<Level>> :: Distinct(ps) && (forall p :: p in ps <==> p in old(table)) ==>
                multiset(takers) == multiset(LinearScan(ps, old(table), Levels(topic), net))
    {
      var levels := Levels(topic);
      EveryListing(root, table, levels, net);
      table := AfterScan(table, levels, net);
      root, takers := DispatchBelow(root, levels, net);
    }

    /** The recursion of `SubscriptionSetNode::dispatch`. */
    static method DispatchBelow(n: Node, topic: seq<Level>, net: Network) returns (n': Node, takers: seq<Recipient>)
      requires topic != []
      ensures (n', takers) == DispatchNode(n, topic, net)
      decreases |topic|, 0
    {
      var rec;
      rec, takers := DispatchLeaf(n.anyRecursive, net);
      n' := n.(anyRecursive := rec);
      var more: seq<Recipient> := [];
      if n.any.Some? {
        var e;
        e, more := DispatchChild(n.any.value, topic[1..], net);
        n' := n'.(any := Some(e));
      }
      takers := takers + more;
      more := [];
      if topic[0] in n.exact {
        var e;
        e, more := DispatchChild(n.exact[topic[0]], topic[1..], net);
        n' := n'.(exact := n'.exact[topic[0] := e]);
      }
      takers := takers + more;
    }

    static method DispatchChild(e: Entry, rest: seq<Level>, net: Network) returns (e': Entry, takers: seq<Recipient>)
      ensures (e', takers) == DispatchEntry(e, rest, net)
      decreases |rest|, 1
    {
      if rest == [] {
        var s;
        s, takers := DispatchLeaf(e.sub, net);
        e' := Entry(s, e.children);
      } else {
        var c;
        c, takers := DispatchBelow(e.children, rest, net);
        e' := Entry(e.sub, c);
      }
    }

    /** Walks down the tree; see GetFindsTable and ErrExactly for what the result means. */
    method Get(topic: seq<byte>) returns (r: Result<Option<Subscription>, ()>)
      ensures r == if HitsHash(root, Levels(topic)) then Err(()) else Ok(LeafAt(root, Levels(topic)))
    {
      var slicer := Slice(topic);
      var node := root;
      ghost var rest := topic;
      while slicer.tail.Some?
        invariant slicer == Slice(rest)
        invariant HitsHash(root, Levels(topic)) == HitsHash(node, Levels(rest))
        invariant LeafAt(root, Levels(topic)) == LeafAt(node, Levels(rest))
        decreases |rest|
      {
        var tail := slicer.tail.value;
        assert Levels(rest)[1..] == Levels(tail);
        if slicer.head == HASH {
          return Err(());
        }
        var child := Child(node, slicer.head);  // `any` for `*`, the exact map otherwise
        if child.None? {
          return Ok(None);
        }
        node := child.value.children;
        slicer := Slice(tail);
        rest := tail;
      }
      assert Levels(rest) == [slicer.head];
      if slicer.head == HASH {
        return Ok(Some(node.anyRecursive));
      }
      var child := Child(node, slicer.head);
      r := if child.Some? then Ok(Some(child.value.sub)) else Ok(None);
    }

    /** Finds or creates the leaf. No table entry and no dispatch result changes. */
    method GetOrCreate(topic: seq<byte>) returns (r: Result<Subscription, ()>)
      requires Valid()
      modifies this
      ensures Valid() && table == old(table) && root == Grow(old(root), Levels(topic))
      ensures r.Err? <==> !ValidPattern(Levels(topic))
      ensures r.Ok? ==> LeafAt(root, Levels(topic)) == Some(r.value)
      ensures r.Ok? ==> r.value == if Levels(topic) in table then table[Levels(topic)] else EMPTY
      ensures forall t, net :: t != [] ==> DispatchNode(root, t, net).1 == DispatchNode(old(root), t, net).1
    {
      var levels := Levels(topic);
      GrowIsInvisible(root, levels);
      root := Grow(root, levels);
      if exists i :: 0 <= i < |levels| - 1 && levels[i] == HASH {
        return Err(());
      }
      r := Ok(LeafAt(root, levels).value);
    }

    /** What a caller does through the reference `get` and `get_or_create` hand out. */
    method Write(topic: seq<byte>, s: Subscription)
      requires Valid() && LeafAt(root, Levels(topic)).Some? && s.Valid()
      modifies this
      ensures Valid() && table == old(table)[Levels(topic) := s]
      ensures root == SetLeaf(old(root), Levels(topic), s)
    {
      var levels := Levels(topic);
      LeafMeansValid(root, levels);
      forall q ensures LeafAt(SetLeaf(root, levels, s), q) == (if q == levels then Some(s) else LeafAt(root, q))
                       && Clean(SetLeaf(root, levels, s)) {
        SetLeafLocal(root, levels, s, q);
      }
      root := SetLeaf(root, levels, s);
      table := table[levels := s];
    }

    /** Empties the leaf if it is subscribed. */
    method Clear(topic: seq<byte>) returns (r: Result<bool, ()>)
      requires Valid()
      modifies this
      ensures Valid()
      ensures r.Err? <==> HitsHash(old(root), Levels(topic))
      ensures r == Ok(true) <==> Levels(topic) in old(table) && old(table)[Levels(topic)].subscribed
      ensures table == if r == Ok(true) then old(table)[Levels(topic) := EMPTY] else old(table)
      ensures r == Ok(true) <==>
                LeafAt(old(root), Levels(topic)).Some? && LeafAt(old(root), Levels(topic)).value.subscribed
      ensures root == if r == Ok(true) then SetLeaf(old(root), Levels(topic), EMPTY) else old(root)
    {
      var found := Get(topic);
      GetFindsTable(root, table, Levels(topic));
      if found.Err? {
        return Err(());
      }
      if found.value.Some? && found.value.value.subscribed {
        Write(topic, EMPTY);
        return Ok(true);
      }
      r := Ok(false);
    }
  }

  lemma {:induction false} LeafMeansValid(n: Node, p: seq<Level>)
    requires LeafAt(n, p).Some?
    ensures ValidPattern(p)
  {
    if |p| > 1 {
      LeafMeansValid(Child(n, p[0]).value.children, p[1..]);
      assert p == [p[0]] + p[1..];
    }
  }

  /** Some duplicate-free listing of a finite set. */
  ghost function Listing<T(!new)>(s: set<T>): (r: seq<T>)
    ensures Distinct(r) && forall x :: x in r <==> x in s
  {
    if s == {} then []
    else
      var x :| x in s;
      [x] + Listing(s - {x})
  }
}
