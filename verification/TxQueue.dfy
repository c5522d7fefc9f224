/** The outgoing half of the transceiver (src/transceiver/mod.rs): the packet being
transmitted and the queue behind it. */
module Outgoing {
  import opened Wrappers
  import opened ByteIo
  import opened Packets
  import opened RoundTrips
  import opened Transports

  /** A queued packet; `setDup` asks for the DUP bit in its first byte. */
  datatype InternalPacket = InternalPacket(bytes: seq<byte>, setDup: bool)

  /** A packet in the process of being transmitted. */
  datatype TxPacket = TxPacket(bytes: seq<byte>, pos: nat, setDup: bool)

  // ----- Byte streams -----

  ghost predicate AllNonEmpty(q: seq<InternalPacket>) {
    forall p <- q :: |p.bytes| > 0
  }

  ghost function ImageOf(p: InternalPacket): seq<byte>
    requires |p.bytes| > 0
  {
    Image(p.bytes, p.setDup)
  }

  /** The stream the peer must see for a sequence of packets. */
  ghost function Stream(q: seq<InternalPacket>): seq<byte>
    requires AllNonEmpty(q)
  {
    if q == [] then [] else Stream(q[..|q| - 1]) + ImageOf(q[|q| - 1])
  }

  /** The packet being transmitted, what of it is out, and what is not. */
  ghost function Current(tx: Option<TxPacket>): seq<InternalPacket> {
    if tx.None? then [] else [InternalPacket(tx.value.bytes, tx.value.setDup)]
  }

  ghost predicate InRange(tx: Option<TxPacket>) {
    tx.Some? ==> 0 < |tx.value.bytes| && tx.value.pos <= |tx.value.bytes|
  }

  ghost function Written(tx: Option<TxPacket>): seq<byte>
    requires InRange(tx)
  {
    if tx.None? then [] else Image(tx.value.bytes, tx.value.setDup)[..tx.value.pos]
  }

  ghost function Unsent(tx: Option<TxPacket>): seq<byte>
    requires InRange(tx)
  {
    if tx.None? then [] else Image(tx.value.bytes, tx.value.setDup)[tx.value.pos..]
  }

  lemma StreamSnoc(q: seq<InternalPacket>, p: InternalPacket)
    requires AllNonEmpty(q) && |p.bytes| > 0
    ensures AllNonEmpty(q + [p]) && Stream(q + [p]) == Stream(q) + ImageOf(p)
  {
    assert (q + [p])[..|q|] == q;
  }

  lemma {:induction false} StreamAppend(a: seq<InternalPacket>, b: seq<InternalPacket>)
    requires AllNonEmpty(a) && AllNonEmpty(b)
    ensures AllNonEmpty(a + b) && Stream(a + b) == Stream(a) + Stream(b)
    decreases |b|
  {
    if b == [] {
      assert a + b == a;
    } else {
      var n := |b| - 1;
      StreamAppend(a, b[..n]);
      assert a + b == (a + b[..n]) + [b[n]];
      StreamSnoc(a + b[..n], b[n]);
      Assoc(Stream(a), Stream(b[..n]), ImageOf(b[n]));
    }
  }

  lemma StreamOne(p: InternalPacket)
    requires |p.bytes| > 0
    ensures AllNonEmpty([p]) && Stream([p]) == ImageOf(p)
  {
    StreamSnoc([], p);
    assert [] + [p] == [p] && [] + ImageOf(p) == ImageOf(p);
  }

  /** Three parts of a sequence of packets, in bytes. */
  lemma StreamParts(a: seq<InternalPacket>, b: seq<InternalPacket>, c: seq<InternalPacket>)
    requires AllNonEmpty(a + b + c)
    ensures AllNonEmpty(a) && AllNonEmpty(b) && AllNonEmpty(c) && Stream(a + b + c) == Stream(a) + Stream(b) + Stream(c)
  {
    forall p | p in a || p in b || p in c ensures |p.bytes| > 0 {
      assert p in a + b + c;
    }
    StreamAppend(a, b);
    StreamAppend(a + b, c);
  }

  lemma NothingBehind<T>(a: seq<T>)
    ensures a + [] == a
  {
  }

  lemma TakePrefix<T>(a: seq<T>, b: seq<T>, n: nat)
    requires n <= |b|
    ensures a + b[..n] <= a + b
  {
  }

  lemma NextIs<T>(a: seq<T>, b: seq<T>)
    requires b != []
    ensures a + [] + b == a + [b[0]] + b[1..]
  {
  }

  lemma CurrentParts(tx: Option<TxPacket>)
    requires InRange(tx)
    ensures AllNonEmpty(Current(tx)) && Stream(Current(tx)) == Written(tx) + Unsent(tx)
  {
    if tx.Some? {
      StreamOne(Current(tx)[0]);
      var image := Image(tx.value.bytes, tx.value.setDup);
      assert image == image[..tx.value.pos] + image[tx.value.pos..];
    }
  }

  // ----- After a failure -----

  /** How much of a packet can be out when sending it has failed: nothing; the first byte if it was
  sent on its own, to carry DUP; everything, if only the flush failed. */
  ghost predicate Partly(p: InternalPacket, n: nat) {
    |p.bytes| > 0 && (n == 0 || n == |p.bytes| || (p.setDup && n == 1))
  }

  /** The bytes of DISCONNECT. */
  const GOODBYE: seq<byte> := [0xE0, 0]

  /** No packet begins like DISCONNECT. */
  ghost predicate NoGoodbye(q: seq<InternalPacket>) {
    forall p <- q :: |p.bytes| > 0 && p.bytes[0] != 0xE0
  }

  /** `k` bytes of DISCONNECT behind `n` bytes of `p` continue the stream exactly if there are none, or
  nothing else was due before DISCONNECT, or the altered first byte is out and the packet happens to
  go on like DISCONNECT. */
  ghost predicate Continues(p: InternalPacket, n: nat, queue: seq<InternalPacket>, k: nat)
    requires k <= 2
  {
    || k == 0
    || (n == |p.bytes| && queue == [])
    || (n == 1 < |p.bytes| && AllNonEmpty(queue) && GOODBYE[..k] <= p.bytes[1..] + Stream(queue) + GOODBYE)
  }

  lemma PrefixCancels<T>(a: seq<T>, b: seq<T>, c: seq<T>)
    ensures a + b <= a + c <==> b <= c
  {
    assert (a + b)[|a|..] == b && (a + c)[|a|..] == c;
    if a + b <= a + c {
      assert b == (a + c)[..|a + b|][|a|..] == c[..|b|];
    }
  }

  /** What the stream goes on with does not begin like DISCONNECT. */
  lemma FirstByte(q: seq<InternalPacket>)
    requires q != [] && NoGoodbye(q)
    ensures AllNonEmpty(q) && |Stream(q)| > 0 && Stream(q)[0] != 0xE0
  {
    var (first, rest) := ([q[0]], q[1..]);
    assert q == first + rest && q[0] in q;
    assert AllNonEmpty(rest);
    StreamOne(q[0]);
    StreamAppend(first, rest);
  }

  lemma ContinuesExactly(done: seq<byte>, p: InternalPacket, n: nat, queue: seq<InternalPacket>, k: nat)
    requires Partly(p, n) && NoGoodbye([p] + queue) && k <= 2 && AllNonEmpty(queue)
    ensures done + ImageOf(p)[..n] + GOODBYE[..k] <= done + ImageOf(p) + Stream(queue) + GOODBYE
            <==> Continues(p, n, queue, k)
  {
    var rest := ImageOf(p)[n..] + Stream(queue) + GOODBYE;
    assert done + ImageOf(p) + Stream(queue) + GOODBYE == (done + ImageOf(p)[..n]) + rest;
    PrefixCancels(done + ImageOf(p)[..n], GOODBYE[..k], rest);
    assert p in [p] + queue && (k > 0 ==> GOODBYE[..k][0] == 0xE0);
    if n == 0 {
      assert rest[0] == ImageOf(p)[0] != 0xE0;
    } else if n == |p.bytes| {
      assert rest == Stream(queue) + GOODBYE;
      if queue != [] {
        forall q | q in queue ensures |q.bytes| > 0 && q.bytes[0] != 0xE0 {
          assert q in [p] + queue;
        }
        FirstByte(queue);
        assert rest[0] != 0xE0;
      } else {
        assert rest == GOODBYE;
      }
    } else {
      assert ImageOf(p)[1..] == p.bytes[1..];
    }
  }

  class TxQueue {
    const transport: Transport
    var txPkt: Option<TxPacket>
    var queue: seq<InternalPacket>
    var lastTx: int
    ghost var enqueued: seq<InternalPacket>  // every packet ever handed over, in order
    ghost var done: seq<InternalPacket>  // those transmitted completely

    constructor (transport: Transport, now: int)
      ensures this.transport == transport && txPkt == None && queue == [] && enqueued == [] && done == []
      ensures lastTx == now
    {
      this.transport := transport;
      txPkt := None;
      queue := [];
      lastTx := now;
      enqueued := [];
      done := [];
    }

    /** The packets handed over are those done with, the current one and the queue; the bytes accepted
    are those of the first, and of the second what is marked as written. */
    ghost predicate Accounted()
      reads this, transport
    {
      && InRange(txPkt) && AllNonEmpty(enqueued) && AllNonEmpty(done)
      && enqueued == done + Current(txPkt) + queue
      && transport.accepted == Stream(done) + Written(txPkt)
    }

    ghost predicate Valid()
      reads this, transport
    {
      && Accounted()
      && if txPkt.None? then queue == [] else txPkt.value.pos < |txPkt.value.bytes|
    }

    /** The same, but the queue may be waiting for its first packet to be taken. */
    ghost predicate Going()
      reads this, transport
    {
      Accounted() && (txPkt.Some? ==> txPkt.value.pos < |txPkt.value.bytes|)
    }

    /** All of the current packet is out, but flushing it failed. */
    ghost predicate Stalled()
      reads this, transport
    {
      Accounted() && txPkt.Some? && txPkt.value.pos == |txPkt.value.bytes|
    }

    /** The send of the packet after those done with failed, with `n` bytes of it out, and nothing
    remembers the rest. */
    ghost predicate FailedAt(n: nat)
      reads this, transport
    {
      && txPkt.None? && AllNonEmpty(enqueued) && AllNonEmpty(done) && |done| < |enqueued|
      && enqueued == done + [enqueued[|done|]] + queue && Partly(enqueued[|done|], n)
      && transport.accepted == Stream(done) + ImageOf(enqueued[|done|])[..n]
    }

    ghost predicate Failed()
      reads this, transport
    {
      exists n :: FailedAt(n)
    }

    /** The peer has seen a prefix of the stream. */
    ghost predicate PrefixSent()
      reads this, transport
    {
      AllNonEmpty(enqueued) && transport.accepted <= Stream(enqueued)
    }

    /** Accepted bytes, then the rest of the current packet, then the queue, are the stream of everything
    enqueued. */
    lemma AccountedMeansConserved()
      requires Accounted()
      ensures AllNonEmpty(queue)
      ensures transport.accepted + Unsent(txPkt) + Stream(queue) == Stream(enqueued)
      ensures PrefixSent()
    {
      StreamParts(done, Current(txPkt), queue);
      CurrentParts(txPkt);
      Assoc(Stream(done), Written(txPkt), Unsent(txPkt));
      Assoc(transport.accepted, Unsent(txPkt), Stream(queue));
    }

    lemma FailedMeansPrefix(n: nat)
      requires FailedAt(n)
      ensures PrefixSent() && AllNonEmpty(queue)
      ensures Stream(enqueued) == Stream(done) + ImageOf(enqueued[|done|]) + Stream(queue)
    {
      var p := enqueued[|done|];
      StreamParts(done, [p], queue);
      StreamOne(p);
      assert ImageOf(p) == ImageOf(p)[..n] + ImageOf(p)[n..];
    }

    /** The first attempt at a packet: the altered first byte goes separately. */
    method WriteFirst(bytes: seq<byte>, setDup: bool) returns (r: IoResult<nat>)
      requires |bytes| > 0
      modifies transport`accepted
      ensures r != Err(WouldBlock)
      ensures r.Ok? ==>
                r.value <= |bytes| && transport.accepted == old(transport.accepted) + Image(bytes, setDup)[..r.value]
      ensures r.Err? ==>
                || transport.accepted == old(transport.accepted)
                || (setDup && transport.accepted == old(transport.accepted) + [WithDup(bytes[0])])
    {
      ghost var image := Image(bytes, setDup);
      ghost var before := transport.accepted;
      assert before + image[..0] == before;
      if !setDup {
        r := transport.Write(bytes, true);
        return;
      }
      r := transport.Write([WithDup(bytes[0])], true);
      if r.Ok? && r.value > 0 {
        assert [image[0]][..1] == image[..1] == [WithDup(bytes[0])];
        var more := transport.Write(bytes[1..], true);
        if more.Err? {
          return more;
        }
        assert image[..1] + image[1..][..more.value] == image[..1 + more.value];
        r := Ok(1 + more.value);
      }
    }

    /** Writes what the transport takes at once and keeps the rest as the current packet. If that
    fails, `out` bytes of the packet are out. */
    method TrySendPacket(bytes: seq<byte>, setDup: bool) returns (r: IoResult<()>, ghost out: nat)
      requires txPkt.None? && |bytes| > 0
      modifies this`txPkt, transport`accepted
      ensures r != Err(WouldBlock) && out <= |bytes|
      ensures transport.accepted == old(transport.accepted) + Image(bytes, setDup)[..out]
      ensures r.Ok? ==> txPkt == if out == |bytes| then None else Some(TxPacket(bytes, out, setDup))
      ensures r.Err? ==> txPkt.None? && Partly(InternalPacket(bytes, setDup), out)
    {
      ghost var image := Image(bytes, setDup);
      ghost var before := transport.accepted;
      var written := WriteFirst(bytes, setDup);
      if written.Err? {
        assert before + image[..0] == before && (setDup ==> image[..1] == [WithDup(bytes[0])]);
        return Err(written.error), if transport.accepted == before then 0 else 1;
      }
      out := written.value;
      if written.value >= |bytes| {
        r := transport.Flush();
      } else {
        txPkt := Some(TxPacket(bytes, written.value, setDup));
        r := Ok(());
      }
    }

    /** What sending the packet after those done with leads to. */
    lemma Tried(p: InternalPacket, out: nat)
      requires AllNonEmpty(done) && AllNonEmpty(enqueued) && |p.bytes| > 0 && out <= |p.bytes|
      requires enqueued == done + [p] + queue && transport.accepted == Stream(done) + ImageOf(p)[..out]
      ensures txPkt == Some(TxPacket(p.bytes, out, p.setDup)) ==> Accounted()
      ensures txPkt.None? && Partly(p, out) ==> FailedAt(out)
      ensures out == |p.bytes| ==> AllNonEmpty(done + [p]) && transport.accepted == Stream(done + [p])
    {
      StreamSnoc(done, p);
      assert enqueued[|done|] == p;
      assert ImageOf(p)[..|p.bytes|] == ImageOf(p);
    }

    /** Nothing is in transmission: the packet goes out. */
    method SendAtOnce(bytes: seq<byte>, setDup: bool) returns (r: IoResult<()>, ghost out: nat)
      requires Valid() && txPkt.None? && |bytes| > 0
      modifies this`txPkt, this`enqueued, this`done, transport`accepted
      ensures r != Err(WouldBlock) && out <= |bytes|
      ensures enqueued == old(enqueued) + [InternalPacket(bytes, setDup)]
      ensures transport.accepted == old(transport.accepted) + Image(bytes, setDup)[..out]
      ensures if r.Ok? then Valid() else FailedAt(out) && done == old(enqueued)
    {
      ghost var p := InternalPacket(bytes, setDup);
      assert done == enqueued && transport.accepted == Stream(done) by {
        assert done + [] + [] == done && Stream(done) + [] == Stream(done);
      }
      StreamSnoc(enqueued, p);
      enqueued := enqueued + [p];
      r, out := TrySendPacket(bytes, setDup);
      EnterDone(p, out, r.Ok?);
      if r.Ok? && txPkt.None? {
        done := done + [p];
      }
    }

    /** The queue was empty and `p` has been tried: it is in transmission, done with, or has failed. */
    lemma EnterDone(p: InternalPacket, out: nat, ok: bool)
      requires AllNonEmpty(done) && queue == [] && |p.bytes| > 0 && out <= |p.bytes| && enqueued == done + [p]
      requires transport.accepted == Stream(done) + ImageOf(p)[..out]
      requires if ok then txPkt == (if out == |p.bytes| then None else Some(TxPacket(p.bytes, out, p.setDup)))
               else txPkt.None? && Partly(p, out)
      ensures AllNonEmpty(enqueued) && PrefixSent()
      ensures ok && txPkt.Some? ==> Valid()
      ensures ok && txPkt.None? ==>
                && AllNonEmpty(done + [p]) && enqueued == done + [p] + [] + queue
                && transport.accepted == Stream(done + [p]) + []
      ensures !ok ==> FailedAt(out)
    {
      StreamSnoc(done, p);
      NothingBehind(done + [p]);
      EnterNext(p, out, ok);
      TakePrefix(Stream(done), ImageOf(p), out);
    }

    /** The same with a queue behind it. */
    lemma EnterNext(p: InternalPacket, out: nat, ok: bool)
      requires AllNonEmpty(done) && AllNonEmpty(enqueued) && |p.bytes| > 0 && out <= |p.bytes|
      requires enqueued == done + [p] + queue && transport.accepted == Stream(done) + ImageOf(p)[..out]
      requires if ok then txPkt == (if out == |p.bytes| then None else Some(TxPacket(p.bytes, out, p.setDup)))
               else txPkt.None? && Partly(p, out)
      ensures ok && txPkt.Some? ==> Going()
      ensures ok && txPkt.None? ==>
                && AllNonEmpty(done + [p]) && enqueued == done + [p] + [] + queue
                && transport.accepted == Stream(done + [p]) + []
      ensures !ok ==> FailedAt(out)
    {
      Tried(p, out);
      assert done + [p] + [] == done + [p];
      if ok && txPkt.None? {
        assert Stream(done + [p]) + [] == Stream(done + [p]);
      }
    }

    /** Something is in transmission: the packet waits its turn. */
    method Append(bytes: seq<byte>, setDup: bool)
      requires Accounted() && txPkt.Some? && |bytes| > 0
      modifies this`queue, this`enqueued
      ensures enqueued == old(enqueued) + [InternalPacket(bytes, setDup)]
      ensures Accounted()
    {
      var p := InternalPacket(bytes, setDup);
      Assoc(done + Current(txPkt), queue, [p]);
      enqueued, queue := enqueued + [p], queue + [p];
    }

    /** Sends at once if nothing is in transmission, else queues. */
    method QueueInternalPacket(bytes: seq<byte>, setDup: bool) returns (r: IoResult<()>)
      requires Valid() && |bytes| > 0
      modifies this`txPkt, this`queue, this`enqueued, this`done, transport`accepted
      ensures r != Err(WouldBlock)
      ensures enqueued == old(enqueued) + [InternalPacket(bytes, setDup)]
      ensures r.Ok? ==> Valid()
      ensures r.Err? ==> Failed() && queue == [] && done == old(enqueued)
      ensures PrefixSent()
    {
      if txPkt.None? {
        ghost var out;
        r, out := SendAtOnce(bytes, setDup);
        if r.Err? {
          FailedMeansPrefix(out);
        }
      } else {
        Append(bytes, setDup);
        r := Ok(());
      }
      if r.Ok? {
        AccountedMeansConserved();
      }
    }

    /** DISCONNECT at the end of the task, after whatever happened. Behind a packet that failed with `n`
    bytes out it goes out at once, although the rest of that packet and the queue have not. `k`
    bytes of it are taken now. */
    method SendDisconnect(ghost n: nat) returns (r: IoResult<()>, ghost k: nat)
      requires Valid() || Stalled() || FailedAt(n)
      modifies this`txPkt, this`queue, this`enqueued, this`done, transport`accepted
      ensures enqueued == old(enqueued) + [InternalPacket(GOODBYE, false)]
      ensures k <= 2 && transport.accepted == old(transport.accepted) + GOODBYE[..k]
      ensures old(Valid()) ==> PrefixSent() && (r.Ok? ==> Valid())
      ensures old(Stalled()) ==> PrefixSent() && k == 0
      ensures old(FailedAt(n)) && NoGoodbye(old(enqueued)) ==>
                (PrefixSent() <==> Continues(old(enqueued)[|old(done)|], n, old(queue), k))
    {
      if txPkt.Some? {
        Append(GOODBYE, false);
        AccountedMeansConserved();
        r, k := Ok(()), 0;
        assert GOODBYE[..0] == [];
      } else {
        r, k := DisconnectNow(n);
      }
    }

    method DisconnectNow(ghost n: nat) returns (r: IoResult<()>, ghost k: nat)
      requires txPkt.None? && (Valid() || FailedAt(n))
      modifies this`txPkt, this`enqueued, this`done, transport`accepted
      ensures enqueued == old(enqueued) + [InternalPacket(GOODBYE, false)]
      ensures k <= 2 && transport.accepted == old(transport.accepted) + GOODBYE[..k]
      ensures old(Valid()) ==> PrefixSent() && (r.Ok? ==> Valid())
      ensures old(FailedAt(n)) && NoGoodbye(old(enqueued)) ==>
                (PrefixSent() <==> Continues(old(enqueued)[|old(done)|], n, old(queue), k))
    {
      ghost var p := InternalPacket(GOODBYE, false);
      StreamSnoc(enqueued, p);
      if FailedAt(n) {
        FailedMeansPrefix(n);
      }
      enqueued := enqueued + [p];
      r, k := TrySendPacket(GOODBYE, false);
      if old(FailedAt(n)) {
        if NoGoodbye(old(enqueued)) {
          FailedContinues(old(done), old(enqueued)[|old(done)|], old(queue), n, k);
        }
      } else {
        EnterDone(p, k, r.Ok?);
        if r.Ok? && txPkt.None? {
          done := done + [p];
        }
      }
    }

    lemma FailedContinues(before: seq<InternalPacket>, p: InternalPacket, rest: seq<InternalPacket>, n: nat, k: nat)
      requires AllNonEmpty(before) && AllNonEmpty(rest) && Partly(p, n) && k <= 2
      requires NoGoodbye(before + [p] + rest)
      requires AllNonEmpty(enqueued) && Stream(enqueued) == Stream(before) + ImageOf(p) + Stream(rest) + GOODBYE
      requires transport.accepted == Stream(before) + ImageOf(p)[..n] + GOODBYE[..k]
      ensures PrefixSent() <==> Continues(p, n, rest, k)
    {
      forall q | q in [p] + rest ensures |q.bytes| > 0 && q.bytes[0] != 0xE0 {
        assert q in before + [p] + rest;
      }
      ContinuesExactly(Stream(before), p, n, rest, k);
    }

    /** The current packet is out and flushed: forgets it and starts on the queue until one stays. */
    method ClearTxPacket() returns (r: IoResult<()>)
      requires Stalled()
      modifies this`txPkt, this`queue, this`done, transport`accepted
      ensures r != Err(WouldBlock)
      ensures if r.Ok? then Valid() else Failed()
      ensures PrefixSent() && old(transport.accepted) <= transport.accepted
    {
      CurrentDone();
      done := done + Current(txPkt);
      txPkt := None;
      r := Ok(());
      while r.Ok? && txPkt.None? && queue != []
        invariant if r.Ok? then Going() else Failed()
        invariant old(transport.accepted) <= transport.accepted && r != Err(WouldBlock)
        decreases |queue|
      {
        r := SendNext();
      }
      MeansPrefix(r.Ok?);
    }

    lemma CurrentDone()
      requires Stalled()
      ensures AllNonEmpty(done + Current(txPkt)) && enqueued == done + Current(txPkt) + [] + queue
      ensures transport.accepted == Stream(done + Current(txPkt)) + []
    {
      StreamSnoc(done, Current(txPkt)[0]);
      var image := Image(txPkt.value.bytes, txPkt.value.setDup);
      assert image[..|image|] == image;
    }

    lemma MeansPrefix(ok: bool)
      requires if ok then Accounted() else Failed()
      ensures PrefixSent()
    {
      if ok {
        AccountedMeansConserved();
      } else {
        var n :| FailedAt(n);
        FailedMeansPrefix(n);
      }
    }

    /** The next packet of the queue goes out. */
    method SendNext() returns (r: IoResult<()>)
      requires Accounted() && txPkt.None? && queue != []
      modifies this`txPkt, this`queue, this`done, transport`accepted
      ensures r != Err(WouldBlock)
      ensures if r.Ok? then Going() else Failed()
      ensures queue == old(queue)[1..] && old(transport.accepted) <= transport.accepted
    {
      var next := queue[0];
      NextIs(done, queue);
      assert next in enqueued && Stream(done) + [] == Stream(done);
      queue := queue[1..];
      ghost var out;
      r, out := TrySendPacket(next.bytes, next.setDup);
      EnterNext(next, out, r.Ok?);
      if r.Ok? && txPkt.None? {
        done := done + [next];
      }
    }

    /** Transmits everything queued. Ok(true) means closed, Err(WouldBlock) try again later,
    Ok(false) nothing left. `clock` supplies the instants at which packets are finished. */
    method ContinueWritingPacket(clock: nat -> int) returns (r: IoResult<bool>)
      requires Valid()
      modifies this`txPkt, this`queue, this`lastTx, this`done, transport`accepted
      ensures r.Ok? || r == Err(WouldBlock) ==> Valid()
      ensures r.Err? ==> Valid() || Stalled() || Failed()
      ensures r == Ok(false) ==> transport.accepted == Stream(enqueued)
      ensures PrefixSent()
    {
      var k: nat := 0;
      AccountedMeansConserved();
      while txPkt.Some?
        invariant Valid() && PrefixSent()
        decreases |Stream(enqueued)| - |transport.accepted|
      {
        r := WriteOnce(clock(k));
        if r != Ok(false) {
          return;
        }
        k := k + 1;
      }
      r := Ok(false);
      assert done + [] + [] == done && Stream(done) + [] == Stream(done);
    }

    /** One turn of that loop. */
    method WriteOnce(now: int) returns (r: IoResult<bool>)
      requires Valid() && txPkt.Some?
      modifies this`txPkt, this`queue, this`lastTx, this`done, transport`accepted
      ensures r.Ok? || r == Err(WouldBlock) ==> Valid()
      ensures r.Err? ==> Valid() || Stalled() || Failed()
      ensures PrefixSent()
      ensures r == Ok(false) ==> |old(transport.accepted)| < |transport.accepted|
      ensures var rest := |old(txPkt).value.bytes| - old(txPkt).value.pos;
              var finished := |transport.accepted| >= |old(transport.accepted)| + rest;
              lastTx == if r == Ok(false) && finished then now else old(lastTx)
    {
      var tx := txPkt.value;
      ghost var image, before := Image(tx.bytes, tx.setDup), transport.accepted;
      AccountedMeansConserved();
      var w := WriteNext(tx);
      if w.Err? {
        return Err(w.error);
      }
      assert image[..tx.pos] + image[tx.pos..][..w.value] == image[..tx.pos + w.value];
      if w.value <= 0 {
        return Ok(true);
      }
      txPkt := Some(tx.(pos := tx.pos + w.value));
      Assoc(Stream(done), image[..tx.pos], image[tx.pos..][..w.value]);
      AccountedMeansConserved();
      r := Ok(false);
      if tx.pos + w.value >= |tx.bytes| {
        var finished := FinishPacket(now);
        r := if finished.Ok? then Ok(false) else Err(finished.error);
      }
    }

    /** The current packet is out: flush and go on with the queue. */
    method FinishPacket(now: int) returns (r: IoResult<()>)
      requires Stalled()
      modifies this`txPkt, this`queue, this`lastTx, this`done, transport`accepted
      ensures r != Err(WouldBlock)
      ensures if r.Ok? then Valid() else Stalled() || Failed()
      ensures lastTx == if r.Ok? then now else old(lastTx)
      ensures PrefixSent() && old(transport.accepted) <= transport.accepted
    {
      AccountedMeansConserved();
      r := transport.Flush();
      if r.Ok? {
        r := ClearTxPacket();
      }
      if r.Ok? {
        lastTx := now;
      }
    }

    /** A further attempt, from `pos`. */
    method WriteNext(tx: TxPacket) returns (r: IoResult<nat>)
      requires tx.pos < |tx.bytes|
      modifies transport`accepted
      ensures r.Err? ==> transport.accepted == old(transport.accepted)
      ensures r.Ok? ==> tx.pos + r.value <= |tx.bytes| &&
                        transport.accepted == old(transport.accepted) + Image(tx.bytes, tx.setDup)[tx.pos..][..r.value]
    {
      ghost var image := Image(tx.bytes, tx.setDup);
      if tx.setDup && tx.pos <= 0 {
        r := transport.Write([WithDup(tx.bytes[0])], false);
        assert r.Ok? ==> [WithDup(tx.bytes[0])][..r.value] == image[tx.pos..][..r.value];
      } else {
        r := transport.Write(tx.bytes[tx.pos..], false);
        assert r.Ok? ==> tx.bytes[tx.pos..][..r.value] == image[tx.pos..][..r.value];
      }
    }
  }
}
