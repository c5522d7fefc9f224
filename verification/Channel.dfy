/** Why two transceivers joined by a byte stream are two clients joined by a channel of packets:
from the bytes a transport accepted from one side, the reader of the other side recovers the
packets that were sent, in order, none lost, none made up. */
module Channels {
  import opened Wrappers
  import opened ByteIo
  import opened Packets
  import opened RoundTrips
  import opened Outgoing
  import opened PacketReaders
  import opened Protocol
  import opened ProtocolProofs
  import opened Transceivers
  import opened EndToEnd

  /** The bytes of a packet as the peer gets them. */
  ghost function Frame(h: Handed): seq<byte> {
    if Encodable(Arriving(h)) then Wire(Arriving(h)) else []
  }

  ghost function Frames(sent: seq<Handed>): (fs: seq<seq<byte>>)
    ensures |fs| == |sent| && forall i :: 0 <= i < |fs| ==> fs[i] == Frame(sent[i])
  {
    seq(|sent|, i requires 0 <= i < |sent| => Frame(sent[i]))
  }

  ghost predicate DupOnPublish(sent: seq<Handed>) {
    forall h <- sent :: h.setDup ==> h.packet.PublishPacket?
  }

  /** What the outgoing queue writes for one packet is the frame of the packet as it arrives. */
  lemma ImageIsFrame(q: InternalPacket, h: Handed, image: Packet -> seq<byte>)
    requires Faithful(image) && |q.bytes| > 0 && q == InternalPacket(image(h.packet), h.setDup)
    requires h.setDup ==> h.packet.PublishPacket?
    ensures Encodable(h.packet) && Encodable(Arriving(h)) && ImageOf(q) == Frame(h)
  {
    assert Encodable(h.packet);
    if h.setDup {
      DupImage(h.packet);
    }
  }

  lemma FramesSnoc(sent: seq<Handed>)
    requires sent != []
    ensures var n := |sent| - 1; Flatten(Frames(sent)) == Flatten(Frames(sent[..n])) + Frame(sent[n])
  {
    var n := |sent| - 1;
    var last := [Frame(sent[n])];
    assert Frames(sent) == Frames(sent[..n]) + last;
    FlattenAppend(Frames(sent[..n]), last);
    assert last[1..] == [];
  }

  lemma {:induction false} StreamIsFrames(q: seq<InternalPacket>, sent: seq<Handed>, image: Packet -> seq<byte>)
    requires Faithful(image) && AllNonEmpty(q) && Linked(q, sent, image) && DupOnPublish(sent)
    ensures Stream(q) == Flatten(Frames(sent))
  {
    if q != [] {
      var n := |q| - 1;
      assert q[n] in q && sent[n] in sent;
      StreamIsFrames(q[..n], sent[..n], image);
      ImageIsFrame(q[n], sent[n], image);
      FramesSnoc(sent);
    }
  }

  /** `f` is one packet, and the one sent as `h` where a client decodes it. */
  ghost predicate Arrives(f: seq<byte>, h: Handed) {
    && IsFrame(f) && ParseSize(f).value.value.startOffset <= MAX_HEADER_SIZE
    && (Handles(h.packet) ==> DecodeFrame(f) == Ok(Arriving(h)))
  }

  lemma FrameArrives(q: InternalPacket, h: Handed, image: Packet -> seq<byte>)
    requires Faithful(image) && |q.bytes| > 0 && q == InternalPacket(image(h.packet), h.setDup)
    requires h.setDup ==> h.packet.PublishPacket?
    ensures Arrives(Frame(h), h)
  {
    ImageIsFrame(q, h, image);
    WireIsFrame(Arriving(h));
  }

  lemma FramesArrive(q: seq<InternalPacket>, sent: seq<Handed>, image: Packet -> seq<byte>)
    requires Faithful(image) && AllNonEmpty(q) && Linked(q, sent, image) && DupOnPublish(sent)
    ensures WellFramed(Frames(sent)) && forall i :: 0 <= i < |sent| ==> Arrives(Frames(sent)[i], sent[i])
  {
    forall i | 0 <= i < |sent| ensures Arrives(Frames(sent)[i], sent[i]) {
      assert q[i] in q && sent[i] in sent;
      FrameArrives(q[i], sent[i], image);
    }
  }

  lemma ReaderRecovers(rd: PacketReader, fs: seq<seq<byte>>, sent: seq<Handed>)
    requires rd.Valid() && WellFramed(fs) && rd.consumed <= Flatten(fs)
    requires |fs| == |sent| && forall i :: 0 <= i < |sent| ==> Arrives(fs[i], sent[i])
    ensures |rd.frames| <= |sent| && !rd.Stuck()
    ensures forall i :: 0 <= i < |rd.frames| ==> Arrives(rd.frames[i], sent[i])
    ensures rd.consumed == Flatten(fs) && rd.Settled() ==> |rd.frames| == |sent| && rd.bytes == []
  {
    EmitsTheStream(rd, fs);
    forall i | 0 <= i < |rd.frames| ensures Arrives(rd.frames[i], sent[i]) {
      assert rd.frames[i] == fs[i];
    }
  }

  /** However writes and reads were cut, and even after an I/O error: the packets the peer has
  read are the first packets sent, unchanged but for DUP; once everything accepted is read and
  nothing is left to write, they are all of them. The reader never gets stuck on them. */
  lemma ChannelIsFaithful(tx: TxQueue, sent: seq<Handed>, image: Packet -> seq<byte>, rd: PacketReader)
    requires tx.PrefixSent() && Faithful(image) && Linked(tx.enqueued, sent, image) && DupDiscipline(sent)
    requires rd.Valid() && rd.consumed <= tx.transport.accepted
    ensures |rd.frames| <= |sent| && !rd.Stuck()
    ensures forall i :: 0 <= i < |rd.frames| ==> Arrives(rd.frames[i], sent[i])
    ensures rd.consumed == Stream(tx.enqueued) && rd.Settled() ==> |rd.frames| == |sent| && rd.bytes == []
  {
    StreamIsFrames(tx.enqueued, sent, image);
    FramesArrive(tx.enqueued, sent, image);
    ReaderRecovers(rd, Frames(sent), sent);
  }

  /** That is so for a transceiver in any state its methods leave, failed ones included. */
  lemma TransceiverIsFaithful(t: Transceiver, rd: PacketReader)
    requires t.Sound() && DupDiscipline(t.sent)
    requires rd.Valid() && rd.consumed <= t.tx.transport.accepted
    ensures |rd.frames| <= |t.sent| && !rd.Stuck()
    ensures forall i :: 0 <= i < |rd.frames| ==> Arrives(rd.frames[i], t.sent[i])
    ensures rd.consumed == Stream(t.tx.enqueued) && rd.Settled() ==> |rd.frames| == |t.sent| && rd.bytes == []
  {
    ChannelIsFaithful(t.tx, t.sent, t.image, rd);
  }

  // ----- After a failed send and DISCONNECT behind it -----

  /** Three bytes that are no packet: a first byte, then DISCONNECT read as a length. */
  lemma TornIsNoPacket(b: byte)
    ensures Split([b] + GOODBYE).0 == []
  {
    var t := [b] + GOODBYE;
    assert ParseLength(t, 2) == Some((0, 3));
    assert ParseLength(t, 1) == Some((96, 3));
  }

  lemma GoodbyeIsFrame()
    ensures IsFrame(GOODBYE) && ParseSize(GOODBYE).value.value.startOffset <= MAX_HEADER_SIZE
  {
    assert ParseLength(GOODBYE, 1) == Some((0, 2));
  }

  /** Packets, then any part of DISCONNECT. */
  lemma ReadsGoodbye(rd: PacketReader, fs: seq<seq<byte>>, k: nat)
    requires rd.Valid() && WellFramed(fs) && k <= 2 && rd.consumed <= Flatten(fs) + GOODBYE[..k]
    ensures rd.frames <= fs + [GOODBYE] && !rd.Stuck()
  {
    GoodbyeIsFrame();
    FlattenAppend(fs, [GOODBYE]);
    assert Flatten([GOODBYE]) == [] + GOODBYE == GOODBYE;
    assert Flatten(fs) + GOODBYE[..k] <= Flatten(fs) + GOODBYE;
    EmitsTheStream(rd, fs + [GOODBYE]);
  }

  /** Packets, the first byte of another, then any part of DISCONNECT. */
  lemma ReadsTorn(rd: PacketReader, fs: seq<seq<byte>>, b: byte, k: nat)
    requires rd.Valid() && WellFramed(fs) && k <= 2 && rd.consumed <= Flatten(fs) + [b] + GOODBYE[..k]
    ensures rd.frames <= fs && !rd.Stuck()
  {
    TornIsNoPacket(b);
    assert Flatten(fs) + [b] + GOODBYE[..k] <= Flatten(fs) + ([b] + GOODBYE);
    EmitsBefore(rd, fs, [b] + GOODBYE);
  }

  lemma LinkedFront(q: seq<InternalPacket>, sent: seq<Handed>, image: Packet -> seq<byte>, m: nat)
    requires Faithful(image) && AllNonEmpty(q) && Linked(q, sent, image) && DupOnPublish(sent) && m <= |q|
    ensures AllNonEmpty(q[..m]) && Stream(q[..m]) == Flatten(Frames(sent[..m])) && WellFramed(Frames(sent[..m]))
    ensures forall i :: 0 <= i < m ==> Arrives(Frames(sent[..m])[i], sent[i])
  {
    assert forall h <- sent[..m] :: h in sent;
    StreamIsFrames(q[..m], sent[..m], image);
    FramesArrive(q[..m], sent[..m], image);
  }

  /** The bytes that are out after the failure of packet `d`. */
  lemma FailedBytes(q: seq<InternalPacket>, d: nat, n: nat)
    requires AllNonEmpty(q) && d < |q| && Partly(q[d], n)
    ensures AllNonEmpty(q[..d]) && AllNonEmpty(q[..d + 1])
    ensures var out := Stream(q[..d]) + ImageOf(q[d])[..n];
            if n == |q[d].bytes| then out == Stream(q[..d + 1])
            else if n == 0 then out == Stream(q[..d])
            else out == Stream(q[..d]) + [ImageOf(q[d])[0]]
  {
    assert q[..d + 1] == q[..d] + [q[d]];
    StreamSnoc(q[..d], q[d]);
    assert ImageOf(q[d])[..|q[d].bytes|] == ImageOf(q[d]);
    assert ImageOf(q[d])[..1] == [ImageOf(q[d])[0]];
  }

  ghost function Complete(q: seq<InternalPacket>, d: nat, n: nat): nat
    requires d < |q|
  {
    if n == |q[d].bytes| then d + 1 else d
  }

  lemma ReadsFailed(q: seq<InternalPacket>, d: nat, n: nat, k: nat, fs: seq<seq<byte>>, rd: PacketReader)
    requires AllNonEmpty(q) && d < |q| && Partly(q[d], n) && k <= 2 && WellFramed(fs)
    requires AllNonEmpty(q[..Complete(q, d, n)]) && Flatten(fs) == Stream(q[..Complete(q, d, n)])
    requires AllNonEmpty(q[..d]) && rd.Valid() && rd.consumed <= Stream(q[..d]) + ImageOf(q[d])[..n] + GOODBYE[..k]
    ensures rd.frames <= fs + [GOODBYE] && !rd.Stuck()
  {
    FailedBytes(q, d, n);
    if n == |q[d].bytes| || n == 0 {
      ReadsGoodbye(rd, fs, k);
    } else {
      ReadsTorn(rd, fs, ImageOf(q[d])[0], k);
    }
  }

  /** What the peer makes of it: the packets before the one that failed, that packet too if it was all
  out, and then perhaps DISCONNECT. Nothing is made up, and its reader does not get stuck. */
  lemma FailureIsFaithful(q: seq<InternalPacket>, sent: seq<Handed>, image: Packet -> seq<byte>, d: nat, n: nat,
                          k: nat, rd: PacketReader)
    requires Faithful(image) && AllNonEmpty(q) && Linked(q, sent, image) && DupOnPublish(sent)
    requires d < |q| && Partly(q[d], n) && k <= 2 && AllNonEmpty(q[..d])
    requires rd.Valid() && rd.consumed <= Stream(q[..d]) + ImageOf(q[d])[..n] + GOODBYE[..k]
    ensures var m := Complete(q, d, n);
            && |rd.frames| <= m + 1 && !rd.Stuck()
            && forall i :: 0 <= i < |rd.frames| ==>
                 if i < m then Arrives(rd.frames[i], sent[i]) else rd.frames[i] == GOODBYE
  {
    var m := Complete(q, d, n);
    LinkedFront(q, sent, image, m);
    var fs := Frames(sent[..m]);
    ReadsFailed(q, d, n, k, fs, rd);
    forall i | 0 <= i < |rd.frames| ensures if i < m then Arrives(rd.frames[i], sent[i]) else rd.frames[i] == GOODBYE {
      assert rd.frames[i] == (fs + [GOODBYE])[i];
    }
  }
}
