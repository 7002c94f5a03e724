/**
 What every step of `Protocol` keeps. Each predicate names just the fields it is about, so that a step
 that leaves those alone keeps it at once.
 */
module ProtocolInvariant {
  import opened Basics
  import opened SenderModel
  import opened ReceiverModel
  import opened Protocol

  type Flight = map<u16, Segment>
  type Held = map<u16, bytes>

  // ---------- the sender ----------

  /** Unbounded index of the segment in flight under number `q`, when `n` segments exist. */
  function IndexOf(h: u16, t: u16, n: nat, q: u16): int {
    n - Dist(h, t) + Dist(h, q)
  }

  /** The keys of `sent` are the circular interval from head to tail, and each holds its own payload. */
  predicate FlightShape(sent: Flight, h: u16, t: u16, chunks: seq<bytes>) {
    && t == SeqOf(|chunks|)
    && h == SeqOf(|chunks| - Dist(h, t))
    && |sent| == Dist(h, t) <= Min(WINDOW, |chunks|)
    && (forall q: u16 :: q in sent <==> Dist(h, q) < Dist(h, t))
    && (forall q :: q in sent ==> sent[q].bs == chunks[IndexOf(h, t, |chunks|, q)])
  }

  predicate WindowOk(cwnd: int, rwnd: int, swnd: int) {
    2 <= cwnd <= 128 && rwnd == 128 && swnd == Min(rwnd, cwnd)
  }

  predicate HeadUnacked(sent: Flight, h: u16) {
    h in sent ==> !sent[h].acked
  }

  // ---------- the receiver ----------

  predicate HeldShape(recved: Held, tail: u16, drained: nat, chunks: seq<bytes>) {
    && tail == SeqOf(drained)
    && drained <= |chunks|
    && forall q :: q in recved ==>
         && Dist(tail, q) < WINDOW
         && drained + Dist(tail, q) < |chunks|
         && recved[q] == chunks[drained + Dist(tail, q)]
  }

  /** The receiver has segment `i`: in its queue, read from it, or held for later. */
  predicate Received(recved: Held, drained: nat, i: int) {
    i < drained || (i < drained + WINDOW && SeqOf(i) in recved)
  }

  // ---------- both ends ----------

  /** Only received segments are marked acked. */
  predicate MarkedReceived(sent: Flight, h: u16, t: u16, n: nat, recved: Held, drained: nat) {
    forall q :: q in sent && sent[q].acked ==> Received(recved, drained, IndexOf(h, t, n, q))
  }

  /** Only received segments are trimmed. */
  predicate TrimmedReceived(head: int, recved: Held, drained: nat) {
    forall i :: 0 <= i < head ==> Received(recved, drained, i)
  }

  predicate WireOk(wire: set<Packet>, chunks: seq<bytes>) {
    forall p :: p in wire ==> 0 <= p.idx < |chunks| && p.seqN == SeqOf(p.idx) && p.bs == chunks[p.idx]
  }

  predicate AcksOk(acks: set<AckMsg>, n: nat, recved: Held, drained: nat) {
    forall a :: a in acks ==> 0 <= a.idx < n && a.seqN == SeqOf(a.idx) && Received(recved, drained, a.idx)
  }

  /** No acknowledgement of segment `i` was ever sent. */
  predicate NeverAcked(sent: Flight, head: int, acks: set<AckMsg>, i: int) {
    && head <= i
    && (forall a :: a in acks ==> a.idx != i)
    && (SeqOf(i) in sent ==> !sent[SeqOf(i)].acked)
  }

  /** Between two calls of `Recv` on an open window the tail slot is empty. */
  predicate TailEmpty(busy: Busy, closed: bool, recved: Held, tail: u16, part: bytes) {
    busy.Idle? && !closed ==> tail !in recved && part == []
  }

  /** The segment `Recv` was called with is held or already in the queue. */
  predicate InHand(busy: Busy, recvIdx: int, n: nat, recved: Held, drained: nat) {
    busy.Draining? ==> 0 <= recvIdx < n && busy.seqN == SeqOf(recvIdx) && Received(recved, drained, recvIdx)
  }

  /** What is pushed and what is left to push make up the tail segment. */
  predicate TailSplit(busy: Busy, recved: Held, tail: u16, drained: nat, chunks: seq<bytes>, part: bytes) {
    && (if drained < |chunks| then part <= chunks[drained] else part == [])
    && (busy.Draining? && busy.rest.None? ==> part == [])
    && (busy.Draining? && busy.rest.Some? ==>
          && tail in recved
          && drained < |chunks|
          && part + busy.rest.value == chunks[drained])
  }

  /** While a drain still has work, the segment that started it is not acked: this holds the sender back. */
  predicate DrainUnacked(busy: Busy, recved: Held, tail: u16, recvIdx: int, drained: nat,
                         sent: Flight, head: int, acks: set<AckMsg>) {
    busy.Draining? && tail in recved ==> recvIdx <= drained && NeverAcked(sent, head, acks, recvIdx)
  }

  // ---------- the bytes ----------

  predicate SentBytes(pushed: bytes, chunks: seq<bytes>, app: bytes) {
    && pushed == Concat(chunks) + app
    && |app| <= BUFFER_SIZE
    && (forall i :: 0 <= i < |chunks| ==> 0 < |chunks[i]| <= MSS)
  }

  predicate ReadBytes(read: bytes, app: bytes, chunks: seq<bytes>, drained: nat, part: bytes) {
    && drained <= |chunks|
    && read + app == Concat(chunks[..drained]) + part
    && |app| <= BUFFER_SIZE
  }

  /** The sender, and what its marks say of the receiver. */
  predicate SenderInv(snd: Sender, chunks: seq<bytes>, pushed: bytes, recved: Held, drained: nat) {
    && FlightShape(snd.sent, snd.hSeq, snd.tSeq, chunks)
    && WindowOk(snd.cwnd, snd.rwnd, snd.swnd)
    && HeadUnacked(snd.sent, snd.hSeq)
    && MarkedReceived(snd.sent, snd.hSeq, snd.tSeq, |chunks|, recved, drained)
    && TrimmedReceived(|chunks| - Dist(snd.hSeq, snd.tSeq), recved, drained)
    && SentBytes(pushed, chunks, snd.app)
  }

  predicate ReceiverInv(rcv: Receiver, chunks: seq<bytes>, drained: nat, part: bytes, recvIdx: int, read: bytes) {
    && HeldShape(rcv.recved, rcv.tailSeq, drained, chunks)
    && TailEmpty(rcv.busy, rcv.closed, rcv.recved, rcv.tailSeq, part)
    && InHand(rcv.busy, recvIdx, |chunks|, rcv.recved, drained)
    && TailSplit(rcv.busy, rcv.recved, rcv.tailSeq, drained, chunks, part)
    && ReadBytes(read, rcv.app, chunks, drained, part)
  }

  predicate NetworkInv(wire: set<Packet>, acks: set<AckMsg>, chunks: seq<bytes>, recved: Held, drained: nat) {
    WireOk(wire, chunks) && AcksOk(acks, |chunks|, recved, drained)
  }

  predicate Inv(s: System) {
    && SenderInv(s.snd, s.chunks, s.pushed, s.rcv.recved, s.drained)
    && ReceiverInv(s.rcv, s.chunks, s.drained, s.part, s.recvIdx, s.read)
    && NetworkInv(s.wire, s.acks, s.chunks, s.rcv.recved, s.drained)
    && DrainUnacked(s.rcv.busy, s.rcv.recved, s.rcv.tailSeq, s.recvIdx, s.drained, s.snd.sent, Head(s), s.acks)
  }

  lemma InitialInv()
    ensures Inv(InitialSystem())
  {
  }

  // ---------- 16-bit numbers against indices ----------

  /** While the receiver can still take segments, the sender never slides past the receiver's tail. */
  lemma HeadBehindTail(s: System)
    requires Inv(s)
    requires s.rcv.busy.Draining? || !s.rcv.closed
    ensures Head(s) <= s.drained <= |s.chunks| <= Head(s) + WINDOW
  {
    assert s.drained < Head(s) ==> Received(s.rcv.recved, s.drained, s.drained);
  }

  /** The 16-bit window test decides by the unbounded index. */
  lemma LegalByIndex(s: System, p: Packet)
    requires Inv(s) && !s.rcv.closed && p in s.wire
    requires s.drained <= p.idx + LIFETIME
    ensures Legal(s.rcv.tailSeq, p.seqN) <==> s.drained <= p.idx
    ensures Legal(s.rcv.tailSeq, p.seqN) ==> Dist(s.rcv.tailSeq, p.seqN) == p.idx - s.drained
  {
    HeadBehindTail(s);
    DistSigned(s.drained, p.idx);
  }

  lemma LiveIff(sent: Flight, h: u16, t: u16, chunks: seq<bytes>, i: int)
    requires FlightShape(sent, h, t, chunks)
    requires i < |chunks| <= i + 65536
    ensures SeqOf(i) in sent <==> |chunks| - Dist(h, t) <= i
    ensures SeqOf(i) in sent ==> IndexOf(h, t, |chunks|, SeqOf(i)) == i
  {
    if |chunks| - Dist(h, t) < i + 65536 {
      DistSigned(|chunks| - Dist(h, t), i);
    }
  }

  /** The lookup of an ack's number in `sent` decides by the unbounded index. */
  lemma LiveByIndex(s: System, a: AckMsg)
    requires Inv(s) && a in s.acks
    requires |s.chunks| <= a.idx + 65536
    ensures a.seqN in s.snd.sent <==> Head(s) <= a.idx
    ensures a.seqN in s.snd.sent ==> IndexOf(s.snd.hSeq, s.snd.tSeq, |s.chunks|, a.seqN) == a.idx
  {
    LiveIff(s.snd.sent, s.snd.hSeq, s.snd.tSeq, s.chunks, a.idx);
  }

  /** The number of a live segment is that of its index. */
  lemma IndexHasSeq(sent: Flight, h: u16, t: u16, chunks: seq<bytes>, q: u16)
    requires FlightShape(sent, h, t, chunks) && q in sent
    ensures SeqOf(IndexOf(h, t, |chunks|, q)) == q
    ensures 0 <= IndexOf(h, t, |chunks|, q) < |chunks|
  {
    SeqAtDistance(|chunks| - Dist(h, t), q);
  }

  // ---------- trimming ----------

  /** Dropping the head keeps the interval and every index in it. */
  lemma DropHeadShape(sent: Flight, h: u16, t: u16, chunks: seq<bytes>)
    requires FlightShape(sent, h, t, chunks) && h in sent
    ensures FlightShape(sent - {h}, Inc(h), t, chunks)
    ensures forall q :: q in sent - {h} ==> IndexOf(Inc(h), t, |chunks|, q) == IndexOf(h, t, |chunks|, q)
  {
    SeqOfInc(|chunks| - Dist(h, t));
    DistAfterInc(h, t);
    assert (sent - {h}).Keys == sent.Keys - {h};
    forall q: u16
      ensures q in sent - {h} <==> Dist(Inc(h), q) < Dist(Inc(h), t)
      ensures q in sent - {h} ==> IndexOf(Inc(h), t, |chunks|, q) == IndexOf(h, t, |chunks|, q)
    {
      if q != h {
        DistAfterInc(h, q);
      }
    }
  }

  lemma DropHeadReceived(sent: Flight, h: u16, t: u16, chunks: seq<bytes>, recved: Held, drained: nat)
    requires FlightShape(sent, h, t, chunks) && h in sent && sent[h].acked
    requires MarkedReceived(sent, h, t, |chunks|, recved, drained)
    requires TrimmedReceived(|chunks| - Dist(h, t), recved, drained)
    ensures MarkedReceived(sent - {h}, Inc(h), t, |chunks|, recved, drained)
    ensures TrimmedReceived(|chunks| - Dist(Inc(h), t), recved, drained)
  {
    DropHeadShape(sent, h, t, chunks);
    DistAfterInc(h, t);
    assert Received(recved, drained, IndexOf(h, t, |chunks|, h));
  }

  /** `r` is `snd` with some acked segments gone from the head. */
  predicate TrimFrame(snd: Sender, r: Sender, n: nat) {
    && r == snd.(sent := r.sent, hSeq := r.hSeq)
    && Dist(r.hSeq, r.tSeq) <= Dist(snd.hSeq, snd.tSeq)
    && (forall q :: q in r.sent ==>
          && q in snd.sent
          && r.sent[q] == snd.sent[q]
          && IndexOf(r.hSeq, r.tSeq, n, q) == IndexOf(snd.hSeq, snd.tSeq, n, q))
    && (forall q :: q in snd.sent && !snd.sent[q].acked ==> q in r.sent)
  }

  /** The part of the invariant that trimming works on, and what trimming leaves alone. */
  lemma {:induction false} TrimKeeps(snd: Sender, chunks: seq<bytes>, recved: Held, drained: nat)
    requires FlightShape(snd.sent, snd.hSeq, snd.tSeq, chunks)
    requires MarkedReceived(snd.sent, snd.hSeq, snd.tSeq, |chunks|, recved, drained)
    requires TrimmedReceived(|chunks| - Dist(snd.hSeq, snd.tSeq), recved, drained)
    ensures var r := Trim(snd);
      && FlightShape(r.sent, r.hSeq, r.tSeq, chunks)
      && MarkedReceived(r.sent, r.hSeq, r.tSeq, |chunks|, recved, drained)
      && TrimmedReceived(|chunks| - Dist(r.hSeq, r.tSeq), recved, drained)
      && HeadUnacked(r.sent, r.hSeq)
      && TrimFrame(snd, r, |chunks|)
    decreases |snd.sent|
  {
    if snd.hSeq in snd.sent && snd.sent[snd.hSeq].acked {
      var snd1 := snd.(sent := snd.sent - {snd.hSeq}, hSeq := Inc(snd.hSeq));
      DropHeadShape(snd.sent, snd.hSeq, snd.tSeq, chunks);
      DropHeadReceived(snd.sent, snd.hSeq, snd.tSeq, chunks, recved, drained);
      DistAfterInc(snd.hSeq, snd.tSeq);
      assert TrimFrame(snd, snd1, |chunks|);
      TrimKeeps(snd1, chunks, recved, drained);
      assert Trim(snd) == Trim(snd1);
    }
  }
}
