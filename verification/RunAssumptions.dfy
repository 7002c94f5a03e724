/** How exact the run assumptions are: what goes wrong in which states when a step does not meet one. */
module RunAssumptions {
  import opened Basics
  import opened SenderModel
  import opened ReceiverModel
  import opened Protocol
  import opened ProtocolInvariant
  import opened ProtocolSteps

  // ---------- lifetime of data ----------

  /** The index that the receiver takes a packet with this number for. */
  function TakenFor(s: System, seqN: u16): int {
    s.drained + Dist(s.rcv.tailSeq, seqN)
  }

  lemma OldDataDistance(drained: nat, i: int)
    requires i < drained <= i + 65536
    ensures Dist(SeqOf(drained), SeqOf(i)) == i + 65536 - drained
  {
    if drained < i + 65536 {
      DistSigned(drained, i);
    }
  }

  /** A segment held under the number of another one. */
  lemma WrongSegmentShows(recved: Held, tail: u16, drained: nat, chunks: seq<bytes>, q: u16, bs: bytes)
    requires drained + Dist(tail, q) < |chunks| ==> chunks[drained + Dist(tail, q)] != bs
    ensures !HeldShape(recved[q := bs], tail, drained, chunks)
  {
    assert q in recved[q := bs];
  }

  /** An already delivered packet is held in place of another segment exactly when its number lies in the window;
      within one cycle of numbers, exactly when the lifetime assumption is broken. (Its payload is not by chance that
      of the segment it is taken for.) */
  lemma DataLifetimeIsExact(s: System, p: Packet)
    requires HeldShape(s.rcv.recved, s.rcv.tailSeq, s.drained, s.chunks) && WireOk(s.wire, s.chunks)
    requires Enabled(s, DeliverData(p)) && !s.rcv.closed && p.idx < s.drained
    requires TakenFor(s, p.seqN) < |s.chunks| ==> s.chunks[TakenFor(s, p.seqN)] != p.bs
    ensures var r := Apply(s, DeliverData(p)).rcv;
      && (HeldShape(r.recved, r.tailSeq, s.drained, s.chunks) <==> WINDOW <= Dist(s.rcv.tailSeq, p.seqN))
      && (s.drained <= p.idx + 65536 ==>
            (HeldShape(r.recved, r.tailSeq, s.drained, s.chunks) <==> Lifetime(s, DeliverData(p))))
  {
    if s.drained <= p.idx + 65536 {
      OldDataDistance(s.drained, p.idx);
    }
    if Legal(s.rcv.tailSeq, p.seqN) {
      WrongSegmentShows(s.rcv.recved, s.rcv.tailSeq, s.drained, s.chunks, p.seqN, p.bs);
    }
  }

  // ---------- lifetime of acks ----------

  /** An ack of a trimmed segment finds a segment exactly when a newer one has its number. */
  lemma OldAckLookup(sent: Flight, h: u16, t: u16, chunks: seq<bytes>, i: int)
    requires FlightShape(sent, h, t, chunks)
    requires i < |chunks| - Dist(h, t) <= i + 65536
    ensures SeqOf(i) in sent <==> i + 65536 < |chunks|
    ensures SeqOf(i) in sent ==> IndexOf(h, t, |chunks|, SeqOf(i)) == i + 65536
  {
    OldDataDistance(|chunks| - Dist(h, t), i);
  }

  /** Every acked mark and every trimmed segment names received data. */
  predicate MarksSound(snd: Sender, n: nat, recved: Held, drained: nat) {
    && MarkedReceived(snd.sent, snd.hSeq, snd.tSeq, n, recved, drained)
    && TrimmedReceived(n - Dist(snd.hSeq, snd.tSeq), recved, drained)
  }

  /** Marking a segment that the receiver does not have stays wrong, trimmed or not. */
  lemma WrongMarkShows(snd: Sender, chunks: seq<bytes>, q: u16, rttm: int, recved: Held, drained: nat)
    requires FlightShape(snd.sent, snd.hSeq, snd.tSeq, chunks) && q in snd.sent
    requires !Received(recved, drained, IndexOf(snd.hSeq, snd.tSeq, |chunks|, q))
    ensures !MarksSound(Trim(MarkAcked(snd, q, rttm)), |chunks|, recved, drained)
  {
    var m := MarkAcked(snd, q, rttm);
    ReplaceShape(snd.sent, snd.hSeq, snd.tSeq, chunks, q, snd.sent[q].(acked := true));
    WrongMarkTrimmed(m, chunks, q, recved, drained);
  }

  lemma {:induction false} WrongMarkTrimmed(m: Sender, chunks: seq<bytes>, q: u16, recved: Held, drained: nat)
    requires FlightShape(m.sent, m.hSeq, m.tSeq, chunks) && q in m.sent && m.sent[q].acked
    requires !Received(recved, drained, IndexOf(m.hSeq, m.tSeq, |chunks|, q))
    ensures !MarksSound(Trim(m), |chunks|, recved, drained)
    decreases |m.sent|
  {
    if m.hSeq in m.sent && m.sent[m.hSeq].acked {
      var m1 := m.(sent := m.sent - {m.hSeq}, hSeq := Inc(m.hSeq));
      DropHeadShape(m.sent, m.hSeq, m.tSeq, chunks);
      DistAfterInc(m.hSeq, m.tSeq);
      assert Trim(m) == Trim(m1);
      if q == m.hSeq {
        TrimOnlyAdvances(m1);
      } else {
        WrongMarkTrimmed(m1, chunks, q, recved, drained);
      }
    }
  }

  lemma {:induction false} TrimOnlyAdvances(m: Sender)
    requires |m.sent| <= Dist(m.hSeq, m.tSeq)
    ensures Dist(Trim(m).hSeq, Trim(m).tSeq) <= Dist(m.hSeq, m.tSeq)
    decreases |m.sent|
  {
    if m.hSeq in m.sent && m.sent[m.hSeq].acked {
      var m1 := m.(sent := m.sent - {m.hSeq}, hSeq := Inc(m.hSeq));
      assert m1.sent.Keys == m.sent.Keys - {m.hSeq};
      assert |m1.sent.Keys| == |m1.sent|;
      DistAfterInc(m.hSeq, m.tSeq);
      TrimOnlyAdvances(m1);
    }
  }

  /** A mark is sound exactly when it names received data. */
  lemma MarkSoundIff(snd: Sender, chunks: seq<bytes>, q: u16, rttm: int, recved: Held, drained: nat)
    requires FlightShape(snd.sent, snd.hSeq, snd.tSeq, chunks) && q in snd.sent
    requires WindowOk(snd.cwnd, snd.rwnd, snd.swnd) && MarksSound(snd, |chunks|, recved, drained)
    ensures MarksSound(Trim(MarkAcked(snd, q, rttm)), |chunks|, recved, drained)
            <==> Received(recved, drained, IndexOf(snd.hSeq, snd.tSeq, |chunks|, q))
  {
    if Received(recved, drained, IndexOf(snd.hSeq, snd.tSeq, |chunks|, q)) {
      MarkKeeps(snd, chunks, q, rttm, recved, drained);
      TrimKeeps(MarkAcked(snd, q, rttm), chunks, recved, drained);
    } else {
      WrongMarkShows(snd, chunks, q, rttm, recved, drained);
    }
  }

  lemma AppliedAck(s: System, a: AckMsg, rttm: int)
    requires Enabled(s, DeliverAck(a, rttm))
    ensures Apply(s, DeliverAck(a, rttm)).snd
            == if a.seqN in s.snd.sent then Trim(MarkAcked(s.snd, a.seqN, rttm)) else s.snd
  {
  }

  /** An ack of a trimmed segment marks data that the receiver does not have exactly when the lifetime assumption is
      broken and the newer segment with its number was not received. */
  lemma AckLifetimeIsExact(s: System, a: AckMsg, rttm: int)
    requires FlightShape(s.snd.sent, s.snd.hSeq, s.snd.tSeq, s.chunks)
    requires WindowOk(s.snd.cwnd, s.snd.rwnd, s.snd.swnd)
    requires MarksSound(s.snd, |s.chunks|, s.rcv.recved, s.drained)
    requires AcksOk(s.acks, |s.chunks|, s.rcv.recved, s.drained)
    requires Enabled(s, DeliverAck(a, rttm)) && a.idx < Head(s) <= a.idx + 65536
    ensures a.seqN in s.snd.sent <==> !Lifetime(s, DeliverAck(a, rttm))
    ensures MarksSound(Apply(s, DeliverAck(a, rttm)).snd, |s.chunks|, s.rcv.recved, s.drained)
            <==> Lifetime(s, DeliverAck(a, rttm)) || Received(s.rcv.recved, s.drained, a.idx + 65536)
  {
    OldAckLookup(s.snd.sent, s.snd.hSeq, s.snd.tSeq, s.chunks, a.idx);
    AppliedAck(s, a, rttm);
    if a.seqN in s.snd.sent {
      MarkSoundIff(s.snd, s.chunks, a.seqN, rttm, s.rcv.recved, s.drained);
    }
  }

  // ---------- the in-flight bound ----------

  /** Every ack in flight names data the receiver has. */
  predicate AcksSound(s: System) {
    forall a :: a in s.acks ==> Received(s.rcv.recved, s.drained, a.idx)
  }

  /** The packet that a flush is about to send. */
  function NextFlushed(s: System): Packet {
    Packet(s.snd.tSeq, s.snd.app[..Min(MSS, |s.snd.app|)], |s.chunks|)
  }

  lemma FlushedDelivery(s: System)
    requires s.lock == Sending(ByFlush) && s.snd.app != [] && s.rcv.busy.Idle? && !s.rcv.closed
    requires s.rcv.tailSeq == SeqOf(s.drained) && s.snd.tSeq == SeqOf(|s.chunks|) && AcksSound(s)
    requires s.drained <= |s.chunks| < s.drained + 65536
    ensures var s1, p := Apply(s, SendStep), NextFlushed(s);
      && Enabled(s1, DeliverData(p)) && Lifetime(s, SendStep) && Lifetime(s1, DeliverData(p))
      && (AcksSound(Apply(s1, DeliverData(p))) <==> |s.chunks| < s.drained + WINDOW)
  {
    DistSigned(s.drained, |s.chunks|);
    var s1, p := AfterSendStep(s), NextFlushed(s);
    assert p in s1.wire && s1.rcv == s.rcv && s1.acks == s.acks && s1.drained == s.drained;
    if s.drained + WINDOW <= |s.chunks| {
      assert AckMsg(p.seqN, p.idx) in AfterData(s1, p).acks;
    }
  }

  /** A segment flushed and delivered at once is acknowledged without being kept exactly when it lies beyond the
      receiver's window, and that is exactly when the sender's window was full and its head had not arrived. So a
      sender, which knows only `sent`, can rule it out only by keeping to the in-flight assumption. */
  lemma InFlightBoundIsExact(s: System)
    requires Inv(s) && s.lock == Sending(ByFlush) && s.snd.app != [] && s.rcv.busy.Idle? && !s.rcv.closed
    ensures var s1, p := Apply(s, SendStep), NextFlushed(s);
      && Enabled(s1, DeliverData(p)) && Lifetime(s, SendStep) && Lifetime(s1, DeliverData(p))
      && (AcksSound(Apply(s1, DeliverData(p))) <==> |s.chunks| < s.drained + WINDOW)
    ensures s.drained + WINDOW <= |s.chunks| <==> !InFlight(s, SendStep) && s.drained == Head(s)
  {
    HeadBehindTail(s);
    FlushedDelivery(s);
  }
}
