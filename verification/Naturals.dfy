/**
 The window protocol over unbounded numbers: here every decision compares indices. Each step of the 16-bit protocol
 is shown to be the step over unbounded numbers, in what it keeps, sends, resends and acknowledges, so its
 wrap-around cannot be observed.
 */
module Naturals {
  import opened Basics
  import opened SenderModel
  import opened ReceiverModel
  import opened Protocol
  import opened ProtocolInvariant
  import opened ProtocolSteps
  import opened ProtocolTheorems
  import QuickResendSelection

  /** Both windows and the network. Segments `head..n` are in flight, of which `acked` are acked; segments below `tail`
      are in the receiver's queue, and it holds `held`. */
  datatype Windows = Windows(
    head: int,
    n: int,
    acked: set<int>,
    tail: int,
    held: set<int>,
    wire: set<int>,       // segments with a copy on the wire
    acks: set<int>,       // segments with an ack on its way
    due: Option<int>,     // the segment `Recv` works on, its ack still due
    quick: Option<int>)   // the ack `RecvAck` works on, its quick resend still due

  function AckedIn(sent: Flight, head: int, n: nat): set<int> {
    set i | head <= i < n && SeqOf(i) in sent && sent[SeqOf(i)].acked
  }

  function HeldIn(recved: Held, drained: nat): set<int> {
    set i | drained <= i < drained + WINDOW && SeqOf(i) in recved
  }

  function OnWire(wire: set<Packet>): set<int> {
    set p | p in wire :: p.idx
  }

  function OnTheWayBack(acks: set<AckMsg>): set<int> {
    set a | a in acks :: a.idx
  }

  function DueOf(busy: Busy, recvIdx: int): Option<int> {
    if busy.Draining? then Some(recvIdx) else None
  }

  function QuickOf(lock: Lock, ackIdx: int): Option<int> {
    if lock.Quick? || (lock.Sending? && lock.holder.ByAck?) then Some(ackIdx) else None
  }

  /** What the 16-bit state stands for. */
  function ViewOf(s: System): Windows {
    Windows(Head(s), |s.chunks|, AckedIn(s.snd.sent, Head(s), |s.chunks|),
            s.drained, HeldIn(s.rcv.recved, s.drained),
            OnWire(s.wire), OnTheWayBack(s.acks),
            DueOf(s.rcv.busy, s.recvIdx), QuickOf(s.lock, s.ackIdx))
  }

  /** What a step looks at besides: is the receiver closed, does a flush send, the bytes waiting, the window size. */
  datatype Around = Around(closed: bool, flushing: bool, waiting: nat, swnd: int)

  function AroundOf(s: System): Around {
    Around(s.rcv.closed, s.lock == Sending(ByFlush), |s.snd.app|, s.snd.swnd)
  }

  // ---------- the steps over unbounded numbers ----------

  /** A packet at or beyond the tail is held, an older one acknowledged. */
  function TakeData(v: Windows, i: int): Windows {
    if v.tail <= i then v.(held := v.held + {i}, due := Some(i)) else v.(acks := v.acks + {i})
  }

  /** The first segment at or after `from` that is not acked. */
  function FirstUnacked(acked: set<int>, from: int, n: int): int
    decreases n - from
  {
    if from < n && from in acked then FirstUnacked(acked, from + 1, n) else from
  }

  function Above(acked: set<int>, h: int): set<int> {
    set k | k in acked && h <= k
  }

  /** An ack of a segment in flight marks it, and the head moves to the first unacked segment. */
  function TakeAck(v: Windows, i: int): Windows {
    if i < v.head then v
    else
      var acked := v.acked + {i};
      var head := FirstUnacked(acked, v.head, v.n);
      v.(head := head, acked := Above(acked, head), quick := Some(i))
  }

  /** A segment is sent: a flush sends whatever waits, others a full segment if the window has room. */
  predicate SendsNow(v: Windows, c: Around) {
    if c.flushing then 0 < c.waiting else MSS <= c.waiting && v.n - v.head < c.swnd
  }

  /** The segments that the ack of `i` resends: unacked, in flight, and two or more before it. */
  function Overtaken(v: Windows, i: int, fired: set<u16>): set<int> {
    set k | v.head <= k < v.n && k !in v.acked && k + 2 <= i && SeqOf(k) in fired
  }

  /** The ack that was due goes out. */
  predicate AckGoesOut(v: Windows, v': Windows) {
    v.due.Some? && v' == v.(acks := v.acks + {v.due.value}, due := None)
  }

  predicate Resends(v: Windows, q: u16, v': Windows) {
    exists k :: v.head <= k < v.n && k !in v.acked && SeqOf(k) == q && v' == v.(wire := v.wire + {k})
  }

  /** One step over unbounded numbers. */
  predicate IndexStep(v: Windows, e: Event, v': Windows, c: Around) {
    match e
    case DeliverData(p) => p.idx in v.wire && v' == if c.closed then v else TakeData(v, p.idx)
    case DeliverAck(a, _) => a.idx in v.acks && v' == TakeAck(v, a.idx)
    case NextSegment => v.tail in v.held && v' == v
    case SegmentDone => v.tail in v.held && v' == v.(tail := v.tail + 1, held := v.held - {v.tail})
    case DrainDone => v.tail !in v.held && AckGoesOut(v, v')
    case PushStopped => c.closed && AckGoesOut(v, v')
    case SendStep => v' == if SendsNow(v, c) then v.(n := v.n + 1, wire := v.wire + {v.n}) else v
    case SendFails => SendsNow(v, c) && v' == v.(n := v.n + 1, quick := None)
    case TickerResend(q) => Resends(v, q, v')
    case QuickResend(fired) =>
      v.quick.Some? && v' == v.(wire := v.wire + Overtaken(v, v.quick.value, fired), quick := None)
    case LoseData(p) => v' == v.(wire := v.wire - {p.idx})
    case LoseAck(a) => v' == v.(acks := v.acks - {a.idx})
    case _ => v' == v
  }

  // ---------- the receiver takes the same decisions ----------

  lemma StoredView(recved: Held, drained: nat, p: Packet)
    requires drained <= p.idx < drained + WINDOW && p.seqN == SeqOf(p.idx)
    ensures HeldIn(recved[p.seqN := p.bs], drained) == HeldIn(recved, drained) + {p.idx}
  {
    forall i | drained <= i < drained + WINDOW && SeqOf(i) == p.seqN
      ensures i == p.idx
    {
      SeqOfInjective(i, p.idx);
    }
  }

  lemma AckAdded(acks: set<AckMsg>, a: AckMsg)
    ensures OnTheWayBack(acks + {a}) == OnTheWayBack(acks) + {a.idx}
  {
    assert a in acks + {a};
  }

  lemma LegalDataView(s: System, p: Packet)
    requires Enabled(s, DeliverData(p)) && !s.rcv.closed && Legal(s.rcv.tailSeq, p.seqN)
    requires s.drained <= p.idx < s.drained + WINDOW && p.seqN == SeqOf(p.idx)
    ensures ViewOf(AfterData(s, p)) == TakeData(ViewOf(s), p.idx)
  {
    StoredView(s.rcv.recved, s.drained, p);
  }

  lemma OldDataView(s: System, p: Packet)
    requires Enabled(s, DeliverData(p)) && !s.rcv.closed && !Legal(s.rcv.tailSeq, p.seqN) && p.idx < s.drained
    ensures ViewOf(AfterData(s, p)) == TakeData(ViewOf(s), p.idx)
  {
    AckAdded(s.acks, AckMsg(p.seqN, p.idx));
  }

  lemma DataRefines(s: System, p: Packet)
    requires Inv(s) && Enabled(s, DeliverData(p)) && Assumed(s, DeliverData(p)) && !s.rcv.closed
    ensures ViewOf(Apply(s, DeliverData(p))) == TakeData(ViewOf(s), p.idx)
  {
    LegalByIndex(s, p);
    if Legal(s.rcv.tailSeq, p.seqN) {
      LegalDataView(s, p);
    } else {
      OldDataView(s, p);
    }
  }

  lemma SlidView(recved: Held, tail: u16, drained: nat, chunks: seq<bytes>)
    requires HeldShape(recved, tail, drained, chunks) && tail in recved
    ensures HeldIn(recved - {tail}, drained + 1) == HeldIn(recved, drained) - {drained}
  {
    forall i | drained < i <= drained + WINDOW
      ensures Dist(tail, SeqOf(i)) == i - drained
    {
      DistSigned(drained, i);
    }
  }

  lemma SlideRefines(s: System)
    requires HeldShape(s.rcv.recved, s.rcv.tailSeq, s.drained, s.chunks) && s.rcv.tailSeq in s.rcv.recved
    requires Enabled(s, SegmentDone)
    ensures var v := ViewOf(s);
      v.tail in v.held && ViewOf(Apply(s, SegmentDone)) == v.(tail := v.tail + 1, held := v.held - {v.tail})
  {
    SlidView(s.rcv.recved, s.rcv.tailSeq, s.drained, s.chunks);
  }

  lemma RecvEnds(s: System, e: Event)
    requires Enabled(s, e) && (e.DrainDone? || e.PushStopped?)
    ensures AckGoesOut(ViewOf(s), ViewOf(Apply(s, e)))
  {
    AckAdded(s.acks, AckMsg(s.rcv.busy.seqN, s.recvIdx));
  }

  lemma TailHeld(recved: Held, tail: u16, drained: nat)
    requires tail == SeqOf(drained)
    ensures drained in HeldIn(recved, drained) <==> tail in recved
  {
  }

  // ---------- so does whoever sends ----------

  /** A new segment is not acked, and the others keep their marks. */
  lemma EnqueuedView(sent: Flight, h: u16, t: u16, chunks: seq<bytes>, g: Segment)
    requires FlightShape(sent, h, t, chunks) && |sent| < WINDOW && !g.acked
    ensures var head := |chunks| - Dist(h, t);
      AckedIn(sent[t := g], head, |chunks| + 1) == AckedIn(sent, head, |chunks|)
  {
    EnqueueShape(sent, h, t, chunks, g);
    forall i | |chunks| - Dist(h, t) <= i < |chunks|
      ensures SeqOf(i) != t
    {
      LiveIff(sent, h, t, chunks, i);
    }
  }

  lemma PacketAdded(wire: set<Packet>, p: Packet)
    ensures OnWire(wire + {p}) == OnWire(wire) + {p.idx}
  {
    assert p in wire + {p};
  }

  lemma SentOneFrame(s: System, s': System, n: nat)
    requires SentOne(s, s', n) && Dist(s.snd.hSeq, Inc(s.snd.tSeq)) == Dist(s.snd.hSeq, s.snd.tSeq) + 1
    ensures var p := Packet(s.snd.tSeq, s.snd.app[..n], |s.chunks|);
      ViewOf(s') == ViewOf(s).(n := |s.chunks| + 1,
                               acked := AckedIn(s'.snd.sent, Head(s), |s.chunks| + 1),
                               wire := OnWire(s.wire + {p}))
  {
  }

  lemma SentOneRefines(s: System, s': System, n: nat)
    requires FlightShape(s.snd.sent, s.snd.hSeq, s.snd.tSeq, s.chunks) && |s.snd.sent| < WINDOW
    requires SentOne(s, s', n)
    ensures ViewOf(s') == ViewOf(s).(n := |s.chunks| + 1, wire := OnWire(s.wire) + {|s.chunks|})
  {
    DistToInc(s.snd.hSeq, s.snd.tSeq);
    SentOneFrame(s, s', n);
    EnqueuedView(s.snd.sent, s.snd.hSeq, s.snd.tSeq, s.chunks, Segment(s.snd.app[..n], false, s.snd.rto, 0));
    PacketAdded(s.wire, Packet(s.snd.tSeq, s.snd.app[..n], |s.chunks|));
  }

  lemma NothingRefines(s: System, s1: Sender)
    requires s.lock.Sending? && ReadSegment(s.snd, ModeOf(s.lock.holder)) == Nothing(s1)
    ensures ViewOf(AfterSendStep(s)) == ViewOf(s)
  {
  }

  /** The count of segments in flight is a difference of indices. */
  lemma SameSendDecision(s: System)
    requires s.lock.Sending? && |s.snd.sent| == Dist(s.snd.hSeq, s.snd.tSeq)
    ensures ReadSegment(s.snd, ModeOf(s.lock.holder)).Got? <==> SendsNow(ViewOf(s), AroundOf(s))
  {
  }

  lemma GotRefines(s: System)
    requires Inv(s) && Enabled(s, SendFails) && InFlight(s, SendStep)
    ensures ViewOf(AfterSendStep(s)) == ViewOf(s).(n := |s.chunks| + 1, wire := OnWire(s.wire) + {|s.chunks|})
  {
    var Got(s1, bs) := ReadSegment(s.snd, ModeOf(s.lock.holder));
    GotIsSentOne(s, s1, bs);
    FullReadFits(s, s1, bs);
    SentOneRefines(s, AfterSendStep(s), |bs|);
  }

  lemma FailedView(s: System, s1: System)
    requires s.lock.Sending? && s1 == AfterSendStep(s)
    ensures ViewOf(AfterSendFails(s)) == ViewOf(s1).(wire := OnWire(s.wire), quick := None)
  {
  }

  lemma SendRefines(s: System, e: Event)
    requires Inv(s) && Enabled(s, e) && Assumed(s, e) && (e.SendStep? || e.SendFails?)
    ensures IndexStep(ViewOf(s), e, ViewOf(Apply(s, e)), AroundOf(s))
  {
    SameSendDecision(s);
    match ReadSegment(s.snd, ModeOf(s.lock.holder))
    case Nothing(s1) => NothingRefines(s, s1);
    case Got(_, _) =>
      GotRefines(s);
      FailedView(s, AfterSendStep(s));
  }

  // ---------- so do the acks ----------

  /** `ProtocolInvariant.TrimKeeps` without what the receiver has. */
  lemma TrimShape(m: Sender, chunks: seq<bytes>)
    requires FlightShape(m.sent, m.hSeq, m.tSeq, chunks)
    ensures var r := Trim(m);
      FlightShape(r.sent, r.hSeq, r.tSeq, chunks) && HeadUnacked(r.sent, r.hSeq) && TrimFrame(m, r, |chunks|)
  {
    TrimKeeps(m, chunks, map[], |chunks|);
  }

  lemma MarkShape(snd: Sender, chunks: seq<bytes>, q: u16, rttm: int)
    requires FlightShape(snd.sent, snd.hSeq, snd.tSeq, chunks) && q in snd.sent
    requires WindowOk(snd.cwnd, snd.rwnd, snd.swnd)
    ensures var m := MarkAcked(snd, q, rttm);
      FlightShape(m.sent, m.hSeq, m.tSeq, chunks) && MarkFrame(snd, m, q) && q in m.sent && m.sent[q].acked
  {
    MarkKeeps(snd, chunks, q, rttm, map[], |chunks|);
  }

  /** Index of the head of `snd`, when `n` segments exist. */
  function HeadOf(snd: Sender, n: nat): int {
    n - Dist(snd.hSeq, snd.tSeq)
  }

  /** By index: what a trim drops is acked, what it leaves is as before and begins with an unacked segment. */
  predicate TrimmedRange(before: Flight, after: Flight, head: int, head': int, n: int) {
    && head <= head' <= n
    && forall k :: head <= k < n ==>
         && SeqOf(k) in before
         && (k < head' ==> before[SeqOf(k)].acked)
         && (head' <= k ==> SeqOf(k) in after && after[SeqOf(k)] == before[SeqOf(k)])
         && (head' == k ==> !before[SeqOf(k)].acked)
  }

  lemma TrimmedAt(m: Sender, chunks: seq<bytes>, k: int)
    requires FlightShape(m.sent, m.hSeq, m.tSeq, chunks) && HeadOf(m, |chunks|) <= k < |chunks|
    ensures var r := Trim(m);
      var head' := HeadOf(r, |chunks|);
      && SeqOf(k) in m.sent
      && (k < head' ==> m.sent[SeqOf(k)].acked)
      && (head' <= k ==> SeqOf(k) in r.sent && r.sent[SeqOf(k)] == m.sent[SeqOf(k)])
      && (head' == k ==> !m.sent[SeqOf(k)].acked)
  {
    TrimShape(m, chunks);
    LiveIff(m.sent, m.hSeq, m.tSeq, chunks, k);
    LiveIff(Trim(m).sent, Trim(m).hSeq, m.tSeq, chunks, k);
  }

  lemma TrimAdvances(m: Sender, chunks: seq<bytes>)
    requires FlightShape(m.sent, m.hSeq, m.tSeq, chunks)
    ensures HeadOf(m, |chunks|) <= HeadOf(Trim(m), |chunks|) <= |chunks|
  {
    TrimShape(m, chunks);
  }

  lemma TrimIsRange(m: Sender, chunks: seq<bytes>)
    requires FlightShape(m.sent, m.hSeq, m.tSeq, chunks)
    ensures TrimmedRange(m.sent, Trim(m).sent, HeadOf(m, |chunks|), HeadOf(Trim(m), |chunks|), |chunks|)
  {
    TrimAdvances(m, chunks);
    forall k | HeadOf(m, |chunks|) <= k < |chunks|
      ensures var r := Trim(m);
        var head' := HeadOf(r, |chunks|);
        && SeqOf(k) in m.sent
        && (k < head' ==> m.sent[SeqOf(k)].acked)
        && (head' <= k ==> SeqOf(k) in r.sent && r.sent[SeqOf(k)] == m.sent[SeqOf(k)])
        && (head' == k ==> !m.sent[SeqOf(k)].acked)
    {
      TrimmedAt(m, chunks, k);
    }
  }

  /** `after` is `before` with segment `i` acked. */
  predicate MarkedRange(before: Flight, after: Flight, i: int) {
    && after.Keys == before.Keys
    && SeqOf(i) in after && after[SeqOf(i)].acked
    && forall q :: q in after && q != SeqOf(i) ==> after[q] == before[q]
  }

  lemma MarkedView(before: Flight, after: Flight, head: int, n: nat, i: int)
    requires MarkedRange(before, after, i) && head <= i < n < head + 65536
    ensures AckedIn(after, head, n) == AckedIn(before, head, n) + {i}
  {
    forall k | head <= k < n && SeqOf(k) == SeqOf(i)
      ensures k == i
    {
      SeqOfInjective(k, i);
    }
  }

  lemma {:induction false} FirstUnackedIs(acked: set<int>, from: int, h: int, n: int)
    requires from <= h <= n && (forall k :: from <= k < h ==> k in acked) && (h < n ==> h !in acked)
    ensures FirstUnacked(acked, from, n) == h
    decreases h - from
  {
    if from < h {
      FirstUnackedIs(acked, from + 1, h, n);
    }
  }

  /** A trim moves the head to the first unacked segment. */
  lemma TrimmedView(before: Flight, after: Flight, head: int, head': int, n: nat)
    requires TrimmedRange(before, after, head, head', n)
    ensures head' == FirstUnacked(AckedIn(before, head, n), head, n)
    ensures AckedIn(after, head', n) == Above(AckedIn(before, head, n), head')
  {
    FirstUnackedIs(AckedIn(before, head, n), head, head', n);
  }

  lemma AckIsRange(snd: Sender, chunks: seq<bytes>, i: int, rttm: int)
    requires FlightShape(snd.sent, snd.hSeq, snd.tSeq, chunks) && WindowOk(snd.cwnd, snd.rwnd, snd.swnd)
    requires HeadOf(snd, |chunks|) <= i < |chunks| && SeqOf(i) in snd.sent
    ensures var m := MarkAcked(snd, SeqOf(i), rttm);
      && MarkedRange(snd.sent, m.sent, i)
      && TrimmedRange(m.sent, Trim(m).sent, HeadOf(snd, |chunks|), HeadOf(Trim(m), |chunks|), |chunks|)
  {
    MarkShape(snd, chunks, SeqOf(i), rttm);
    TrimIsRange(MarkAcked(snd, SeqOf(i), rttm), chunks);
  }

  /** `r` comes from a sender with its head at `head` and `acked` acked, by a trim. */
  predicate TrimmedTo(r: Sender, n: nat, head: int, acked: set<int>) {
    HeadOf(r, n) == FirstUnacked(acked, head, n) && AckedIn(r.sent, HeadOf(r, n), n) == Above(acked, HeadOf(r, n))
  }

  lemma AckView(snd: Sender, m: Sender, n: nat, i: int)
    requires MarkedRange(snd.sent, m.sent, i) && HeadOf(snd, n) <= i < n
    requires TrimmedRange(m.sent, Trim(m).sent, HeadOf(snd, n), HeadOf(Trim(m), n), n)
    ensures TrimmedTo(Trim(m), n, HeadOf(snd, n), AckedIn(snd.sent, HeadOf(snd, n), n) + {i})
  {
    MarkedView(snd.sent, m.sent, HeadOf(snd, n), n, i);
    TrimmedView(m.sent, Trim(m).sent, HeadOf(snd, n), HeadOf(Trim(m), n), n);
  }

  lemma AckTrimsTo(snd: Sender, chunks: seq<bytes>, i: int, rttm: int)
    requires FlightShape(snd.sent, snd.hSeq, snd.tSeq, chunks) && WindowOk(snd.cwnd, snd.rwnd, snd.swnd)
    requires HeadOf(snd, |chunks|) <= i < |chunks| && SeqOf(i) in snd.sent
    ensures var head := HeadOf(snd, |chunks|);
      TrimmedTo(Trim(MarkAcked(snd, SeqOf(i), rttm)), |chunks|, head, AckedIn(snd.sent, head, |chunks|) + {i})
  {
    AckIsRange(snd, chunks, i, rttm);
    AckView(snd, MarkAcked(snd, SeqOf(i), rttm), |chunks|, i);
  }

  lemma LiveAckView(s: System, a: AckMsg, rttm: int)
    requires a.seqN in s.snd.sent && Head(s) <= a.idx
    requires TrimmedTo(Trim(MarkAcked(s.snd, a.seqN, rttm)), |s.chunks|, Head(s),
                       AckedIn(s.snd.sent, Head(s), |s.chunks|) + {a.idx})
    ensures ViewOf(AfterAck(s, a, rttm)) == TakeAck(ViewOf(s), a.idx)
  {
  }

  lemma DeadAckView(s: System, a: AckMsg, rttm: int)
    requires a.seqN !in s.snd.sent && a.idx < Head(s)
    ensures ViewOf(AfterAck(s, a, rttm)) == TakeAck(ViewOf(s), a.idx)
  {
  }

  lemma AckLookup(s: System, a: AckMsg)
    requires FlightShape(s.snd.sent, s.snd.hSeq, s.snd.tSeq, s.chunks)
    requires AcksOk(s.acks, |s.chunks|, s.rcv.recved, s.drained) && a in s.acks && |s.chunks| <= a.idx + 65536
    ensures a.seqN == SeqOf(a.idx) && a.idx < |s.chunks|
    ensures a.seqN in s.snd.sent <==> Head(s) <= a.idx
  {
    LiveIff(s.snd.sent, s.snd.hSeq, s.snd.tSeq, s.chunks, a.idx);
  }

  /** An ack marks its segment and moves the head to the first unacked one, or is below the head and ignored. */
  lemma AckRefines(s: System, a: AckMsg, rttm: int)
    requires FlightShape(s.snd.sent, s.snd.hSeq, s.snd.tSeq, s.chunks)
    requires WindowOk(s.snd.cwnd, s.snd.rwnd, s.snd.swnd) && AcksOk(s.acks, |s.chunks|, s.rcv.recved, s.drained)
    requires a in s.acks && |s.chunks| <= a.idx + 65536
    ensures ViewOf(AfterAck(s, a, rttm)) == TakeAck(ViewOf(s), a.idx)
  {
    AckLookup(s, a);
    if a.seqN in s.snd.sent {
      AckTrimsTo(s.snd, s.chunks, a.idx, rttm);
      LiveAckView(s, a, rttm);
    } else {
      DeadAckView(s, a, rttm);
    }
  }

  // ---------- and so do the resends ----------

  /** The ack that `RecvAck` works on is not far below the head. */
  predicate Tracked(lock: Lock, ackIdx: int, head: int, n: nat) {
    && (lock.Quick? ==> lock.seqN == SeqOf(ackIdx))
    && (lock.Sending? && lock.holder.ByAck? ==> lock.holder.seqN == SeqOf(ackIdx))
    && (QuickOf(lock, ackIdx).Some? ==> head <= ackIdx + WINDOW && ackIdx < n)
  }

  lemma TrackedAck(s: System, a: AckMsg, rttm: int)
    requires Inv(s) && Enabled(s, DeliverAck(a, rttm)) && Assumed(s, DeliverAck(a, rttm))
    ensures var s' := AfterAck(s, a, rttm); Tracked(s'.lock, s'.ackIdx, Head(s'), |s'.chunks|)
  {
    LiveByIndex(s, a);
  }

  /** Nobody took the lock for another ack, and the indices of what is in flight stay. */
  predicate SameAck(s: System, s': System) {
    && s'.ackIdx == s.ackIdx && Head(s') == Head(s) && |s.chunks| <= |s'.chunks|
    && (|| QuickOf(s'.lock, s'.ackIdx).None?
        || s'.lock == s.lock
        || (s.lock.Sending? && s.lock.holder.ByAck? && s'.lock == Quick(s.lock.holder.seqN)))
  }

  lemma SendKeepsHead(s: System)
    requires s.lock.Sending?
    requires ReadSegment(s.snd, ModeOf(s.lock.holder)).Got? ==> Dist(s.snd.hSeq, s.snd.tSeq) < WINDOW
    ensures Head(AfterSendStep(s)) == Head(s)
  {
    if Dist(s.snd.hSeq, s.snd.tSeq) < WINDOW {
      DistToInc(s.snd.hSeq, s.snd.tSeq);
    }
  }

  lemma SendsSameAck(s: System, e: Event)
    requires Enabled(s, e) && (e.SendStep? || e.SendFails?)
    requires ReadSegment(s.snd, ModeOf(s.lock.holder)).Got? ==> Dist(s.snd.hSeq, s.snd.tSeq) < WINDOW
    ensures SameAck(s, Apply(s, e))
  {
    SendKeepsHead(s);
    var s1 := AfterSendStep(s);
    assert s1.ackIdx == s.ackIdx && |s.chunks| <= |s1.chunks|;
    assert e.SendFails? ==> Apply(s, e).lock.Free? && Head(Apply(s, e)) == Head(s1);
  }

  lemma ControlSameAck(s: System, e: Event)
    requires Enabled(s, e) && IsControl(e)
    ensures SameAck(s, Apply(s, e))
  {
    match e
    case PushEvent | ResendEvent | TimerFires | TakeTick | Flush | CloseSignal | EnterFlushing | FlushLast
      | FlushLastDone | FlushLastTimeout | WaitDone | WaitTimeout | LoseData(_) | LoseAck(_) =>
  }

  lemma OthersSameAck(s: System, e: Event)
    requires Enabled(s, e) && !e.SendStep? && !e.SendFails? && !e.DeliverAck?
    ensures SameAck(s, Apply(s, e))
  {
    if IsControl(e) {
      ControlSameAck(s, e);
    } else {
      match e
      case DeliverData(p) => assert SameAck(s, AfterData(s, p));
      case Push(_) | QuickResend(_) | TickerResend(_) | Read(_) | CloseReceiver =>
      case NextSegment | PushChunk | SegmentDone | PushStopped | DrainDone =>
    }
  }

  lemma SendHasRoom(s: System, e: Event)
    requires Inv(s) && Enabled(s, e) && Assumed(s, e) && (e.SendStep? || e.SendFails?)
    ensures ReadSegment(s.snd, ModeOf(s.lock.holder)).Got? ==> Dist(s.snd.hSeq, s.snd.tSeq) < WINDOW
  {
    match ReadSegment(s.snd, ModeOf(s.lock.holder))
    case Nothing(_) =>
    case Got(s1, bs) => FullReadFits(s, s1, bs);
  }

  lemma TrackedKeeps(s: System, e: Event)
    requires Inv(s) && Tracked(s.lock, s.ackIdx, Head(s), |s.chunks|) && Enabled(s, e) && Assumed(s, e)
    ensures var s' := Apply(s, e); Tracked(s'.lock, s'.ackIdx, Head(s'), |s'.chunks|)
  {
    if e.SendStep? || e.SendFails? {
      SendHasRoom(s, e);
      SendsSameAck(s, e);
    } else if e.DeliverAck? {
      TrackedAck(s, e.a, e.rttm);
    } else {
      OthersSameAck(s, e);
    }
  }

  /** A live segment, by its index. */
  lemma LiveAt(sent: Flight, h: u16, t: u16, chunks: seq<bytes>, k: int)
    requires FlightShape(sent, h, t, chunks) && |chunks| - Dist(h, t) <= k < |chunks|
    ensures SeqOf(k) in sent && IndexOf(h, t, |chunks|, SeqOf(k)) == k
    ensures k in AckedIn(sent, |chunks| - Dist(h, t), |chunks|) <==> sent[SeqOf(k)].acked
  {
    LiveIff(sent, h, t, chunks, k);
  }

  lemma TickerRefines(s: System, q: u16)
    requires FlightShape(s.snd.sent, s.snd.hSeq, s.snd.tSeq, s.chunks) && Enabled(s, TickerResend(q))
    ensures Resends(ViewOf(s), q, ViewOf(Apply(s, TickerResend(q))))
  {
    var k := IndexOf(s.snd.hSeq, s.snd.tSeq, |s.chunks|, q);
    IndexHasSeq(s.snd.sent, s.snd.hSeq, s.snd.tSeq, s.chunks, q);
    LiveAt(s.snd.sent, s.snd.hSeq, s.snd.tSeq, s.chunks, k);
    var sent1 := s.snd.sent[q := TickerResent(s.snd.sent[q])];
    assert AckedIn(sent1, Head(s), |s.chunks|) == AckedIn(s.snd.sent, Head(s), |s.chunks|);
    PacketAdded(s.wire, PacketOf(s, q));
    assert ViewOf(Apply(s, TickerResend(q))) == ViewOf(s).(wire := OnWire(s.wire) + {k});
  }

  /** The circular scan picks by the unbounded index. */
  lemma SelectedByIndex(h: u16, t: u16, n: nat, i: int, k: int)
    requires h == SeqOf(n - Dist(h, t)) && Dist(h, t) <= WINDOW && n - Dist(h, t) <= k < n
    requires n - Dist(h, t) <= i + WINDOW && i < n
    ensures SeqOf(k) in TryResendSeqs(h, t, SeqOf(i)) <==> k + 2 <= i
  {
    var head := n - Dist(h, t);
    QuickResendSelection.SelectionIsExact(h, t, SeqOf(i));
    DistSigned(head, k);
    DistSigned(head, i);
  }

  lemma QuickPacketAt(s: System, fired: set<u16>, i: int, k: int)
    requires FlightShape(s.snd.sent, s.snd.hSeq, s.snd.tSeq, s.chunks)
    requires Head(s) <= i + WINDOW && i < |s.chunks| && Head(s) <= k < |s.chunks|
    ensures SeqOf(k) in s.snd.sent && PacketOf(s, SeqOf(k)).idx == k
    ensures k in Overtaken(ViewOf(s), i, fired) <==> PacketOf(s, SeqOf(k)) in QuickPackets(s, SeqOf(i), fired)
  {
    LiveAt(s.snd.sent, s.snd.hSeq, s.snd.tSeq, s.chunks, k);
    SelectedByIndex(s.snd.hSeq, s.snd.tSeq, |s.chunks|, i, k);
    assert forall p :: p in QuickPackets(s, SeqOf(i), fired) ==> p == PacketOf(s, p.seqN);
  }

  lemma QuickPacketIndex(s: System, seqN: u16, fired: set<u16>, p: Packet)
    requires FlightShape(s.snd.sent, s.snd.hSeq, s.snd.tSeq, s.chunks) && p in QuickPackets(s, seqN, fired)
    ensures Head(s) <= p.idx < |s.chunks| && p.seqN == SeqOf(p.idx) && p.seqN in s.snd.sent && p == PacketOf(s, p.seqN)
  {
    IndexHasSeq(s.snd.sent, s.snd.hSeq, s.snd.tSeq, s.chunks, p.seqN);
  }

  lemma QuickPacketsView(s: System, fired: set<u16>, i: int)
    requires FlightShape(s.snd.sent, s.snd.hSeq, s.snd.tSeq, s.chunks)
    requires Head(s) <= i + WINDOW && i < |s.chunks|
    ensures OnWire(QuickPackets(s, SeqOf(i), fired)) == Overtaken(ViewOf(s), i, fired)
  {
    var quick := QuickPackets(s, SeqOf(i), fired);
    forall p | p in quick
      ensures p.idx in Overtaken(ViewOf(s), i, fired)
    {
      QuickPacketIndex(s, SeqOf(i), fired, p);
      QuickPacketAt(s, fired, i, p.idx);
    }
    forall k | k in Overtaken(ViewOf(s), i, fired)
      ensures k in OnWire(quick)
    {
      QuickPacketAt(s, fired, i, k);
    }
  }

  lemma QuickRefines(s: System, fired: set<u16>)
    requires FlightShape(s.snd.sent, s.snd.hSeq, s.snd.tSeq, s.chunks)
    requires Enabled(s, QuickResend(fired)) && Tracked(s.lock, s.ackIdx, Head(s), |s.chunks|)
    ensures var v := ViewOf(s);
      && v.quick == Some(s.ackIdx)
      && ViewOf(Apply(s, QuickResend(fired))) == v.(wire := v.wire + Overtaken(v, s.ackIdx, fired), quick := None)
  {
    var quick := QuickPackets(s, s.lock.seqN, fired);
    QuickPacketsView(s, fired, s.ackIdx);
    assert OnWire(s.wire + quick) == OnWire(s.wire) + OnWire(quick);
  }

  // ---------- every step ----------

  lemma LossRefines(s: System, e: Event)
    requires WireOk(s.wire, s.chunks) && AcksOk(s.acks, |s.chunks|, s.rcv.recved, s.drained)
    requires Enabled(s, e) && (e.LoseData? || e.LoseAck?)
    ensures IndexStep(ViewOf(s), e, ViewOf(Apply(s, e)), AroundOf(s))
  {
    if e.LoseData? {
      assert OnWire(s.wire - {e.p}) == OnWire(s.wire) - {e.p.idx};
    } else {
      assert OnTheWayBack(s.acks - {e.a}) == OnTheWayBack(s.acks) - {e.a.idx};
    }
  }

  /** Steps that the view does not show. */
  predicate IsHidden(e: Event) {
    || e.Push? || e.PushEvent? || e.ResendEvent? || e.TimerFires? || e.TakeTick? || e.Flush? || e.CloseSignal?
    || e.EnterFlushing? || e.FlushLast? || e.FlushLastDone? || e.FlushLastTimeout? || e.WaitDone? || e.WaitTimeout?
    || e.NextSegment? || e.PushChunk? || e.Read? || e.CloseReceiver?
  }

  lemma HiddenControl(s: System, e: Event)
    requires Enabled(s, e) && IsHidden(e) && IsControl(e)
    ensures ViewOf(Apply(s, e)) == ViewOf(s)
  {
    match e
    case PushEvent | ResendEvent | TimerFires | TakeTick | Flush | CloseSignal | EnterFlushing | FlushLast
      | FlushLastDone | FlushLastTimeout | WaitDone | WaitTimeout =>
  }

  lemma HiddenData(s: System, e: Event)
    requires Enabled(s, e) && IsHidden(e) && !IsControl(e)
    ensures ViewOf(Apply(s, e)) == ViewOf(s)
  {
    match e
    case Push(_) | NextSegment | PushChunk | Read(_) | CloseReceiver =>
  }

  lemma HiddenRefines(s: System, e: Event)
    requires Enabled(s, e) && IsHidden(e)
    ensures ViewOf(Apply(s, e)) == ViewOf(s)
  {
    if IsControl(e) {
      HiddenControl(s, e);
    } else {
      HiddenData(s, e);
    }
  }

  lemma DataStepRefines(s: System, e: Event)
    requires Inv(s) && Enabled(s, e) && Assumed(s, e) && e.DeliverData?
    ensures IndexStep(ViewOf(s), e, ViewOf(Apply(s, e)), AroundOf(s))
  {
    if !s.rcv.closed {
      DataRefines(s, e.p);
    }
  }

  lemma DrainRefines(s: System, e: Event)
    requires HeldShape(s.rcv.recved, s.rcv.tailSeq, s.drained, s.chunks) && Enabled(s, e)
    requires e.SegmentDone? ==> s.rcv.tailSeq in s.rcv.recved
    requires e.SegmentDone? || e.DrainDone? || e.PushStopped? || e.NextSegment?
    ensures IndexStep(ViewOf(s), e, ViewOf(Apply(s, e)), AroundOf(s))
  {
    TailHeld(s.rcv.recved, s.rcv.tailSeq, s.drained);
    if e.SegmentDone? {
      SlideRefines(s);
    } else if e.NextSegment? {
      HiddenRefines(s, e);
    } else {
      RecvEnds(s, e);
    }
  }

  /** Every step of the 16-bit protocol, under its run assumptions, is the step over unbounded numbers. */
  lemma WrapAroundRefinement(s: System, e: Event)
    requires Inv(s) && Tracked(s.lock, s.ackIdx, Head(s), |s.chunks|) && Enabled(s, e) && Assumed(s, e)
    ensures IndexStep(ViewOf(s), e, ViewOf(Apply(s, e)), AroundOf(s))
  {
    if e.DeliverData? {
      DataStepRefines(s, e);
    } else if e.SegmentDone? || e.DrainDone? || e.PushStopped? || e.NextSegment? {
      DrainRefines(s, e);
    } else if e.DeliverAck? {
      AckRefines(s, e.a, e.rttm);
    } else if e.SendStep? || e.SendFails? {
      SendRefines(s, e);
    } else if e.TickerResend? {
      TickerRefines(s, e.q);
    } else if e.QuickResend? {
      QuickRefines(s, e.fired);
    } else if e.LoseData? || e.LoseAck? {
      LossRefines(s, e);
    } else {
      HiddenRefines(s, e);
    }
  }

  /** Steps over unbounded numbers, one for each event, lead from `v` to `v'`. */
  ghost predicate IndexRun(v: Windows, es: seq<Event>, v': Windows)
    decreases |es|
  {
    if es == [] then v == v'
    else exists v1, c :: IndexStep(v, es[0], v1, c) && IndexRun(v1, es[1..], v')
  }

  lemma IndexRunGrows(v: Windows, es: seq<Event>, v1: Windows, c: Around, v': Windows)
    requires es != [] && IndexStep(v, es[0], v1, c) && IndexRun(v1, es[1..], v')
    ensures IndexRun(v, es, v')
  {
  }

  predicate Linked(s: System) {
    Inv(s) && Tracked(s.lock, s.ackIdx, Head(s), |s.chunks|)
  }

  lemma LinkedStep(s: System, e: Event)
    requires Linked(s) && Enabled(s, e) && Assumed(s, e)
    ensures Linked(Apply(s, e)) && IndexStep(ViewOf(s), e, ViewOf(Apply(s, e)), AroundOf(s))
  {
    WrapAroundRefinement(s, e);
    TrackedKeeps(s, e);
    StepKeeps(s, e);
  }

  /** So every run is a run over unbounded numbers. */
  lemma {:induction false} RunsRefine(s: System, es: seq<Event>)
    requires Linked(s) && ValidRun(s, es)
    ensures IndexRun(ViewOf(s), es, ViewOf(Exec(s, es)))
    decreases |es|
  {
    if es != [] {
      var s1 := Apply(s, es[0]);
      LinkedStep(s, es[0]);
      RunsRefine(s1, es[1..]);
      IndexRunGrows(ViewOf(s), es, ViewOf(s1), AroundOf(s), ViewOf(Exec(s1, es[1..])));
    }
  }

  function InitialWindows(): Windows {
    Windows(0, 0, {}, 0, {}, {}, {}, None, None)
  }

  lemma InitialLinked()
    ensures Linked(InitialSystem()) && ViewOf(InitialSystem()) == InitialWindows()
  {
    InitialInv();
  }

  /** Whatever the 16-bit protocol reaches is reached over unbounded numbers. */
  lemma ReachableRefines(s: System)
    requires Reachable(s)
    ensures exists es :: IndexRun(InitialWindows(), es, ViewOf(s))
  {
    var es :| ValidRun(InitialSystem(), es) && Exec(InitialSystem(), es) == s;
    InitialLinked();
    RunsRefine(InitialSystem(), es);
  }
}
