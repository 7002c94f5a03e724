/** Every step keeps the invariant: one lemma a kind of step. */
module ProtocolSteps {
  import opened Basics
  import opened SenderModel
  import opened ReceiverModel
  import opened Protocol
  import opened ProtocolInvariant

  /** Steps that move no data: locks, timers, close, the congestion window, loss. */
  predicate IsControl(e: Event) {
    || e.PushEvent? || e.ResendEvent? || e.TimerFires? || e.TakeTick? || e.Flush? || e.CloseSignal?
    || e.EnterFlushing? || e.FlushLast? || e.FlushLastDone? || e.FlushLastTimeout? || e.WaitDone? || e.WaitTimeout?
    || e.LoseData? || e.LoseAck?
  }

  /** Nothing the invariant speaks of changed, except that packets and acks may be gone, and the windows resized. */
  predicate SameCore(s: System, s': System) {
    && s'.snd.sent == s.snd.sent && s'.snd.hSeq == s.snd.hSeq && s'.snd.tSeq == s.snd.tSeq && s'.snd.app == s.snd.app
    && WindowOk(s'.snd.cwnd, s'.snd.rwnd, s'.snd.swnd)
    && s'.rcv == s.rcv && s'.chunks == s.chunks && s'.drained == s.drained && s'.part == s.part
    && s'.recvIdx == s.recvIdx && s'.pushed == s.pushed && s'.read == s.read
    && s'.wire <= s.wire && s'.acks <= s.acks
  }

  lemma SameCoreKeeps(s: System, s': System)
    requires Inv(s) && SameCore(s, s')
    ensures Inv(s')
  {
  }

  lemma ControlIsSameCore(s: System, e: Event)
    requires WindowOk(s.snd.cwnd, s.snd.rwnd, s.snd.swnd) && Enabled(s, e) && IsControl(e)
    ensures SameCore(s, Apply(s, e))
  {
    match e
    case PushEvent | ResendEvent | TimerFires | TakeTick | Flush | CloseSignal | EnterFlushing | FlushLast
      | FlushLastDone | FlushLastTimeout | WaitDone | WaitTimeout | LoseData(_) | LoseAck(_) =>
  }

  lemma ControlKeeps(s: System, e: Event)
    requires Inv(s) && Enabled(s, e) && IsControl(e)
    ensures Inv(Apply(s, e))
  {
    ControlIsSameCore(s, e);
    SameCoreKeeps(s, Apply(s, e));
  }

  lemma PushKeeps(s: System, bs: bytes)
    requires Inv(s) && Enabled(s, Push(bs))
    ensures Inv(Apply(s, Push(bs)))
  {
    assert (Concat(s.chunks) + s.snd.app) + bs == Concat(s.chunks) + (s.snd.app + bs);
    assert SentBytes(s.pushed + bs, s.chunks, s.snd.app + bs);
  }

  lemma ReadKeeps(s: System, n: nat)
    requires Inv(s) && Enabled(s, Read(n))
    ensures Inv(Apply(s, Read(n)))
  {
    assert s.read + s.rcv.app == (s.read + Take(s.rcv, n)) + AfterRead(s.rcv, n).app;
  }

  lemma CloseReceiverKeeps(s: System)
    requires Inv(s)
    ensures Inv(Apply(s, CloseReceiver))
  {
  }

  lemma StartPushReceiver(r: Receiver, chunks: seq<bytes>, drained: nat, part: bytes, recvIdx: int, read: bytes)
    requires ReceiverInv(r, chunks, drained, part, recvIdx, read)
    requires r.busy.Draining? && r.busy.rest.None? && r.tailSeq in r.recved
    ensures ReceiverInv(StartPush(r), chunks, drained, part, recvIdx, read)
  {
  }

  lemma NextSegmentKeeps(s: System)
    requires Inv(s) && Enabled(s, NextSegment)
    ensures Inv(Apply(s, NextSegment))
  {
    StartPushReceiver(s.rcv, s.chunks, s.drained, s.part, s.recvIdx, s.read);
  }

  lemma PushChunkKeeps(s: System)
    requires Inv(s) && Enabled(s, PushChunk)
    ensures Inv(Apply(s, PushChunk))
  {
    var rest := s.rcv.busy.rest.value;
    ChunkMoves(s.read, s.rcv.app, Concat(s.chunks[..s.drained]), s.part, rest, ChunkSize(s.rcv.app, rest));
  }

  /** Bytes that go from the rest of the tail segment to the queue stay in order. */
  lemma ChunkMoves(read: bytes, app: bytes, before: bytes, part: bytes, rest: bytes, k: nat)
    requires k <= |rest| && read + app == before + part
    ensures (part + rest[..k]) + rest[k..] == part + rest
    ensures read + (app + rest[..k]) == before + (part + rest[..k])
  {
    assert rest == rest[..k] + rest[k..];
    assert read + (app + rest[..k]) == (read + app) + rest[..k];
  }

  lemma AfterRecvKeeps(s: System, e: Event)
    requires Inv(s) && Enabled(s, e) && (e.PushStopped? || e.DrainDone?)
    ensures Inv(Apply(s, e))
  {
  }

  /** Nothing is received less. */
  ghost predicate ReceivedGrows(recved: Held, drained: nat, recved': Held, drained': nat) {
    forall i {:trigger Received(recved', drained', i)} :: Received(recved, drained, i) ==> Received(recved', drained', i)
  }

  /** Sliding past the tail forgets no received segment. */
  lemma SlideKeepsHeld(recved: Held, tail: u16, drained: nat, chunks: seq<bytes>)
    requires HeldShape(recved, tail, drained, chunks) && tail in recved
    ensures HeldShape(recved - {tail}, Inc(tail), drained + 1, chunks)
    ensures ReceivedGrows(recved, drained, recved - {tail}, drained + 1)
  {
    SeqOfInc(drained);
    forall q | q in recved - {tail}
      ensures Dist(Inc(tail), q) == Dist(tail, q) - 1
    {
      DistAfterInc(tail, q);
    }
    forall i | Received(recved, drained, i)
      ensures Received(recved - {tail}, drained + 1, i)
    {
      if drained < i {
        DistSigned(drained, i);
      }
    }
  }

  lemma MoreReceived(snd: Sender, chunks: seq<bytes>, pushed: bytes, wire: set<Packet>, acks: set<AckMsg>,
                     recved: Held, drained: nat, recved': Held, drained': nat)
    requires SenderInv(snd, chunks, pushed, recved, drained) && NetworkInv(wire, acks, chunks, recved, drained)
    requires ReceivedGrows(recved, drained, recved', drained')
    ensures SenderInv(snd, chunks, pushed, recved', drained') && NetworkInv(wire, acks, chunks, recved', drained')
  {
  }

  lemma SlideReceiver(r: Receiver, chunks: seq<bytes>, drained: nat, part: bytes, recvIdx: int, read: bytes)
    requires ReceiverInv(r, chunks, drained, part, recvIdx, read) && r.busy.Draining? && r.busy.rest == Some([])
    ensures ReceiverInv(Slide(r), chunks, drained + 1, [], recvIdx, read)
  {
    SlideKeepsHeld(r.recved, r.tailSeq, drained, chunks);
    ConcatTake(chunks, drained);
    assert part + [] == part;
  }

  lemma SlideOthers(s: System)
    requires Inv(s) && s.rcv.tailSeq in s.rcv.recved
    ensures SenderInv(s.snd, s.chunks, s.pushed, s.rcv.recved - {s.rcv.tailSeq}, s.drained + 1)
    ensures NetworkInv(s.wire, s.acks, s.chunks, s.rcv.recved - {s.rcv.tailSeq}, s.drained + 1)
  {
    SlideKeepsHeld(s.rcv.recved, s.rcv.tailSeq, s.drained, s.chunks);
    MoreReceived(s.snd, s.chunks, s.pushed, s.wire, s.acks, s.rcv.recved, s.drained,
                 s.rcv.recved - {s.rcv.tailSeq}, s.drained + 1);
  }

  lemma SlideDrain(s: System)
    requires Inv(s) && Enabled(s, SegmentDone)
    ensures var r := Slide(s.rcv);
      DrainUnacked(r.busy, r.recved, r.tailSeq, s.recvIdx, s.drained + 1, s.snd.sent, Head(s), s.acks)
  {
  }

  lemma SegmentDoneKeeps(s: System)
    requires Inv(s) && Enabled(s, SegmentDone)
    ensures Inv(Apply(s, SegmentDone))
  {
    SlideReceiver(s.rcv, s.chunks, s.drained, s.part, s.recvIdx, s.read);
    SlideOthers(s);
    SlideDrain(s);
  }

  // ---------- delivery of data ----------

  /** The tail segment of an idle receiver was never acknowledged. */
  lemma TailNeverAcked(s: System)
    requires Inv(s) && s.rcv.busy.Idle? && !s.rcv.closed && s.drained < |s.chunks|
    ensures NeverAcked(s.snd.sent, Head(s), s.acks, s.drained)
  {
    HeadBehindTail(s);
    LiveIff(s.snd.sent, s.snd.hSeq, s.snd.tSeq, s.chunks, s.drained);
  }

  /** Holding one more segment of the window. */
  lemma StoreKeepsHeld(recved: Held, tail: u16, drained: nat, chunks: seq<bytes>, q: u16, bs: bytes)
    requires HeldShape(recved, tail, drained, chunks)
    requires Dist(tail, q) < WINDOW && drained + Dist(tail, q) < |chunks| && bs == chunks[drained + Dist(tail, q)]
    ensures HeldShape(recved[q := bs], tail, drained, chunks)
  {
  }

  lemma StoreReceiver(r: Receiver, chunks: seq<bytes>, drained: nat, part: bytes, recvIdx: int, read: bytes, p: Packet)
    requires ReceiverInv(r, chunks, drained, part, recvIdx, read) && r.busy.Idle? && !r.closed
    requires drained <= p.idx < |chunks| && p.seqN == SeqOf(p.idx) && p.bs == chunks[p.idx]
    requires Dist(r.tailSeq, p.seqN) == p.idx - drained < WINDOW
    ensures ReceiverInv(Store(r, p.seqN, p.bs), chunks, drained, part, p.idx, read)
  {
    StoreKeepsHeld(r.recved, r.tailSeq, drained, chunks, p.seqN, p.bs);
  }

  lemma StoreOthers(s: System, p: Packet)
    requires Inv(s)
    ensures SenderInv(s.snd, s.chunks, s.pushed, s.rcv.recved[p.seqN := p.bs], s.drained)
    ensures NetworkInv(s.wire, s.acks, s.chunks, s.rcv.recved[p.seqN := p.bs], s.drained)
  {
    MoreReceived(s.snd, s.chunks, s.pushed, s.wire, s.acks, s.rcv.recved, s.drained,
                 s.rcv.recved[p.seqN := p.bs], s.drained);
  }

  lemma StoreDrain(s: System, p: Packet)
    requires s.rcv.busy.Idle? && s.rcv.tailSeq !in s.rcv.recved && s.drained <= p.idx
    requires Dist(s.rcv.tailSeq, p.seqN) == p.idx - s.drained
    requires NeverAcked(s.snd.sent, Head(s), s.acks, s.drained)
    ensures var r := Store(s.rcv, p.seqN, p.bs);
      DrainUnacked(r.busy, r.recved, r.tailSeq, p.idx, s.drained, s.snd.sent, Head(s), s.acks)
  {
  }

  lemma LegalDataKeeps(s: System, p: Packet)
    requires Inv(s) && Enabled(s, DeliverData(p)) && !s.rcv.closed
    requires s.drained <= p.idx && Dist(s.rcv.tailSeq, p.seqN) == p.idx - s.drained < WINDOW
    ensures Inv(s.(rcv := Store(s.rcv, p.seqN, p.bs), recvIdx := p.idx))
  {
    StoreReceiver(s.rcv, s.chunks, s.drained, s.part, s.recvIdx, s.read, p);
    StoreOthers(s, p);
    TailNeverAcked(s);
    StoreDrain(s, p);
  }

  lemma DeliverDataKeeps(s: System, p: Packet)
    requires Inv(s) && Enabled(s, DeliverData(p)) && Assumed(s, DeliverData(p))
    ensures Inv(Apply(s, DeliverData(p)))
  {
    if !s.rcv.closed {
      LegalByIndex(s, p);
      if Legal(s.rcv.tailSeq, p.seqN) {
        LegalDataKeeps(s, p);
      }
    }
  }

  // ---------- delivery of acks ----------

  /** Replacing a live segment by one with the same payload. */
  lemma ReplaceShape(sent: Flight, h: u16, t: u16, chunks: seq<bytes>, q: u16, g: Segment)
    requires FlightShape(sent, h, t, chunks) && q in sent && g.bs == sent[q].bs
    ensures FlightShape(sent[q := g], h, t, chunks)
  {
    assert sent[q := g].Keys == sent.Keys;
    assert |sent[q := g].Keys| == |sent.Keys|;
  }

  /** `m` is `snd` with segment `q` marked acked. */
  predicate MarkFrame(snd: Sender, m: Sender, q: u16) {
    && m.sent.Keys == snd.sent.Keys
    && (forall k :: k in m.sent && k != q ==> m.sent[k] == snd.sent[k])
    && m == snd.(sent := m.sent, cwnd := m.cwnd, swnd := m.swnd, rto := m.rto, minrtt := m.minrtt)
    && WindowOk(m.cwnd, m.rwnd, m.swnd)
  }

  lemma MarkKeeps(snd: Sender, chunks: seq<bytes>, q: u16, rttm: int, recved: Held, drained: nat)
    requires FlightShape(snd.sent, snd.hSeq, snd.tSeq, chunks) && q in snd.sent
    requires WindowOk(snd.cwnd, snd.rwnd, snd.swnd)
    requires MarkedReceived(snd.sent, snd.hSeq, snd.tSeq, |chunks|, recved, drained)
    requires Received(recved, drained, IndexOf(snd.hSeq, snd.tSeq, |chunks|, q))
    ensures var m := MarkAcked(snd, q, rttm);
      && FlightShape(m.sent, m.hSeq, m.tSeq, chunks)
      && MarkedReceived(m.sent, m.hSeq, m.tSeq, |chunks|, recved, drained)
      && MarkFrame(snd, m, q)
  {
    ReplaceShape(snd.sent, snd.hSeq, snd.tSeq, chunks, q, snd.sent[q].(acked := true));
  }

  /** A segment that was never acked survives an ack of another one. */
  lemma NeverAckedSurvives(s: System, q: u16, m: Sender, r: Sender, i: int)
    requires Inv(s) && 0 <= i < |s.chunks|
    requires NeverAcked(s.snd.sent, Head(s), s.acks, i) && q != SeqOf(i)
    requires MarkFrame(s.snd, m, q) && TrimFrame(m, r, |s.chunks|)
    requires FlightShape(r.sent, r.hSeq, r.tSeq, s.chunks)
    ensures NeverAcked(r.sent, |s.chunks| - Dist(r.hSeq, r.tSeq), s.acks, i)
  {
    LiveIff(s.snd.sent, s.snd.hSeq, s.snd.tSeq, s.chunks, i);
    assert SeqOf(i) in m.sent;
    assert SeqOf(i) in r.sent;
  }

  lemma LiveAckKeeps(s: System, a: AckMsg, m: Sender, r: Sender)
    requires Inv(s) && a in s.acks && MarkFrame(s.snd, m, a.seqN) && TrimFrame(m, r, |s.chunks|)
    requires FlightShape(r.sent, r.hSeq, r.tSeq, s.chunks)
    requires IndexOf(s.snd.hSeq, s.snd.tSeq, |s.chunks|, a.seqN) == a.idx
    ensures var head := |s.chunks| - Dist(r.hSeq, r.tSeq);
      DrainUnacked(s.rcv.busy, s.rcv.recved, s.rcv.tailSeq, s.recvIdx, s.drained, r.sent, head, s.acks)
  {
    if s.rcv.busy.Draining? && s.rcv.tailSeq in s.rcv.recved {
      LiveIff(s.snd.sent, s.snd.hSeq, s.snd.tSeq, s.chunks, s.recvIdx);
      assert a.seqN != SeqOf(s.recvIdx);
      NeverAckedSurvives(s, a.seqN, m, r, s.recvIdx);
    }
  }

  lemma DeliverAckKeeps(s: System, a: AckMsg, rttm: int)
    requires Inv(s) && Enabled(s, DeliverAck(a, rttm)) && Assumed(s, DeliverAck(a, rttm))
    ensures Inv(Apply(s, DeliverAck(a, rttm)))
  {
    LiveByIndex(s, a);
    if a.seqN in s.snd.sent {
      var m := MarkAcked(s.snd, a.seqN, rttm);
      MarkKeeps(s.snd, s.chunks, a.seqN, rttm, s.rcv.recved, s.drained);
      TrimKeeps(m, s.chunks, s.rcv.recved, s.drained);
      LiveAckKeeps(s, a, m, Trim(m));
    }
  }

  // ---------- sending ----------

  /** The circular interval grows by the number at its tail. */
  lemma EnqueueKeys(sent: Flight, h: u16, t: u16, chunks: seq<bytes>, g: Segment)
    requires FlightShape(sent, h, t, chunks) && |sent| < WINDOW
    ensures t !in sent
    ensures |sent[t := g]| == |sent| + 1
    ensures forall q: u16 :: q in sent[t := g] <==> Dist(h, q) < Dist(h, Inc(t))
  {
    DistToInc(h, t);
    assert sent[t := g].Keys == sent.Keys + {t};
    assert |sent[t := g].Keys| == |sent[t := g]|;
  }

  /** A new segment takes the free number at the tail: it overwrites nothing. */
  lemma EnqueueShape(sent: Flight, h: u16, t: u16, chunks: seq<bytes>, g: Segment)
    requires FlightShape(sent, h, t, chunks) && |sent| < WINDOW
    ensures t !in sent
    ensures FlightShape(sent[t := g], h, Inc(t), chunks + [g.bs])
    ensures Dist(h, Inc(t)) == Dist(h, t) + 1
    ensures forall q :: q in sent ==> IndexOf(h, Inc(t), |chunks| + 1, q) == IndexOf(h, t, |chunks|, q)
  {
    EnqueueKeys(sent, h, t, chunks, g);
    SeqOfInc(|chunks|);
    DistToInc(h, t);
    forall q | q in sent
      ensures IndexOf(h, Inc(t), |chunks| + 1, q) == IndexOf(h, t, |chunks|, q)
      ensures 0 <= IndexOf(h, t, |chunks|, q) < |chunks|
    {
    }
    assert IndexOf(h, Inc(t), |chunks| + 1, t) == |chunks|;
  }

  /** What speaks of segments by index does not notice a new one: the network, */
  lemma GrowNetwork(wire: set<Packet>, acks: set<AckMsg>, chunks: seq<bytes>, recved: Held, drained: nat, p: Packet)
    requires NetworkInv(wire, acks, chunks, recved, drained)
    requires p.idx == |chunks| && p.seqN == SeqOf(|chunks|)
    ensures NetworkInv(wire + {p}, acks, chunks + [p.bs], recved, drained)
  {
  }

  /** and the receiver. */
  lemma GrowReceiver(r: Receiver, chunks: seq<bytes>, drained: nat, part: bytes, recvIdx: int, read: bytes, bs: bytes)
    requires ReceiverInv(r, chunks, drained, part, recvIdx, read)
    ensures ReceiverInv(r, chunks + [bs], drained, part, recvIdx, read)
  {
    assert (chunks + [bs])[..drained] == chunks[..drained];
  }

  lemma GrowBytes(pushed: bytes, chunks: seq<bytes>, app: bytes, n: nat)
    requires SentBytes(pushed, chunks, app) && 0 < n <= Min(MSS, |app|)
    ensures SentBytes(pushed, chunks + [app[..n]], app[n..])
  {
    ConcatSnoc(chunks, app[..n]);
    assert app == app[..n] + app[n..];
    assert Concat(chunks) + app == (Concat(chunks) + app[..n]) + app[n..];
  }

  /** A new segment is unacked, and its number is not one that was ever acked. */
  lemma EnqueueReceived(sent: Flight, h: u16, t: u16, chunks: seq<bytes>, g: Segment, recved: Held, drained: nat)
    requires FlightShape(sent, h, t, chunks) && |sent| < WINDOW && !g.acked
    requires MarkedReceived(sent, h, t, |chunks|, recved, drained) && HeadUnacked(sent, h)
    ensures MarkedReceived(sent[t := g], h, Inc(t), |chunks| + 1, recved, drained)
    ensures HeadUnacked(sent[t := g], h)
  {
    EnqueueShape(sent, h, t, chunks, g);
  }

  /** The sender after cutting `n` bytes off its buffer as a new segment. */
  lemma GrowSender(snd: Sender, chunks: seq<bytes>, pushed: bytes, recved: Held, drained: nat, n: nat, timer: Timer)
    requires SenderInv(snd, chunks, pushed, recved, drained) && |snd.sent| < WINDOW && 0 < n <= Min(MSS, |snd.app|)
    ensures SenderInv(Enqueue(snd.(app := snd.app[n..], timer := timer), snd.app[..n]), chunks + [snd.app[..n]], pushed,
                      recved, drained)
  {
    var g := Segment(snd.app[..n], false, snd.rto, 0);
    EnqueueShape(snd.sent, snd.hSeq, snd.tSeq, chunks, g);
    EnqueueReceived(snd.sent, snd.hSeq, snd.tSeq, chunks, g, recved, drained);
    GrowBytes(pushed, chunks, snd.app, n);
  }

  lemma EnqueueDrain(busy: Busy, recved: Held, tail: u16, recvIdx: int, drained: nat,
                     sent: Flight, head: int, acks: set<AckMsg>, t: u16, g: Segment)
    requires DrainUnacked(busy, recved, tail, recvIdx, drained, sent, head, acks) && !g.acked
    ensures DrainUnacked(busy, recved, tail, recvIdx, drained, sent[t := g], head, acks)
  {
  }

  /** What sending one segment changes. */
  predicate SentOne(s: System, s': System, n: nat) {
    && 0 < n <= Min(MSS, |s.snd.app|)
    && var bs := s.snd.app[..n];
      s' == s.(
        snd := Enqueue(s.snd.(app := s.snd.app[n..], timer := s'.snd.timer), bs),
        chunks := s.chunks + [bs],
        wire := s.wire + {Packet(s.snd.tSeq, bs, |s.chunks|)})
  }

  lemma SentOneDrain(s: System, s': System, n: nat)
    requires Inv(s) && SentOne(s, s', n) && |s.snd.sent| < WINDOW
    ensures Head(s') == Head(s)
    ensures DrainUnacked(s.rcv.busy, s.rcv.recved, s.rcv.tailSeq, s.recvIdx, s.drained, s'.snd.sent, Head(s'), s.acks)
  {
    var g := Segment(s.snd.app[..n], false, s.snd.rto, 0);
    DistToInc(s.snd.hSeq, s.snd.tSeq);
    EnqueueDrain(s.rcv.busy, s.rcv.recved, s.rcv.tailSeq, s.recvIdx, s.drained, s.snd.sent, Head(s), s.acks,
                 s.snd.tSeq, g);
  }

  lemma SentOneKeeps(s: System, s': System, n: nat)
    requires Inv(s) && SentOne(s, s', n) && |s.snd.sent| < WINDOW
    ensures Inv(s')
  {
    var bs := s.snd.app[..n];
    GrowSender(s.snd, s.chunks, s.pushed, s.rcv.recved, s.drained, n, s'.snd.timer);
    GrowNetwork(s.wire, s.acks, s.chunks, s.rcv.recved, s.drained, Packet(s.snd.tSeq, bs, |s.chunks|));
    GrowReceiver(s.rcv, s.chunks, s.drained, s.part, s.recvIdx, s.read, bs);
    SentOneDrain(s, s', n);
  }

  lemma GotIsSentOne(s: System, s1: Sender, bs: bytes)
    requires s.lock.Sending? && ReadSegment(s.snd, ModeOf(s.lock.holder)) == Got(s1, bs)
    ensures SentOne(s, AfterSendStep(s), |bs|)
  {
  }

  /** `readMSS` sends only below the window, so it needs no assumption on what is in flight. */
  lemma FullReadFits(s: System, s1: Sender, bs: bytes)
    requires WindowOk(s.snd.cwnd, s.snd.rwnd, s.snd.swnd) && s.lock.Sending?
    requires ReadSegment(s.snd, ModeOf(s.lock.holder)) == Got(s1, bs) && InFlight(s, SendStep)
    ensures |s.snd.sent| < WINDOW
  {
  }

  lemma SendStepKeeps(s: System)
    requires Inv(s) && Enabled(s, SendStep) && Assumed(s, SendStep)
    ensures Inv(Apply(s, SendStep))
  {
    match ReadSegment(s.snd, ModeOf(s.lock.holder))
    case Nothing(s1) =>
      NothingIsSameCore(s, s1);
      SameCoreKeeps(s, AfterSendStep(s));
    case Got(s1, bs) =>
      GotIsSentOne(s, s1, bs);
      FullReadFits(s, s1, bs);
      SentOneKeeps(s, AfterSendStep(s), |bs|);
  }

  lemma NothingIsSameCore(s: System, s1: Sender)
    requires WindowOk(s.snd.cwnd, s.snd.rwnd, s.snd.swnd)
    requires s.lock.Sending? && ReadSegment(s.snd, ModeOf(s.lock.holder)) == Nothing(s1)
    ensures SameCore(s, AfterSendStep(s))
  {
  }

  lemma FailedIsSameCore(s: System)
    requires s.lock.Sending? && WindowOk(AfterSendStep(s).snd.cwnd, AfterSendStep(s).snd.rwnd, AfterSendStep(s).snd.swnd)
    ensures SameCore(AfterSendStep(s), AfterSendFails(s))
  {
  }

  /** A segment whose transmission failed is one that is registered and lost. */
  lemma SendFailsKeeps(s: System)
    requires Inv(s) && Enabled(s, SendFails) && Assumed(s, SendFails)
    ensures Inv(Apply(s, SendFails))
  {
    SendStepKeeps(s);
    FailedIsSameCore(s);
    SameCoreKeeps(AfterSendStep(s), AfterSendFails(s));
  }

  /** Replacing a live segment by one with the same payload and mark changes nothing the acks speak of. */
  lemma ReplaceReceived(sent: Flight, h: u16, t: u16, n: nat, q: u16, g: Segment, recved: Held, drained: nat)
    requires MarkedReceived(sent, h, t, n, recved, drained) && HeadUnacked(sent, h)
    requires q in sent && g.acked == sent[q].acked
    ensures MarkedReceived(sent[q := g], h, t, n, recved, drained)
    ensures HeadUnacked(sent[q := g], h)
    ensures forall head, acks, i {:trigger NeverAcked(sent[q := g], head, acks, i)} ::
              NeverAcked(sent, head, acks, i) ==> NeverAcked(sent[q := g], head, acks, i)
  {
  }

  lemma TickerSender(snd: Sender, chunks: seq<bytes>, pushed: bytes, recved: Held, drained: nat, q: u16)
    requires SenderInv(snd, chunks, pushed, recved, drained) && q in snd.sent
    ensures SenderInv(snd.(sent := snd.sent[q := TickerResent(snd.sent[q])]), chunks, pushed, recved, drained)
  {
    var g := TickerResent(snd.sent[q]);
    ReplaceShape(snd.sent, snd.hSeq, snd.tSeq, chunks, q, g);
    ReplaceReceived(snd.sent, snd.hSeq, snd.tSeq, |chunks|, q, g, recved, drained);
  }

  lemma PacketOk(s: System, q: u16)
    requires FlightShape(s.snd.sent, s.snd.hSeq, s.snd.tSeq, s.chunks) && q in s.snd.sent && WireOk(s.wire, s.chunks)
    ensures WireOk(s.wire + {PacketOf(s, q)}, s.chunks)
  {
    IndexHasSeq(s.snd.sent, s.snd.hSeq, s.snd.tSeq, s.chunks, q);
  }

  lemma TickerResendKeeps(s: System, q: u16)
    requires Inv(s) && Enabled(s, TickerResend(q))
    ensures Inv(Apply(s, TickerResend(q)))
  {
    TickerSender(s.snd, s.chunks, s.pushed, s.rcv.recved, s.drained, q);
    PacketOk(s, q);
  }

  lemma QuickPacketsOk(s: System, seqN: u16, fired: set<u16>)
    requires FlightShape(s.snd.sent, s.snd.hSeq, s.snd.tSeq, s.chunks) && WireOk(s.wire, s.chunks)
    ensures WireOk(s.wire + QuickPackets(s, seqN, fired), s.chunks)
  {
    forall p | p in QuickPackets(s, seqN, fired)
      ensures 0 <= p.idx < |s.chunks| && p.seqN == SeqOf(p.idx) && p.bs == s.chunks[p.idx]
    {
      IndexHasSeq(s.snd.sent, s.snd.hSeq, s.snd.tSeq, s.chunks, p.seqN);
    }
  }

  lemma QuickResendKeeps(s: System, fired: set<u16>)
    requires Inv(s) && Enabled(s, QuickResend(fired))
    ensures Inv(Apply(s, QuickResend(fired)))
  {
    QuickPacketsOk(s, s.lock.seqN, fired);
  }

  // ---------- every step, every run ----------

  predicate IsSenderStep(e: Event) {
    e.Push? || e.SendStep? || e.SendFails? || e.QuickResend? || e.TickerResend? || e.DeliverAck?
  }

  lemma SenderStepKeeps(s: System, e: Event)
    requires Inv(s) && Enabled(s, e) && Assumed(s, e) && IsSenderStep(e)
    ensures Inv(Apply(s, e))
  {
    match e
    case Push(bs) => PushKeeps(s, bs);
    case SendStep => SendStepKeeps(s);
    case SendFails => SendFailsKeeps(s);
    case QuickResend(fired) => QuickResendKeeps(s, fired);
    case TickerResend(q) => TickerResendKeeps(s, q);
    case DeliverAck(a, rttm) => DeliverAckKeeps(s, a, rttm);
  }

  lemma ReceiverStepKeeps(s: System, e: Event)
    requires Inv(s) && Enabled(s, e) && Assumed(s, e) && !IsSenderStep(e) && !IsControl(e)
    ensures Inv(Apply(s, e))
  {
    match e
    case DeliverData(p) => DeliverDataKeeps(s, p);
    case NextSegment => NextSegmentKeeps(s);
    case PushChunk => PushChunkKeeps(s);
    case SegmentDone => SegmentDoneKeeps(s);
    case PushStopped => AfterRecvKeeps(s, e);
    case DrainDone => AfterRecvKeeps(s, e);
    case Read(n) => ReadKeeps(s, n);
    case CloseReceiver => CloseReceiverKeeps(s);
  }

  lemma StepKeeps(s: System, e: Event)
    requires Inv(s) && Enabled(s, e) && Assumed(s, e)
    ensures Inv(Apply(s, e))
  {
    if IsSenderStep(e) {
      SenderStepKeeps(s, e);
    } else if IsControl(e) {
      ControlKeeps(s, e);
    } else {
      ReceiverStepKeeps(s, e);
    }
  }

  lemma {:induction false} RunKeeps(s: System, es: seq<Event>)
    requires Inv(s) && ValidRun(s, es)
    ensures Inv(Exec(s, es))
    decreases |es|
  {
    if es != [] {
      StepKeeps(s, es[0]);
      RunKeeps(Apply(s, es[0]), es[1..]);
    }
  }
}
