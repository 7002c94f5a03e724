/** What the protocol promises in every reachable state. */
module ProtocolTheorems {
  import opened Basics
  import opened SenderModel
  import opened ReceiverModel
  import opened Protocol
  import opened ProtocolInvariant
  import opened ProtocolSteps

  /** `s` ends some run from the initial state that meets the run assumptions. */
  ghost predicate Reachable(s: System) {
    exists es :: ValidRun(InitialSystem(), es) && Exec(InitialSystem(), es) == s
  }

  lemma ReachableInv(s: System)
    requires Reachable(s)
    ensures Inv(s)
  {
    var es :| ValidRun(InitialSystem(), es) && Exec(InitialSystem(), es) == s;
    InitialInv();
    RunKeeps(InitialSystem(), es);
  }

  // ---------- end-to-end safety ----------

  /** What was read, followed by the receiver's queue, is a prefix of what was pushed. */
  lemma DeliveredIsPrefix(s: System)
    requires Inv(s)
    ensures s.read + s.rcv.app <= s.pushed
  {
    if s.drained < |s.chunks| {
      ConcatTake(s.chunks, s.drained);
      ConcatTakeIsPrefix(s.chunks, s.drained + 1);
      assert s.read + s.rcv.app <= Concat(s.chunks[..s.drained + 1]) <= Concat(s.chunks) <= s.pushed;
    } else {
      assert s.chunks[..s.drained] == s.chunks;
    }
  }

  /** In every reachable state, even while a segment is half pushed. */
  lemma EndToEndSafety(s: System)
    requires Reachable(s)
    ensures s.read + s.rcv.app <= s.pushed
    ensures s.read <= s.pushed
  {
    ReachableInv(s);
    DeliveredIsPrefix(s);
  }

  /** Bytes pushed and not yet read. */
  function Unread(s: System): bytes {
    if |s.read| <= |s.pushed| then s.pushed[|s.read|..] else []
  }

  lemma PushAppends(s: System, bs: bytes)
    requires Enabled(s, Push(bs)) && s.read <= s.pushed
    ensures Unread(Apply(s, Push(bs))) == Unread(s) + bs
  {
    assert (s.pushed + bs)[|s.read|..] == s.pushed[|s.read|..] + bs;
  }

  lemma TakeFromQueue(read: bytes, app: bytes, pushed: bytes, k: nat)
    requires read + app <= pushed && k <= |app|
    ensures |read| + k <= |pushed|
    ensures pushed[|read|..] == app[..k] + pushed[|read| + k..]
  {
    assert pushed[|read|..|read| + k] == (read + app)[|read|..|read| + k] == app[..k];
  }

  lemma ReadTakes(s: System, n: nat)
    requires Enabled(s, Read(n)) && s.read + s.rcv.app <= s.pushed
    ensures Take(s.rcv, n) != [] && Unread(s) == Take(s.rcv, n) + Unread(Apply(s, Read(n)))
    ensures |Take(s.rcv, n)| == Min(n, |s.rcv.app|)
  {
    var out := Take(s.rcv, n);
    TakeFromQueue(s.read, s.rcv.app, s.pushed, |out|);
    assert Apply(s, Read(n)).read == s.read + out && Apply(s, Read(n)).pushed == s.pushed;
    assert s.rcv.app[..|out|] == out;
  }

  /** The two windows and the network behave as one first-in first-out byte queue. */
  lemma RefinesByteQueue(s: System, e: Event)
    requires Inv(s) && Enabled(s, e)
    ensures e.Push? ==> Unread(Apply(s, e)) == Unread(s) + e.bs
    ensures e.Read? ==>
              && |Take(s.rcv, e.n)| == Min(e.n, |s.rcv.app|) != 0
              && Unread(s) == Take(s.rcv, e.n) + Unread(Apply(s, e))
    ensures !e.Push? && !e.Read? ==> Unread(Apply(s, e)) == Unread(s)
  {
    DeliveredIsPrefix(s);
    if e.Read? {
      ReadTakes(s, e.n);
    } else if e.Push? {
      PushAppends(s, e.bs);
    } else {
      OnlyPushAndReadMove(s, e);
    }
  }

  lemma OnlyPushAndReadMove(s: System, e: Event)
    requires Enabled(s, e) && !e.Push? && !e.Read?
    ensures Apply(s, e).pushed == s.pushed && Apply(s, e).read == s.read
  {
    if IsControl(e) {
      ControlMovesNothing(s, e);
    } else if IsSenderStep(e) {
      SenderMovesNothing(s, e);
    } else {
      match e
      case DeliverData(_) | CloseReceiver | NextSegment | PushChunk | SegmentDone | PushStopped | DrainDone =>
    }
  }

  lemma ControlMovesNothing(s: System, e: Event)
    requires Enabled(s, e) && IsControl(e)
    ensures Apply(s, e).pushed == s.pushed && Apply(s, e).read == s.read
  {
    match e
    case PushEvent | ResendEvent | TimerFires | TakeTick | Flush | CloseSignal | EnterFlushing | FlushLast
      | FlushLastDone | FlushLastTimeout | WaitDone | WaitTimeout | LoseData(_) | LoseAck(_) =>
  }

  lemma SenderMovesNothing(s: System, e: Event)
    requires Enabled(s, e) && IsSenderStep(e) && !e.Push?
    ensures Apply(s, e).pushed == s.pushed && Apply(s, e).read == s.read
  {
    match e
    case SendStep | SendFails => assert AfterSendStep(s).pushed == s.pushed && AfterSendStep(s).read == s.read;
    case QuickResend(_) | TickerResend(_) | DeliverAck(_, _) =>
  }

  // ---------- 16-bit numbers ----------

  /** The two windows never drift apart, and the modular scan accepts exactly what was not delivered yet. */
  lemma WrapAroundIsUnobservable(s: System, p: Packet)
    requires Reachable(s) && p in s.wire && !s.rcv.closed && s.drained <= p.idx + LIFETIME
    ensures 0 <= p.idx < |s.chunks|
    ensures Head(s) <= s.drained <= |s.chunks| <= Head(s) + WINDOW
    ensures Legal(s.rcv.tailSeq, p.seqN) <==> s.drained <= p.idx
    ensures p.bs == s.chunks[p.idx]
  {
    ReachableInv(s);
    HeadBehindTail(s);
    LegalByIndex(s, p);
  }

  /** An ack finds its own segment or none. */
  lemma AckFindsItsSegment(s: System, a: AckMsg)
    requires Reachable(s) && a in s.acks && |s.chunks| <= a.idx + 65536
    ensures 0 <= a.idx < |s.chunks|
    ensures a.seqN in s.snd.sent <==> Head(s) <= a.idx
    ensures a.seqN in s.snd.sent ==>
              IndexOf(s.snd.hSeq, s.snd.tSeq, |s.chunks|, a.seqN) == a.idx && s.snd.sent[a.seqN].bs == s.chunks[a.idx]
  {
    ReachableInv(s);
    LiveByIndex(s, a);
  }

  // ---------- acknowledgements ----------

  /** Every ack in flight, every acked mark and every trimmed segment names data the receiver has. */
  lemma AckSoundness(s: System)
    requires Reachable(s)
    ensures forall a :: a in s.acks ==> Received(s.rcv.recved, s.drained, a.idx)
    ensures forall q :: q in s.snd.sent && s.snd.sent[q].acked ==>
              Received(s.rcv.recved, s.drained, IndexOf(s.snd.hSeq, s.snd.tSeq, |s.chunks|, q))
    ensures forall i :: 0 <= i < Head(s) ==> Received(s.rcv.recved, s.drained, i)
  {
    ReachableInv(s);
  }

  /** What the receiver holds ahead of its tail is the sender's data, so an acked segment is never the only copy. */
  lemma HeldIsSenderData(s: System, i: int)
    requires Reachable(s)
    requires s.drained <= i < s.drained + WINDOW && SeqOf(i) in s.rcv.recved
    ensures i < |s.chunks| && s.rcv.recved[SeqOf(i)] == s.chunks[i]
  {
    ReachableInv(s);
    DistSigned(s.drained, i);
  }

  // ---------- window structure ----------

  lemma SenderWindowStructure(s: System)
    requires Reachable(s)
    ensures forall q: u16 :: q in s.snd.sent <==> Dist(s.snd.hSeq, q) < Dist(s.snd.hSeq, s.snd.tSeq)
    ensures |s.snd.sent| == Dist(s.snd.hSeq, s.snd.tSeq) <= WINDOW
    ensures |s.snd.sent| < WINDOW ==> s.snd.tSeq !in s.snd.sent
    ensures 2 <= s.snd.swnd == Min(s.snd.rwnd, s.snd.cwnd) <= 128
    ensures s.snd.sent != map[] ==> s.snd.hSeq in s.snd.sent && !s.snd.sent[s.snd.hSeq].acked
  {
    ReachableInv(s);
  }

  /** Between two calls of `Recv` on an open window, what is held lies strictly ahead of the tail. */
  lemma ReceiverWindowStructure(s: System)
    requires Reachable(s) && s.rcv.busy.Idle? && !s.rcv.closed
    ensures forall q :: q in s.rcv.recved ==> 1 <= Dist(s.rcv.tailSeq, q) <= 127
    ensures s.part == []
  {
    ReachableInv(s);
  }

  /** Steps taken without a timer flush or a closing flush, assuming only the lifetime. */
  predicate FlushFreeRun(s: System, es: seq<Event>)
    decreases |es|
  {
    es == [] ||
    (&& Enabled(s, es[0]) && Lifetime(s, es[0])
     && !es[0].Flush? && !es[0].FlushLast?
     && FlushFreeRun(Apply(s, es[0]), es[1..]))
  }

  lemma StaysFlushFree(s: System, e: Event)
    requires Enabled(s, e) && s.lock != Sending(ByFlush) && !e.Flush? && !e.FlushLast?
    ensures Apply(s, e).lock != Sending(ByFlush)
  {
    if IsControl(e) {
      ControlStaysFlushFree(s, e);
    } else if IsSenderStep(e) {
      SenderStaysFlushFree(s, e);
    } else {
      match e
      case DeliverData(_) | Read(_) | CloseReceiver | NextSegment | PushChunk | SegmentDone | PushStopped | DrainDone =>
    }
  }

  lemma ControlStaysFlushFree(s: System, e: Event)
    requires Enabled(s, e) && s.lock != Sending(ByFlush) && IsControl(e) && !e.Flush? && !e.FlushLast?
    ensures Apply(s, e).lock != Sending(ByFlush)
  {
    match e
    case PushEvent | ResendEvent | TimerFires | TakeTick | Flush | CloseSignal | EnterFlushing | FlushLast
      | FlushLastDone | FlushLastTimeout | WaitDone | WaitTimeout | LoseData(_) | LoseAck(_) =>
  }

  lemma SenderStaysFlushFree(s: System, e: Event)
    requires Enabled(s, e) && s.lock != Sending(ByFlush) && IsSenderStep(e)
    ensures Apply(s, e).lock != Sending(ByFlush)
  {
    match e
    case Push(_) | SendStep | SendFails | QuickResend(_) | TickerResend(_) | DeliverAck(_, _) =>
  }

  /** With `readMSS` alone the bound on segments in flight is no assumption. */
  lemma {:induction false} FlushFreeRunIsValid(s: System, es: seq<Event>)
    requires Inv(s) && FlushFreeRun(s, es) && s.lock != Sending(ByFlush)
    ensures ValidRun(s, es) && |Exec(s, es).snd.sent| <= WINDOW
    decreases |es|
  {
    if es != [] {
      StepKeeps(s, es[0]);
      StaysFlushFree(s, es[0]);
      FlushFreeRunIsValid(Apply(s, es[0]), es[1..]);
    }
  }

  // ---------- no stranded data ----------

  /** Nobody is about to run `send` for the data in the buffer. */
  predicate AtRest(s: System) {
    s.phase.Open? && !s.lock.Sending? && !s.pushPending && !s.flushTaken
  }

  /** Data waits though the window has room, and no flush is coming. */
  predicate Stranded(s: System) {
    AtRest(s) && s.snd.app != [] && |s.snd.sent| < s.snd.swnd && !s.snd.timer.armed && !s.snd.timer.tick
  }

  /** Only a failed transmission strands data, and then its segment is still in flight. */
  predicate NotStranded(s: System) {
    && (Stranded(s) ==> s.sendErr)
    && (s.sendErr && !s.lock.Sending? ==> s.snd.sent != map[])
  }

  lemma TickerNotStranded(s: System, q: u16)
    requires NotStranded(s) && Enabled(s, TickerResend(q))
    ensures NotStranded(Apply(s, TickerResend(q)))
  {
    var sent1 := s.snd.sent[q := TickerResent(s.snd.sent[q])];
    assert sent1.Keys == s.snd.sent.Keys;
    assert |sent1.Keys| == |sent1|;
    assert q in sent1;
  }

  lemma SendFailsNotStranded(s: System)
    requires Enabled(s, SendFails)
    ensures NotStranded(Apply(s, SendFails))
  {
    assert s.snd.tSeq in AfterSendFails(s).snd.sent;
  }

  lemma SendStepNotStranded(s: System)
    requires NotStranded(s) && Enabled(s, SendStep)
    ensures NotStranded(AfterSendStep(s))
  {
    match ReadSegment(s.snd, ModeOf(s.lock.holder))
    case Nothing(_) =>
    case Got(s1, bs) => assert s.snd.tSeq in AfterSendStep(s).snd.sent;
  }

  lemma AckNotStranded(s: System, a: AckMsg, rttm: int)
    requires NotStranded(s) && Enabled(s, DeliverAck(a, rttm))
    ensures NotStranded(AfterAck(s, a, rttm))
  {
  }

  lemma ControlNotStranded(s: System, e: Event)
    requires NotStranded(s) && WindowOk(s.snd.cwnd, s.snd.rwnd, s.snd.swnd) && Enabled(s, e) && IsControl(e)
    ensures NotStranded(Apply(s, e))
  {
    match e
    case PushEvent | ResendEvent | TimerFires | TakeTick | Flush | CloseSignal | EnterFlushing | FlushLast
      | FlushLastDone | FlushLastTimeout | WaitDone | WaitTimeout | LoseData(_) | LoseAck(_) =>
  }

  lemma OtherNotStranded(s: System, e: Event)
    requires NotStranded(s) && Enabled(s, e) && !IsControl(e) && (IsSenderStep(e) ==> e.Push? || e.QuickResend?)
    ensures NotStranded(Apply(s, e))
  {
    match e
    case Push(_) | QuickResend(_) | DeliverData(_) | Read(_) | CloseReceiver =>
    case NextSegment | PushChunk | SegmentDone | PushStopped | DrainDone =>
  }

  lemma NotStrandedKeeps(s: System, e: Event)
    requires NotStranded(s) && WindowOk(s.snd.cwnd, s.snd.rwnd, s.snd.swnd) && Enabled(s, e)
    ensures NotStranded(Apply(s, e))
  {
    match e
    case TickerResend(q) => TickerNotStranded(s, q);
    case SendFails => SendFailsNotStranded(s);
    case SendStep => SendStepNotStranded(s);
    case DeliverAck(a, rttm) => AckNotStranded(s, a, rttm);
    case _ =>
      if IsControl(e) {
        ControlNotStranded(s, e);
      } else {
        OtherNotStranded(s, e);
      }
  }

  lemma {:induction false} RunNotStranded(s: System, es: seq<Event>)
    requires Inv(s) && NotStranded(s) && ValidRun(s, es)
    ensures NotStranded(Exec(s, es))
    decreases |es|
  {
    if es != [] {
      StepKeeps(s, es[0]);
      NotStrandedKeeps(s, es[0]);
      RunNotStranded(Apply(s, es[0]), es[1..]);
    }
  }

  lemma ReachableNotStranded(s: System)
    requires Reachable(s)
    ensures NotStranded(s)
  {
    var es :| ValidRun(InitialSystem(), es) && Exec(InitialSystem(), es) == s;
    InitialInv();
    RunNotStranded(InitialSystem(), es);
  }

  /** Data left in the sender's buffer always has something that will move it: an ack still due, or the flush timer.
      Unless the last `send` stopped on an error, the ack is due for a full window. */
  lemma NoStrandedData(s: System)
    requires Reachable(s) && AtRest(s) && s.snd.app != []
    ensures || (s.snd.hSeq in s.snd.sent && !s.snd.sent[s.snd.hSeq].acked)
            || s.snd.timer.armed || s.snd.timer.tick
    ensures !s.sendErr ==> |s.snd.sent| >= s.snd.swnd >= 2 || s.snd.timer.armed || s.snd.timer.tick
  {
    ReachableInv(s);
    ReachableNotStranded(s);
  }

  /** Exactly when a failed transmission leaves data with neither a full window nor a flush to come: `readMSS`
      has stopped the timer, and a flush finds it stopped. */
  lemma FailedSendStrands(s: System)
    requires Inv(s) && Enabled(s, SendFails) && Assumed(s, SendFails)
    ensures Stranded(Apply(s, SendFails)) <==>
              && s.phase.Open? && !s.pushPending && !s.flushTaken
              && MSS < |s.snd.app| && |s.snd.sent| + 1 < s.snd.swnd
              && !s.snd.timer.tick && (s.lock.holder.ByFlush? ==> !s.snd.timer.armed)
  {
    var Got(s1, bs) := ReadSegment(s.snd, ModeOf(s.lock.holder));
    GotIsSentOne(s, s1, bs);
    FullReadFits(s, s1, bs);
    EnqueueKeys(s.snd.sent, s.snd.hSeq, s.snd.tSeq, s.chunks, Segment(bs, false, s.snd.rto, 0));
  }

  lemma ReachableOn(s: System, e: Event)
    requires Reachable(s) && Enabled(s, e) && Assumed(s, e)
    ensures Reachable(Apply(s, e))
  {
    var es :| ValidRun(InitialSystem(), es) && Exec(InitialSystem(), es) == s;
    OneStepRun(s, e);
    RunTrans(InitialSystem(), es, [e]);
  }

  /** It does happen: a write of one byte more than a segment, the first transmission of which fails. */
  lemma StrandedIsReachable() returns (s: System)
    ensures Reachable(s) && Stranded(s)
  {
    var s0 := InitialSystem();
    var bs: bytes := seq(MSS + 1, _ => 0);
    assert ValidRun(s0, []) && Exec(s0, []) == s0;
    ReachableOn(s0, Push(bs));
    var s1 := Apply(s0, Push(bs));
    assert s1.snd.app == bs;
    ReachableOn(s1, PushEvent);
    var s2 := Apply(s1, PushEvent);
    ReachableOn(s2, SendFails);
    ReachableInv(s2);
    FailedSendStrands(s2);
    s := Apply(s2, SendFails);
  }
}
