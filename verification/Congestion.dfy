/**
 The congestion window and the round-trip filter over whole runs: they are functions of which segments ended, with
 which round trips, and of the ticker's resends, and every segment acked counts exactly once.
 */
module Congestion {
  import opened Basics
  import opened SenderModel
  import opened ReceiverModel
  import opened Protocol
  import opened ProtocolInvariant
  import opened ProtocolSteps
  import opened ProtocolTheorems
  import opened RoundTrip

  datatype WindowEvent = Ended(rttm: int) | Resent

  /** The window event that a step raises: the first ack of a segment in flight, or a reported resend. */
  function Raised(s: System, e: Event): seq<WindowEvent> {
    match e
    case DeliverAck(a, rttm) => if a.seqN in s.snd.sent && !s.snd.sent[a.seqN].acked then [Ended(rttm)] else []
    case ResendEvent => [Resent]
    case _ => []
  }

  function RaisedBy(s: System, es: seq<Event>): seq<WindowEvent>
    requires ValidRun(s, es)
    decreases |es|
  {
    if es == [] then [] else Raised(s, es[0]) + RaisedBy(Apply(s, es[0]), es[1..])
  }

  // ---------- the window as a function of its events ----------

  /** Double up to 128 for a segment that ended, one less but at least 2 for a resend. */
  function CwndAfter(cwnd: int, h: seq<WindowEvent>): int
    decreases |h|
  {
    if h == [] then cwnd
    else CwndAfter(if h[0].Ended? then Min(128, 2 * cwnd) else Max(2, cwnd - 1), h[1..])
  }

  function Samples(h: seq<WindowEvent>): seq<int> {
    if h == [] then [] else (if h[0].Ended? then [h[0].rttm] else []) + Samples(h[1..])
  }

  function Resents(h: seq<WindowEvent>): nat {
    if h == [] then 0 else (if h[0].Resent? then 1 else 0) + Resents(h[1..])
  }

  /** Slow start: `k` segments ended and none was resent. */
  lemma {:induction false} Doubling(cwnd: int, h: seq<WindowEvent>)
    requires 2 <= cwnd <= 128 && forall i :: 0 <= i < |h| ==> h[i].Ended?
    ensures CwndAfter(cwnd, h) == Min(128, cwnd * Pow2(|h|))
    decreases |h|
  {
    if h != [] {
      Doubling(Min(128, 2 * cwnd), h[1..]);
      DoublingStep(cwnd, Pow2(|h| - 1));
    }
  }

  lemma DoublingStep(cwnd: int, p: nat)
    requires 2 <= cwnd <= 128 && 1 <= p
    ensures Min(128, Min(128, 2 * cwnd) * p) == Min(128, cwnd * (2 * p))
  {
    assert (2 * cwnd) * p == cwnd * (2 * p);
    if 128 < 2 * cwnd {
      assert 128 * p >= 128;
      assert (2 * cwnd) * p >= 128 * p;
    }
  }

  /** Nothing but resends: one less each time, at least 2. */
  lemma {:induction false} Shrinking(cwnd: int, h: seq<WindowEvent>)
    requires 2 <= cwnd && forall i :: 0 <= i < |h| ==> h[i].Resent?
    ensures CwndAfter(cwnd, h) == Max(2, cwnd - |h|)
    decreases |h|
  {
    if h != [] {
      Shrinking(Max(2, cwnd - 1), h[1..]);
    }
  }

  // ---------- how many segments were acked ----------

  function AckedKeys(sent: Flight): set<u16> {
    set q | q in sent && sent[q].acked
  }

  /** Segments acked so far: those trimmed, and those in flight that are marked. */
  function AckedCount(snd: Sender, n: nat): int {
    n - Dist(snd.hSeq, snd.tSeq) + |AckedKeys(snd.sent)|
  }

  lemma DropHeadCounts(sent: Flight, h: u16)
    requires h in sent && sent[h].acked
    ensures |AckedKeys(sent - {h})| == |AckedKeys(sent)| - 1
  {
    assert AckedKeys(sent - {h}) == AckedKeys(sent) - {h};
  }

  lemma {:induction false} TrimCounts(m: Sender, chunks: seq<bytes>)
    requires FlightShape(m.sent, m.hSeq, m.tSeq, chunks)
    ensures AckedCount(Trim(m), |chunks|) == AckedCount(m, |chunks|)
    decreases |m.sent|
  {
    if m.hSeq in m.sent && m.sent[m.hSeq].acked {
      var m1 := m.(sent := m.sent - {m.hSeq}, hSeq := Inc(m.hSeq));
      DropHeadCounts(m.sent, m.hSeq);
      DropHeadShape(m.sent, m.hSeq, m.tSeq, chunks);
      DistAfterInc(m.hSeq, m.tSeq);
      assert Trim(m) == Trim(m1);
      TrimCounts(m1, chunks);
    }
  }

  lemma MarkCounts(snd: Sender, n: nat, q: u16, rttm: int)
    requires q in snd.sent
    ensures AckedCount(MarkAcked(snd, q, rttm), n) == AckedCount(snd, n) + if snd.sent[q].acked then 0 else 1
  {
    var m := MarkAcked(snd, q, rttm);
    assert AckedKeys(m.sent) == AckedKeys(snd.sent) + {q};
  }

  // ---------- the law ----------

  /** The sender after the window events `h`. */
  predicate KeepsLaw(snd: Sender, n: nat, h: seq<WindowEvent>) {
    && snd.cwnd == CwndAfter(16, h)
    && snd.rwnd == 128 && snd.swnd == snd.cwnd
    && snd.minrtt == AfterSamples(Samples(h))
    && snd.rto == Min(500_000_000, Max(1, snd.minrtt.rtt))
    && |Samples(h)| == AckedCount(snd, n)
  }

  lemma {:induction false} HistorySnoc(cwnd: int, h: seq<WindowEvent>, w: WindowEvent)
    ensures CwndAfter(cwnd, h + [w])
            == var c := CwndAfter(cwnd, h); if w.Ended? then Min(128, 2 * c) else Max(2, c - 1)
    ensures Samples(h + [w]) == Samples(h) + if w.Ended? then [w.rttm] else []
    ensures Resents(h + [w]) == Resents(h) + if w.Resent? then 1 else 0
    decreases |h|
  {
    if h == [] {
      assert h + [w] == [w];
    } else {
      assert (h + [w])[0] == h[0] && (h + [w])[1..] == h[1..] + [w];
      HistorySnoc(if h[0].Ended? then Min(128, 2 * cwnd) else Max(2, cwnd - 1), h[1..], w);
    }
  }

  lemma EndLawful(snd: Sender, n: nat, h: seq<WindowEvent>, q: u16, rttm: int)
    requires KeepsLaw(snd, n, h) && WindowOk(snd.cwnd, snd.rwnd, snd.swnd) && q in snd.sent && !snd.sent[q].acked
    ensures KeepsLaw(MarkAcked(snd, q, rttm), n, h + [Ended(rttm)])
  {
    HistorySnoc(16, h, Ended(rttm));
    MarkCounts(snd, n, q, rttm);
    var xs := Samples(h) + [rttm];
    assert xs[..|xs| - 1] == Samples(h);
  }

  lemma TrimLawful(m: Sender, chunks: seq<bytes>, h: seq<WindowEvent>)
    requires KeepsLaw(m, |chunks|, h) && FlightShape(m.sent, m.hSeq, m.tSeq, chunks)
    ensures KeepsLaw(Trim(m), |chunks|, h)
  {
    TrimCounts(m, chunks);
  }

  lemma ResendLawful(snd: Sender, n: nat, h: seq<WindowEvent>)
    requires KeepsLaw(snd, n, h) && WindowOk(snd.cwnd, snd.rwnd, snd.swnd)
    ensures KeepsLaw(OnResend(snd), n, h + [Resent])
  {
    HistorySnoc(16, h, Resent);
    assert Samples(h) + [] == Samples(h);
  }

  /** A second ack of a segment changes nothing of the sender. */
  lemma DuplicateAckIsIgnored(s: System, a: AckMsg, rttm: int)
    requires Inv(s) && a.seqN in s.snd.sent && s.snd.sent[a.seqN].acked
    ensures AfterAck(s, a, rttm).snd == s.snd
  {
    assert MarkAcked(s.snd, a.seqN, rttm) == s.snd;
    assert Trim(s.snd) == s.snd;
  }

  lemma AckLawful(s: System, a: AckMsg, rttm: int, h: seq<WindowEvent>)
    requires Inv(s) && Enabled(s, DeliverAck(a, rttm)) && KeepsLaw(s.snd, |s.chunks|, h)
    ensures KeepsLaw(AfterAck(s, a, rttm).snd, |s.chunks|, h + Raised(s, DeliverAck(a, rttm)))
  {
    assert h + [] == h;
    if a.seqN in s.snd.sent {
      if s.snd.sent[a.seqN].acked {
        DuplicateAckIsIgnored(s, a, rttm);
      } else {
        EndLawful(s.snd, |s.chunks|, h, a.seqN, rttm);
        var m := MarkAcked(s.snd, a.seqN, rttm);
        ReplaceShape(s.snd.sent, s.snd.hSeq, s.snd.tSeq, s.chunks, a.seqN, s.snd.sent[a.seqN].(acked := true));
        TrimLawful(m, s.chunks, h + [Ended(rttm)]);
      }
    }
  }

  /** What the law speaks of is the same. */
  predicate SameWindow(snd: Sender, n: nat, snd': Sender, n': nat) {
    && snd'.cwnd == snd.cwnd && snd'.rwnd == snd.rwnd && snd'.swnd == snd.swnd
    && snd'.minrtt == snd.minrtt && snd'.rto == snd.rto
    && AckedCount(snd', n') == AckedCount(snd, n)
  }

  lemma EnqueueSameWindow(snd: Sender, chunks: seq<bytes>, s1: Sender, bs: bytes)
    requires FlightShape(snd.sent, snd.hSeq, snd.tSeq, chunks) && |snd.sent| < WINDOW
    requires s1 == snd.(app := s1.app, timer := s1.timer)
    ensures SameWindow(snd, |chunks|, Enqueue(s1, bs), |chunks| + 1)
  {
    var g := Segment(bs, false, snd.rto, 0);
    EnqueueShape(snd.sent, snd.hSeq, snd.tSeq, chunks, g);
    assert AckedKeys(snd.sent[snd.tSeq := g]) == AckedKeys(snd.sent);
  }

  lemma NothingSameWindow(s: System, s1: Sender)
    requires s.lock.Sending? && ReadSegment(s.snd, ModeOf(s.lock.holder)) == Nothing(s1)
    ensures SameWindow(s.snd, |s.chunks|, AfterSendStep(s).snd, |AfterSendStep(s).chunks|)
  {
  }

  lemma GotSameWindow(s: System, s1: Sender, bs: bytes)
    requires FlightShape(s.snd.sent, s.snd.hSeq, s.snd.tSeq, s.chunks) && |s.snd.sent| < WINDOW
    requires s.lock.Sending? && ReadSegment(s.snd, ModeOf(s.lock.holder)) == Got(s1, bs)
    ensures SameWindow(s.snd, |s.chunks|, AfterSendStep(s).snd, |AfterSendStep(s).chunks|)
  {
    EnqueueSameWindow(s.snd, s.chunks, s1, bs);
  }

  lemma SendSameWindow(s: System)
    requires Inv(s) && s.lock.Sending? && InFlight(s, SendStep)
    ensures SameWindow(s.snd, |s.chunks|, AfterSendStep(s).snd, |AfterSendStep(s).chunks|)
  {
    match ReadSegment(s.snd, ModeOf(s.lock.holder))
    case Nothing(s1) => NothingSameWindow(s, s1);
    case Got(s1, bs) =>
      FullReadFits(s, s1, bs);
      GotSameWindow(s, s1, bs);
  }

  lemma TickerSameWindow(s: System, q: u16)
    requires Enabled(s, TickerResend(q))
    ensures var s' := Apply(s, TickerResend(q)); SameWindow(s.snd, |s.chunks|, s'.snd, |s'.chunks|)
  {
    assert AckedKeys(Apply(s, TickerResend(q)).snd.sent) == AckedKeys(s.snd.sent);
  }

  lemma OthersSameWindow(s: System, e: Event)
    requires Enabled(s, e)
    requires !e.SendStep? && !e.SendFails? && !e.DeliverAck? && !e.TickerResend? && !e.ResendEvent?
    ensures var s' := Apply(s, e); SameWindow(s.snd, |s.chunks|, s'.snd, |s'.chunks|)
  {
    match e
    case PushEvent | TimerFires | TakeTick | Flush | CloseSignal | EnterFlushing | FlushLast
      | FlushLastDone | FlushLastTimeout | WaitDone | WaitTimeout | LoseData(_) | LoseAck(_) =>
    case Push(_) | QuickResend(_) | DeliverData(_) | Read(_) | CloseReceiver =>
    case NextSegment | PushChunk | SegmentDone | PushStopped | DrainDone =>
  }

  lemma StepLawful(s: System, e: Event, h: seq<WindowEvent>)
    requires Inv(s) && Enabled(s, e) && Assumed(s, e) && KeepsLaw(s.snd, |s.chunks|, h)
    ensures KeepsLaw(Apply(s, e).snd, |Apply(s, e).chunks|, h + Raised(s, e))
  {
    assert h + [] == h;
    if e.DeliverAck? {
      AckLawful(s, e.a, e.rttm, h);
    } else if e.ResendEvent? {
      ResendLawful(s.snd, |s.chunks|, h);
    } else if e.SendStep? || e.SendFails? {
      SendSameWindow(s);
    } else if e.TickerResend? {
      TickerSameWindow(s, e.q);
    } else {
      OthersSameWindow(s, e);
    }
  }

  predicate LawfulState(s: System, h: seq<WindowEvent>) {
    Inv(s) && KeepsLaw(s.snd, |s.chunks|, h)
  }

  lemma NextLawful(s: System, e: Event, h: seq<WindowEvent>)
    requires LawfulState(s, h) && Enabled(s, e) && Assumed(s, e)
    ensures LawfulState(Apply(s, e), h + Raised(s, e))
  {
    StepLawful(s, e, h);
    StepKeeps(s, e);
  }

  lemma Regroup(h: seq<WindowEvent>, a: seq<WindowEvent>, b: seq<WindowEvent>)
    ensures (h + a) + b == h + (a + b)
    ensures h + [] == h
  {
  }

  lemma {:induction false} RunLawful(s: System, es: seq<Event>, h: seq<WindowEvent>)
    requires ValidRun(s, es) && LawfulState(s, h)
    ensures LawfulState(Exec(s, es), h + RaisedBy(s, es))
    decreases |es|
  {
    if es == [] {
      Regroup(h, [], []);
    } else {
      var s1 := Apply(s, es[0]);
      NextLawful(s, es[0], h);
      RunLawful(s1, es[1..], h + Raised(s, es[0]));
      Regroup(h, Raised(s, es[0]), RaisedBy(s1, es[1..]));
    }
  }

  /** Over every run the window is 16, doubled up to 128 for every segment acked and one less, but at least 2, for every
      resend reported, in the order they come. Every segment acked gives exactly one round-trip sample, however often it
      is acked, and the timeout is the minimum of the current block of twelve samples, clamped. */
  lemma CongestionLaw(es: seq<Event>)
    requires ValidRun(InitialSystem(), es)
    ensures var s, h := Exec(InitialSystem(), es), RaisedBy(InitialSystem(), es);
      var k := |Samples(h)|;
      && s.snd.swnd == s.snd.cwnd == CwndAfter(16, h)
      && k == Head(s) + |AckedKeys(s.snd.sent)|
      && IsMinimum(s.snd.minrtt.rtt, ([100_000_000] + Samples(h))[12 * (k / 12)..])
      && s.snd.rto == Min(500_000_000, Max(1, s.snd.minrtt.rtt))
  {
    InitialInv();
    RunLawful(InitialSystem(), es, []);
    var h := RaisedBy(InitialSystem(), es);
    assert [] + h == h;
    FilterIsWindowedMinimum(Samples(h));
  }

  // ---------- ticker resends and what the window hears of them ----------

  function TickerResends(es: seq<Event>): nat {
    if es == [] then 0 else (if es[0].TickerResend? then 1 else 0) + TickerResends(es[1..])
  }

  lemma StepResends(s: System, e: Event)
    requires Enabled(s, e)
    ensures Apply(s, e).resends + Resents(Raised(s, e)) == s.resends + if e.TickerResend? then 1 else 0
  {
    if IsControl(e) {
      ControlResends(s, e);
    } else {
      match e
      case Push(_) | SendStep | SendFails | QuickResend(_) | TickerResend(_) | DeliverAck(_, _) =>
      case DeliverData(_) | Read(_) | CloseReceiver =>
      case NextSegment | PushChunk | SegmentDone | PushStopped | DrainDone =>
    }
  }

  lemma ControlResends(s: System, e: Event)
    requires Enabled(s, e) && IsControl(e)
    ensures Apply(s, e).resends + Resents(Raised(s, e)) == s.resends
  {
    match e
    case PushEvent | TimerFires | TakeTick | Flush | CloseSignal | EnterFlushing | FlushLast | ResendEvent
      | FlushLastDone | FlushLastTimeout | WaitDone | WaitTimeout | LoseData(_) | LoseAck(_) =>
  }

  lemma {:induction false} ResentsConcat(h: seq<WindowEvent>, k: seq<WindowEvent>)
    ensures Resents(h + k) == Resents(h) + Resents(k)
    decreases |h|
  {
    if h == [] {
      assert h + k == k;
    } else {
      assert (h + k)[0] == h[0] && (h + k)[1..] == h[1..] + k;
      ResentsConcat(h[1..], k);
    }
  }

  /** Every resend of a ticker shrinks the window once, as soon as its event comes. */
  lemma {:induction false} EveryResendIsHeard(s: System, es: seq<Event>)
    requires ValidRun(s, es)
    ensures Resents(RaisedBy(s, es)) + Exec(s, es).resends == s.resends + TickerResends(es)
    decreases |es|
  {
    if es != [] {
      var s1 := Apply(s, es[0]);
      StepResends(s, es[0]);
      EveryResendIsHeard(s1, es[1..]);
      ResentsConcat(Raised(s, es[0]), RaisedBy(s1, es[1..]));
    }
  }
}
