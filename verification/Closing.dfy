/** What a close guarantees, and how much may be left to do when it begins. */
module Closing {
  import opened Basics
  import opened SenderModel
  import opened ReceiverModel
  import opened Protocol
  import opened ProtocolInvariant
  import opened ProtocolSteps

  predicate CloseOk(s: System) {
    && (!s.phase.Open? ==> s.closing)
    && ((s.phase.Waiting? || s.phase.Fin?) && !s.cutShort ==> s.snd.app == [])
    && (s.phase.Fin? && !s.cutShort ==> s.snd.sent == map[])
  }

  lemma SendCloseOk(s: System, e: Event)
    requires CloseOk(s) && Enabled(s, e) && (e.SendStep? || e.SendFails?)
    ensures CloseOk(Apply(s, e))
  {
    match ReadSegment(s.snd, ModeOf(s.lock.holder))
    case Nothing(_) =>
    case Got(_, _) =>
  }

  lemma AckCloseOk(s: System, a: AckMsg, rttm: int)
    requires CloseOk(s)
    ensures CloseOk(AfterAck(s, a, rttm))
  {
  }

  lemma CloseOkKeeps(s: System, e: Event)
    requires CloseOk(s) && Enabled(s, e) && QuietClose(s, e)
    ensures CloseOk(Apply(s, e))
  {
    match e
    case SendStep | SendFails => SendCloseOk(s, e);
    case DeliverAck(a, rttm) => AckCloseOk(s, a, rttm);
    case PushEvent | ResendEvent | TimerFires | TakeTick | Flush | CloseSignal | EnterFlushing | FlushLast
      | FlushLastDone | FlushLastTimeout | WaitDone | WaitTimeout | LoseData(_) | LoseAck(_) =>
    case Push(_) | QuickResend(_) | TickerResend(_) | DeliverData(_) | Read(_) | CloseReceiver =>
    case NextSegment | PushChunk | SegmentDone | PushStopped | DrainDone =>
  }

  lemma {:induction false} QuietRunKeeps(s: System, es: seq<Event>)
    requires CloseOk(s) && ValidRun(s, es) && QuietRun(s, es)
    ensures CloseOk(Exec(s, es))
    decreases |es|
  {
    if es != [] {
      CloseOkKeeps(s, es[0]);
      QuietRunKeeps(Apply(s, es[0]), es[1..]);
    }
  }

  /** Both waits of the close ended on their condition, and the receiver is still open. */
  predicate ClosedWell(s: System) {
    s.phase.Fin? && !s.cutShort && !s.rcv.closed
  }

  lemma NothingMissing(s: System)
    requires Inv(s) && CloseOk(s) && ClosedWell(s)
    ensures s.read + s.rcv.app == s.pushed
  {
    HeadBehindTail(s);
    assert s.chunks[..s.drained] == s.chunks;
  }

  /** When both close waits end on their condition, every byte pushed is at the receiver before FIN1. */
  lemma GracefulClose(es: seq<Event>)
    requires ValidRun(InitialSystem(), es) && QuietRun(InitialSystem(), es)
    ensures var s := Exec(InitialSystem(), es);
      ClosedWell(s) ==> s.read + s.rcv.app == s.pushed
  {
    var s := Exec(InitialSystem(), es);
    InitialInv();
    RunKeeps(InitialSystem(), es);
    QuietRunKeeps(InitialSystem(), es);
    if ClosedWell(s) {
      NothingMissing(s);
    }
  }

  // ---------- without assuming anything of the closing flush ----------

  /** What is in flight and what a flush would make of the buffer fit in one window. */
  predicate Fits(snd: Sender) {
    |snd.sent| + SegmentsFor(|snd.app|) <= WINDOW
  }

  lemma FitsIsInFlight(s: System, e: Event)
    requires Fits(s.snd)
    ensures InFlight(s, e)
  {
  }

  lemma OneSegmentLess(n: nat, k: nat)
    requires 0 < k <= n && (k == MSS || k == n <= MSS)
    ensures SegmentsFor(n - k) == SegmentsFor(n) - 1
  {
  }

  /** The sender's window after one turn of `send`. */
  function AfterTurn(snd: Sender, mode: Mode): Sender {
    match ReadSegment(snd, mode)
    case Nothing(s1) => s1
    case Got(s1, bs) => Enqueue(s1, bs)
  }

  lemma TurnFits(snd: Sender, mode: Mode, chunks: seq<bytes>)
    requires FlightShape(snd.sent, snd.hSeq, snd.tSeq, chunks) && Fits(snd)
    ensures Fits(AfterTurn(snd, mode))
  {
    match ReadSegment(snd, mode)
    case Nothing(_) =>
    case Got(_, bs) =>
      OneSegmentLess(|snd.app|, |bs|);
      EnqueueKeys(snd.sent, snd.hSeq, snd.tSeq, chunks, Segment(bs, false, snd.rto, 0));
  }

  lemma SendIsTurn(s: System, e: Event)
    requires Enabled(s, e) && (e.SendStep? || e.SendFails?)
    ensures Apply(s, e).snd == AfterTurn(s.snd, ModeOf(s.lock.holder))
  {
  }

  lemma AckFits(s: System, a: AckMsg, rttm: int)
    requires Inv(s) && Fits(s.snd) && Enabled(s, DeliverAck(a, rttm)) && Assumed(s, DeliverAck(a, rttm))
    ensures Fits(AfterAck(s, a, rttm).snd)
  {
    if a.seqN in s.snd.sent {
      LiveByIndex(s, a);
      MarkKeeps(s.snd, s.chunks, a.seqN, rttm, s.rcv.recved, s.drained);
      TrimKeeps(MarkAcked(s.snd, a.seqN, rttm), s.chunks, s.rcv.recved, s.drained);
    }
  }

  lemma TickerFits(s: System, q: u16)
    requires Fits(s.snd) && Enabled(s, TickerResend(q))
    ensures Fits(Apply(s, TickerResend(q)).snd)
  {
    var sent1 := s.snd.sent[q := TickerResent(s.snd.sent[q])];
    assert sent1.Keys == s.snd.sent.Keys;
    assert |sent1.Keys| == |sent1|;
  }

  lemma OthersFit(s: System, e: Event)
    requires Fits(s.snd) && Enabled(s, e)
    requires !e.Push? && !e.SendStep? && !e.SendFails? && !e.DeliverAck? && !e.TickerResend?
    ensures Fits(Apply(s, e).snd)
  {
    match e
    case PushEvent | ResendEvent | TimerFires | TakeTick | Flush | CloseSignal | EnterFlushing | FlushLast
      | FlushLastDone | FlushLastTimeout | WaitDone | WaitTimeout | LoseData(_) | LoseAck(_) =>
    case QuickResend(_) | DeliverData(_) | Read(_) | CloseReceiver =>
    case NextSegment | PushChunk | SegmentDone | PushStopped | DrainDone =>
  }

  /** With no more writes, what is left fits all the way. */
  lemma FitsKeeps(s: System, e: Event)
    requires Inv(s) && Fits(s.snd) && Enabled(s, e) && Lifetime(s, e) && !e.Push?
    ensures Fits(Apply(s, e).snd)
  {
    FitsIsInFlight(s, e);
    if e.SendStep? || e.SendFails? {
      SendIsTurn(s, e);
      TurnFits(s.snd, ModeOf(s.lock.holder), s.chunks);
    } else if e.DeliverAck? {
      AckFits(s, e.a, e.rttm);
    } else if e.TickerResend? {
      TickerFits(s, e.q);
    } else {
      OthersFit(s, e);
    }
  }

  lemma StaysClosing(s: System, e: Event)
    requires s.closing && Enabled(s, e)
    ensures Apply(s, e).closing
  {
    match e
    case PushEvent | ResendEvent | TimerFires | TakeTick | Flush | CloseSignal | EnterFlushing | FlushLast
      | FlushLastDone | FlushLastTimeout | WaitDone | WaitTimeout | LoseData(_) | LoseAck(_) =>
    case Push(_) | SendStep | SendFails | QuickResend(_) | TickerResend(_) | DeliverAck(_, _) =>
    case DeliverData(_) | Read(_) | CloseReceiver =>
    case NextSegment | PushChunk | SegmentDone | PushStopped | DrainDone =>
  }

  /** A close that begins with no more than a window to do never sends beyond the window. */
  lemma {:induction false} FittingCloseIsValid(s: System, es: seq<Event>, s': System)
    requires Inv(s) && s.closing && Fits(s.snd) && QuietPath(s, es, s')
    ensures ValidRun(s, es) && QuietRun(s, es) && Exec(s, es) == s'
    decreases |es|
  {
    if es != [] {
      FitsIsInFlight(s, es[0]);
      StepKeeps(s, es[0]);
      FitsKeeps(s, es[0]);
      StaysClosing(s, es[0]);
      FittingCloseIsValid(Apply(s, es[0]), es[1..], s');
    }
  }

  /** The same guarantee with a condition that can be checked when the close signal is given, in place of the
      in-flight assumption on the close: what is in flight and in the buffer fits in one window. */
  lemma FittingCloseIsGraceful(es: seq<Event>, es': seq<Event>, s': System)
    requires ValidRun(InitialSystem(), es) && QuietRun(InitialSystem(), es)
    requires var s := Exec(InitialSystem(), es); s.closing && Fits(s.snd) && QuietPath(s, es', s')
    ensures ClosedWell(s') ==> s'.read + s'.rcv.app == s'.pushed
  {
    var s := Exec(InitialSystem(), es);
    InitialInv();
    RunKeeps(InitialSystem(), es);
    QuietRunKeeps(InitialSystem(), es);
    FittingCloseIsValid(s, es', s');
    RunKeeps(s, es');
    QuietRunKeeps(s, es');
    if ClosedWell(s') {
      NothingMissing(s');
    }
  }

  // ---------- a closed receiver ----------

  /** Closed, with no `Recv` under way; and what it holds, has drained and may have acked. */
  predicate IsDeaf(s: System, r: Receiver, drained: nat, acks: set<AckMsg>) {
    && s.rcv.closed && s.rcv.busy.Idle?
    && s.rcv.recved == r.recved && s.rcv.tailSeq == r.tailSeq && s.drained == drained && s.acks <= acks
  }

  lemma StaysDeaf(s: System, e: Event, r: Receiver, drained: nat, acks: set<AckMsg>)
    requires IsDeaf(s, r, drained, acks) && Enabled(s, e)
    ensures IsDeaf(Apply(s, e), r, drained, acks)
  {
    match e
    case PushEvent | ResendEvent | TimerFires | TakeTick | Flush | CloseSignal | EnterFlushing | FlushLast
      | FlushLastDone | FlushLastTimeout | WaitDone | WaitTimeout | LoseData(_) | LoseAck(_) =>
    case Push(_) | SendStep | SendFails | QuickResend(_) | TickerResend(_) | DeliverAck(_, _) =>
    case DeliverData(_) | Read(_) | CloseReceiver =>
  }

  lemma {:induction false} DeafRun(s: System, es: seq<Event>, r: Receiver, drained: nat, acks: set<AckMsg>)
    requires IsDeaf(s, r, drained, acks) && ValidRun(s, es)
    ensures IsDeaf(Exec(s, es), r, drained, acks)
    decreases |es|
  {
    if es != [] {
      StaysDeaf(s, es[0], r, drained, acks);
      DeafRun(Apply(s, es[0]), es[1..], r, drained, acks);
    }
  }

  /** Once the receiver is closed between two calls of `Recv`, it takes and acknowledges nothing more. */
  lemma ClosedReceiverIsDeaf(s: System, es: seq<Event>)
    requires s.rcv.busy.Idle? && ValidRun(Apply(s, CloseReceiver), es)
    ensures IsDeaf(Exec(Apply(s, CloseReceiver), es), s.rcv, s.drained, s.acks)
  {
    DeafRun(Apply(s, CloseReceiver), es, s.rcv, s.drained, s.acks);
  }
}
