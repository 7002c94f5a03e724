/**
 Possible progress: from every reachable open state in which no unacked segment is beyond recovery there is
 a finite schedule that brings every pushed byte to the reader.
 */
module Progress {
  import opened Basics
  import opened SenderModel
  import opened ReceiverModel
  import opened Protocol
  import opened ProtocolInvariant
  import opened ProtocolSteps
  import opened ProtocolTheorems

  /** Every unacked segment has a copy in flight or a ticker resend left. */
  predicate Recoverable(sent: Flight, h: u16, t: u16, n: nat, wire: set<Packet>) {
    forall q :: q in sent && !sent[q].acked ==>
      Packet(q, sent[q].bs, IndexOf(h, t, n, q)) in wire || TickerBudgetLeft(sent[q])
  }

  predicate AllRecoverable(s: System) {
    Recoverable(s.snd.sent, s.snd.hSeq, s.snd.tSeq, |s.chunks|, s.wire)
  }

  /** The steps a schedule is made of: nothing is lost, closed or newly written. */
  predicate Helpful(e: Event) {
    || e.PushEvent? || e.SendStep? || e.QuickResend? || e.TickerResend? || e.TimerFires? || e.TakeTick? || e.Flush?
    || e.DeliverAck? || e.DeliverData? || e.NextSegment? || e.PushChunk? || e.SegmentDone? || e.DrainDone? || e.Read?
  }

  predicate Good(s: System) {
    Inv(s) && NotStranded(s) && AllRecoverable(s) && !s.rcv.closed && s.phase.Open?
  }

  predicate Step(s: System, e: Event) {
    Helpful(e) && Enabled(s, e) && Assumed(s, e)
  }

  predicate Path(s: System, es: seq<Event>, s': System)
    decreases |es|
  {
    if es == [] then s == s' else Step(s, es[0]) && Path(Apply(s, es[0]), es[1..], s')
  }

  ghost predicate Leads(s: System, s': System) {
    exists es :: Path(s, es, s')
  }

  // ---------- paths ----------

  lemma LeadsSelf(s: System)
    ensures Leads(s, s)
  {
    assert Path(s, [], s);
  }

  lemma LeadsByStep(s: System, e: Event, s': System)
    requires Step(s, e) && Leads(Apply(s, e), s')
    ensures Leads(s, s')
  {
    var es :| Path(Apply(s, e), es, s');
    var es1 := [e] + es;
    assert es1[1..] == es;
    assert Path(s, es1, s');
  }

  lemma {:induction false} PathThenLeads(s: System, es: seq<Event>, s1: System, s2: System)
    requires Path(s, es, s1) && Leads(s1, s2)
    ensures Leads(s, s2)
    decreases |es|
  {
    if es != [] {
      PathThenLeads(Apply(s, es[0]), es[1..], s1, s2);
      LeadsByStep(s, es[0], s2);
    }
  }

  lemma LeadsTrans(s: System, s1: System, s2: System)
    requires Leads(s, s1) && Leads(s1, s2)
    ensures Leads(s, s2)
  {
    var es :| Path(s, es, s1);
    PathThenLeads(s, es, s1, s2);
  }

  /** A schedule is a run that meets the assumptions, and loses, closes and writes nothing. */
  lemma {:induction false} PathIsRun(s: System, es: seq<Event>, s': System)
    requires Path(s, es, s')
    ensures ValidRun(s, es) && Exec(s, es) == s' && forall e :: e in es ==> Helpful(e)
    decreases |es|
  {
    if es != [] {
      PathIsRun(Apply(s, es[0]), es[1..], s');
    }
  }

  // ---------- a schedule keeps the state good ----------

  lemma EnqueueRecoverable(sent: Flight, h: u16, t: u16, chunks: seq<bytes>, g: Segment, wire: set<Packet>)
    requires FlightShape(sent, h, t, chunks) && |sent| < WINDOW
    requires Recoverable(sent, h, t, |chunks|, wire)
    ensures Recoverable(sent[t := g], h, Inc(t), |chunks| + 1, wire + {Packet(t, g.bs, |chunks|)})
  {
    EnqueueShape(sent, h, t, chunks, g);
    assert IndexOf(h, Inc(t), |chunks| + 1, t) == |chunks|;
  }

  lemma TrimRecoverable(snd: Sender, m: Sender, q: u16, n: nat, wire: set<Packet>)
    requires Recoverable(snd.sent, snd.hSeq, snd.tSeq, n, wire)
    requires MarkFrame(snd, m, q) && (q in m.sent ==> m.sent[q].acked) && TrimFrame(m, Trim(m), n)
    ensures Recoverable(Trim(m).sent, Trim(m).hSeq, Trim(m).tSeq, n, wire)
  {
    var r := Trim(m);
    forall k | k in r.sent && !r.sent[k].acked
      ensures Packet(k, r.sent[k].bs, IndexOf(r.hSeq, r.tSeq, n, k)) in wire || TickerBudgetLeft(r.sent[k])
    {
      assert k in snd.sent && snd.sent[k] == r.sent[k];
    }
  }

  lemma SentOneRecoverable(s: System, s': System, n: nat)
    requires Inv(s) && AllRecoverable(s) && SentOne(s, s', n) && |s.snd.sent| < WINDOW
    ensures AllRecoverable(s')
  {
    var g := Segment(s.snd.app[..n], false, s.snd.rto, 0);
    EnqueueRecoverable(s.snd.sent, s.snd.hSeq, s.snd.tSeq, s.chunks, g, s.wire);
  }

  lemma NothingKeepsRecoverable(s: System, s1: Sender)
    requires AllRecoverable(s) && s.lock.Sending? && ReadSegment(s.snd, ModeOf(s.lock.holder)) == Nothing(s1)
    ensures AllRecoverable(AfterSendStep(s))
  {
  }

  lemma SendKeepsRecoverable(s: System)
    requires Inv(s) && AllRecoverable(s) && Step(s, SendStep)
    ensures AllRecoverable(Apply(s, SendStep))
  {
    match ReadSegment(s.snd, ModeOf(s.lock.holder))
    case Nothing(s1) => NothingKeepsRecoverable(s, s1);
    case Got(s1, bs) =>
      GotIsSentOne(s, s1, bs);
      FullReadFits(s, s1, bs);
      SentOneRecoverable(s, Apply(s, SendStep), |bs|);
  }

  lemma AckKeepsRecoverable(s: System, a: AckMsg, rttm: int)
    requires Inv(s) && AllRecoverable(s) && Step(s, DeliverAck(a, rttm))
    ensures AllRecoverable(Apply(s, DeliverAck(a, rttm)))
  {
    LiveByIndex(s, a);
    if a.seqN in s.snd.sent {
      var m := MarkAcked(s.snd, a.seqN, rttm);
      MarkKeeps(s.snd, s.chunks, a.seqN, rttm, s.rcv.recved, s.drained);
      TrimKeeps(m, s.chunks, s.rcv.recved, s.drained);
      TrimRecoverable(s.snd, m, a.seqN, |s.chunks|, s.wire);
    }
  }

  lemma TickerKeepsRecoverable(s: System, q: u16)
    requires AllRecoverable(s) && Enabled(s, TickerResend(q))
    ensures AllRecoverable(Apply(s, TickerResend(q)))
  {
    assert PacketOf(s, q) == Packet(q, s.snd.sent[q].bs, IndexOf(s.snd.hSeq, s.snd.tSeq, |s.chunks|, q));
  }

  /** The steps that only take the lock or work the flush timer. */
  predicate IsSmall(e: Event) {
    e.PushEvent? || e.TimerFires? || e.TakeTick? || e.Flush?
  }

  /** What steps other than a send, an ack or a ticker resend leave alone. */
  predicate SameFlight(s: System, s': System) {
    && s'.snd.sent == s.snd.sent && s'.snd.hSeq == s.snd.hSeq && s'.snd.tSeq == s.snd.tSeq
    && s'.chunks == s.chunks && s.wire <= s'.wire
  }

  lemma SmallKeepsFlight(s: System, e: Event)
    requires Enabled(s, e) && IsSmall(e)
    ensures SameFlight(s, Apply(s, e))
  {
    match e
    case PushEvent | TimerFires | TakeTick | Flush =>
  }

  lemma OtherKeepsFlight(s: System, e: Event)
    requires Helpful(e) && Enabled(s, e) && !e.SendStep? && !e.DeliverAck? && !e.TickerResend?
    ensures SameFlight(s, Apply(s, e))
  {
    if IsSmall(e) {
      SmallKeepsFlight(s, e);
    } else {
      match e
      case QuickResend(_) | DeliverData(_) | NextSegment | PushChunk | SegmentDone | DrainDone | Read(_) =>
    }
  }

  lemma StepKeepsGood(s: System, e: Event)
    requires Good(s) && Step(s, e)
    ensures Good(Apply(s, e))
    ensures Apply(s, e).pushed == s.pushed
  {
    StepKeeps(s, e);
    NotStrandedKeeps(s, e);
    if e.SendStep? {
      SendKeepsRecoverable(s);
    } else if e.DeliverAck? {
      AckKeepsRecoverable(s, e.a, e.rttm);
    } else if e.TickerResend? {
      TickerKeepsRecoverable(s, e.q);
    } else {
      OtherKeepsFlight(s, e);
    }
    StaysOpen(s, e);
  }

  predicate SameOpen(s: System, s': System) {
    s'.pushed == s.pushed && s'.phase == s.phase && s'.rcv.closed == s.rcv.closed
  }

  lemma SenderStaysOpen(s: System, e: Event)
    requires Enabled(s, e) && (e.SendStep? || e.DeliverAck? || e.TickerResend? || e.QuickResend?)
    ensures SameOpen(s, Apply(s, e))
  {
    match e
    case SendStep => assert SameOpen(s, AfterSendStep(s));
    case DeliverAck(a, rttm) => assert SameOpen(s, AfterAck(s, a, rttm));
    case TickerResend(_) | QuickResend(_) =>
  }

  lemma SmallStaysOpen(s: System, e: Event)
    requires Enabled(s, e) && IsSmall(e)
    ensures SameOpen(s, Apply(s, e))
  {
    match e
    case PushEvent | TimerFires | TakeTick | Flush =>
  }

  lemma ReceiverStaysOpen(s: System, e: Event)
    requires Enabled(s, e) && Helpful(e) && !IsSmall(e)
    requires !e.SendStep? && !e.DeliverAck? && !e.TickerResend? && !e.QuickResend?
    ensures SameOpen(s, Apply(s, e))
  {
    match e
    case DeliverData(p) => assert SameOpen(s, AfterData(s, p));
    case NextSegment | PushChunk | SegmentDone | DrainDone | Read(_) =>
  }

  lemma StaysOpen(s: System, e: Event)
    requires Helpful(e) && Enabled(s, e)
    ensures SameOpen(s, Apply(s, e))
  {
    if e.SendStep? || e.DeliverAck? || e.TickerResend? || e.QuickResend? {
      SenderStaysOpen(s, e);
    } else if IsSmall(e) {
      SmallStaysOpen(s, e);
    } else {
      ReceiverStaysOpen(s, e);
    }
  }

  lemma {:induction false} PathKeepsGood(s: System, es: seq<Event>, s': System)
    requires Good(s) && Path(s, es, s')
    ensures Good(s') && s'.pushed == s.pushed
    decreases |es|
  {
    if es != [] {
      StepKeepsGood(s, es[0]);
      PathKeepsGood(Apply(s, es[0]), es[1..], s');
    }
  }

  lemma LeadsKeepsGood(s: System, s': System)
    requires Good(s) && Leads(s, s')
    ensures Good(s') && s'.pushed == s.pushed
  {
    var es :| Path(s, es, s');
    PathKeepsGood(s, es, s');
  }

  // ---------- finishing a Recv in progress ----------

  /** Only the receiver moved. */
  predicate SenderIdle(s: System, s': System) {
    && s'.snd == s.snd && s'.lock == s.lock && s'.pushPending == s.pushPending && s'.flushTaken == s.flushTaken
    && s'.chunks == s.chunks
    && s.acks <= s'.acks
  }

  /** The step that the drain loop, or a reader making room for it, takes next. */
  function DrainEvent(s: System): Event
    requires s.rcv.busy.Draining?
  {
    if s.rcv.busy.rest.None? then (if s.rcv.tailSeq in s.rcv.recved then NextSegment else DrainDone)
    else if s.rcv.busy.rest.value == [] then SegmentDone
    else if |s.rcv.app| < BUFFER_SIZE then PushChunk
    else Read(BUFFER_SIZE)
  }

  function RestSize(s: System): nat {
    if s.rcv.busy.Draining? && s.rcv.busy.rest.Some? then |s.rcv.busy.rest.value| else 0
  }

  function Stage(s: System): nat {
    if s.rcv.busy.Idle? then 0 else if s.rcv.busy.rest.Some? then 1 else 2
  }

  /** Closer to the end of the drain. */
  predicate Nearer(s1: System, s: System) {
    || |s1.rcv.recved| < |s.rcv.recved|
    || (|s1.rcv.recved| == |s.rcv.recved|
        && (|| Stage(s1) < Stage(s)
            || (Stage(s1) == Stage(s)
                && (RestSize(s1) < RestSize(s) || (RestSize(s1) == RestSize(s) && |s1.rcv.app| < |s.rcv.app|)))))
  }

  /** What one step of the drain leaves alone, and the ack that comes at its end. */
  predicate DrainFrame(s: System, s1: System)
    requires s.rcv.busy.Draining?
  {
    && SenderIdle(s, s1)
    && (s1.rcv.busy.Draining? ==> s1.recvIdx == s.recvIdx && s1.rcv.busy.seqN == s.rcv.busy.seqN)
    && (s1.rcv.busy.Idle? ==> AckMsg(s.rcv.busy.seqN, s.recvIdx) in s1.acks)
  }

  lemma SegmentDoneStep(s: System)
    requires Enabled(s, SegmentDone) && s.rcv.tailSeq in s.rcv.recved
    ensures DrainFrame(s, Apply(s, SegmentDone)) && Nearer(Apply(s, SegmentDone), s)
  {
    var recved1 := s.rcv.recved - {s.rcv.tailSeq};
    assert recved1.Keys == s.rcv.recved.Keys - {s.rcv.tailSeq};
    assert |recved1.Keys| == |recved1|;
  }

  lemma ChunkStep(s: System, e: Event)
    requires s.rcv.busy.Draining? && |s.rcv.app| <= BUFFER_SIZE
    requires Enabled(s, e) && (e.PushChunk? || e.Read?)
    requires e.PushChunk? || Pushing(s)
    ensures DrainFrame(s, Apply(s, e)) && Nearer(Apply(s, e), s)
  {
  }

  lemma SwitchStep(s: System, e: Event)
    requires s.rcv.busy.Draining? && Enabled(s, e) && (e.NextSegment? || e.DrainDone?)
    ensures DrainFrame(s, Apply(s, e)) && Nearer(Apply(s, e), s)
  {
  }

  /** The drain always moves on. */
  lemma DrainStep(s: System)
    requires s.rcv.busy.Draining? && |s.rcv.app| <= BUFFER_SIZE
    requires s.rcv.busy.rest.Some? ==> s.rcv.tailSeq in s.rcv.recved
    ensures Step(s, DrainEvent(s))
    ensures DrainFrame(s, Apply(s, DrainEvent(s))) && Nearer(Apply(s, DrainEvent(s)), s)
  {
    var e := DrainEvent(s);
    assert Step(s, e);
    if e.SegmentDone? {
      SegmentDoneStep(s);
    } else if e.PushChunk? || e.Read? {
      ChunkStep(s, e);
    } else {
      SwitchStep(s, e);
    }
  }

  lemma {:induction false} FinishRecv(s: System) returns (s': System)
    requires Good(s)
    ensures Leads(s, s') && Good(s') && s'.rcv.busy.Idle? && SenderIdle(s, s')
    ensures s.rcv.busy.Draining? ==> AckMsg(s.rcv.busy.seqN, s.recvIdx) in s'.acks
    decreases |s.rcv.recved|, Stage(s), RestSize(s), |s.rcv.app|
  {
    if s.rcv.busy.Idle? {
      LeadsSelf(s);
      s' := s;
    } else {
      var e := DrainEvent(s);
      DrainStep(s);
      StepKeepsGood(s, e);
      s' := FinishRecv(Apply(s, e));
      LeadsByStep(s, e, s');
    }
  }

  // ---------- finishing a send in progress ----------

  /** Only the sender moved. */
  predicate ReceiverIdle(s: System, s': System) {
    s'.rcv == s.rcv && s'.pushPending == s.pushPending && s'.flushTaken == s.flushTaken && s'.acks == s.acks
  }

  /** Work left for the sender: a byte waiting weighs more than a segment in flight. */
  function Weight(s: System): nat {
    2 * |s.snd.app| + |s.snd.sent|
  }

  /** A flush in progress fits in the window. */
  predicate FlushFits(s: System) {
    s.lock == Sending(ByFlush) ==> |s.snd.sent| + SegmentsFor(|s.snd.app|) <= WINDOW
  }

  /** Progress of `send`, seen from outside. */
  predicate SendFrame(s: System, s': System) {
    && ReceiverIdle(s, s')
    && Weight(s') <= Weight(s)
    && |s'.snd.app| <= |s.snd.app|
    && (|s'.snd.app| < |s.snd.app| ==> Weight(s') < Weight(s))
  }

  lemma GotFrame(s: System, s1: Sender, bs: bytes)
    requires s.lock.Sending? && FlushFits(s) && s.snd.tSeq !in s.snd.sent
    requires ReadSegment(s.snd, ModeOf(s.lock.holder)) == Got(s1, bs)
    ensures var s' := AfterSendStep(s);
      s'.lock == s.lock && SendFrame(s, s') && FlushFits(s') && |s'.snd.app| < |s.snd.app|
  {
    var sent1 := AfterSendStep(s).snd.sent;
    assert 0 < |bs| <= MSS && |s1.app| == |s.snd.app| - |bs|;
    assert sent1.Keys == s.snd.sent.Keys + {s.snd.tSeq};
    assert |sent1| == |sent1.Keys| == |s.snd.sent| + 1;
    assert s.lock == Sending(ByFlush) ==> |bs| == Min(MSS, |s.snd.app|);
    assert s.lock == Sending(ByFlush) ==> SegmentsFor(|s1.app|) == SegmentsFor(|s.snd.app|) - 1;
  }

  lemma NothingFrame(s: System, s1: Sender)
    requires s.lock.Sending? && ReadSegment(s.snd, ModeOf(s.lock.holder)) == Nothing(s1)
    ensures var s' := AfterSendStep(s);
      && !s'.lock.Sending? && SendFrame(s, s')
      && s'.snd.app == s.snd.app && (s.lock == Sending(ByFlush) ==> s'.snd.app == [])
  {
  }

  lemma TailIsFree(s: System)
    requires Inv(s)
    ensures s.snd.tSeq !in s.snd.sent
  {
  }

  lemma SendIsStep(s: System)
    requires s.lock.Sending? && FlushFits(s)
    ensures Step(s, SendStep)
  {
  }

  /** The step that whoever holds the sender's lock takes next. */
  function HolderEvent(s: System): Event {
    if s.lock.Sending? then SendStep else QuickResend({})
  }

  lemma HolderStep(s: System) returns (s': System)
    requires Good(s) && FlushFits(s) && !s.lock.Free?
    ensures Step(s, HolderEvent(s)) && s' == Apply(s, HolderEvent(s)) && Good(s')
    ensures SendFrame(s, s') && FlushFits(s')
    ensures s'.lock == s.lock ==> |s'.snd.app| < |s.snd.app|
    ensures s'.lock != s.lock ==> !s'.lock.Sending? && (s.lock.Quick? ==> s'.lock.Free?)
    ensures s.lock == Sending(ByFlush) && s'.lock != s.lock ==> s'.snd.app == []
  {
    if s.lock.Sending? {
      SendIsStep(s);
      StepKeepsGood(s, SendStep);
      TailIsFree(s);
      match ReadSegment(s.snd, ModeOf(s.lock.holder)) {
        case Nothing(s1) => NothingFrame(s, s1);
        case Got(s1, bs) => GotFrame(s, s1, bs);
      }
    } else {
      StepKeepsGood(s, QuickResend({}));
    }
    s' := Apply(s, HolderEvent(s));
  }

  lemma {:induction false} FinishSend(s: System) returns (s': System)
    requires Good(s) && FlushFits(s)
    ensures Leads(s, s') && Good(s') && s'.lock.Free? && SendFrame(s, s')
    ensures s.lock == Sending(ByFlush) ==> s'.snd.app == []
    decreases |s.snd.app|, if s.lock.Free? then 0 else if s.lock.Quick? then 1 else 2
  {
    if s.lock.Free? {
      LeadsSelf(s);
      s' := s;
    } else {
      var s1 := HolderStep(s);
      s' := FinishSend(s1);
      LeadsByStep(s, HolderEvent(s), s');
    }
  }

  // ---------- one round ----------

  predicate Rest(s: System) {
    Good(s) && s.lock.Free? && s.rcv.busy.Idle?
  }

  /** Nearer to the end of all rounds. */
  predicate Lighter(s1: System, s: System) {
    Weight(s1) < Weight(s) || (Weight(s1) == Weight(s) && s.pushPending && !s1.pushPending)
  }

  lemma TickerFrame(s: System, q: u16)
    requires Enabled(s, TickerResend(q)) && IndexOf(s.snd.hSeq, s.snd.tSeq, |s.chunks|, q) == Head(s)
    ensures var s' := Apply(s, TickerResend(q));
      && ReceiverIdle(s, s') && s'.lock == s.lock && Weight(s') == Weight(s)
      && Packet(q, s.snd.sent[q].bs, Head(s)) in s'.wire
      && Head(s') == Head(s) && s'.snd.hSeq == s.snd.hSeq && q in s'.snd.sent
  {
    var s' := Apply(s, TickerResend(q));
    assert s'.snd.sent.Keys == s.snd.sent.Keys;
    assert |s'.snd.sent.Keys| == |s'.snd.sent|;
  }

  /** A non-empty window has an unacked segment at its head, which is on the wire or can be resent. */
  lemma HeadInFlight(s: System)
    requires Good(s) && s.snd.sent != map[]
    ensures var h := s.snd.hSeq;
      && h in s.snd.sent && !s.snd.sent[h].acked
      && IndexOf(h, s.snd.tSeq, |s.chunks|, h) == Head(s)
      && (Packet(h, s.snd.sent[h].bs, Head(s)) in s.wire || TickerBudgetLeft(s.snd.sent[h]))
  {
    assert |s.snd.sent| != 0;
  }

  /** Put a copy of the head segment on the wire, from the ticker if need be. */
  lemma HeadOnWire(s: System) returns (s1: System, p: Packet)
    requires Rest(s) && s.snd.sent != map[]
    ensures Leads(s, s1) && Rest(s1) && Weight(s1) == Weight(s)
    ensures p in s1.wire && p.idx == Head(s1) && p.seqN == s1.snd.hSeq && p.seqN in s1.snd.sent
  {
    HeadInFlight(s);
    var h := s.snd.hSeq;
    p := Packet(h, s.snd.sent[h].bs, Head(s));
    LeadsSelf(s);
    s1 := s;
    if p !in s.wire {
      var e := TickerResend(h);
      StepKeepsGood(s, e);
      TickerFrame(s, h);
      s1 := Apply(s, e);
      LeadsSelf(s1);
      LeadsByStep(s, e, s1);
    }
  }

  lemma DataFrame(s: System, p: Packet)
    requires Enabled(s, DeliverData(p)) && !s.rcv.closed
    ensures var s' := Apply(s, DeliverData(p));
      && SenderIdle(s, s')
      && (s'.rcv.busy.Idle? ==> AckMsg(p.seqN, p.idx) in s'.acks)
      && (s'.rcv.busy.Draining? ==> s'.rcv.busy.seqN == p.seqN && s'.recvIdx == p.idx)
  {
  }

  lemma HeadDeliverable(s: System, p: Packet)
    requires Rest(s) && p in s.wire && p.idx == Head(s)
    ensures Step(s, DeliverData(p))
  {
    HeadBehindTail(s);
  }

  /** Deliver the head segment: its ack is on its way back. */
  lemma HeadAcked(s: System, p: Packet) returns (s1: System)
    requires Rest(s) && p in s.wire && p.idx == Head(s)
    ensures Leads(s, s1) && Rest(s1) && SenderIdle(s, s1)
    ensures AckMsg(p.seqN, p.idx) in s1.acks
  {
    var e := DeliverData(p);
    HeadDeliverable(s, p);
    StepKeepsGood(s, e);
    DataFrame(s, p);
    s1 := FinishRecv(Apply(s, e));
    LeadsByStep(s, e, s1);
  }

  lemma TrimsHead(snd: Sender, chunks: seq<bytes>)
    requires FlightShape(snd.sent, snd.hSeq, snd.tSeq, chunks) && snd.hSeq in snd.sent && !snd.sent[snd.hSeq].acked
    ensures var r := Trim(MarkAcked(snd, snd.hSeq, 0)); |r.sent| < |snd.sent| && r.app == snd.app
  {
    var m := MarkAcked(snd, snd.hSeq, 0);
    var r := Trim(m.(sent := m.sent - {m.hSeq}, hSeq := Inc(m.hSeq)));
    assert r == Trim(m);
    TrimShrinks(m.(sent := m.sent - {m.hSeq}, hSeq := Inc(m.hSeq)));
    assert (m.sent - {m.hSeq}).Keys == snd.sent.Keys - {snd.hSeq};
    assert |(m.sent - {m.hSeq}).Keys| == |m.sent - {m.hSeq}|;
  }

  lemma {:induction false} TrimShrinks(s: Sender)
    ensures |Trim(s).sent| <= |s.sent|
    decreases |s.sent|
  {
    if s.hSeq in s.sent && s.sent[s.hSeq].acked {
      assert (s.sent - {s.hSeq}).Keys == s.sent.Keys - {s.hSeq};
      assert |(s.sent - {s.hSeq}).Keys| == |s.sent - {s.hSeq}|;
      TrimShrinks(s.(sent := s.sent - {s.hSeq}, hSeq := Inc(s.hSeq)));
    }
  }

  /** Deliver the head's ack: the window slides. */
  lemma HeadTrimmed(s: System, a: AckMsg) returns (s1: System)
    requires Rest(s) && a in s.acks && a.idx == Head(s) && a.seqN == s.snd.hSeq && a.seqN in s.snd.sent
    ensures Leads(s, s1) && Rest(s1) && Weight(s1) < Weight(s)
  {
    var e := DeliverAck(a, 0);
    StepKeepsGood(s, e);
    var s0 := Apply(s, e);
    TrimsHead(s.snd, s.chunks);
    s1 := FinishSend(s0);
    LeadsByStep(s, e, s1);
  }

  lemma AckRound(s: System) returns (s': System)
    requires Rest(s) && s.snd.sent != map[]
    ensures Leads(s, s') && Rest(s') && Weight(s') < Weight(s)
  {
    var s1, p := HeadOnWire(s);
    var s2 := HeadAcked(s1, p);
    s' := HeadTrimmed(s2, AckMsg(p.seqN, p.idx));
    LeadsTrans(s, s1, s2);
    LeadsTrans(s, s2, s');
  }

  /** A step that only takes the sender's lock or works the flush timer. */
  lemma SmallStep(s: System, e: Event) returns (s': System)
    requires Rest(s) && Step(s, e) && IsSmall(e)
    ensures s' == Apply(s, e) && Good(s') && Leads(s, s')
    ensures s'.rcv == s.rcv && s'.snd.app == s.snd.app && s'.snd.sent == s.snd.sent
  {
    StepKeepsGood(s, e);
    s' := Apply(s, e);
    LeadsSelf(s');
    LeadsByStep(s, e, s');
  }

  lemma PushEventRound(s: System) returns (s': System)
    requires Rest(s) && s.pushPending
    ensures Leads(s, s') && Rest(s') && Lighter(s', s)
  {
    var s1 := SmallStep(s, PushEvent);
    s' := FinishSend(s1);
    LeadsTrans(s, s1, s');
  }

  /** With an empty window and nobody about to send, the flush timer must be on. */
  lemma GetTick(s: System) returns (s': System)
    requires Rest(s) && s.snd.sent == map[] && s.snd.app != [] && !s.pushPending && !s.flushTaken
    ensures Leads(s, s') && Rest(s') && s'.flushTaken
    ensures s'.snd.sent == s.snd.sent && s'.snd.app == s.snd.app
  {
    assert s.snd.timer.armed || s.snd.timer.tick;
    LeadsSelf(s);
    var s1 := s;
    if !s.snd.timer.tick {
      s1 := SmallStep(s, TimerFires);
    }
    s' := SmallStep(s1, TakeTick);
    LeadsTrans(s, s1, s');
  }

  lemma FlushRound(s: System) returns (s': System)
    requires Rest(s) && s.snd.sent == map[] && s.snd.app != [] && s.flushTaken
    ensures Leads(s, s') && Rest(s') && Weight(s') < Weight(s)
  {
    var s1 := SmallStep(s, Flush);
    assert |s1.snd.app| <= BUFFER_SIZE && |s1.snd.sent| == 0;
    assert FlushFits(s1);
    s' := FinishSend(s1);
    LeadsTrans(s, s1, s');
  }

  lemma Round(s: System) returns (s': System)
    requires Rest(s) && (s.snd.sent != map[] || s.snd.app != [])
    ensures Leads(s, s') && Rest(s') && Lighter(s', s)
  {
    if s.snd.sent != map[] {
      s' := AckRound(s);
    } else if s.pushPending {
      s' := PushEventRound(s);
    } else if s.flushTaken {
      s' := FlushRound(s);
    } else {
      var s1 := GetTick(s);
      s' := FlushRound(s1);
      LeadsTrans(s, s1, s');
    }
  }

  lemma {:induction false} AllRounds(s: System) returns (s': System)
    requires Rest(s)
    ensures Leads(s, s') && Rest(s') && s'.snd.sent == map[] && s'.snd.app == []
    decreases Weight(s), s.pushPending
  {
    if s.snd.sent == map[] && s.snd.app == [] {
      LeadsSelf(s);
      s' := s;
    } else {
      var s1 := Round(s);
      s' := AllRounds(s1);
      LeadsTrans(s, s1, s');
    }
  }

  // ---------- the last reads ----------

  lemma {:induction false} ReadAll(s: System) returns (s': System)
    requires Good(s)
    ensures Leads(s, s') && Good(s') && s'.rcv.app == [] && s'.read == s.read + s.rcv.app
    decreases |s.rcv.app|
  {
    if s.rcv.app == [] {
      LeadsSelf(s);
      s' := s;
    } else {
      var e := Read(|s.rcv.app|);
      StepKeepsGood(s, e);
      s' := ReadAll(Apply(s, e));
      LeadsByStep(s, e, s');
    }
  }

  /** With nothing waiting and nothing in flight the receiver has every byte. */
  lemma NothingLeft(s: System)
    requires Rest(s) && s.snd.sent == map[] && s.snd.app == []
    ensures s.read + s.rcv.app == s.pushed
  {
    HeadBehindTail(s);
    assert s.chunks[..s.drained] == s.chunks;
  }

  /** From any reachable state that is open at both ends, in which every unacked segment has a copy in flight or
      a ticker resend left and a flush in progress fits in the window, some finite run that loses nothing
      delivers every byte pushed. */
  lemma PossibleProgress(s: System)
    requires Reachable(s) && s.phase.Open? && !s.rcv.closed
    requires AllRecoverable(s) && FlushFits(s)
    ensures exists s' :: Leads(s, s') && s'.read == s'.pushed == s.pushed
  {
    ReachableInv(s);
    ReachableNotStranded(s);
    var s1 := FinishRecv(s);
    var s2 := FinishSend(s1);
    LeadsTrans(s, s1, s2);
    var s3 := AllRounds(s2);
    LeadsTrans(s, s2, s3);
    NothingLeft(s3);
    var s4 := ReadAll(s3);
    LeadsTrans(s, s3, s4);
    LeadsKeepsGood(s, s4);
    LeadsKeepsGood(s, s3);
  }
}
