/**
 Both windows joined by a network that loses, duplicates and reorders, as a state machine.

 A step is one uninterruptible piece of the program: what runs under the sender's lock is cut at every
 iteration of `send`, and what runs in `Recv` at every chunk pushed, so the unlocked `EventResend`, reads
 and pushes fall anywhere between. The fields marked "history" record the run; no decision reads them.
 */
module Protocol {
  import opened Basics
  import opened SenderModel
  import opened ReceiverModel

  /** A data packet; `idx` (history) is the unbounded index of its segment. */
  datatype Packet = Packet(seqN: u16, bs: bytes, idx: int)

  /** An acknowledgement; the sender looks at nothing but `seqN`. */
  datatype AckMsg = AckMsg(seqN: u16, idx: int)

  datatype Holder = ByPush | ByAck(seqN: u16) | ByFlush

  /** Who holds the sender's lock: a running `send`, or `RecvAck` about to resend quickly. */
  datatype Lock = Free | Sending(holder: Holder) | Quick(seqN: u16)

  /** The flush goroutine's progress through a close. */
  datatype Phase = Open | Flushing | Waiting | Fin

  datatype System = System(
    snd: Sender,
    lock: Lock,
    pushPending: bool,       // a chunk was pushed, its push event has not got the lock yet
    flushTaken: bool,        // the flush goroutine read a tick, it has not got the lock yet
    closing: bool,           // closeSignal is closed
    phase: Phase,
    cutShort: bool,          // a close wait ended on its timeout or on a send error, not on its condition
    sendErr: bool,           // history: the last `send` to end stopped on an error
    resends: nat,            // ticker resends whose EventResend is still to come
    rcv: Receiver,
    wire: set<Packet>,
    acks: set<AckMsg>,
    pushed: bytes,           // history: every byte put in the sender's buffer
    chunks: seq<bytes>,      // history: the payload of every segment, by index
    drained: nat,            // history: how many segments went into the receiver's queue
    part: bytes,             // history: the bytes pushed so far of the segment at the receiver's tail
    recvIdx: int,            // history: the index of the packet Recv is working on
    ackIdx: int,             // history: the index of the ack RecvAck is working on
    read: bytes)             // history: every byte returned by Read

  function InitialSystem(): System {
    System(InitialSender(), Free, false, false, false, Open, false, false, 0,
           InitialReceiver(), {}, {}, [], [], 0, [], 0, 0, [])
  }

  /** Index of the oldest segment not yet trimmed. */
  function Head(s: System): int {
    |s.chunks| - Dist(s.snd.hSeq, s.snd.tSeq)
  }

  /** The packet that a resend of the live segment `q` puts on the wire. */
  function PacketOf(s: System, q: u16): Packet
    requires q in s.snd.sent
  {
    Packet(q, s.snd.sent[q].bs, Head(s) + Dist(s.snd.hSeq, q))
  }

  function ModeOf(h: Holder): Mode {
    if h.ByFlush? then Any else Full
  }

  datatype Event =
    // the writer
    | Push(bs: bytes)
    | PushEvent
    // whoever holds the sender's lock
    | SendStep
    | SendFails
    | QuickResend(fired: set<u16>)
    // segment goroutines
    | TickerResend(q: u16)
    | ResendEvent
    // flush timer and flush goroutine
    | TimerFires
    | TakeTick
    | Flush
    // close
    | CloseSignal
    | EnterFlushing
    | FlushLast
    | FlushLastDone
    | FlushLastTimeout
    | WaitDone
    | WaitTimeout
    // network
    | LoseData(p: Packet)
    | LoseAck(a: AckMsg)
    | DeliverAck(a: AckMsg, rttm: int)
    | DeliverData(p: Packet)
    // receiver
    | NextSegment
    | PushChunk
    | SegmentDone
    | PushStopped
    | DrainDone
    | Read(n: nat)
    | CloseReceiver

  /** The flush goroutine waits in its select. */
  predicate FlushIdle(s: System) {
    !s.flushTaken && s.lock != Sending(ByFlush)
  }

  predicate Pushing(s: System) {
    s.rcv.busy.Draining? && s.rcv.busy.rest.Some?
  }

  predicate Between(s: System) {
    s.rcv.busy.Draining? && s.rcv.busy.rest.None?
  }

  predicate Enabled(s: System, e: Event) {
    match e
    case Push(bs) => !s.pushPending && s.lock != Sending(ByPush) && 0 < |bs| <= BUFFER_SIZE - |s.snd.app|
    case PushEvent => s.pushPending && s.lock.Free?
    case SendStep => s.lock.Sending?
    case SendFails => s.lock.Sending? && ReadSegment(s.snd, ModeOf(s.lock.holder)).Got?
    case QuickResend(_) => s.lock.Quick?
    case TickerResend(q) => q in s.snd.sent && !s.snd.sent[q].acked && TickerBudgetLeft(s.snd.sent[q])
    case ResendEvent => 0 < s.resends
    case TimerFires => s.snd.timer.armed
    case TakeTick => s.phase.Open? && s.snd.timer.tick && FlushIdle(s)
    case Flush => s.phase.Open? && s.flushTaken && s.lock.Free?
    case CloseSignal => !s.closing
    case EnterFlushing => s.closing && s.phase.Open? && FlushIdle(s)
    case FlushLast => s.phase.Flushing? && s.lock.Free? && s.snd.app != []
    case FlushLastDone => s.phase.Flushing? && s.lock.Free? && s.snd.app == []
    case FlushLastTimeout => s.phase.Flushing? && s.lock != Sending(ByFlush)
    case WaitDone => s.phase.Waiting? && s.snd.sent == map[]
    case WaitTimeout => s.phase.Waiting?
    case LoseData(p) => p in s.wire
    case LoseAck(a) => a in s.acks
    case DeliverAck(a, _) => a in s.acks && s.lock.Free?
    case DeliverData(p) => p in s.wire && s.rcv.busy.Idle?
    case NextSegment => Between(s) && s.rcv.tailSeq in s.rcv.recved
    case PushChunk => Pushing(s) && s.rcv.busy.rest.value != [] && |s.rcv.app| < BUFFER_SIZE
    case SegmentDone => Pushing(s) && s.rcv.busy.rest.value == []
    case PushStopped => Pushing(s) && s.rcv.busy.rest.value != [] && s.rcv.closed
    case DrainDone => Between(s) && s.rcv.tailSeq !in s.rcv.recved
    case Read(n) => 0 < n && s.rcv.app != []
    case CloseReceiver => true
  }

  function AfterSendStep(s: System): System
    requires s.lock.Sending?
  {
    match ReadSegment(s.snd, ModeOf(s.lock.holder))
    case Nothing(s1) =>
      s.(snd := s1, sendErr := false, lock := if s.lock.holder.ByAck? then Quick(s.lock.holder.seqN) else Free)
    case Got(s1, bs) =>
      s.(snd := Enqueue(s1, bs),
         chunks := s.chunks + [bs],
         wire := s.wire + {Packet(s1.tSeq, bs, |s.chunks|)})
  }

  /** The flush that a close does first. */
  predicate ClosingFlush(s: System) {
    s.phase.Flushing? && s.lock == Sending(ByFlush)
  }

  /** The first transmission of a new segment fails: `send` returns at once, and so do `RecvAck`, without a quick
      resend, and the closing flush, whatever the buffer still holds. The segment stays registered. */
  function AfterSendFails(s: System): System
    requires s.lock.Sending?
  {
    AfterSendStep(s).(
      wire := s.wire,
      lock := Free,
      sendErr := true,
      phase := if ClosingFlush(s) then Waiting else s.phase,
      cutShort := s.cutShort || ClosingFlush(s))
  }

  /** The segments `RecvAck` resends: the candidates that are live and whose quick-resend timer has fired. */
  function QuickPackets(s: System, seqN: u16, fired: set<u16>): set<Packet> {
    set q | q in fired && q in TryResendSeqs(s.snd.hSeq, s.snd.tSeq, seqN) && q in s.snd.sent
            && !s.snd.sent[q].acked :: PacketOf(s, q)
  }

  function AfterAck(s: System, a: AckMsg, rttm: int): System {
    if a.seqN !in s.snd.sent then s
    else s.(snd := Trim(MarkAcked(s.snd, a.seqN, rttm)), lock := Sending(ByAck(a.seqN)), ackIdx := a.idx)
  }

  function AfterData(s: System, p: Packet): System {
    if s.rcv.closed then s
    else if !Legal(s.rcv.tailSeq, p.seqN) then s.(acks := s.acks + {AckMsg(p.seqN, p.idx)})
    else s.(rcv := Store(s.rcv, p.seqN, p.bs), recvIdx := p.idx)
  }

  /** `Recv` returns: the deferred ack goes out. */
  function AfterRecv(s: System): System
    requires s.rcv.busy.Draining?
  {
    s.(rcv := EndRecv(s.rcv), acks := s.acks + {AckMsg(s.rcv.busy.seqN, s.recvIdx)})
  }

  function Apply(s: System, e: Event): System
    requires Enabled(s, e)
  {
    match e
    case Push(bs) => s.(snd := s.snd.(app := s.snd.app + bs), pushPending := true, pushed := s.pushed + bs)
    case PushEvent => s.(lock := Sending(ByPush), pushPending := false)
    case SendStep => AfterSendStep(s)
    case SendFails => AfterSendFails(s)
    case QuickResend(fired) => s.(lock := Free, wire := s.wire + QuickPackets(s, s.lock.seqN, fired))
    case TickerResend(q) =>
      s.(snd := s.snd.(sent := s.snd.sent[q := TickerResent(s.snd.sent[q])]),
         wire := s.wire + {PacketOf(s, q)},
         resends := s.resends + 1)
    case ResendEvent => s.(snd := OnResend(s.snd), resends := s.resends - 1)
    case TimerFires => s.(snd := s.snd.(timer := Timer(false, true)))
    case TakeTick => s.(snd := s.snd.(timer := s.snd.timer.(tick := false)), flushTaken := true)
    case Flush => s.(lock := Sending(ByFlush), flushTaken := false)
    case CloseSignal => s.(closing := true)
    case EnterFlushing => s.(phase := Flushing)
    case FlushLast => s.(lock := Sending(ByFlush))
    case FlushLastDone => s.(phase := Waiting)
    case FlushLastTimeout => s.(phase := Waiting, cutShort := true)
    case WaitDone => s.(phase := Fin)
    case WaitTimeout => s.(phase := Fin, cutShort := true)
    case LoseData(p) => s.(wire := s.wire - {p})
    case LoseAck(a) => s.(acks := s.acks - {a})
    case DeliverAck(a, rttm) => AfterAck(s, a, rttm)
    case DeliverData(p) => AfterData(s, p)
    case NextSegment => s.(rcv := StartPush(s.rcv))
    case PushChunk =>
      var k := ChunkSize(s.rcv.app, s.rcv.busy.rest.value);
      s.(rcv := PushPart(s.rcv), part := s.part + s.rcv.busy.rest.value[..k])
    case SegmentDone => s.(rcv := Slide(s.rcv), drained := s.drained + 1, part := [])
    case PushStopped => AfterRecv(s)
    case DrainDone => AfterRecv(s)
    case Read(n) => s.(rcv := AfterRead(s.rcv, n), read := s.read + Take(s.rcv, n))
    case CloseReceiver => s.(rcv := s.rcv.(closed := true))
  }

  // ---------- run assumptions ----------

  /** A delivered packet or ack is not older than its number can tell apart: a packet at most 65408 behind the
      receiver's tail, an ack not behind a newer segment that already has its number. */
  predicate Lifetime(s: System, e: Event) {
    && (e.DeliverData? ==> s.drained <= e.p.idx + LIFETIME)
    && (e.DeliverAck? ==> |s.chunks| <= e.a.idx + 65536)
  }

  /** A flush does not send when a full window is in flight (`readMSS` needs no such assumption). */
  predicate InFlight(s: System, e: Event) {
    (e.SendStep? || e.SendFails?) && s.lock == Sending(ByFlush) && s.snd.app != [] ==> |s.snd.sent| < WINDOW
  }

  /** No `Write` runs once the close signal is given. */
  predicate QuietClose(s: System, e: Event) {
    e.Push? ==> !s.closing
  }

  predicate Assumed(s: System, e: Event) {
    Lifetime(s, e) && InFlight(s, e)
  }

  // ---------- runs ----------

  predicate ValidRun(s: System, es: seq<Event>)
    decreases |es|
  {
    es == [] || (Enabled(s, es[0]) && Assumed(s, es[0]) && ValidRun(Apply(s, es[0]), es[1..]))
  }

  function Exec(s: System, es: seq<Event>): System
    requires ValidRun(s, es)
    decreases |es|
  {
    if es == [] then s else Exec(Apply(s, es[0]), es[1..])
  }

  lemma {:induction false} RunTrans(s: System, es1: seq<Event>, es2: seq<Event>)
    requires ValidRun(s, es1) && ValidRun(Exec(s, es1), es2)
    ensures ValidRun(s, es1 + es2) && Exec(s, es1 + es2) == Exec(Exec(s, es1), es2)
    decreases |es1|
  {
    if es1 == [] {
      assert es1 + es2 == es2;
    } else {
      assert (es1 + es2)[0] == es1[0] && (es1 + es2)[1..] == es1[1..] + es2;
      RunTrans(Apply(s, es1[0]), es1[1..], es2);
    }
  }

  lemma OneStepRun(s: System, e: Event)
    requires Enabled(s, e) && Assumed(s, e)
    ensures ValidRun(s, [e]) && Exec(s, [e]) == Apply(s, e)
  {
    assert [e][1..] == [];
    assert ValidRun(Apply(s, e), []);
    assert Exec(Apply(s, e), []) == Apply(s, e);
  }

  /** The events lead from `s` to `s'` under the lifetime assumption alone, with no write after the close signal. */
  predicate QuietPath(s: System, es: seq<Event>, s': System)
    decreases |es|
  {
    if es == [] then s == s'
    else Enabled(s, es[0]) && Lifetime(s, es[0]) && QuietClose(s, es[0]) && QuietPath(Apply(s, es[0]), es[1..], s')
  }

  predicate QuietRun(s: System, es: seq<Event>)
    requires ValidRun(s, es)
    decreases |es|
  {
    es == [] || (QuietClose(s, es[0]) && QuietRun(Apply(s, es[0]), es[1..]))
  }
}
