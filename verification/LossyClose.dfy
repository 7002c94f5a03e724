/**
 A close that loses data: 128 segments are in flight, the first of which is late on the network, and one byte is left
 in the buffer. The closing flush sends it beyond the receiver's window, the receiver acknowledges and drops it, and
 both close waits end well. The run meets every assumption but the in-flight one.
 */
module LossyClose {
  import opened Basics
  import opened SenderModel
  import opened ReceiverModel
  import opened Protocol
  import opened ProtocolInvariant
  import opened ProtocolTheorems
  import opened RunAssumptions
  import opened Closing
  import opened Atomic
  import ReceiveWindow

  // ---------- paths ----------

  /** Some quiet run under the lifetime assumption alone. */
  ghost predicate Drifts(s: System, s': System) {
    exists es :: QuietPath(s, es, s')
  }

  /** Some quiet run that meets all assumptions. */
  ghost predicate Goes(s: System, s': System) {
    exists es :: ValidRun(s, es) && Exec(s, es) == s' && QuietPath(s, es, s')
  }

  lemma {:induction false} PathTrans(s: System, es1: seq<Event>, s1: System, es2: seq<Event>, s2: System)
    requires QuietPath(s, es1, s1) && QuietPath(s1, es2, s2)
    ensures QuietPath(s, es1 + es2, s2)
    decreases |es1|
  {
    if es1 == [] {
      assert es1 + es2 == es2;
    } else {
      PathTrans(Apply(s, es1[0]), es1[1..], s1, es2, s2);
      assert (es1 + es2)[1..] == es1[1..] + es2;
    }
  }

  lemma OneStepPath(s: System, e: Event)
    requires Enabled(s, e) && Lifetime(s, e) && QuietClose(s, e)
    ensures QuietPath(s, [e], Apply(s, e))
  {
    assert [e][1..] == [];
    assert QuietPath(Apply(s, e), [], Apply(s, e));
  }

  lemma DriftsTrans(s: System, s1: System, s2: System)
    requires Drifts(s, s1) && Drifts(s1, s2)
    ensures Drifts(s, s2)
  {
    var es1 :| QuietPath(s, es1, s1);
    var es2 :| QuietPath(s1, es2, s2);
    PathTrans(s, es1, s1, es2, s2);
  }

  lemma DriftsOn(s: System, s1: System, e: Event)
    requires Drifts(s, s1) && Enabled(s1, e) && Lifetime(s1, e) && QuietClose(s1, e)
    ensures Drifts(s, Apply(s1, e))
  {
    OneStepPath(s1, e);
    DriftsTrans(s, s1, Apply(s1, e));
  }

  lemma GoesSelf(s: System)
    ensures Goes(s, s)
  {
    assert ValidRun(s, []) && Exec(s, []) == s && QuietPath(s, [], s);
  }

  lemma GoesTrans(s: System, s1: System, s2: System)
    requires Goes(s, s1) && Goes(s1, s2)
    ensures Goes(s, s2)
  {
    var es1 :| ValidRun(s, es1) && Exec(s, es1) == s1 && QuietPath(s, es1, s1);
    var es2 :| ValidRun(s1, es2) && Exec(s1, es2) == s2 && QuietPath(s1, es2, s2);
    PathTrans(s, es1, s1, es2, s2);
    RunTrans(s, es1, es2);
  }

  lemma GoesOn(s: System, s1: System, e: Event)
    requires Goes(s, s1) && Enabled(s1, e) && Assumed(s1, e) && QuietClose(s1, e)
    ensures Goes(s, Apply(s1, e))
  {
    OneStepPath(s1, e);
    OneStepRun(s1, e);
    assert Goes(s1, Apply(s1, e));
    GoesTrans(s, s1, Apply(s1, e));
  }

  lemma {:induction false} PushedGrows(s: System, es: seq<Event>)
    requires ValidRun(s, es)
    ensures |s.pushed| <= |Exec(s, es).pushed|
    decreases |es|
  {
    if es != [] {
      PushedStep(s, es[0]);
      PushedGrows(Apply(s, es[0]), es[1..]);
    }
  }

  lemma PushedStep(s: System, e: Event)
    requires Enabled(s, e)
    ensures |s.pushed| <= |Apply(s, e).pushed|
    ensures |s.pushed| == |Apply(s, e).pushed| ==> QuietClose(s, e)
  {
    if !e.Push? && !e.Read? {
      OnlyPushAndReadMove(s, e);
    }
  }

  /** A run that pushes nothing is quiet. */
  lemma {:induction false} NoPushIsQuiet(s: System, es: seq<Event>)
    requires ValidRun(s, es) && |Exec(s, es).pushed| == |s.pushed|
    ensures QuietPath(s, es, Exec(s, es))
    decreases |es|
  {
    if es != [] {
      var s1 := Apply(s, es[0]);
      PushedStep(s, es[0]);
      PushedGrows(s1, es[1..]);
      NoPushIsQuiet(s1, es[1..]);
    }
  }

  // ---------- what the run is made of ----------

  predicate Calm(s: System) {
    s.lock.Free? && !s.pushPending && !s.flushTaken && s.phase.Open? && !s.closing && s.snd.app == []
  }

  /** A byte was written to a window with room, and waits for the flush timer. */
  function ByteWaits(s: System): System {
    s.(snd := s.snd.(app := [0], timer := s.snd.timer.(armed := true)), pushed := s.pushed + [0], sendErr := false)
  }

  lemma WriteByte(s: System)
    requires Calm(s) && |s.snd.sent| < s.snd.swnd
    ensures Goes(s, ByteWaits(s))
  {
    GoesSelf(s);
    GoesOn(s, s, Push([0]));
    var s1 := Apply(s, Push([0]));
    assert s1.snd.app == [0];
    GoesOn(s, s1, PushEvent);
    var s2 := Apply(s1, PushEvent);
    GoesOn(s, s2, SendStep);
    assert Apply(s2, SendStep) == ByteWaits(s);
  }

  /** A byte is in flight. */
  function ByteSent(s: System): System {
    s.(snd := s.snd.(app := [],
                     sent := s.snd.sent[s.snd.tSeq := Segment([0], false, s.snd.rto, 0)],
                     tSeq := Inc(s.snd.tSeq)),
       chunks := s.chunks + [[0]],
       wire := s.wire + {Packet(s.snd.tSeq, [0], |s.chunks|)})
  }

  lemma SendsByte(s: System)
    requires s.lock == Sending(ByFlush) && s.snd.app == [0]
    ensures Apply(s, SendStep) == ByteSent(s)
    ensures Apply(ByteSent(s), SendStep) == ByteSent(s).(lock := Free, sendErr := false)
  {
    assert [0][..1] == [0] && [0][1..] == [];
    assert ReadSegment(s.snd, Any) == Got(s.snd.(app := []), [0]);
  }

  lemma FlushByte(s: System)
    requires s.lock.Free? && !s.flushTaken && s.phase.Open? && s.snd.app == [0] && s.snd.timer.armed
    requires |s.snd.sent| < WINDOW
    ensures Goes(s, ByteSent(s.(snd := s.snd.(timer := Timer(false, false)))).(sendErr := false))
  {
    GoesSelf(s);
    GoesOn(s, s, TimerFires);
    var s1 := Apply(s, TimerFires);
    GoesOn(s, s1, TakeTick);
    var s2 := Apply(s1, TakeTick);
    GoesOn(s, s2, Flush);
    var s3 := Apply(s2, Flush);
    SendsByte(s3);
    GoesOn(s, s3, SendStep);
    GoesOn(s, ByteSent(s3), SendStep);
  }

  /** A packet ahead of a missing tail is held, and acknowledged. */
  function HeldAhead(s: System, p: Packet): System {
    s.(rcv := s.rcv.(recved := s.rcv.recved[p.seqN := p.bs]),
       recvIdx := p.idx,
       acks := s.acks + {AckMsg(p.seqN, p.idx)})
  }

  lemma DeliverAhead(s: System, p: Packet)
    requires p in s.wire && s.rcv.busy.Idle? && !s.rcv.closed && s.drained <= p.idx
    requires s.rcv.tailSeq !in s.rcv.recved && s.rcv.tailSeq != p.seqN && Legal(s.rcv.tailSeq, p.seqN)
    ensures Goes(s, HeldAhead(s, p))
  {
    GoesSelf(s);
    GoesOn(s, s, DeliverData(p));
    var s1 := Apply(s, DeliverData(p));
    GoesOn(s, s1, DrainDone);
    assert Apply(s1, DrainDone) == HeldAhead(s, p);
  }

  /** An ack with nothing left to send. */
  function Acked(s: System, a: AckMsg): System
    requires a.seqN in s.snd.sent
  {
    s.(snd := Trim(MarkAcked(s.snd, a.seqN, 0)), ackIdx := a.idx, sendErr := false)
  }

  lemma DeliverTheAck(s: System, a: AckMsg)
    requires a in s.acks && s.lock.Free? && s.snd.app == [] && a.seqN in s.snd.sent && |s.chunks| <= a.idx + 65536
    ensures Goes(s, Acked(s, a))
  {
    GoesSelf(s);
    var e := DeliverAck(a, 0);
    GoesOn(s, s, e);
    var s1 := Apply(s, e);
    GoesOn(s, s1, SendStep);
    var s2 := Apply(s1, SendStep);
    GoesOn(s, s2, QuickResend({}));
    assert QuickPackets(s2, a.seqN, {}) == {};
    assert s2.wire + {} == s2.wire;
  }

  // ---------- filling the window ----------

  /** The first `k` segments carry one byte each; all but the first have arrived and are acked. */
  predicate InFlightBut0(snd: Sender, k: nat) {
    && 1 <= k < 65535 && snd.hSeq == 0 && snd.tSeq == k
    && (forall q: u16 :: q in snd.sent <==> q < k)
    && (forall q :: q in snd.sent ==> (snd.sent[q].acked <==> q != 0))
  }

  predicate HeldBut0(r: Receiver, k: nat) {
    && r.app == [] && r.tailSeq == 0 && r.busy.Idle? && !r.closed
    && (forall q: u16 :: q in r.recved <==> 1 <= q < k)
    && (forall q :: q in r.recved ==> r.recved[q] == [0])
  }

  predicate Common(s: System, k: nat) {
    && s.lock.Free? && s.snd.app == [] && InFlightBut0(s.snd, k)
    && WindowOk(s.snd.cwnd, s.snd.rwnd, s.snd.swnd)
    && s.drained == 0 && s.part == [] && s.read == [] && !s.cutShort
    && Packet(0, [0], 0) in s.wire
    && |s.chunks| == |s.pushed| == k
  }

  predicate Filling(s: System, k: nat) {
    && k <= WINDOW && Calm(s) && Common(s, k) && HeldBut0(s.rcv, k)
    && |s.snd.sent| == k && Min(WINDOW, 16 * k) <= s.snd.cwnd
  }

  lemma SendMore(s: System) returns (s': System)
    requires Calm(s) && |s.snd.sent| < s.snd.swnd <= WINDOW
    ensures Goes(s, s')
    ensures s' == ByteSent(s.(snd := s.snd.(timer := Timer(false, false)))).(sendErr := false, pushed := s.pushed + [0])
  {
    var s1 := ByteWaits(s);
    WriteByte(s);
    FlushByte(s1);
    s' := ByteSent(s1.(snd := s1.snd.(timer := Timer(false, false)))).(sendErr := false);
    GoesTrans(s, s1, s');
  }

  lemma FillFirst() returns (s: System)
    ensures Goes(InitialSystem(), s) && Filling(s, 1)
  {
    s := SendMore(InitialSystem());
  }

  /** The sender with one more segment, already acked. */
  function OneMoreAcked(snd: Sender, k: u16): Sender {
    OnEnd(snd.(sent := snd.sent[k := Segment([0], true, snd.rto, 0)], tSeq := Inc(k)), 0)
  }

  lemma FilledSender(snd: Sender, k: u16)
    requires InFlightBut0(snd, k) && |snd.sent| == k < WINDOW
    requires WindowOk(snd.cwnd, snd.rwnd, snd.swnd) && Min(WINDOW, 16 * k) <= snd.cwnd
    ensures var r := OneMoreAcked(snd, k);
      && InFlightBut0(r, k + 1) && |r.sent| == k + 1
      && WindowOk(r.cwnd, r.rwnd, r.swnd) && Min(WINDOW, 16 * (k + 1)) <= r.cwnd
  {
    var r := OneMoreAcked(snd, k);
    assert r.sent.Keys == snd.sent.Keys + {k};
    assert |r.sent.Keys| == |r.sent|;
  }

  /** Acking a segment that is not the head trims nothing. */
  lemma MarkOne(snd: Sender, k: u16)
    requires 0 < k && snd.hSeq == 0 && 0 in snd.sent && !snd.sent[0].acked
    requires k in snd.sent && !snd.sent[k].acked
    ensures Trim(MarkAcked(snd, k, 0)) == OnEnd(snd.(sent := snd.sent[k := snd.sent[k].(acked := true)]), 0)
  {
  }

  /** One more segment was sent, has arrived and is acked. */
  function Filled(s: System, k: u16): System {
    s.(snd := OneMoreAcked(s.snd.(timer := Timer(false, false)), k),
       chunks := s.chunks + [[0]],
       wire := s.wire + {Packet(k, [0], |s.chunks|)},
       acks := s.acks + {AckMsg(k, k)},
       pushed := s.pushed + [0],
       rcv := s.rcv.(recved := s.rcv.recved[k := [0]]),
       recvIdx := k, ackIdx := k, sendErr := false)
  }

  lemma FilledAck(s: System, snd: Sender, k: u16)
    requires 0 < k && InFlightBut0(snd, k)
    requires s.snd == snd.(sent := snd.sent[k := Segment([0], false, snd.rto, 0)], tSeq := Inc(k))
    ensures Acked(s, AckMsg(k, k)) == s.(snd := OneMoreAcked(snd, k), ackIdx := k, sendErr := false)
  {
    MarkOne(s.snd, k);
    assert s.snd.sent[k := s.snd.sent[k].(acked := true)] == snd.sent[k := Segment([0], true, snd.rto, 0)];
  }

  lemma FillStep(s: System, k: u16)
    requires Filling(s, k) && k < WINDOW
    ensures Goes(s, Filled(s, k))
  {
    var s1 := SendMore(s);
    var p := Packet(k, [0], k);
    DeliverAhead(s1, p);
    var s2 := HeldAhead(s1, p);
    GoesTrans(s, s1, s2);
    FilledAck(s2, s.snd.(timer := Timer(false, false)), k);
    DeliverTheAck(s2, AckMsg(k, k));
    GoesTrans(s, s2, Acked(s2, AckMsg(k, k)));
  }

  lemma FillOne(s: System, k: u16)
    requires Filling(s, k) && k < WINDOW
    ensures Goes(s, Filled(s, k)) && Filling(Filled(s, k), k + 1)
  {
    FillStep(s, k);
    FilledSender(s.snd.(timer := Timer(false, false)), k);
  }

  lemma {:induction false} Fill(k: nat) returns (s: System)
    requires 1 <= k <= WINDOW
    ensures Goes(InitialSystem(), s) && Filling(s, k)
  {
    if k == 1 {
      s := FillFirst();
    } else {
      var s1 := Fill(k - 1);
      FillOne(s1, k - 1);
      s := Filled(s1, k - 1);
      GoesTrans(InitialSystem(), s1, s);
    }
  }

  // ---------- the close begins ----------

  /** One more byte was written, the window is full, and the closing flush is about to send it. */
  function AboutToFlush(s: System): System {
    s.(snd := s.snd.(app := [0]), pushed := s.pushed + [0], sendErr := false,
       closing := true, phase := Flushing, lock := Sending(ByFlush))
  }

  lemma WriteFull(s: System)
    requires Calm(s) && s.snd.swnd <= |s.snd.sent|
    ensures Goes(s, s.(snd := s.snd.(app := [0]), pushed := s.pushed + [0], sendErr := false))
  {
    GoesSelf(s);
    GoesOn(s, s, Push([0]));
    var s1 := Apply(s, Push([0]));
    assert s1.snd == s.snd.(app := [0]);
    GoesOn(s, s1, PushEvent);
    GoesOn(s, Apply(s1, PushEvent), SendStep);
  }

  lemma CloseFull(s: System)
    requires Calm(s) && s.snd.swnd <= |s.snd.sent|
    ensures Goes(s, AboutToFlush(s))
  {
    WriteFull(s);
    var s3 := s.(snd := s.snd.(app := [0]), pushed := s.pushed + [0], sendErr := false);
    GoesOn(s, s3, CloseSignal);
    var s4 := s3.(closing := true);
    GoesOn(s, s4, EnterFlushing);
    GoesOn(s, s4.(phase := Flushing), FlushLast);
  }

  /** A flush with a full window and the head missing is reachable, so by `InFlightBoundIsExact` acks can be unsound. */
  lemma FullWindowIsReachable() returns (s: System)
    ensures Reachable(s) && ClosingFlush(s) && s.snd.app != [] && s.rcv.busy.Idle? && !s.rcv.closed
    ensures |s.snd.sent| + SegmentsFor(|s.snd.app|) == WINDOW + 1 && s.drained == Head(s)
    ensures var s1 := Apply(s, SendStep); !AcksSound(Apply(s1, DeliverData(NextFlushed(s))))
  {
    var s0 := Fill(WINDOW);
    CloseFull(s0);
    s := AboutToFlush(s0);
    GoesTrans(InitialSystem(), s0, s);
    assert Reachable(s);
    ReachableInv(s);
    InFlightBoundIsExact(s);
  }

  // ---------- the byte is lost ----------

  /** All 129 segments are sent and all but the first are acked; the receiver does not have the last. */
  predicate Overrun(s: System) {
    s.phase.Waiting? && Common(s, WINDOW + 1) && HeldBut0(s.rcv, WINDOW)
  }

  lemma GoesIsDrift(s: System, s': System)
    requires Goes(s, s')
    ensures Drifts(s, s')
  {
  }

  /** The closing flush sends the byte and is done. */
  lemma FlushTheByte(s: System)
    requires ClosingFlush(s) && s.snd.app == [0]
    ensures Drifts(s, ByteSent(s).(lock := Free, sendErr := false, phase := Waiting))
  {
    assert QuietPath(s, [], s);
    SendsByte(s);
    DriftsOn(s, s, SendStep);
    DriftsOn(s, ByteSent(s), SendStep);
    DriftsOn(s, ByteSent(s).(lock := Free, sendErr := false), FlushLastDone);
  }

  /** A packet beyond the window is acked. */
  lemma DropBeyond(s: System, p: Packet)
    requires p in s.wire && s.rcv.busy.Idle? && !s.rcv.closed && s.drained <= p.idx
    requires !Legal(s.rcv.tailSeq, p.seqN)
    ensures Drifts(s, s.(acks := s.acks + {AckMsg(p.seqN, p.idx)}))
  {
    assert QuietPath(s, [], s);
    DriftsOn(s, s, DeliverData(p));
  }

  lemma OverrunSender(snd: Sender)
    requires InFlightBut0(snd, WINDOW) && WindowOk(snd.cwnd, snd.rwnd, snd.swnd)
    ensures var r := OneMoreAcked(snd, WINDOW); InFlightBut0(r, WINDOW + 1) && WindowOk(r.cwnd, r.rwnd, r.swnd)
  {
  }

  lemma ToOverrun(s0: System) returns (s: System)
    requires Filling(s0, WINDOW)
    ensures Drifts(AboutToFlush(s0), s) && Overrun(s)
  {
    var s1 := AboutToFlush(s0);
    FlushTheByte(s1);
    var s2 := ByteSent(s1).(lock := Free, sendErr := false, phase := Waiting);
    var p := Packet(WINDOW, [0], WINDOW);
    DropBeyond(s2, p);
    var a := AckMsg(WINDOW, WINDOW);
    var s3 := s2.(acks := s2.acks + {a});
    DriftsTrans(s1, s2, s3);
    FilledAck(s3, s0.snd, WINDOW);
    DeliverTheAck(s3, a);
    s := Acked(s3, a);
    GoesIsDrift(s3, s);
    DriftsTrans(s1, s3, s);
    OverrunSender(s0.snd);
  }

  lemma {:induction false} RunLength(m: map<u16, bytes>, n: nat)
    requires ReceiveWindow.HasRun(m, 0, n) && forall q :: q in m ==> m[q] == [0]
    ensures |Concat(ReceiveWindow.Run(m, 0, n))| == n
  {
    if n > 0 {
      RunLength(m, n - 1);
      ConcatSnoc(ReceiveWindow.Run(m, 0, n - 1), m[Ahead(0, n - 1)]);
    }
  }

  /** When the first segment arrives at last, everything held goes into the queue. */
  lemma FirstArrives(s: System) returns (s': System)
    requires Overrun(s)
    ensures Drifts(s, s') && s'.snd == s.snd && s'.lock.Free? && s'.phase.Waiting? && !s'.cutShort && !s'.rcv.closed
    ensures s'.chunks == s.chunks && s'.pushed == s.pushed && s'.read == [] && |s'.rcv.app| == WINDOW
    ensures AckMsg(0, 0) in s'.acks
  {
    var p := Packet(0, [0], 0);
    var m := s.rcv.recved[0 := [0]];
    RunLength(m, WINDOW);
    var es := RecvIsRun(s, p, WINDOW);
    s' := Exec(s, es);
    NoPushIsQuiet(s, es);
  }

  /** All acked: all trimmed. */
  lemma {:induction false} TrimAll(snd: Sender, n: nat)
    requires n < 65536 && forall q: u16 :: q in snd.sent <==> Dist(snd.hSeq, q) < n
    requires forall q :: q in snd.sent ==> snd.sent[q].acked
    ensures Trim(snd).sent == map[]
    decreases n
  {
    if n == 0 {
      assert snd.sent.Keys == {};
    } else {
      var snd1 := snd.(sent := snd.sent - {snd.hSeq}, hSeq := Inc(snd.hSeq));
      forall q: u16
        ensures q in snd1.sent <==> Dist(snd1.hSeq, q) < n - 1
      {
        if q != snd.hSeq {
          DistAfterInc(snd.hSeq, q);
        }
      }
      TrimAll(snd1, n - 1);
      assert Trim(snd) == Trim(snd1);
    }
  }

  lemma LastAck(snd: Sender, k: nat)
    requires InFlightBut0(snd, k)
    ensures Trim(MarkAcked(snd, 0, 0)).sent == map[]
  {
    TrimAll(MarkAcked(snd, 0, 0), k);
  }

  lemma Finish(s: System) returns (s': System)
    requires Overrun(s)
    ensures Drifts(s, s') && ClosedWell(s') && |s'.read + s'.rcv.app| < |s'.pushed|
  {
    var s1 := FirstArrives(s);
    var a := AckMsg(0, 0);
    DeliverTheAck(s1, a);
    LastAck(s1.snd, WINDOW + 1);
    var s2 := Acked(s1, a);
    GoesIsDrift(s1, s2);
    DriftsTrans(s, s1, s2);
    DriftsOn(s, s2, WaitDone);
    s' := Apply(s2, WaitDone);
  }

  /** Without the in-flight assumption a close can end well on both sides and have lost data: here one byte more than
      `FittingCloseIsGraceful` allows is left when the close begins. */
  lemma CloseCanLoseData() returns (s: System, s': System)
    ensures Goes(InitialSystem(), s) && s.closing && |s.snd.sent| + SegmentsFor(|s.snd.app|) == WINDOW + 1
    ensures Drifts(s, s') && Drifts(InitialSystem(), s')
    ensures ClosedWell(s') && s'.read + s'.rcv.app != s'.pushed
  {
    var s0 := Fill(WINDOW);
    CloseFull(s0);
    s := AboutToFlush(s0);
    GoesTrans(InitialSystem(), s0, s);
    var s1 := ToOverrun(s0);
    s' := Finish(s1);
    DriftsTrans(s, s1, s');
    GoesIsDrift(InitialSystem(), s);
    DriftsTrans(InitialSystem(), s, s');
  }
}
