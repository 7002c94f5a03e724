/**
 The window's operations, run without interruption, are runs of the protocol: what `SendWindow` computes in one
 call is what the protocol's small steps do one after the other.
 */
module Atomic {
  import opened Basics
  import opened SenderModel
  import opened ReceiverModel
  import opened Protocol
  import ReceiveWindow
  import QuickResendSelection

  /** What a network can see of the packets on it. */
  function Bare(wire: set<Packet>): set<(u16, bytes)> {
    set p | p in wire :: (p.seqN, p.bs)
  }

  function Elements(out: seq<(u16, bytes)>): set<(u16, bytes)> {
    set x | x in out
  }

  /** Only the sender and the wire moved. */
  predicate SenderOnly(s: System, s': System) {
    s' == s.(snd := s'.snd, lock := s'.lock, wire := s'.wire, chunks := s'.chunks, sendErr := s'.sendErr,
             ackIdx := s'.ackIdx)
  }

  lemma GotRun(s: System, s1: Sender, bs: bytes)
    requires s.lock.Sending? && ReadSegment(s.snd, ModeOf(s.lock.holder)) == Got(s1, bs)
    ensures var s' := AfterSendStep(s);
      && s'.snd == Enqueue(s1, bs) && s'.lock == s.lock && SenderOnly(s, s')
      && Bare(s'.wire) == Bare(s.wire) + {(s.snd.tSeq, bs)}
  {
    var p := Packet(s.snd.tSeq, bs, |s.chunks|);
    assert Bare(s.wire + {p}) == Bare(s.wire) + {(s.snd.tSeq, bs)} by {
      assert p in s.wire + {p};
    }
  }

  /** What holds the lock once `send` is over. */
  function AfterHolder(h: Holder, failed: bool): Lock {
    if h.ByAck? && !failed then Quick(h.seqN) else Free
  }

  /** The state after a `send` that did `r`. */
  predicate SentAs(s: System, s': System, r: Sent)
    requires s.lock.Sending?
  {
    && s'.snd == r.s && s'.sendErr == r.failed
    && s'.lock == AfterHolder(s.lock.holder, r.failed)
    && SenderOnly(s, s')
    && Bare(s'.wire) == Bare(s.wire) + Elements(r.out)
  }

  lemma LastStep(s: System, good: nat, e: Event)
    requires s.lock.Sending? && !s.lock.holder.ByFlush?
    requires if ReadSegment(s.snd, Full).Nothing? then e.SendStep? else good == 0 && e.SendFails?
    ensures Enabled(s, e) && Assumed(s, e) && SentAs(s, Apply(s, e), SendAll(s.snd, Full, good))
  {
    assert Elements([]) == {};
  }

  lemma FirstStep(s: System, good: nat, s': System)
    requires s.lock.Sending? && !s.lock.holder.ByFlush? && ReadSegment(s.snd, Full).Got? && 0 < good
    ensures var s1 := AfterSendStep(s);
      && s1.lock == s.lock && |s1.snd.app| < |s.snd.app|
      && (SentAs(s1, s', SendAll(s1.snd, Full, good - 1)) ==> SentAs(s, s', SendAll(s.snd, Full, good)))
  {
    var Got(r, bs) := ReadSegment(s.snd, Full);
    GotRun(s, r, bs);
    assert Elements(SendAll(s.snd, Full, good).out)
        == {(s.snd.tSeq, bs)} + Elements(SendAll(Enqueue(r, bs), Full, good - 1).out);
  }

  /** `send(readMSS)` in one go. */
  lemma {:induction false} SendAllIsRun(s: System, good: nat) returns (es: seq<Event>)
    requires s.lock.Sending? && !s.lock.holder.ByFlush?
    ensures ValidRun(s, es) && SentAs(s, Exec(s, es), SendAll(s.snd, Full, good))
    decreases |s.snd.app|
  {
    if ReadSegment(s.snd, Full).Got? && 0 < good {
      OneStepRun(s, SendStep);
      var s1 := Apply(s, SendStep);
      FirstStep(s, good, s1);
      var rest := SendAllIsRun(s1, good - 1);
      FirstStep(s, good, Exec(s1, rest));
      RunTrans(s, [SendStep], rest);
      es := [SendStep] + rest;
    } else {
      var e := if ReadSegment(s.snd, Full).Nothing? then SendStep else SendFails;
      LastStep(s, good, e);
      OneStepRun(s, e);
      es := [e];
    }
  }

  lemma QuickIsStep(s: System, fired: set<u16>)
    requires s.lock.Quick?
    ensures var s' := Apply(s, QuickResend(fired));
      Bare(s'.wire) == Bare(s.wire)
        + Elements(QuickOut(s.snd, TryResendSeqs(s.snd.hSeq, s.snd.tSeq, s.lock.seqN), fired))
  {
    var seqs := TryResendSeqs(s.snd.hSeq, s.snd.tSeq, s.lock.seqN);
    QuickResendSelection.QuickOutElements(s.snd, seqs, fired);
    var quick := QuickPackets(s, s.lock.seqN, fired);
    forall x | x in QuickOut(s.snd, seqs, fired)
      ensures x in Bare(quick)
    {
      assert PacketOf(s, x.0) in quick;
    }
    assert Bare(s.wire + quick) == Bare(s.wire) + Bare(quick);
  }

  /** The part of `RecvAck` after the trim. */
  lemma SendAndQuickRun(s: System, seqN: u16, fired: set<u16>, good: nat) returns (es: seq<Event>)
    requires s.lock == Sending(ByAck(seqN))
    ensures ValidRun(s, es)
    ensures var s', r := Exec(s, es), SendAll(s.snd, Full, good);
      var quick := if r.failed then [] else QuickOut(r.s, TryResendSeqs(r.s.hSeq, r.s.tSeq, seqN), fired);
      && s'.snd == r.s && s'.lock.Free? && s'.sendErr == r.failed && SenderOnly(s, s')
      && Bare(s'.wire) == Bare(s.wire) + Elements(r.out + quick)
  {
    var r := SendAll(s.snd, Full, good);
    var es1 := SendAllIsRun(s, good);
    if r.failed {
      es := es1;
      assert r.out + [] == r.out;
    } else {
      var s1 := Exec(s, es1);
      var q := QuickResend(fired);
      QuickIsStep(s1, fired);
      OneStepRun(s1, q);
      RunTrans(s, es1, [q]);
      es := es1 + [q];
      var quick := QuickOut(s1.snd, TryResendSeqs(s1.snd.hSeq, s1.snd.tSeq, seqN), fired);
      assert Elements(r.out + quick) == Elements(r.out) + Elements(quick);
    }
  }

  lemma AckStep(s: System, a: AckMsg, rttm: int)
    requires Enabled(s, DeliverAck(a, rttm)) && a.seqN in s.snd.sent
    ensures var s1 := Apply(s, DeliverAck(a, rttm));
      && s1.lock == Sending(ByAck(a.seqN)) && s1.snd == Trim(MarkAcked(s.snd, a.seqN, rttm))
      && SenderOnly(s, s1) && s1.wire == s.wire
  {
  }

  /** One uninterrupted `RecvAck`, whether its transmissions succeed or not, is a run of the protocol that ends with
      the window and the packets that the method computes. */
  lemma RecvAckIsRun(s: System, a: AckMsg, rttm: int, fired: set<u16>, good: nat) returns (es: seq<Event>)
    requires Enabled(s, DeliverAck(a, rttm)) && Assumed(s, DeliverAck(a, rttm))
    ensures ValidRun(s, es)
    ensures var s', r := Exec(s, es), RecvAck(s.snd, a.seqN, rttm, fired, good);
      && s'.snd == r.s
      && s'.lock.Free?
      && SenderOnly(s, s')
      && Bare(s'.wire) == Bare(s.wire) + Elements(r.out)
  {
    var e := DeliverAck(a, rttm);
    OneStepRun(s, e);
    if a.seqN !in s.snd.sent {
      es := [e];
      assert Elements([]) == {};
    } else {
      AckStep(s, a, rttm);
      var s1 := Apply(s, e);
      var es1 := SendAndQuickRun(s1, a.seqN, fired, good);
      RunTrans(s, [e], es1);
      es := [e] + es1;
    }
  }

  // ---------- Recv ----------

  /** Only the receiver moved; one ack may have been added. */
  predicate ReceiverOnly(s: System, s': System) {
    && s' == s.(rcv := s'.rcv, acks := s'.acks, drained := s'.drained, part := s'.part)
    && s'.rcv.closed == s.rcv.closed
  }

  /** The tail segment went through. */
  predicate Turned(s: System, s': System, payload: bytes) {
    && ReceiverOnly(s, s') && s'.acks == s.acks && s'.rcv.busy == s.rcv.busy
    && s'.rcv.recved == s.rcv.recved - {s.rcv.tailSeq} && s'.rcv.tailSeq == Inc(s.rcv.tailSeq)
    && s'.rcv.app == s.rcv.app + payload
    && s'.drained == s.drained + 1
  }

  /** The tail segment is in the queue, the slide is still to come. */
  predicate InQueue(s: System, s': System, payload: bytes) {
    && ReceiverOnly(s, s') && s'.acks == s.acks && s'.drained == s.drained
    && s'.rcv == s.rcv.(app := s.rcv.app + payload, busy := s'.rcv.busy)
    && s.rcv.busy.Draining? && s'.rcv.busy == Draining(s.rcv.busy.seqN, Some([]))
  }

  lemma QueueRun(s: System) returns (es: seq<Event>)
    requires Between(s) && s.rcv.tailSeq in s.rcv.recved
    requires |s.rcv.app| + |s.rcv.recved[s.rcv.tailSeq]| <= BUFFER_SIZE
    ensures ValidRun(s, es) && InQueue(s, Exec(s, es), s.rcv.recved[s.rcv.tailSeq])
  {
    var payload := s.rcv.recved[s.rcv.tailSeq];
    var s1 := Apply(s, NextSegment);
    OneStepRun(s, NextSegment);
    if payload == [] {
      es := [NextSegment];
      assert s.rcv.app + payload == s.rcv.app;
    } else {
      OneStepRun(s1, PushChunk);
      RunTrans(s, [NextSegment], [PushChunk]);
      es := [NextSegment] + [PushChunk];
      assert payload[..|payload|] == payload && payload[|payload|..] == [];
    }
  }

  lemma SlideStep(s: System, s1: System, payload: bytes)
    requires Between(s) && InQueue(s, s1, payload)
    ensures Enabled(s1, SegmentDone) && Turned(s, Apply(s1, SegmentDone), payload)
  {
  }

  /** A segment for which the queue has room goes through in one turn. */
  lemma TurnIsRun(s: System) returns (es: seq<Event>)
    requires Between(s) && s.rcv.tailSeq in s.rcv.recved
    requires |s.rcv.app| + |s.rcv.recved[s.rcv.tailSeq]| <= BUFFER_SIZE
    ensures ValidRun(s, es) && Turned(s, Exec(s, es), s.rcv.recved[s.rcv.tailSeq])
  {
    var es1 := QueueRun(s);
    var s1 := Exec(s, es1);
    SlideStep(s, s1, s.rcv.recved[s.rcv.tailSeq]);
    OneStepRun(s1, SegmentDone);
    RunTrans(s, es1, [SegmentDone]);
    es := es1 + [SegmentDone];
  }

  /** `total` segments from `t` are there to drain, no more, and the queue has room for them after `app0`. */
  predicate Job(m: map<u16, bytes>, t: u16, total: nat, app0: bytes) {
    && total <= WINDOW && ReceiveWindow.HasRun(m, t, total) && Ahead(t, total) !in m
    && (forall q :: q in m ==> Dist(t, q) < WINDOW)
    && |app0| + |Concat(ReceiveWindow.Run(m, t, total))| <= BUFFER_SIZE
  }

  /** The receiver, `n` segments into the job. */
  predicate JobAt(r: Receiver, m: map<u16, bytes>, t: u16, n: nat, app0: bytes) {
    && ReceiveWindow.HasRun(m, t, n)
    && r.recved == ReceiveWindow.Beyond(m, t, n) && r.tailSeq == Ahead(t, n)
    && r.app == app0 + Concat(ReceiveWindow.Run(m, t, n))
  }

  lemma {:induction false} RunGrows(m: map<u16, bytes>, t: u16, n: nat, total: nat)
    requires n <= total && ReceiveWindow.HasRun(m, t, total)
    ensures ReceiveWindow.HasRun(m, t, n)
    ensures Concat(ReceiveWindow.Run(m, t, n)) <= Concat(ReceiveWindow.Run(m, t, total))
    decreases total
  {
    if n < total {
      RunGrows(m, t, n, total - 1);
      ConcatSnoc(ReceiveWindow.Run(m, t, total - 1), m[Ahead(t, total - 1)]);
    }
  }

  lemma JobGoesOn(r: Receiver, r': Receiver, m: map<u16, bytes>, t: u16, n: nat, total: nat, app0: bytes)
    requires Job(m, t, total, app0) && n < total && JobAt(r, m, t, n, app0)
    ensures r.tailSeq in r.recved && |r.app| + |r.recved[r.tailSeq]| <= BUFFER_SIZE
    ensures r'.recved == r.recved - {r.tailSeq} && r'.tailSeq == Inc(r.tailSeq) && r'.app == r.app + r.recved[r.tailSeq]
            ==> JobAt(r', m, t, n + 1, app0)
  {
    RunGrows(m, t, n + 1, total);
    ReceiveWindow.BeyondNext(m, t, n);
    var out, next := Concat(ReceiveWindow.Run(m, t, n)), m[Ahead(t, n)];
    assert app0 + (out + next) == (app0 + out) + next;
  }

  /** The rest of a drain, `n` segments into the job. */
  lemma {:induction false} DrainIsRun(s: System, m: map<u16, bytes>, t: u16, n: nat, total: nat, app0: bytes)
    returns (es: seq<Event>)
    requires Between(s) && n <= total && Job(m, t, total, app0) && JobAt(s.rcv, m, t, n, app0)
    ensures ValidRun(s, es)
    ensures var s' := Exec(s, es);
      && ReceiverOnly(s, s') && s'.rcv.busy.Idle?
      && s'.acks == s.acks + {AckMsg(s.rcv.busy.seqN, s.recvIdx)}
      && JobAt(s'.rcv, m, t, total, app0)
      && s'.drained == s.drained + (total - n)
    decreases total - n
  {
    if n == total {
      OneStepRun(s, DrainDone);
      es := [DrainDone];
    } else {
      JobGoesOn(s.rcv, s.rcv, m, t, n, total, app0);
      var es1 := TurnIsRun(s);
      var s1 := Exec(s, es1);
      JobGoesOn(s.rcv, s1.rcv, m, t, n, total, app0);
      var es2 := DrainIsRun(s1, m, t, n + 1, total, app0);
      RunTrans(s, es1, es2);
      es := es1 + es2;
    }
  }

  /** One uninterrupted `Recv` of a legal segment, the queue having room for what it completes, is a run of the
      protocol that ends with the window, the queue and the ack that the method's contract gives. */
  lemma RecvIsRun(s: System, p: Packet, total: nat) returns (es: seq<Event>)
    requires Enabled(s, DeliverData(p)) && Assumed(s, DeliverData(p))
    requires !s.rcv.closed && Legal(s.rcv.tailSeq, p.seqN)
    requires Job(s.rcv.recved[p.seqN := p.bs], s.rcv.tailSeq, total, s.rcv.app)
    ensures ValidRun(s, es)
    ensures var s' := Exec(s, es);
      && ReceiverOnly(s.(recvIdx := p.idx), s') && s'.rcv.busy.Idle?
      && s'.acks == s.acks + {AckMsg(p.seqN, p.idx)}
      && JobAt(s'.rcv, s.rcv.recved[p.seqN := p.bs], s.rcv.tailSeq, total, s.rcv.app)
      && s'.drained == s.drained + total
  {
    var m := s.rcv.recved[p.seqN := p.bs];
    var e := DeliverData(p);
    var s1 := Apply(s, e);
    OneStepRun(s, e);
    assert ReceiveWindow.Beyond(m, s.rcv.tailSeq, 0) == m;
    var es1 := DrainIsRun(s1, m, s.rcv.tailSeq, 0, total, s.rcv.app);
    RunTrans(s, [e], es1);
    es := [e] + es1;
  }
}
