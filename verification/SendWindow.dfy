/** The sender's window as the program keeps it: one object whose methods update its fields. */
module SendWindow {
  import opened Basics
  import opened SenderModel
  import opened ByteQueue
  import opened RoundTrip
  import opened QuickResendSelection
  import opened SendLaws

  class SWND {
    const appBuffer: Queue
    const minrtt: Filter
    var sent: map<u16, Segment>
    var hSeq: u16
    var tSeq: u16
    var cwnd: int
    var rwnd: int
    var swnd: int
    var rto: int
    var flushTimer: Timer

    ghost predicate Valid()
      reads this, appBuffer, appBuffer.installed, minrtt
    {
      && appBuffer.Valid() && minrtt.Valid() && appBuffer.Size == BUFFER_SIZE
      && rto == Clamp(minrtt.rtt)  // the published timeout is the windowed minimum, clamped
    }

    /** The window as a value. */
    function State(): Sender
      reads this, appBuffer, minrtt
    {
      Sender(appBuffer.bs, sent, hSeq, tSeq, cwnd, rwnd, swnd, rto, minrtt.Value(), flushTimer)
    }

    constructor ()
      ensures Valid() && fresh(appBuffer) && fresh(appBuffer.installed) && fresh(minrtt)
      ensures State() == InitialSender()
      ensures sent == map[] && hSeq == tSeq == 0 && cwnd == swnd == 16 && rwnd == 128 && rto == 100_000_000
      ensures appBuffer.bs == [] && minrtt.samples == [] && flushTimer == Timer(true, false)
    {
      appBuffer := new Queue(BUFFER_SIZE);
      minrtt := new Filter();
      sent := map[];
      hSeq, tSeq := 0, 0;
      flushTimer := Timer(true, false);
      rto := DEF_RTO;
      rwnd := DEF_RWND;
      cwnd := DEF_CWND;
      swnd := DEF_CWND;
    }

    /** `comRTO`: the published timeout is the windowed minimum, clamped. */
    method ComRTO(rttm: int)
      requires Valid()
      modifies this`rto, minrtt
      ensures Valid() && minrtt.samples == old(minrtt.samples) + [rttm]
      ensures minrtt.Value() == NextMinRtt(old(minrtt.Value()), rttm)
      ensures rto == Min(500_000_000, Max(1, minrtt.rtt))
    {
      minrtt.Com(rttm);
      rto := minrtt.rtt;
      if rto < MIN_RTO {
        rto := MIN_RTO;
      }
      if rto > MAX_RTO {
        rto := MAX_RTO;
      }
    }

    /** `segmentEvent(EventEnd)` */
    method EventEnd(rttm: int)
      requires Valid()
      modifies this, minrtt
      ensures Valid() && State() == OnEnd(old(State()), rttm)
      ensures minrtt.samples == old(minrtt.samples) + [rttm]
      ensures cwnd == Min(2 * old(cwnd), 128) && swnd == Min(rwnd, cwnd) && rto == Min(500_000_000, Max(1, minrtt.rtt))
      ensures unchanged(this`sent, this`hSeq, this`tSeq, this`rwnd, this`flushTimer)
    {
      cwnd := cwnd * 2;
      cwnd := Min(cwnd, MAX_CWND);
      ComRTO(rttm);
      swnd := Min(rwnd, cwnd);
    }

    /** `segmentEvent(EventResend)` */
    method EventResend()
      requires Valid()
      modifies this
      ensures Valid() && State() == OnResend(old(State()))
      ensures cwnd == Max(2, old(cwnd) - 1) && swnd == Min(rwnd, cwnd)
      ensures unchanged(this`sent, this`hSeq, this`tSeq, this`rwnd, this`rto, this`flushTimer)
    {
      cwnd := cwnd - 1;
      cwnd := Max(cwnd, MIN_CWND);
      swnd := Min(rwnd, cwnd);
    }

    method TrimAckSeg()
      requires Valid()
      modifies this
      ensures Valid() && State() == Trim(old(State()))
    {
      while hSeq in sent && sent[hSeq].acked
        invariant Valid()
        invariant Trim(State()) == Trim(old(State()))
        decreases |sent|
      {
        assert (sent - {hSeq}).Keys == sent.Keys - {hSeq};
        assert |(sent - {hSeq}).Keys| == |sent - {hSeq}|;
        sent := sent - {hSeq};
        hSeq := Inc(hSeq);
      }
    }

    /** `readMSS` and `readAny`; the pop never waits, so its panic is out of reach. */
    method Read(mode: Mode) returns (bs: Option<bytes>)
      requires Valid()
      modifies this, appBuffer, appBuffer.installed
      ensures Valid() && appBuffer.installed >= old(appBuffer.installed)
      ensures fresh(appBuffer.installed - old(appBuffer.installed))
      ensures ReadSegment(old(State()), mode)
              == if bs.Some? then Got(State(), bs.value) else Nothing(State())
      ensures bs.Some? <==> if mode.Full? then 1442 <= |old(appBuffer.bs)| && |sent| < swnd else old(appBuffer.bs) != []
      ensures bs.Some? ==> |bs.value| == Min(1442, |old(appBuffer.bs)|) && old(appBuffer.bs) == bs.value + appBuffer.bs
      ensures bs.None? ==> appBuffer.bs == old(appBuffer.bs)
      ensures unchanged(this`sent, this`hSeq, this`tSeq, this`cwnd, this`rwnd, this`swnd, this`rto)
    {
      if |appBuffer.bs| <= 0 {
        return None;
      }
      if mode.Full? {
        if swnd - |sent| <= 0 {
          return None;
        }
        if |appBuffer.bs| < MSS {
          flushTimer := flushTimer.(armed := true);
          return None;
        }
        flushTimer := flushTimer.(armed := false);
      }
      bs := appBuffer.BlockPop(MSS);
      assert bs.Some?;
    }

    /** Register the new segment under the tail number. */
    method Launch(bs: bytes)
      requires Valid()
      modifies this
      ensures Valid() && State() == Enqueue(old(State()), bs)
      ensures sent == old(sent)[old(tSeq) := Segment(bs, false, rto, 0)] && tSeq == (old(tSeq) + 1) % 65536
      ensures unchanged(this`hSeq, this`cwnd, this`rwnd, this`swnd, this`rto, this`flushTimer)
    {
      sent := sent[tSeq := Segment(bs, false, rto, 0)];
      tSeq := Inc(tSeq);
    }

    /** One turn of the loop in `send`, with `good` transmissions to go before the segment sender fails. */
    method SendOne(mode: Mode, ghost good: nat) returns (seg: Option<(u16, bytes)>)
      requires Valid()
      modifies this, appBuffer, appBuffer.installed
      ensures Valid() && appBuffer.installed >= old(appBuffer.installed)
      ensures fresh(appBuffer.installed - old(appBuffer.installed))
      ensures seg.None? ==> SendAll(old(State()), mode, good) == Sent(State(), [], false)
      ensures seg.Some? ==> |appBuffer.bs| < |old(appBuffer.bs)|
      ensures seg.Some? ==>
                SendAll(old(State()), mode, good)
                == if good == 0 then Sent(State(), [], true) else Before(seg.value, SendAll(State(), mode, good - 1))
    {
      ghost var s := State();
      var bs := Read(mode);
      if bs.None? {
        return None;
      }
      seg := Some((tSeq, bs.value));
      Launch(bs.value);
      SendAllUnfolds(s, mode, good, State(), seg.value);
    }

    /** `send`: what it hands to the segment sender, in order, until the reader has nothing or the segment sender,
        after `good` transmissions, fails. */
    method Send(mode: Mode, good: nat) returns (out: seq<(u16, bytes)>, failed: bool)
      requires Valid()
      modifies this, appBuffer, appBuffer.installed
      ensures Valid() && appBuffer.installed >= old(appBuffer.installed)
      ensures fresh(appBuffer.installed - old(appBuffer.installed))
      ensures Sent(State(), out, failed) == SendAll(old(State()), mode, good)
    {
      out := [];
      var left := good;
      ghost var all := SendAll(State(), mode, good);
      ghost var rest := all;
      assert all == After([], rest);
      while true
        invariant Valid() && appBuffer.installed >= old(appBuffer.installed)
        invariant fresh(appBuffer.installed - old(appBuffer.installed))
        invariant rest == SendAll(State(), mode, left)
        invariant all == After(out, rest)
        decreases |appBuffer.bs|
      {
        var seg := SendOne(mode, left);
        assert fresh(appBuffer.installed - old(appBuffer.installed));
        if seg.None? {
          return out, false;
        }
        if left == 0 {
          return out, true;
        }
        left := left - 1;
        ghost var rest' := SendAll(State(), mode, left);
        assert rest == Before(seg.value, rest');
        AfterBefore(out, seg.value, rest');
        rest := rest';
        out := out + [seg.value];
      }
    }

    /** `getTryResendSeqs`: scan from head to tail until `seqN` turns up. */
    method GetTryResendSeqs(seqN: u16) returns (seqs: seq<u16>)
      ensures seqs == TryResendSeqs(hSeq, tSeq, seqN)
    {
      var seqIndex := -1;
      var index := 0;
      var sentSeq := hSeq;
      seqs := [];
      while sentSeq != tSeq
        invariant index == Dist(hSeq, sentSeq) <= Dist(hSeq, tSeq)
        invariant seqs == SeqRange(hSeq, index)
        invariant index <= Dist(hSeq, seqN)
        invariant seqIndex == -1
        decreases Dist(sentSeq, tSeq)
      {
        SeqRangeSnoc(hSeq, index, sentSeq);
        seqs := seqs + [sentSeq];
        if seqN == sentSeq {
          seqIndex := index;
          break;
        }
        index := index + 1;
        sentSeq := Inc(sentSeq);
      }
      if seqIndex == -1 {
        return [];
      }
      if seqIndex < QUICK_RESEND_SKIP {
        return [];
      }
      SeqRangePrefix(hSeq, seqIndex + 1, seqIndex - QUICK_RESEND_SKIP + 1);
      seqs := seqs[..seqIndex - QUICK_RESEND_SKIP + 1];
    }

    /** `quickResend`; `fired` tells which quick-resend timers have a tick. */
    method QuickResend(seqN: u16, fired: set<u16>) returns (out: seq<(u16, bytes)>)
      ensures out == QuickOut(State(), TryResendSeqs(hSeq, tSeq, seqN), fired)
      ensures IsQuickResend(State(), seqN, fired, out)
    {
      out := [];
      var seqs := GetTryResendSeqs(seqN);
      for i := 0 to |seqs|
        invariant QuickOut(State(), seqs, fired) == out + QuickOut(State(), seqs[i..], fired)
      {
        var q := seqs[i];
        if q in sent && !sent[q].acked && q in fired {
          out := out + [(q, sent[q].bs)];
        }
      }
      QuickOutIsExact(State(), seqN, fired);
    }

    /** `AckIi` seen from the window: the segment ends, which raises `EventEnd`. */
    method AckSegment(seqN: u16, rttm: int)
      requires Valid() && seqN in sent
      modifies this, minrtt
      ensures Valid() && State() == MarkAcked(old(State()), seqN, rttm)
      ensures if old(sent)[seqN].acked then State() == old(State()) && minrtt.samples == old(minrtt.samples)
              else
                && minrtt.samples == old(minrtt.samples) + [rttm]
                && sent == old(sent)[seqN := old(sent)[seqN].(acked := true)]
                && cwnd == Min(2 * old(cwnd), 128) && swnd == Min(rwnd, cwnd)
    {
      if !sent[seqN].acked {
        sent := sent[seqN := sent[seqN].(acked := true)];
        EventEnd(rttm);
      }
    }

    /** `RecvAck`; an error of `send` comes back before anything is resent. */
    method ReceiveAck(seqN: u16, rttm: int, fired: set<u16>, good: nat) returns (out: seq<(u16, bytes)>, failed: bool)
      requires Valid()
      modifies this, minrtt, appBuffer, appBuffer.installed
      ensures Valid() && appBuffer.installed >= old(appBuffer.installed)
      ensures fresh(appBuffer.installed - old(appBuffer.installed))
      ensures Sent(State(), out, failed) == RecvAck(old(State()), seqN, rttm, fired, good)
      ensures seqN in old(sent) && !failed ==>
                var k := Dist(old(tSeq), tSeq);
                k <= |out| && Numbered(old(tSeq), Full, out[..k]) && IsQuickResend(State(), seqN, fired, out[k..])
      ensures minrtt.samples
              == old(minrtt.samples) + if seqN in old(sent) && !old(sent)[seqN].acked then [rttm] else []
    {
      if seqN !in sent {
        return [], false;
      }
      AckSegment(seqN, rttm);
      TrimAckSeg();
      ghost var s := State();
      out, failed := Send(Full, good);
      if failed {
        return;
      }
      SentUpToTail(s, Full, good);
      var quick := QuickResend(seqN, fired);
      ghost var sends := out;
      out := out + quick;
      assert out[..|sends|] == sends && out[|sends|..] == quick;
    }
  }

  lemma {:induction false} SeqRangePrefix(from: u16, n: nat, k: nat)
    requires k <= n
    ensures |SeqRange(from, n)| == n
    ensures SeqRange(from, n)[..k] == SeqRange(from, k)
    decreases n
  {
    if n > 0 {
      SeqRangePrefix(Inc(from), n - 1, if k == 0 then 0 else k - 1);
    }
  }

  /** `r` preceded by one more transmission. */
  function Before(seg: (u16, bytes), r: Sent): Sent {
    r.(out := [seg] + r.out)
  }

  /** `r` preceded by what was transmitted already. */
  function After(out: seq<(u16, bytes)>, r: Sent): Sent {
    r.(out := out + r.out)
  }

  lemma AfterBefore(out: seq<(u16, bytes)>, seg: (u16, bytes), r: Sent)
    ensures After(out, Before(seg, r)) == After(out + [seg], r)
  {
    assert out + ([seg] + r.out) == (out + [seg]) + r.out;
  }

  lemma SendAllUnfolds(s: Sender, mode: Mode, good: nat, s2: Sender, seg: (u16, bytes))
    requires var r := ReadSegment(s, mode);
      r.Got? && s2 == Enqueue(r.s, r.bs) && seg == (s.tSeq, r.bs)
    ensures |s2.app| < |s.app|
    ensures SendAll(s, mode, good)
            == if good == 0 then Sent(s2, [], true) else Before(seg, SendAll(s2, mode, good - 1))
  {
  }
}
