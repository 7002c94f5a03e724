/**
 The sender window as a value, and each of its operations as a function of that value.
 `SendWindow` (the class) is proved to compute these functions in place; `Protocol` runs them as steps.
 Durations are nanoseconds.
 */
module SenderModel {
  import opened Basics

  const MAX_CWND := 128
  const MIN_CWND := 2
  const DEF_CWND := 16
  const DEF_RWND := 128
  const MIN_RTO := 1
  const MAX_RTO := 500_000_000
  const DEF_RTO := 100_000_000
  const INC_RTO := 15_000_000
  const MAX_TICKER_RESEND := 10
  const MIN_RTT_SAMPLING := 10
  const QUICK_RESEND_SKIP := 2

  /** A sent segment; `acked` stands for the closed channel of that name. */
  datatype Segment = Segment(bs: bytes, acked: bool, rto: int, trsc: nat)

  datatype MinRtt = MinRtt(n: nat, rtt: int)

  /** A Go timer: `armed` while running, `tick` while an unread value waits in its channel.
      Stop and Reset leave a waiting value where it is. */
  datatype Timer = Timer(armed: bool, tick: bool)

  datatype Sender = Sender(
    app: bytes,
    sent: map<u16, Segment>,
    hSeq: u16,
    tSeq: u16,
    cwnd: int,
    rwnd: int,
    swnd: int,
    rto: int,
    minrtt: MinRtt,
    timer: Timer)

  function InitialSender(): Sender {
    Sender([], map[], 0, 0, DEF_CWND, DEF_RWND, DEF_CWND, DEF_RTO, MinRtt(0, DEF_RTO), Timer(true, false))
  }

  // ---------- congestion window and round-trip time ----------

  function Clamp(d: int): int {
    Min(Max(d, MIN_RTO), MAX_RTO)
  }

  function NextMinRtt(m: MinRtt, sample: int): MinRtt {
    if m.n > MIN_RTT_SAMPLING then MinRtt(0, sample) else MinRtt(m.n + 1, Min(m.rtt, sample))
  }

  /** The `EventEnd` handler: the window doubles and the measured round trip sets the timeout. */
  function OnEnd(s: Sender, rttm: int): Sender {
    var cwnd := Min(s.cwnd * 2, MAX_CWND);
    var m := NextMinRtt(s.minrtt, rttm);
    s.(cwnd := cwnd, minrtt := m, rto := Clamp(m.rtt), swnd := Min(s.rwnd, cwnd))
  }

  /** The `EventResend` handler: the window shrinks by one. */
  function OnResend(s: Sender): Sender {
    var cwnd := Max(s.cwnd - 1, MIN_CWND);
    s.(cwnd := cwnd, swnd := Min(s.rwnd, cwnd))
  }

  // ---------- acknowledgements ----------

  /** `AckIi` on a live segment: it ends, which closes `acked` and raises `EventEnd`. */
  function MarkAcked(s: Sender, seqN: u16, rttm: int): Sender
    requires seqN in s.sent
  {
    if s.sent[seqN].acked then s
    else OnEnd(s.(sent := s.sent[seqN := s.sent[seqN].(acked := true)]), rttm)
  }

  /** `trimAckSeg`: drop acked segments from the head until an unacked or missing one. */
  function Trim(s: Sender): (r: Sender)
    ensures r == s.(sent := r.sent, hSeq := r.hSeq)
    ensures r.hSeq in r.sent ==> !r.sent[r.hSeq].acked
    decreases |s.sent|
  {
    if s.hSeq in s.sent && s.sent[s.hSeq].acked then
      Trim(s.(sent := s.sent - {s.hSeq}, hSeq := Inc(s.hSeq)))
    else s
  }

  // ---------- sending ----------

  datatype Mode = Full | Any

  /** What a segment reader returns: nothing to send now, or the payload of a new segment. */
  datatype Reading = Nothing(s: Sender) | Got(s: Sender, bs: bytes)

  function ReadSegment(s: Sender, mode: Mode): Reading {
    if mode.Full? then
      if |s.app| == 0 then Nothing(s)
      else if s.swnd - |s.sent| <= 0 then Nothing(s)
      else if |s.app| < MSS then Nothing(s.(timer := s.timer.(armed := true)))
      else Got(s.(app := s.app[MSS..], timer := s.timer.(armed := false)), s.app[..MSS])
    else
      if |s.app| == 0 then Nothing(s)
      else
        var n := Min(MSS, |s.app|);
        Got(s.(app := s.app[n..]), s.app[..n])
  }

  function Enqueue(s: Sender, bs: bytes): Sender {
    s.(sent := s.sent[s.tSeq := Segment(bs, false, s.rto, 0)], tSeq := Inc(s.tSeq))
  }

  /** What a `send` did: the window it leaves, what it transmitted, and whether it stopped on an error. */
  datatype Sent = Sent(s: Sender, out: seq<(u16, bytes)>, failed: bool)

  /** `send`: read segments until the reader has nothing. The segment sender carries out `good` transmissions and
      fails at the next one; that segment is registered all the same. */
  function SendAll(s: Sender, mode: Mode, good: nat): Sent
    decreases |s.app|
  {
    match ReadSegment(s, mode)
    case Nothing(s1) => Sent(s1, [], false)
    case Got(s1, bs) =>
      if good == 0 then Sent(Enqueue(s1, bs), [], true)
      else
        var r := SendAll(Enqueue(s1, bs), mode, good - 1);
        r.(out := [(s.tSeq, bs)] + r.out)
  }

  /** How many segments a flush makes of `n` bytes. */
  function SegmentsFor(n: nat): nat {
    (n + MSS - 1) / MSS
  }

  // ---------- quick resend ----------

  /** `n` consecutive sequence numbers, the first one `from`. */
  function SeqRange(from: u16, n: nat): seq<u16>
    decreases n
  {
    if n == 0 then [] else [from] + SeqRange(Inc(from), n - 1)
  }

  /** In-flight numbers at least two places before `seqN`, oldest first. */
  function TryResendSeqs(hSeq: u16, tSeq: u16, seqN: u16): seq<u16> {
    if Dist(hSeq, seqN) < Dist(hSeq, tSeq) && QUICK_RESEND_SKIP <= Dist(hSeq, seqN)
    then SeqRange(hSeq, Dist(hSeq, seqN) - QUICK_RESEND_SKIP + 1)
    else []
  }

  /** What `quickResend` sends: the candidates that are live, unacked and whose quick-resend timer fired. */
  function QuickOut(s: Sender, seqs: seq<u16>, fired: set<u16>): seq<(u16, bytes)> {
    if seqs == [] then []
    else
      (if seqs[0] in s.sent && !s.sent[seqs[0]].acked && seqs[0] in fired
       then [(seqs[0], s.sent[seqs[0]].bs)] else [])
      + QuickOut(s, seqs[1..], fired)
  }

  /** `RecvAck`: mark, trim, send what the window now allows, resend what the ack overtook. When `send` fails
      nothing is resent. */
  function RecvAck(s: Sender, seqN: u16, rttm: int, fired: set<u16>, good: nat): Sent {
    if seqN !in s.sent then Sent(s, [], false)
    else
      var r := SendAll(Trim(MarkAcked(s, seqN, rttm)), Full, good);
      if r.failed then r
      else r.(out := r.out + QuickOut(r.s, TryResendSeqs(r.s.hSeq, r.s.tSeq, seqN), fired))
  }

  // ---------- the ticker of one segment ----------

  function IncRto(rto: int): int {
    Clamp(rto + INC_RTO)
  }

  predicate TickerBudgetLeft(g: Segment) {
    !(MAX_TICKER_RESEND < g.trsc)
  }

  function TickerResent(g: Segment): Segment {
    g.(trsc := g.trsc + 1, rto := IncRto(g.rto))
  }
}
