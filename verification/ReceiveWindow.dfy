/** The receiver's window as the program keeps it. */
module ReceiveWindow {
  import opened Basics
  import opened ReceiverModel
  import opened ByteQueue

  /** The numbers an ack carries: the segment's, the next one expected, and a window size that is always 0. */
  datatype Ack = Ack(seqN: u16, ackN: u16, winSize: u16)

  datatype RecvResult =
    | Refused            // the window is closed
    | Illegal(ack: Ack)  // outside the window: acked, not kept
    | Received(ack: Ack) // kept and drained as far as possible
    | Stopped(ack: Ack)  // the window closed while the drain waited: acked all the same
    | Waiting            // the drain still waits for a reader

  /** What one call of `recved2AppBuffer` did. */
  datatype DrainResult = Empty | Moved | Halted(waiting: bool)

  datatype ReadResult = Data(bs: bytes) | Eof | Timeout | NoData

  /** The `n` numbers from `t` are all held. */
  predicate HasRun(m: map<u16, bytes>, t: u16, n: nat) {
    n <= WINDOW && forall q: u16 :: Dist(t, q) < n ==> q in m
  }

  /** Their payloads, in order. */
  function Run(m: map<u16, bytes>, t: u16, n: nat): seq<bytes>
    requires HasRun(m, t, n)
  {
    if n == 0 then [] else Run(m, t, n - 1) + [m[Ahead(t, n - 1)]]
  }

  lemma {:induction false} RunAt(m: map<u16, bytes>, t: u16, n: nat, k: nat)
    requires HasRun(m, t, n) && k < n
    ensures |Run(m, t, n)| == n && Run(m, t, n)[k] == m[Ahead(t, k)]
  {
    if k < n - 1 {
      RunAt(m, t, n - 1, k);
    } else {
      RunCount(m, t, n);
    }
  }

  lemma {:induction false} RunCount(m: map<u16, bytes>, t: u16, n: nat)
    requires HasRun(m, t, n)
    ensures |Run(m, t, n)| == n
  {
    if n > 0 {
      RunCount(m, t, n - 1);
    }
  }

  /** `m` without them. */
  function Beyond(m: map<u16, bytes>, t: u16, n: nat): map<u16, bytes> {
    map q | q in m && n <= Dist(t, q) :: m[q]
  }

  /** The window is closed during some push. */
  ghost predicate SomeoneCloses(others: nat -> seq<Other>) {
    exists k :: SomeStop(others(k))
  }

  /** What the others pop at most during the first `n` pushes of a drain. */
  function PopTotal(others: nat -> seq<Other>, n: nat): nat {
    if n == 0 then 0 else PopTotal(others, n - 1) + PopSum(others(n - 1))
  }

  ghost predicate NobodyPops(others: nat -> seq<Other>) {
    forall k :: PopSum(others(k)) == 0
  }

  lemma {:induction false} NobodyPopped(others: nat -> seq<Other>, n: nat)
    requires NobodyPops(others)
    ensures PopTotal(others, n) == 0
  {
    if n > 0 {
      NobodyPopped(others, n - 1);
    }
  }

  lemma QueueGrew(others: nat -> seq<Other>, n: nat, removed: bytes, removed': bytes, bs: bytes, bs': bytes,
                  out: bytes, part: bytes)
    requires NobodyPops(others) && Removes(removed, removed', PopTotal(others, n))
    requires removed' + bs' == (removed + bs) + out + part
    ensures bs' == bs + out + part
  {
    NobodyPopped(others, n);
    assert (removed + bs) + out + part == (removed + bs) + (out + part);
    OnlyAppended(removed, removed', bs, bs', out + part);
    assert bs + out + part == bs + (out + part);
  }

  class RWND {
    const appBuffer: Queue
    const rwnd: int := WINDOW
    var recved: map<u16, bytes>
    var tailSeq: u16
    var closed: bool

    /** Everything held lies inside the window. */
    ghost predicate Valid()
      reads this, appBuffer, appBuffer.installed
    {
      && appBuffer.Valid() && appBuffer.Size == BUFFER_SIZE
      && forall q :: q in recved ==> Dist(tailSeq, q) < WINDOW
    }

    /** The window as a value, at the program point `busy`. */
    function State(busy: Busy): Receiver
      reads this, appBuffer
    {
      Receiver(appBuffer.bs, recved, tailSeq, busy, closed)
    }

    constructor ()
      ensures Valid() && fresh(appBuffer) && fresh(appBuffer.installed)
      ensures State(Idle) == InitialReceiver()
    {
      appBuffer := new Queue(BUFFER_SIZE);
      recved := map[];
      tailSeq := 0;
      closed := false;
    }

    method Close()
      requires Valid()
      modifies this`closed
      ensures Valid() && closed
    {
      closed := true;
    }

    /** `legalSeqN`: compare with every number of the window in turn. */
    method LegalSeqN(seqN: u16) returns (yes: bool)
      ensures yes <==> Legal(tailSeq, seqN)
      ensures yes <==> Dist(tailSeq, seqN) < 128
    {
      var tail := tailSeq;
      for i := 0 to rwnd
        invariant Dist(tailSeq, tail) == i <= Dist(tailSeq, seqN)
      {
        if seqN == tail {
          return true;
        }
        tail := Inc(tail);
      }
      return false;
    }

    /** `Read`; `stop` says whether the window is closed while the call waits for data. With data there as well,
        either may be noticed first. */
    method Read(n: nat, stop: bool, to: bool) returns (r: ReadResult)
      requires Valid()
      modifies this`closed, appBuffer, appBuffer.installed
      ensures Valid() && appBuffer.installed >= old(appBuffer.installed)
      ensures fresh(appBuffer.installed - old(appBuffer.installed))
      ensures closed == (old(closed) || (0 < n && stop))
      ensures old(closed) ==> r.Eof?
      ensures r.Eof? ==> closed
      ensures r.Data? ==> |r.bs| == Min(n, |old(appBuffer.bs)|) && old(appBuffer.bs) == r.bs + appBuffer.bs
      ensures r.Data? && 0 < n ==> r.bs != []
      ensures !r.Data? ==> appBuffer.bs == old(appBuffer.bs)
      ensures r.Timeout? ==> to
      ensures r.NoData? <==> !old(closed) && 0 < n && old(appBuffer.bs) == [] && !stop && !to
    {
      if closed {
        return Eof;
      }
      if n <= 0 {
        return Data([]);
      }
      closed := stop;
      var popped := appBuffer.BlockPopWithSignal(n, closed, to);
      match popped
      case Popped(bs) => r := Data(bs);
      case PopStopped => r := Eof;
      case PopTimedOut => r := Timeout;
      case PopBlocked => r := NoData;
    }

    method StoreSegment(seqN: u16, bs: bytes)
      requires Valid() && Legal(tailSeq, seqN)
      modifies this`recved
      ensures Valid() && State(Draining(seqN, None)) == Store(old(State(Idle)), seqN, bs)
    {
      recved := recved[seqN := bs];
    }

    /** Forget the tail segment and slide. */
    method SlideTail(ghost seqN: u16)
      requires Valid() && tailSeq in recved
      modifies this`recved, this`tailSeq
      ensures Valid()
      ensures State(Draining(seqN, None)) == Slide(old(State(Draining(seqN, Some([])))))
      ensures Dist(old(tailSeq), tailSeq) == 1
    {
      ghost var t := tailSeq;
      recved := recved - {tailSeq};
      tailSeq := Inc(tailSeq);
      forall q | q in recved
        ensures Dist(tailSeq, q) < WINDOW
      {
        DistAfterInc(t, q);
      }
    }

    /** `recved2AppBuffer`: put the tail segment in the queue, then slide. The window may be closed meanwhile. */
    method Recved2AppBuffer(others: seq<Other>) returns (r: DrainResult, ghost part: bytes)
      requires Valid()
      modifies this`recved, this`tailSeq, this`closed, appBuffer, appBuffer.installed
      ensures Valid() && appBuffer.installed >= old(appBuffer.installed)
      ensures fresh(appBuffer.installed - old(appBuffer.installed))
      ensures r.Empty? <==> old(tailSeq) !in old(recved)
      ensures r.Empty? ==> appBuffer.pushed == old(appBuffer.pushed) && part == []
      ensures r.Moved? ==>
                && recved == old(recved) - {old(tailSeq)} && tailSeq == Inc(old(tailSeq))
                && appBuffer.pushed == old(appBuffer.pushed) + old(recved)[old(tailSeq)]
      ensures !r.Moved? ==> recved == old(recved) && tailSeq == old(tailSeq)
      ensures r.Halted? ==> part < recved[tailSeq] && appBuffer.pushed == old(appBuffer.pushed) + part
      ensures r.Halted? ==> if r.waiting then !closed && |appBuffer.bs| == BUFFER_SIZE else closed
      ensures (old(closed) ==> closed) && (closed ==> old(closed) || SomeStop(others))
      ensures Removes(old(appBuffer.removed), appBuffer.removed, PopSum(others))
    {
      part := [];
      if tailSeq !in recved {
        return Empty, [];
      }
      ghost var payload := recved[tailSeq];
      var rest, res, stopped := appBuffer.BlockPush(recved[tailSeq], others, closed, false);
      closed := stopped;
      part := Done(payload, rest);
      assert fresh(appBuffer.installed - old(appBuffer.installed));
      if !res.Pushed? {
        assert part < payload;
        return Halted(res.PushBlocked?), part;
      }
      assert part == payload;
      SlideTail(0);
      r := Moved;
    }

    /** What `n` segments drained from `m` at `t`, and `part` of the next one, leave behind. */
    ghost predicate Drained(m: map<u16, bytes>, t: u16, n: nat, before: bytes, part: bytes)
      reads this, appBuffer
    {
      Slid(m, t, n) && appBuffer.pushed == before + Concat(Run(m, t, n)) + part
    }

    /** `n` segments are gone from the map `m` with tail `t`. */
    predicate Slid(m: map<u16, bytes>, t: u16, n: nat)
      reads this
    {
      && HasRun(m, t, n) && recved == Beyond(m, t, n) && tailSeq == Ahead(t, n)
      && forall q :: q in m ==> Dist(t, q) < WINDOW
    }

    /** One turn of the drain loop, `n` segments after it began with the map `m` at `t`. */
    method DrainOne(ghost m: map<u16, bytes>, ghost t: u16, ghost n: nat, ghost before: bytes, others: seq<Other>)
      returns (r: DrainResult, ghost part: bytes)
      requires Valid() && Drained(m, t, n, before, [])
      modifies this`recved, this`tailSeq, this`closed, appBuffer, appBuffer.installed
      ensures Valid() && appBuffer.installed >= old(appBuffer.installed)
      ensures fresh(appBuffer.installed - old(appBuffer.installed))
      ensures r.Moved? ==> part == [] && |recved| < |old(recved)|
      ensures Drained(m, t, if r.Moved? then n + 1 else n, before, part)
      ensures r.Empty? ==> tailSeq !in recved && part == []
      ensures r.Halted? ==> tailSeq in recved && part < recved[tailSeq]
      ensures r.Halted? ==> if r.waiting then !closed && |appBuffer.bs| == BUFFER_SIZE else closed
      ensures (old(closed) ==> closed) && (closed ==> old(closed) || SomeStop(others))
      ensures Removes(old(appBuffer.removed), appBuffer.removed, PopSum(others))
    {
      ghost var out, tail := Concat(Run(m, t, n)), tailSeq;
      r, part := Recved2AppBuffer(others);
      RegroupDrained(before, out, if r.Moved? then m[tail] else part);
      if r.Moved? {
        BeyondNext(m, t, n);
        part := [];
      }
    }

    /** The drain loop of `recv`. */
    method Drain(others: nat -> seq<Other>) returns (r: DrainResult, ghost n: nat, ghost part: bytes)
      requires Valid()
      modifies this`recved, this`tailSeq, this`closed, appBuffer, appBuffer.installed
      ensures Valid() && appBuffer.installed >= old(appBuffer.installed)
      ensures fresh(appBuffer.installed - old(appBuffer.installed))
      ensures Drained(old(recved), old(tailSeq), n, old(appBuffer.pushed), part)
      ensures r.Empty? || r.Halted?
      ensures r.Empty? ==> tailSeq !in recved && part == []
      ensures r.Halted? ==> tailSeq in recved && part < recved[tailSeq]
      ensures r.Halted? ==> if r.waiting then !closed && |appBuffer.bs| == BUFFER_SIZE else closed
      ensures (old(closed) ==> closed) && (closed ==> old(closed) || SomeoneCloses(others))
      ensures Removes(old(appBuffer.removed), appBuffer.removed, PopTotal(others, n + 1))
    {
      ghost var m, t, before := recved, tailSeq, appBuffer.pushed;
      var k := 0;
      n := 0;
      assert Beyond(m, t, 0) == m;
      while true
        invariant Valid() && appBuffer.installed >= old(appBuffer.installed)
        invariant fresh(appBuffer.installed - old(appBuffer.installed))
        invariant Drained(m, t, n, before, [])
        invariant (old(closed) ==> closed) && (closed ==> old(closed) || SomeoneCloses(others))
        invariant k == n && Removes(old(appBuffer.removed), appBuffer.removed, PopTotal(others, n))
        decreases |recved|
      {
        ghost var removed0 := appBuffer.removed;
        r, part := DrainOne(m, t, n, before, others(k));
        RemovesTrans(old(appBuffer.removed), removed0, appBuffer.removed, PopTotal(others, n), PopSum(others(k)));
        assert fresh(appBuffer.installed - old(appBuffer.installed));
        if !r.Moved? {
          return;
        }
        k := k + 1;
        n := n + 1;
      }
    }

    /** `recv`: store, drain, and ack when the drain ends. */
    method Keep(seqN: u16, bs: bytes, others: nat -> seq<Other>)
      returns (r: RecvResult, ghost n: nat, ghost part: bytes)
      requires Valid() && Legal(tailSeq, seqN)
      modifies this`recved, this`tailSeq, this`closed, appBuffer, appBuffer.installed
      ensures Valid() && appBuffer.installed >= old(appBuffer.installed)
      ensures fresh(appBuffer.installed - old(appBuffer.installed))
      ensures Drained(old(recved)[seqN := bs], old(tailSeq), n, old(appBuffer.pushed), part)
      ensures r.Received? || r.Stopped? || r.Waiting?
      ensures !r.Waiting? ==> r.ack == Ack(seqN, tailSeq, 0)
      ensures r.Received? ==> tailSeq !in recved && part == []
      ensures !r.Received? ==> tailSeq in recved && part < recved[tailSeq]
      ensures r.Stopped? ==> closed
      ensures r.Waiting? ==> !closed && |appBuffer.bs| == BUFFER_SIZE
      ensures (old(closed) ==> closed) && (closed ==> old(closed) || SomeoneCloses(others))
      ensures Removes(old(appBuffer.removed), appBuffer.removed, PopTotal(others, n + 1))
    {
      StoreSegment(seqN, bs);
      var d;
      d, n, part := Drain(others);
      if d.Empty? {
        r := Received(Ack(seqN, tailSeq, 0));
      } else if d.waiting {
        r := Waiting;
      } else {
        r := Stopped(Ack(seqN, tailSeq, 0));
      }
    }

    /** `Recv`. `others` says, for each segment drained, what other goroutines do at each turn of its push.

        A legal segment is stored; then `n` segments, consecutive from the tail, go into the queue and out of the
        map, which otherwise stays as it is. The drain stops only where the next number is missing, unless the
        window is closed under it or it still waits on a full queue; then `part` of the next segment is in the
        queue. */
    method Recv(seqN: u16, bs: bytes, others: nat -> seq<Other>)
      returns (r: RecvResult, ghost n: nat, ghost part: bytes)
      requires Valid()
      modifies this`recved, this`tailSeq, this`closed, appBuffer, appBuffer.installed
      ensures Valid() && appBuffer.installed >= old(appBuffer.installed)
      ensures fresh(appBuffer.installed - old(appBuffer.installed))
      ensures r.Refused? <==> old(closed)
      ensures r.Illegal? <==> !old(closed) && !Legal(old(tailSeq), seqN)
      ensures r.Illegal? ==> r.ack == Ack(seqN, Inc(seqN), 0)
      ensures r.Refused? || r.Illegal? ==>
                && recved == old(recved) && tailSeq == old(tailSeq) && appBuffer.bs == old(appBuffer.bs)
                && closed == old(closed)
      ensures !r.Refused? && !r.Illegal? ==>
                Drained(old(recved)[seqN := bs], old(tailSeq), n, old(appBuffer.pushed), part)
      ensures r.Received? || r.Stopped? ==> r.ack == Ack(seqN, tailSeq, 0)
      ensures r.Received? ==> tailSeq !in recved && part == []
      ensures r.Stopped? || r.Waiting? ==> tailSeq in recved && part < recved[tailSeq]
      ensures r.Stopped? ==> closed
      ensures r.Waiting? ==> !closed && |appBuffer.bs| == BUFFER_SIZE
      ensures closed ==> old(closed) || SomeoneCloses(others)
      ensures Removes(old(appBuffer.removed), appBuffer.removed, PopTotal(others, n + 1))
      ensures !r.Refused? && !r.Illegal? && NobodyPops(others) ==>
                appBuffer.bs == old(appBuffer.bs) + Concat(Run(old(recved)[seqN := bs], old(tailSeq), n)) + part
    {
      if closed {
        return Refused, 0, [];
      }
      var legal := LegalSeqN(seqN);
      if !legal {
        return Illegal(Ack(seqN, Inc(seqN), 0)), 0, [];
      }
      ghost var m, t := recved[seqN := bs], tailSeq;
      r, n, part := Keep(seqN, bs, others);
      if NobodyPops(others) {
        QueueGrew(others, n + 1, old(appBuffer.removed), appBuffer.removed, old(appBuffer.bs), appBuffer.bs,
                  Concat(Run(m, t, n)), part);
      }
    }
  }

  lemma RegroupDrained(a: bytes, b: bytes, c: bytes)
    ensures (a + b + []) + c == a + b + c == a + (b + c) + []
  {
  }

  /** Taking the next held number off what lies beyond. */
  lemma BeyondNext(m: map<u16, bytes>, t: u16, n: nat)
    requires HasRun(m, t, n) && n < WINDOW && Ahead(t, n) in Beyond(m, t, n)
    ensures HasRun(m, t, n + 1)
    ensures Beyond(m, t, n) - {Ahead(t, n)} == Beyond(m, t, n + 1)
    ensures |Beyond(m, t, n + 1)| < |Beyond(m, t, n)|
    ensures Concat(Run(m, t, n + 1)) == Concat(Run(m, t, n)) + m[Ahead(t, n)]
    ensures Inc(Ahead(t, n)) == Ahead(t, n + 1)
  {
    var b := Beyond(m, t, n);
    var q := Ahead(t, n);
    assert (b - {q}).Keys == b.Keys - {q};
    assert |(b - {q}).Keys| == |b - {q}|;
    ConcatSnoc(Run(m, t, n), m[q]);
  }
}
