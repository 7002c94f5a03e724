/**
 `Recv` among everything else: reads, pushes, acks and a close of the window may fall between any two of its steps,
 and it still does what the contract of the method in `ReceiveWindow` says.
 */
module RecvRuns {
  import opened Basics
  import opened SenderModel
  import opened ReceiverModel
  import opened Protocol
  import opened ProtocolInvariant
  import ReceiveWindow

  /** A `Recv` as it goes: map, tail and progress; the bytes read and queued; those of the tail segment pushed so far;
      the number of segments drained. */
  datatype DrainState = DrainState(recved: map<u16, bytes>, tail: u16, busy: Busy, out: bytes, part: bytes, n: nat)

  function DrainOf(s: System, drained0: nat): DrainState
    requires drained0 <= s.drained
  {
    DrainState(s.rcv.recved, s.rcv.tailSeq, s.rcv.busy, s.read + s.rcv.app, s.part, s.drained - drained0)
  }

  /** It began with the map `m` at tail `t` and with `before` read and queued. */
  predicate OnCourse(d: DrainState, m: map<u16, bytes>, t: u16, before: bytes) {
    && ReceiveWindow.HasRun(m, t, d.n) && (forall q :: q in m ==> Dist(t, q) < WINDOW)
    && d.recved == ReceiveWindow.Beyond(m, t, d.n) && d.tail == Ahead(t, d.n)
    && d.out == before + Concat(ReceiveWindow.Run(m, t, d.n)) + d.part
    && (d.busy.Draining? && d.busy.rest.None? ==> d.part == [])
    && (d.busy.Draining? && d.busy.rest.Some? ==> d.tail in d.recved && d.part + d.busy.rest.value == d.recved[d.tail])
  }

  /** What one step can do to it. */
  predicate TakesUp(d: DrainState, d': DrainState) {
    && d.busy.Draining? && d.busy.rest.None? && d.tail in d.recved
    && d' == d.(busy := d.busy.(rest := Some(d.recved[d.tail])))
  }

  predicate MovesBytes(d: DrainState, d': DrainState, k: nat) {
    && d.busy.Draining? && d.busy.rest.Some? && k <= |d.busy.rest.value|
    && var rest := d.busy.rest.value;
      d' == d.(busy := d.busy.(rest := Some(rest[k..])), out := d.out + rest[..k], part := d.part + rest[..k])
  }

  predicate Slides(d: DrainState, d': DrainState) {
    && d.busy.Draining? && d.busy.rest == Some([])
    && d' == d.(recved := d.recved - {d.tail}, tail := Inc(d.tail), busy := d.busy.(rest := None), part := [],
                n := d.n + 1)
  }

  lemma SlidesOnCourse(d: DrainState, d': DrainState, m: map<u16, bytes>, t: u16, before: bytes)
    requires OnCourse(d, m, t, before) && Slides(d, d')
    ensures OnCourse(d', m, t, before)
  {
    ReceiveWindow.BeyondNext(m, t, d.n);
    var out := Concat(ReceiveWindow.Run(m, t, d.n));
    assert d.part + [] == d.part == m[d.tail];
    assert before + (out + d.part) + [] == before + out + d.part;
  }

  lemma BytesOnCourse(d: DrainState, d': DrainState, k: nat, m: map<u16, bytes>, t: u16, before: bytes)
    requires OnCourse(d, m, t, before) && MovesBytes(d, d', k)
    ensures OnCourse(d', m, t, before)
  {
    var rest := d.busy.rest.value;
    var out := before + Concat(ReceiveWindow.Run(m, t, d.n));
    assert (d.part + rest[..k]) + rest[k..] == d.part + rest;
    assert (out + d.part) + rest[..k] == out + (d.part + rest[..k]);
  }

  lemma OthersOnCourse(d: DrainState, d': DrainState, m: map<u16, bytes>, t: u16, before: bytes)
    requires OnCourse(d, m, t, before) && (d' == d || d' == d.(busy := Idle) || TakesUp(d, d'))
    ensures OnCourse(d', m, t, before)
  {
  }

  lemma MoveOnCourse(d: DrainState, d': DrainState, k: nat, m: map<u16, bytes>, t: u16, before: bytes)
    requires OnCourse(d, m, t, before)
    requires d' == d || d' == d.(busy := Idle) || TakesUp(d, d') || MovesBytes(d, d', k) || Slides(d, d')
    ensures OnCourse(d', m, t, before)
  {
    if MovesBytes(d, d', k) {
      BytesOnCourse(d, d', k, m, t, before);
    } else if Slides(d, d') {
      SlidesOnCourse(d, d', m, t, before);
    } else {
      OthersOnCourse(d, d', m, t, before);
    }
  }

  // ---------- the steps of the protocol do just that ----------

  lemma SendBeside(s: System, drained0: nat)
    requires s.lock.Sending? && drained0 <= s.drained
    ensures AfterSendStep(s).drained == AfterSendFails(s).drained == s.drained
    ensures DrainOf(AfterSendStep(s), drained0) == DrainOf(AfterSendFails(s), drained0) == DrainOf(s, drained0)
    ensures AfterSendStep(s).recvIdx == AfterSendFails(s).recvIdx == s.recvIdx
  {
  }

  lemma AckBeside(s: System, a: AckMsg, rttm: int, drained0: nat)
    requires drained0 <= s.drained
    ensures var s' := AfterAck(s, a, rttm);
      s'.drained == s.drained && DrainOf(s', drained0) == DrainOf(s, drained0) && s'.recvIdx == s.recvIdx
  {
  }

  predicate MovesDrain(e: Event) {
    e.NextSegment? || e.PushChunk? || e.SegmentDone? || e.PushStopped? || e.DrainDone?
  }

  lemma BesideDrain(s: System, e: Event, drained0: nat)
    requires s.rcv.busy.Draining? && Enabled(s, e) && !MovesDrain(e) && drained0 <= s.drained
    ensures var s' := Apply(s, e);
      s'.drained == s.drained && DrainOf(s', drained0) == DrainOf(s, drained0) && s'.recvIdx == s.recvIdx
  {
    match e
    case SendStep | SendFails => SendBeside(s, drained0);
    case DeliverAck(a, rttm) => AckBeside(s, a, rttm, drained0);
    case Read(n) => assert (s.read + Take(s.rcv, n)) + AfterRead(s.rcv, n).app == s.read + s.rcv.app;
    case PushEvent | ResendEvent | TimerFires | TakeTick | Flush | CloseSignal | EnterFlushing | FlushLast
      | FlushLastDone | FlushLastTimeout | WaitDone | WaitTimeout | LoseData(_) | LoseAck(_) =>
    case Push(_) | QuickResend(_) | TickerResend(_) | CloseReceiver =>
  }

  lemma DrainMoves(s: System, e: Event, drained0: nat) returns (k: nat)
    requires s.rcv.busy.Draining? && Enabled(s, e) && MovesDrain(e) && drained0 <= s.drained
    ensures var s' := Apply(s, e);
      && s.drained <= s'.drained && s'.recvIdx == s.recvIdx
      && var d, d' := DrainOf(s, drained0), DrainOf(s', drained0);
         d' == d.(busy := Idle) || TakesUp(d, d') || MovesBytes(d, d', k) || Slides(d, d')
  {
    k := 0;
    if e.PushChunk? {
      k := ChunkSize(s.rcv.app, s.rcv.busy.rest.value);
      var rest := s.rcv.busy.rest.value;
      assert s.read + (s.rcv.app + rest[..k]) == (s.read + s.rcv.app) + rest[..k];
    }
  }

  /** A `Recv` under way, or just ended. */
  datatype Call = Call(m: map<u16, bytes>, t: u16, before: bytes, drained0: nat, ack: AckMsg)

  /** It keeps to its contract: segments, consecutive from the tail, went into the queue and out of the map. When it
      ends its ack has gone out, and either nothing is left to drain or the window is closed with the tail segment not
      wholly pushed. */
  predicate InContract(s: System, c: Call) {
    && c.drained0 <= s.drained && OnCourse(DrainOf(s, c.drained0), c.m, c.t, c.before)
    && if s.rcv.busy.Draining? then c.ack == AckMsg(s.rcv.busy.seqN, s.recvIdx)
       else
         && c.ack in s.acks
         && (|| (s.rcv.tailSeq !in s.rcv.recved && s.part == [])
             || (s.rcv.closed && s.rcv.tailSeq in s.rcv.recved && s.part < s.rcv.recved[s.rcv.tailSeq]))
  }

  /** How it ends. */
  lemma HowItEnds(s: System, e: Event)
    requires s.rcv.busy.Draining? && Enabled(s, e) && (e.DrainDone? || e.PushStopped?)
    requires e.DrainDone? ==> s.part == []
    requires e.PushStopped? ==> s.rcv.tailSeq in s.rcv.recved
                                && s.part + s.rcv.busy.rest.value == s.rcv.recved[s.rcv.tailSeq]
    ensures var s' := Apply(s, e);
      && s'.rcv.busy.Idle? && AckMsg(s.rcv.busy.seqN, s.recvIdx) in s'.acks
      && (|| (s'.rcv.tailSeq !in s'.rcv.recved && s'.part == [])
          || (s'.rcv.closed && s'.rcv.tailSeq in s'.rcv.recved && s'.part < s'.rcv.recved[s'.rcv.tailSeq]))
  {
  }

  lemma StaysDraining(s: System, e: Event)
    requires s.rcv.busy.Draining? && Enabled(s, e) && !e.DrainDone? && !e.PushStopped?
    ensures Apply(s, e).rcv.busy.Draining? && Apply(s, e).rcv.busy.seqN == s.rcv.busy.seqN
  {
    if !MovesDrain(e) {
      BesideDrain(s, e, s.drained);
    }
  }

  lemma StepOnCourse(s: System, e: Event, c: Call)
    requires s.rcv.busy.Draining? && Enabled(s, e) && InContract(s, c)
    ensures var s' := Apply(s, e);
      c.drained0 <= s'.drained && OnCourse(DrainOf(s', c.drained0), c.m, c.t, c.before) && s'.recvIdx == s.recvIdx
  {
    var k := 0;
    if MovesDrain(e) {
      k := DrainMoves(s, e, c.drained0);
    } else {
      BesideDrain(s, e, c.drained0);
    }
    MoveOnCourse(DrainOf(s, c.drained0), DrainOf(Apply(s, e), c.drained0), k, c.m, c.t, c.before);
  }

  lemma StepInContract(s: System, e: Event, c: Call)
    requires s.rcv.busy.Draining? && Enabled(s, e) && InContract(s, c)
    ensures InContract(Apply(s, e), c)
  {
    StepOnCourse(s, e, c);
    if e.DrainDone? || e.PushStopped? {
      HowItEnds(s, e);
    } else {
      StaysDraining(s, e);
    }
  }

  /** All steps of the run, except possibly the last, leave `Recv` in progress. */
  predicate DuringRecv(s: System, es: seq<Event>)
    requires ValidRun(s, es)
    decreases |es|
  {
    es == [] || (s.rcv.busy.Draining? && DuringRecv(Apply(s, es[0]), es[1..]))
  }

  lemma {:induction false} DuringRecvKeeps(s: System, es: seq<Event>, c: Call)
    requires ValidRun(s, es) && DuringRecv(s, es) && InContract(s, c)
    ensures InContract(Exec(s, es), c)
    decreases |es|
  {
    if es != [] {
      StepInContract(s, es[0], c);
      DuringRecvKeeps(Apply(s, es[0]), es[1..], c);
    }
  }

  /** The call that the delivery of `p` is. */
  function CallOf(s: System, p: Packet): Call {
    Call(s.rcv.recved[p.seqN := p.bs], s.rcv.tailSeq, s.read + s.rcv.app, s.drained, AckMsg(p.seqN, p.idx))
  }

  lemma CallBegins(s: System, p: Packet)
    requires HeldShape(s.rcv.recved, s.rcv.tailSeq, s.drained, s.chunks) && s.part == []
    requires Enabled(s, DeliverData(p)) && !s.rcv.closed && Legal(s.rcv.tailSeq, p.seqN)
    ensures InContract(Apply(s, DeliverData(p)), CallOf(s, p))
  {
    var m, before := s.rcv.recved[p.seqN := p.bs], s.read + s.rcv.app;
    assert ReceiveWindow.Beyond(m, s.rcv.tailSeq, 0) == m;
    assert before + [] + [] == before;
  }

  /** Every `Recv` of a legal segment keeps to its contract, however reads, pushes, acks and a close of the window fall
      between its steps. */
  lemma EveryRecvMeetsContract(s: System, p: Packet, es: seq<Event>)
    requires HeldShape(s.rcv.recved, s.rcv.tailSeq, s.drained, s.chunks) && s.part == []
    requires Enabled(s, DeliverData(p)) && !s.rcv.closed && Legal(s.rcv.tailSeq, p.seqN)
    requires var s1 := Apply(s, DeliverData(p)); ValidRun(s1, es) && DuringRecv(s1, es)
    ensures InContract(Exec(Apply(s, DeliverData(p)), es), CallOf(s, p))
  {
    CallBegins(s, p);
    DuringRecvKeeps(Apply(s, DeliverData(p)), es, CallOf(s, p));
  }
}
