/** What `send` does to the bytes and the numbers, said without reference to how it goes about it. */
module SendLaws {
  import opened Basics
  import opened SenderModel

  function Payloads(out: seq<(u16, bytes)>): seq<bytes> {
    seq(|out|, i requires 0 <= i < |out| => out[i].1)
  }

  lemma {:induction false} ConcatCons(x: bytes, chunks: seq<bytes>)
    ensures Concat([x] + chunks) == x + Concat(chunks)
    decreases |chunks|
  {
    if chunks == [] {
      assert [x] + chunks == [x];
      assert Concat([x]) == Concat([x][..0]) + x;
    } else {
      var front, last, all := chunks[..|chunks| - 1], chunks[|chunks| - 1], [x] + chunks;
      ConcatCons(x, front);
      assert all[..|all| - 1] == [x] + front && all[|all| - 1] == last;
      assert (x + Concat(front)) + last == x + (Concat(front) + last);
    }
  }

  lemma PayloadsCons(x: (u16, bytes), out: seq<(u16, bytes)>)
    ensures Payloads([x] + out) == [x.1] + Payloads(out)
  {
  }

  /** Cutting one segment off the buffer. */
  predicate Cuts(s: Sender, mode: Mode, s1: Sender, bs: bytes) {
    && s.app == bs + s1.app && s1.tSeq == s.tSeq && s1.swnd == s.swnd && s1.sent == s.sent
    && |bs| == (if mode.Full? then 1442 else Min(1442, |s.app|)) && bs != []
    && (mode.Full? ==> |s.sent| < s.swnd)
  }

  /** Nothing more to send: the buffer is empty, or holds less than a segment, or the window is full. */
  predicate Exhausted(s: Sender, mode: Mode) {
    s.app == [] || (mode.Full? && (|s.app| < 1442 || s.swnd <= |s.sent|))
  }

  lemma ReadCuts(s: Sender, mode: Mode)
    ensures match ReadSegment(s, mode)
            case Got(s1, bs) => Cuts(s, mode, s1, bs)
            case Nothing(s1) => s1 == s.(timer := s1.timer) && Exhausted(s1, mode)
  {
  }

  /** The first segment of a `send`, and the rest. */
  lemma FirstSegment(s: Sender, mode: Mode, good: nat) returns (s2: Sender, bs: bytes)
    requires ReadSegment(s, mode).Got?
    ensures s.app == bs + s2.app && s2.tSeq == Inc(s.tSeq) && bs != []
    ensures |bs| == if mode.Full? then 1442 else Min(1442, |s.app|)
    ensures s.tSeq in s2.sent && s2.sent[s.tSeq].bs == bs
    ensures if good == 0 then SendAll(s, mode, good) == Sent(s2, [], true)
            else
              var r2 := SendAll(s2, mode, good - 1);
              SendAll(s, mode, good) == r2.(out := [(s.tSeq, bs)] + r2.out)
  {
    ReadCuts(s, mode);
    var r := ReadSegment(s, mode);
    bs := r.bs;
    s2 := Enqueue(r.s, bs);
  }

  lemma NumberAhead(t: u16, n: nat)
    ensures SeqOf(Inc(t) + n) == SeqOf(t + (n + 1))
  {
  }

  /** Segments get consecutive numbers; `readMSS` makes full ones only; `send` stops only when there is nothing more to
      send or after `good` transmissions, on an error. */
  predicate Numbered(t: u16, mode: Mode, out: seq<(u16, bytes)>) {
    forall i :: 0 <= i < |out| ==>
      out[i].0 == SeqOf(t + i) && 0 < |out[i].1| <= 1442 && (mode.Full? ==> |out[i].1| == 1442)
  }

  lemma NumberedCons(t: u16, mode: Mode, bs: bytes, out: seq<(u16, bytes)>)
    requires Numbered(Inc(t), mode, out) && 0 < |bs| <= 1442 && (mode.Full? ==> |bs| == 1442)
    ensures Numbered(t, mode, [(t, bs)] + out)
  {
    var all := [(t, bs)] + out;
    forall i | 0 <= i < |all|
      ensures all[i].0 == SeqOf(t + i) && 0 < |all[i].1| <= 1442 && (mode.Full? ==> |all[i].1| == 1442)
    {
      if 0 < i {
        assert all[i] == out[i - 1];
        NumberAhead(t, i - 1);
      }
    }
  }

  lemma {:induction false} SendNumbersSegments(s: Sender, mode: Mode, good: nat)
    ensures var r := SendAll(s, mode, good);
      && Numbered(s.tSeq, mode, r.out)
      && |r.out| <= good && (r.failed ==> |r.out| == good)
      && (!r.failed ==> Exhausted(r.s, mode))
    decreases |s.app|
  {
    if ReadSegment(s, mode).Got? {
      var s2, bs := FirstSegment(s, mode, good);
      if 0 < good {
        SendNumbersSegments(s2, mode, good - 1);
        NumberedCons(s.tSeq, mode, bs, SendAll(s2, mode, good - 1).out);
      }
    } else {
      ReadCuts(s, mode);
    }
  }

  /** The tail moves by one for each segment, the failed one included. */
  predicate MovesTail(t: u16, bytesBefore: nat, r: Sent) {
    |r.out| <= bytesBefore && r.s.tSeq == SeqOf(t + (|r.out| + if r.failed then 1 else 0))
  }

  lemma MovesTailCons(t: u16, bs: bytes, rest: nat, r: Sent)
    requires MovesTail(Inc(t), rest, r) && bs != []
    ensures MovesTail(t, |bs| + rest, r.(out := [(t, bs)] + r.out))
  {
    NumberAhead(t, |r.out| + if r.failed then 1 else 0);
  }

  lemma MovesTailFirst(t: u16, n: nat, r: Sent)
    requires r.out == [] && r.s.tSeq == if r.failed then Inc(t) else t
    ensures MovesTail(t, n, r)
  {
  }

  lemma {:induction false} SendMovesTail(s: Sender, mode: Mode, good: nat)
    ensures MovesTail(s.tSeq, |s.app|, SendAll(s, mode, good))
    decreases |s.app|
  {
    if ReadSegment(s, mode).Got? {
      var s2, bs := FirstSegment(s, mode, good);
      if 0 < good {
        SendMovesTail(s2, mode, good - 1);
        MovesTailCons(s.tSeq, bs, |s2.app|, SendAll(s2, mode, good - 1));
      } else {
        MovesTailFirst(s.tSeq, |s.app|, Sent(s2, [], true));
      }
    } else {
      ReadCuts(s, mode);
      MovesTailFirst(s.tSeq, |s.app|, SendAll(s, mode, good));
    }
  }

  /** What a `send` that did not fail transmitted is as long as the tail moved. */
  lemma SentUpToTail(s: Sender, mode: Mode, good: nat)
    requires |s.app| <= BUFFER_SIZE && !SendAll(s, mode, good).failed
    ensures var r := SendAll(s, mode, good); Dist(s.tSeq, r.s.tSeq) == |r.out| && Numbered(s.tSeq, mode, r.out)
  {
    SendMovesTail(s, mode, good);
    SendNumbersSegments(s, mode, good);
  }

  /** The bytes of `out`, then `lost`, then `rest`. */
  function Joined(out: seq<(u16, bytes)>, lost: bytes, rest: bytes): bytes {
    Concat(Payloads(out)) + lost + rest
  }

  lemma JoinedCons(x: (u16, bytes), out: seq<(u16, bytes)>, lost: bytes, rest: bytes)
    ensures Joined([x] + out, lost, rest) == x.1 + Joined(out, lost, rest)
  {
    PayloadsCons(x, out);
    ConcatCons(x.1, Payloads(out));
    var c := Concat(Payloads(out));
    assert ((x.1 + c) + lost) + rest == x.1 + ((c + lost) + rest);
  }

  lemma JoinedNil(lost: bytes, rest: bytes)
    ensures Joined([], lost, rest) == lost + rest
  {
    assert Payloads([]) == [];
    assert Concat([]) + lost == lost;
  }

  /** `lost` is the segment whose transmission failed, if any, registered under the number after those in `r.out`. */
  predicate IsLost(t: u16, r: Sent, lost: bytes) {
    if r.failed then SeqOf(t + |r.out|) in r.s.sent && r.s.sent[SeqOf(t + |r.out|)].bs == lost else lost == []
  }

  /** The bytes `app` that were in the buffer are those transmitted, those lost and those still there. */
  predicate Conserves(t: u16, app: bytes, r: Sent, lost: bytes) {
    app == Joined(r.out, lost, r.s.app) && IsLost(t, r, lost)
  }

  lemma ConservesCons(t: u16, bs: bytes, app: bytes, r: Sent, lost: bytes)
    requires Conserves(Inc(t), app, r, lost)
    ensures Conserves(t, bs + app, r.(out := [(t, bs)] + r.out), lost)
  {
    JoinedCons((t, bs), r.out, lost, r.s.app);
    NumberAhead(t, |r.out|);
  }

  lemma ConservesFirst(t: u16, app: bytes, r: Sent, lost: bytes)
    requires r.out == [] && app == lost + r.s.app
    requires if r.failed then t in r.s.sent && r.s.sent[t].bs == lost else lost == []
    ensures Conserves(t, app, r, lost)
  {
    JoinedNil(lost, r.s.app);
  }

  /** Bytes leave the buffer in order and none is lost: they are in the segments transmitted, in the one whose
      transmission failed, or still in the buffer. */
  lemma {:induction false} SendConservesBytes(s: Sender, mode: Mode, good: nat) returns (lost: bytes)
    ensures Conserves(s.tSeq, s.app, SendAll(s, mode, good), lost)
    decreases |s.app|
  {
    if ReadSegment(s, mode).Nothing? {
      ReadCuts(s, mode);
      lost := [];
      ConservesFirst(s.tSeq, s.app, SendAll(s, mode, good), lost);
    } else {
      var s2, bs := FirstSegment(s, mode, good);
      if good == 0 {
        lost := bs;
        ConservesFirst(s.tSeq, s.app, Sent(s2, [], true), lost);
      } else {
        lost := SendConservesBytes(s2, mode, good - 1);
        ConservesCons(s.tSeq, bs, s2.app, SendAll(s2, mode, good - 1), lost);
      }
    }
  }
}
