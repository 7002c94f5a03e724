/** Which segments an acknowledgement makes `RecvAck` resend. */
module QuickResendSelection {
  import opened Basics
  import opened SenderModel
  import opened ProtocolInvariant

  lemma {:induction false} SeqRangeAt(from: u16, n: nat, k: nat)
    requires k < n <= 65536
    ensures |SeqRange(from, n)| == n
    ensures Dist(from, SeqRange(from, n)[k]) == k
    decreases n
  {
    if n > 1 {
      SeqRangeAt(Inc(from), n - 1, if k == 0 then 0 else k - 1);
      if k > 0 {
        var q := SeqRange(Inc(from), n - 1)[k - 1];
        assert SeqRange(from, n)[k] == q;
      }
    }
  }

  lemma {:induction false} SeqRangeSnoc(from: u16, n: nat, q: u16)
    requires n < 65536 && Dist(from, q) == n
    ensures SeqRange(from, n + 1) == SeqRange(from, n) + [q]
    decreases n
  {
    if n > 0 {
      SeqRangeSnoc(Inc(from), n - 1, q);
    }
  }

  /** Exactly the in-flight numbers at circular distance two or more before `seqN`, oldest first; nothing when
      `seqN` is not in flight. */
  lemma SelectionIsExact(hSeq: u16, tSeq: u16, seqN: u16)
    ensures var r := TryResendSeqs(hSeq, tSeq, seqN);
      && (forall q: u16 :: q in r <==>
            Dist(hSeq, q) + 2 <= Dist(hSeq, seqN) < Dist(hSeq, tSeq))
      && (forall k :: 0 <= k < |r| ==> Dist(hSeq, r[k]) == k)
  {
    var r := TryResendSeqs(hSeq, tSeq, seqN);
    if Dist(hSeq, seqN) < Dist(hSeq, tSeq) && QUICK_RESEND_SKIP <= Dist(hSeq, seqN) {
      var n := Dist(hSeq, seqN) - QUICK_RESEND_SKIP + 1;
      SeqRangeAt(hSeq, n, 0);
      forall k | 0 <= k < n
        ensures |r| == n && Dist(hSeq, r[k]) == k
      {
        SeqRangeAt(hSeq, n, k);
      }
      forall q: u16 | Dist(hSeq, q) + QUICK_RESEND_SKIP <= Dist(hSeq, seqN)
        ensures q in r
      {
        var k := Dist(hSeq, q);
        SeqRangeAt(hSeq, n, k);
        assert Dist(hSeq, r[k]) == Dist(hSeq, q);
        assert r[k] == q;
      }
    }
  }

  /** Every number selected is a key of `sent`. */
  lemma SelectionIsLive(sent: Flight, h: u16, t: u16, chunks: seq<bytes>, seqN: u16)
    requires FlightShape(sent, h, t, chunks)
    ensures forall q :: q in TryResendSeqs(h, t, seqN) ==> q in sent
    ensures TryResendSeqs(h, t, seqN) != [] ==> seqN in sent
  {
    SelectionIsExact(h, t, seqN);
  }

  // ---------- what is sent of the selection ----------

  lemma {:induction false} QuickOutElements(s: Sender, seqs: seq<u16>, fired: set<u16>)
    ensures forall x :: x in QuickOut(s, seqs, fired) <==>
              x.0 in seqs && x.0 in fired && x.0 in s.sent && !s.sent[x.0].acked && x.1 == s.sent[x.0].bs
    decreases |seqs|
  {
    if seqs != [] {
      QuickOutElements(s, seqs[1..], fired);
    }
  }

  /** Each further from `h` than the one before. */
  predicate Ascending(h: u16, seqs: seq<u16>) {
    forall i, j :: 0 <= i < j < |seqs| ==> Dist(h, seqs[i]) < Dist(h, seqs[j])
  }

  predicate AscendingOut(h: u16, out: seq<(u16, bytes)>) {
    forall i, j :: 0 <= i < j < |out| ==> Dist(h, out[i].0) < Dist(h, out[j].0)
  }

  lemma AscendsCons(h: u16, x: (u16, bytes), rest: seq<(u16, bytes)>)
    requires AscendingOut(h, rest) && forall j :: 0 <= j < |rest| ==> Dist(h, x.0) < Dist(h, rest[j].0)
    ensures AscendingOut(h, [x] + rest)
  {
  }

  lemma FirstIsLeast(h: u16, seqs: seq<u16>, q: u16)
    requires seqs != [] && Ascending(h, seqs) && q in seqs[1..]
    ensures Dist(h, seqs[0]) < Dist(h, q)
  {
    var k :| 0 <= k < |seqs[1..]| && seqs[1..][k] == q;
    assert seqs[k + 1] == q;
  }

  lemma TailAscends(h: u16, seqs: seq<u16>)
    requires seqs != [] && Ascending(h, seqs)
    ensures Ascending(h, seqs[1..])
  {
    assert forall i :: 0 <= i < |seqs[1..]| ==> seqs[1..][i] == seqs[i + 1];
  }

  lemma {:induction false} QuickOutAscends(s: Sender, seqs: seq<u16>, fired: set<u16>, h: u16)
    requires Ascending(h, seqs)
    ensures AscendingOut(h, QuickOut(s, seqs, fired))
    decreases |seqs|
  {
    if seqs != [] {
      TailAscends(h, seqs);
      QuickOutAscends(s, seqs[1..], fired, h);
      var rest := QuickOut(s, seqs[1..], fired);
      if seqs[0] in s.sent {
        forall j | 0 <= j < |rest|
          ensures Dist(h, seqs[0]) < Dist(h, rest[j].0)
        {
          QuickOutElements(s, seqs[1..], fired);
          assert rest[j] in rest;
          FirstIsLeast(h, seqs, rest[j].0);
        }
        AscendsCons(h, (seqs[0], s.sent[seqs[0]].bs), rest);
      }
      assert [] + rest == rest;
    }
  }

  /** The ack of `seqN` makes `RecvAck` resend `q`. */
  predicate IsOvertaken(s: Sender, seqN: u16, fired: set<u16>, q: u16) {
    && q in s.sent && !s.sent[q].acked && q in fired
    && Dist(s.hSeq, q) + 2 <= Dist(s.hSeq, seqN) < Dist(s.hSeq, s.tSeq)
  }

  /** Sent are just the segments in flight two or more before the acked one that are unacked and whose timer has
      fired, each once, oldest first. */
  predicate IsQuickResend(s: Sender, seqN: u16, fired: set<u16>, out: seq<(u16, bytes)>) {
    && (forall x :: x in out ==> IsOvertaken(s, seqN, fired, x.0) && x.1 == s.sent[x.0].bs)
    && (forall q :: q in s.sent && IsOvertaken(s, seqN, fired, q) ==> (q, s.sent[q].bs) in out)
    && AscendingOut(s.hSeq, out)
  }

  lemma QuickOutIsExact(s: Sender, seqN: u16, fired: set<u16>)
    ensures IsQuickResend(s, seqN, fired, QuickOut(s, TryResendSeqs(s.hSeq, s.tSeq, seqN), fired))
  {
    var seqs := TryResendSeqs(s.hSeq, s.tSeq, seqN);
    SelectionIsExact(s.hSeq, s.tSeq, seqN);
    QuickOutElements(s, seqs, fired);
    QuickOutAscends(s, seqs, fired, s.hSeq);
  }
}
