/**
 A segment in the window is the segment of its goroutine: what `Protocol` does to it in one step is what the goroutine
 and the caller of `SegmentProtocol` do to it in several.
 */
module SegmentInWindow {
  import opened Basics
  import opened SenderModel
  import opened Protocol
  import G = SegmentProtocol

  lemma OneStep(st: G.State, e: G.Event)
    requires G.Enabled(st, e)
    ensures G.Run(st, [e]) && G.Exec(st, [e]) == G.Apply(st, e)
  {
    assert [e][1..] == [];
    assert G.Run(G.Apply(st, e), []) && G.Exec(G.Apply(st, e), []) == G.Apply(st, e);
  }

  /** It begins as its goroutine begins, with the window's timeout. */
  lemma LaunchAgrees(s: Sender, bs: bytes)
    ensures var s' := Enqueue(s, bs); s.tSeq in s'.sent && s'.sent[s.tSeq] == G.Fresh(bs, s.rto).seg
  {
  }

  /** The window's ticker resend is the firing and the send of the goroutine, with one event raised by either; and the
      one is possible exactly when the firing leads to a send. */
  lemma TickerAgrees(s: System, q: u16, st: G.State) returns (es: seq<G.Event>)
    requires q in s.snd.sent && !s.snd.sent[q].acked && st.seg == s.snd.sent[q] && st.worker.Selecting?
    ensures Enabled(s, TickerResend(q)) <==> G.Apply(st, G.TickFires).worker.Ticking?
    ensures Enabled(s, TickerResend(q)) ==>
              && es == [G.TickFires, G.TickSent(true)] && G.Run(st, es)
              && var s', st' := Apply(s, TickerResend(q)), G.Exec(st, es);
                 && st'.seg == s'.snd.sent[q] && st'.worker.Selecting?
                 && st'.resendEvents - st.resendEvents == s'.resends - s.resends == 1
  {
    es := [G.TickFires, G.TickSent(true)];
    if TickerBudgetLeft(st.seg) {
      OneStep(st, G.TickFires);
      G.RunSnoc(st, [G.TickFires], G.TickSent(true));
      assert es == [G.TickFires] + [G.TickSent(true)];
    }
  }

  /** `AckIi` on an unacked segment closes `acked` and raises `EventEnd` once; on an acked one it does nothing. */
  lemma AckAgrees(s: Sender, q: u16, rttm: int, st: G.State) returns (es: seq<G.Event>)
    requires q in s.sent && st.seg == s.sent[q] && st.caller.AckChecking?
    requires if st.seg.acked then st.worker.Gone? else st.worker.Selecting?
    ensures G.Run(st, es)
    ensures var s', st' := MarkAcked(s, q, rttm), G.Exec(st, es);
      && q in s'.sent && st'.seg == s'.sent[q] && st'.seg.acked && st'.caller.Out? && st'.worker.Gone?
      && st'.ends - st.ends == st'.closes - st.closes == if st.seg.acked then 0 else 1
  {
    OneStep(st, G.Check);
    es := [G.Check];
    if !st.seg.acked {
      G.RunSnoc(st, es, G.HandAck);
      es := es + [G.HandAck];
      G.RunSnoc(st, es, G.CloseAcked);
      es := es + [G.CloseAcked];
      G.RunSnoc(st, es, G.RaiseEnd);
      es := es + [G.RaiseEnd];
      G.RunSnoc(st, es, G.TakeAckReply);
      es := es + [G.TakeAckReply];
    }
  }

  /** `TryQResend` sends exactly when the segment is unacked and its timer has fired, and leaves it as it is, as the
      window's quick resend does. */
  lemma QuickAgrees(st: G.State) returns (es: seq<G.Event>)
    requires st.caller.QuickChecking? && if st.seg.acked then st.worker.Gone? else st.worker.Selecting?
    ensures G.Run(st, es)
    ensures var st' := G.Exec(st, es);
      && st'.seg == st.seg && st'.caller.Out? && st'.worker == st.worker
      && st'.quickSends - st.quickSends == if !st.seg.acked && st.quickTick then 1 else 0
  {
    OneStep(st, G.Check);
    es := [G.Check];
    if !st.seg.acked && st.quickTick {
      G.RunSnoc(st, es, G.HandQuick);
      es := es + [G.HandQuick];
      G.RunSnoc(st, es, G.QuickSent(true));
      es := es + [G.QuickSent(true)];
      G.RunSnoc(st, es, G.TakeQuickReply);
      es := es + [G.TakeQuickReply];
    }
  }
}
