/**
 One sent segment: its goroutine, its timers, and the caller that holds the segment's lock to acknowledge it or
 to resend it quickly. They meet over the unbuffered channels acks/acksr and qrs/qrsr. Here, unlike in
 `Protocol`, the segment may also end by its 10 second timer or by a send error.
 */
module SegmentProtocol {
  import opened Basics
  import opened SenderModel

  datatype EndBy = ByAck | ByTimeout | ByError

  /** Where the goroutine is. */
  datatype Worker =
    | Selecting
    | Ticking                   // in tickerResend, the send still to come
    | Quicking                  // in quickResend, the send still to come
    | QuickReplying(ok: bool)   // about to send on qrsr
    | Ending(why: EndBy)         // about to close acked
    | Closed(why: EndBy)         // about to raise EventEnd
    | AckReplying               // about to send on acksr
    | Gone

  /** Where the caller that holds the segment's lock is. */
  datatype Caller =
    | Out
    | AckChecking | AckOffering | AckWaiting         // AckIi: isAck, acks<-, <-acksr
    | QuickChecking | QuickOffering | QuickWaiting   // TryQResend: isAck, qrs<-, <-qrsr

  datatype State = State(
    worker: Worker,
    caller: Caller,
    seg: Segment,        // `acked` is the closed channel
    closes: nat,         // history: how often `acked` was closed
    ends: nat,           // history: EventEnds raised
    tickerSends: nat,    // history: sends by the ticker, failed ones included
    quickSends: nat,     // history: quick resends, failed ones included
    resendEvents: nat,   // history: EventResends raised
    quickArmed: bool,    // the quick-resend timer runs
    quickTick: bool)     // its tick waits

  function Fresh(bs: bytes, rto0: int): State {
    State(Selecting, Out, Segment(bs, false, rto0, 0), 0, 0, 0, 0, 0, true, false)
  }

  datatype Event =
    // calls
    | CallAck | CallQuick
    // the caller
    | Check | SeeAcked
    // both: a value passes over a channel
    | HandAck | HandQuick | TakeAckReply | TakeQuickReply
    // the goroutine
    | TickSent(ok: bool) | QuickSent(ok: bool) | CloseAcked | RaiseEnd
    // timers
    | TickFires | EndFires | QuickFires

  /** Everything but new calls and timers. */
  predicate Internal(e: Event) {
    !e.CallAck? && !e.CallQuick? && !e.TickFires? && !e.EndFires? && !e.QuickFires?
  }

  predicate Enabled(s: State, e: Event) {
    match e
    case CallAck => s.caller.Out?
    case CallQuick => s.caller.Out?
    case Check => s.caller.AckChecking? || s.caller.QuickChecking?
    case SeeAcked => (s.caller.AckOffering? || s.caller.QuickOffering?) && s.seg.acked
    case HandAck => s.caller.AckOffering? && s.worker.Selecting?
    case HandQuick => s.caller.QuickOffering? && s.worker.Selecting?
    case TakeAckReply => s.caller.AckWaiting? && s.worker.AckReplying?
    case TakeQuickReply => s.caller.QuickWaiting? && s.worker.QuickReplying?
    case TickSent(_) => s.worker.Ticking?
    case QuickSent(_) => s.worker.Quicking?
    case CloseAcked => s.worker.Ending?
    case RaiseEnd => s.worker.Closed?
    case TickFires => s.worker.Selecting?
    case EndFires => s.worker.Selecting?
    case QuickFires => s.quickArmed
  }

  function AfterCheck(s: State): State {
    if s.seg.acked then s.(caller := Out)
    else if s.caller.AckChecking? then s.(caller := AckOffering)
    else if s.quickTick then s.(caller := QuickOffering, quickTick := false)
    else s.(caller := Out)
  }

  function Apply(s: State, e: Event): State
    requires Enabled(s, e)
  {
    match e
    case CallAck => s.(caller := AckChecking)
    case CallQuick => s.(caller := QuickChecking)
    case Check => AfterCheck(s)
    case SeeAcked => s.(caller := Out, quickArmed := s.quickArmed || s.caller.QuickOffering?)
    case HandAck => s.(caller := AckWaiting, worker := Ending(ByAck))
    case HandQuick => s.(caller := QuickWaiting, worker := Quicking)
    case TakeAckReply => s.(caller := Out, worker := Gone)
    case TakeQuickReply =>
      s.(caller := Out, quickArmed := true, worker := if s.worker.ok then Selecting else Ending(ByError))
    case TickSent(ok) =>
      s.(tickerSends := s.tickerSends + 1,
         worker := if ok then Selecting else Ending(ByError),
         resendEvents := if ok then s.resendEvents + 1 else s.resendEvents)
    case QuickSent(ok) => s.(quickSends := s.quickSends + 1, worker := QuickReplying(ok))
    case CloseAcked =>
      s.(worker := Closed(s.worker.why), seg := s.seg.(acked := true), closes := s.closes + 1, quickArmed := false)
    case RaiseEnd => s.(worker := if s.worker.why.ByAck? then AckReplying else Gone, ends := s.ends + 1)
    case TickFires =>
      if TickerBudgetLeft(s.seg)
      then s.(worker := Ticking, seg := TickerResent(s.seg))
      else s
    case EndFires => s.(worker := Ending(ByTimeout))
    case QuickFires => s.(quickArmed := false, quickTick := true)
  }

  // ---------- the invariant ----------

  /** The timeout after `j` ticker resends. */
  function RtoAfter(rto0: int, j: nat): int {
    Min(MAX_RTO, rto0 + INC_RTO * j)
  }

  predicate Inv(s: State, rto0: int) {
    && (s.worker.Closed? || s.worker.AckReplying? || s.worker.Gone? <==> s.seg.acked)
    && s.closes == (if s.seg.acked then 1 else 0)
    && s.ends == (if s.worker.AckReplying? || s.worker.Gone? then 1 else 0)
    && (s.caller.AckWaiting? <==> s.worker == Ending(ByAck) || s.worker == Closed(ByAck) || s.worker.AckReplying?)
    && (s.caller.QuickWaiting? <==> s.worker.Quicking? || s.worker.QuickReplying?)
    && s.tickerSends + (if s.worker.Ticking? then 1 else 0) == s.seg.trsc <= MAX_TICKER_RESEND + 1
    && s.seg.rto == RtoAfter(rto0, s.seg.trsc)
    && s.resendEvents <= s.tickerSends
  }

  predicate Run(s: State, es: seq<Event>)
    decreases |es|
  {
    es == [] || (Enabled(s, es[0]) && Run(Apply(s, es[0]), es[1..]))
  }

  function Exec(s: State, es: seq<Event>): State
    requires Run(s, es)
    decreases |es|
  {
    if es == [] then s else Exec(Apply(s, es[0]), es[1..])
  }

  lemma StepKeeps(s: State, e: Event, rto0: int)
    requires Inv(s, rto0) && Enabled(s, e) && MIN_RTO <= rto0 <= MAX_RTO
    ensures Inv(Apply(s, e), rto0)
  {
  }

  lemma {:induction false} RunKeeps(s: State, es: seq<Event>, rto0: int)
    requires Inv(s, rto0) && Run(s, es) && MIN_RTO <= rto0 <= MAX_RTO
    ensures Inv(Exec(s, es), rto0)
    decreases |es|
  {
    if es != [] {
      StepKeeps(s, es[0], rto0);
      RunKeeps(Apply(s, es[0]), es[1..], rto0);
    }
  }

  // ---------- what callers and the ticker get, over every interleaving ----------

  /** `acked` is closed at most once and `EventEnd` raised at most once, and not before the close. */
  lemma EndsOnce(bs: bytes, rto0: int, es: seq<Event>)
    requires MIN_RTO <= rto0 <= MAX_RTO && Run(Fresh(bs, rto0), es)
    ensures var s := Exec(Fresh(bs, rto0), es);
      s.ends <= s.closes <= 1 && (s.closes == 1 <==> s.seg.acked)
  {
    RunKeeps(Fresh(bs, rto0), es, rto0);
  }

  /** The step on which `AckIi` returns finds `acked` closed. */
  lemma AckReturnsAcked(bs: bytes, rto0: int, es: seq<Event>, e: Event)
    requires MIN_RTO <= rto0 <= MAX_RTO && Run(Fresh(bs, rto0), es) && Enabled(Exec(Fresh(bs, rto0), es), e)
    ensures var s := Exec(Fresh(bs, rto0), es);
      (s.caller.AckChecking? || s.caller.AckOffering? || s.caller.AckWaiting?) && Apply(s, e).caller.Out?
      ==> s.seg.acked
  {
    RunKeeps(Fresh(bs, rto0), es, rto0);
  }

  /** The internal step that is always there while a call is in progress. */
  function NextInternal(s: State): Event {
    match s.worker
    case Ticking => TickSent(true)
    case Quicking => QuickSent(true)
    case Ending(_) => CloseAcked
    case Closed(_) => RaiseEnd
    case QuickReplying(_) => TakeQuickReply
    case AckReplying => TakeAckReply
    case Selecting => if s.caller.AckOffering? then HandAck else if s.caller.QuickOffering? then HandQuick else Check
    case Gone => if s.caller.AckOffering? || s.caller.QuickOffering? then SeeAcked else Check
  }

  /** No state leaves the caller and the goroutine blocked on each other. */
  lemma NoDeadlock(bs: bytes, rto0: int, es: seq<Event>)
    requires MIN_RTO <= rto0 <= MAX_RTO && Run(Fresh(bs, rto0), es)
    ensures var s := Exec(Fresh(bs, rto0), es);
      !s.caller.Out? ==> Internal(NextInternal(s)) && Enabled(s, NextInternal(s))
  {
    RunKeeps(Fresh(bs, rto0), es, rto0);
  }

  /** How many internal steps are left at most. */
  function Rank(s: State): nat {
    (match s.caller
     case Out => 0
     case AckWaiting => 1
     case QuickWaiting => 1
     case AckOffering => 10
     case QuickOffering => 10
     case AckChecking => 11
     case QuickChecking => 11)
    + (match s.worker
       case Selecting => 0
       case Gone => 0
       case AckReplying => 1
       case Closed(_) => 2
       case Ending(_) => 3
       case Ticking => 4
       case QuickReplying(_) => 4
       case Quicking => 5)
  }

  predicate AllInternal(es: seq<Event>) {
    forall i :: 0 <= i < |es| ==> Internal(es[i])
  }

  /** Whatever the order, the goroutine and the caller take at most `Rank` steps without a timer or a new call. */
  lemma {:induction false} InternalRunsEnd(s: State, es: seq<Event>)
    requires Run(s, es) && AllInternal(es)
    ensures |es| + Rank(Exec(s, es)) <= Rank(s)
    decreases |es|
  {
    if es != [] {
      assert Rank(Apply(s, es[0])) < Rank(s);
      InternalRunsEnd(Apply(s, es[0]), es[1..]);
    }
  }

  /** So every call returns: in at most 16 steps, none of them a timer's. */
  lemma {:induction false} CallReturns(s: State, rto0: int) returns (es: seq<Event>)
    requires Inv(s, rto0) && MIN_RTO <= rto0 <= MAX_RTO
    ensures Run(s, es) && AllInternal(es) && Exec(s, es).caller.Out? && |es| <= 16
    decreases Rank(s)
  {
    if s.caller.Out? {
      es := [];
    } else {
      var e := NextInternal(s);
      StepKeeps(s, e, rto0);
      var rest := CallReturns(Apply(s, e), rto0);
      es := [e] + rest;
      assert es[1..] == rest;
      InternalRunsEnd(s, es);
    }
  }

  // ---------- what the goroutine does send ----------

  function One(b: bool): nat {
    if b then 1 else 0
  }

  function Firings(es: seq<Event>): nat {
    if es == [] then 0 else One(es[0].TickFires?) + Firings(es[1..])
  }

  function TickerSent(es: seq<Event>, ok: bool): nat {
    if es == [] then 0 else One(es[0] == TickSent(ok)) + TickerSent(es[1..], ok)
  }

  function QuickSendings(es: seq<Event>): nat {
    if es == [] then 0 else One(es[0].QuickSent?) + QuickSendings(es[1..])
  }

  lemma StepCounts(s: State, e: Event, rto0: int)
    requires Inv(s, rto0) && Enabled(s, e)
    ensures var s' := Apply(s, e);
      && s'.tickerSends == s.tickerSends + One(e == TickSent(true)) + One(e == TickSent(false))
      && s'.resendEvents == s.resendEvents + One(e == TickSent(true))
      && s'.quickSends == s.quickSends + One(e.QuickSent?)
      && s'.seg.trsc == Min(11, s.seg.trsc + One(e.TickFires?))
  {
  }

  /** The histories count what happened, and of the ticker's firings the first eleven resend. */
  lemma {:induction false} RunCounts(s: State, es: seq<Event>, rto0: int)
    requires Inv(s, rto0) && MIN_RTO <= rto0 <= MAX_RTO && Run(s, es)
    ensures var s' := Exec(s, es);
      && s'.tickerSends == s.tickerSends + TickerSent(es, true) + TickerSent(es, false)
      && s'.resendEvents == s.resendEvents + TickerSent(es, true)
      && s'.quickSends == s.quickSends + QuickSendings(es)
      && s'.seg.trsc == Min(11, s.seg.trsc + Firings(es))
    decreases |es|
  {
    if es != [] {
      StepCounts(s, es[0], rto0);
      StepKeeps(s, es[0], rto0);
      RunCounts(Apply(s, es[0]), es[1..], rto0);
    }
  }

  /** Every firing of the ticker up to the eleventh resends the segment, later ones do not; the timeout after `j`
      resends is rto0 + 15j ms, at most 500 ms; and each resend that succeeds is reported to the window. */
  lemma TickerBudget(bs: bytes, rto0: int, es: seq<Event>)
    requires MIN_RTO <= rto0 <= MAX_RTO && Run(Fresh(bs, rto0), es)
    ensures var s := Exec(Fresh(bs, rto0), es);
      var j := Min(11, Firings(es));
      && s.tickerSends + (if s.worker.Ticking? then 1 else 0) == j
      && s.seg.rto == Min(500_000_000, rto0 + 15_000_000 * j)
      && s.tickerSends == TickerSent(es, true) + TickerSent(es, false)
      && s.resendEvents == TickerSent(es, true)
  {
    RunKeeps(Fresh(bs, rto0), es, rto0);
    RunCounts(Fresh(bs, rto0), es, rto0);
  }

  /** A firing with budget left, or a quick resend handed over, makes the goroutine send: that step is enabled from then
      on, and no other moves the goroutine. */
  lemma SendIsNext(s: State, e: Event, e': Event)
    requires Enabled(s, e) && ((e.TickFires? && s.seg.trsc <= 10) || e.HandQuick?)
    ensures var s1 := Apply(s, e);
      && Enabled(s1, if e.TickFires? then TickSent(true) else QuickSent(true))
      && (Enabled(s1, e') ==>
            && (Apply(s1, e').worker == s1.worker || if e.TickFires? then e'.TickSent? else e'.QuickSent?)
            && (Apply(s1, e').worker == s1.worker ==>
                  Enabled(Apply(s1, e'), if e.TickFires? then TickSent(true) else QuickSent(true))))
  {
  }

  /** `TryQResend` goes on to a quick resend exactly when the segment is unacked and its timer has fired, and uses the
      tick up; it then returns only after the send, or when the segment ended meanwhile. */
  lemma QuickCallResends(s: State, e: Event)
    requires Enabled(s, e)
    ensures s.caller.QuickChecking? && e.Check? ==>
              && (Apply(s, e).caller.QuickOffering? <==> !s.seg.acked && s.quickTick)
              && (Apply(s, e).caller.QuickOffering? || Apply(s, e).caller.Out?)
              && (Apply(s, e).quickTick <==> s.seg.acked && s.quickTick)
    ensures s.caller.QuickOffering? && Apply(s, e).caller != s.caller ==>
              if e.HandQuick? then Apply(s, e).worker.Quicking? && Apply(s, e).caller.QuickWaiting?
              else s.seg.acked && Apply(s, e).caller.Out?
    ensures s.caller.QuickWaiting? && Apply(s, e).caller != s.caller ==>
              s.worker.QuickReplying? && Apply(s, e).caller.Out? && Apply(s, e).quickArmed
  {
  }

  function QuickFirings(es: seq<Event>): nat {
    if es == [] then 0 else One(es[0].QuickFires?) + QuickFirings(es[1..])
  }

  /** After `n` firings of the quick-resend timer. */
  predicate QuickInv(s: State, n: nat) {
    && (s.quickArmed ==> !s.quickTick)
    && (s.caller.QuickOffering? || s.caller.QuickWaiting? ==> !s.quickTick && !s.quickArmed)
    && var used := s.quickSends + One(s.quickTick) + One(s.caller.QuickOffering?) + One(s.worker.Quicking?);
       used <= n && (!s.seg.acked ==> used == n)
  }

  lemma QuickStepKeeps(s: State, e: Event, rto0: int, n: nat)
    requires Inv(s, rto0) && QuickInv(s, n) && Enabled(s, e)
    ensures QuickInv(Apply(s, e), n + One(e.QuickFires?))
  {
  }

  lemma {:induction false} QuickRunKeeps(s: State, es: seq<Event>, rto0: int, n: nat)
    requires Inv(s, rto0) && QuickInv(s, n) && Run(s, es) && MIN_RTO <= rto0 <= MAX_RTO
    ensures QuickInv(Exec(s, es), n + QuickFirings(es))
    decreases |es|
  {
    if es != [] {
      StepKeeps(s, es[0], rto0);
      QuickStepKeeps(s, es[0], rto0, n);
      QuickRunKeeps(Apply(s, es[0]), es[1..], rto0, n + One(es[0].QuickFires?));
    }
  }

  /** Each quick resend uses up one firing of the quick-resend timer, and while the segment is unacked no firing is
      lost: it waits as a tick, is on its way to the goroutine, or has been a resend. */
  lemma QuickBudget(bs: bytes, rto0: int, es: seq<Event>)
    requires MIN_RTO <= rto0 <= MAX_RTO && Run(Fresh(bs, rto0), es)
    ensures var s := Exec(Fresh(bs, rto0), es);
      && s.quickSends == QuickSendings(es) <= QuickFirings(es)
      && (!s.seg.acked ==>
            QuickFirings(es) == s.quickSends + One(s.quickTick) + One(s.caller.QuickOffering?) + One(s.worker.Quicking?))
  {
    RunCounts(Fresh(bs, rto0), es, rto0);
    QuickRunKeeps(Fresh(bs, rto0), es, rto0, 0);
  }

  /** What makes the goroutine end: the ack, the ten second timer, or an error of a send. */
  predicate IsCause(e: Event) {
    e.HandAck? || e.EndFires? || e == TickSent(false) || e == QuickSent(false)
  }

  predicate IsOver(w: Worker) {
    w.Ending? || w.Closed? || w.AckReplying? || w.Gone? || w == QuickReplying(false)
  }

  /** Over every run, the goroutine is at its end exactly when there was a cause for it. */
  lemma {:induction false} EndsForCause(s: State, es: seq<Event>)
    requires Run(s, es)
    ensures IsOver(Exec(s, es).worker) <==> IsOver(s.worker) || exists i :: 0 <= i < |es| && IsCause(es[i])
    decreases |es|
  {
    if es != [] {
      EndsForCause(Apply(s, es[0]), es[1..]);
      assert forall i :: 0 < i < |es| ==> es[i] == es[1..][i - 1];
      assert IsOver(Apply(s, es[0]).worker) <==> IsOver(s.worker) || IsCause(es[0]);
    }
  }

  // ---------- the ticker on an ideal clock, without quick resends ----------

  const SECOND := 1_000_000_000

  /** The segment and the time its resend timer fires next. */
  datatype Clocked = Clocked(seg: Segment, next: int)

  function AfterFiring(c: Clocked): Clocked {
    if TickerBudgetLeft(c.seg) then Clocked(TickerResent(c.seg), c.next + TickerResent(c.seg).rto)
    else Clocked(c.seg, c.next + 20 * SECOND)
  }

  function AfterFirings(bs: bytes, rto0: int, k: nat): Clocked {
    if k == 0 then Clocked(Segment(bs, false, rto0, 0), rto0) else AfterFiring(AfterFirings(bs, rto0, k - 1))
  }

  /** The sum of the first `k` + 1 timeouts. */
  function TimeoutSum(rto0: int, k: nat): int {
    Min(500_000_000, rto0 + 15_000_000 * k) + if k == 0 then 0 else TimeoutSum(rto0, k - 1)
  }

  /** The `k`-th firing comes when `k` timeouts have passed; the budget is spent within six seconds, and the firing after
      that is past the ten second end. */
  lemma {:induction false} BudgetSpentInSixSeconds(bs: bytes, rto0: int, k: nat)
    requires MIN_RTO <= rto0 <= MAX_RTO
    ensures var c := AfterFirings(bs, rto0, k);
      && c.seg.trsc == Min(k, 11)
      && c.seg.rto == RtoAfter(rto0, Min(k, 11))
      && (k <= 11 ==> c.next == TimeoutSum(rto0, k) && 0 < c.next <= (k + 1) * 500_000_000 <= 6 * SECOND)
      && (11 < k ==> c.next == TimeoutSum(rto0, 11) + 20 * SECOND * (k - 11) && 10 * SECOND < c.next)
  {
    if k > 0 {
      BudgetSpentInSixSeconds(bs, rto0, k - 1);
    }
  }

  /** The clock's firings are firings of the goroutine's ticker, each followed by its send. */
  function FiringRun(k: nat): seq<Event> {
    if k == 0 then [] else FiringRun(k - 1) + if k <= 11 then [TickFires, TickSent(true)] else [TickFires]
  }

  lemma {:induction false} RunSnoc(s: State, es: seq<Event>, e: Event)
    requires Run(s, es) && Enabled(Exec(s, es), e)
    ensures Run(s, es + [e]) && Exec(s, es + [e]) == Apply(Exec(s, es), e)
    decreases |es|
  {
    if es == [] {
      assert [e][1..] == [] && es + [e] == [e];
    } else {
      RunSnoc(Apply(s, es[0]), es[1..], e);
      assert (es + [e])[0] == es[0] && (es + [e])[1..] == es[1..] + [e];
    }
  }

  lemma {:induction false} ClockIsTicker(bs: bytes, rto0: int, k: nat)
    requires MIN_RTO <= rto0 <= MAX_RTO
    ensures Run(Fresh(bs, rto0), FiringRun(k))
    ensures var s := Exec(Fresh(bs, rto0), FiringRun(k));
      s.worker.Selecting? && s.seg == AfterFirings(bs, rto0, k).seg && s.tickerSends == Min(k, 11)
  {
    if k > 0 {
      ClockIsTicker(bs, rto0, k - 1);
      BudgetSpentInSixSeconds(bs, rto0, k - 1);
      var s0, es := Fresh(bs, rto0), FiringRun(k - 1);
      RunSnoc(s0, es, TickFires);
      if k <= 11 {
        RunSnoc(s0, es + [TickFires], TickSent(true));
        assert es + [TickFires, TickSent(true)] == (es + [TickFires]) + [TickSent(true)];
      }
    }
  }
}
