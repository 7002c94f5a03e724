/** The bounded byte queue between the application and a window, with its two wake-up channels. */
module ByteQueue {
  import opened Basics

  /** A channel that is never sent on, only closed: closing it wakes everyone who waits on it. */
  class Signal {
    var closed: bool

    constructor ()
      ensures !closed
    {
      closed := false;
    }

    /** `select { case <-c: default: close(c) }` */
    method Close()
      modifies this
      ensures closed
    {
      closed := true;
    }
  }

  datatype PushResult = Pushed | PushStopped | PushTimedOut | PushBlocked

  datatype PopResult = Popped(bs: bytes) | PopStopped | PopTimedOut | PopBlocked

  /** What other goroutines do between two turns of a writer: pop up to `popped` bytes, give the stop signal, let
      the timeout pass. */
  datatype Other = Other(popped: nat, stop: bool, timeout: bool)

  /** Readers make room every time, and nobody stops the writer. */
  predicate OnlyPops(others: seq<Other>) {
    forall o :: o in others ==> 0 < o.popped && !o.stop && !o.timeout
  }

  /** How much of a full destination of length `n` one pop takes from a queue of length `l`. */
  function PopCount(l: nat, n: nat): nat {
    if n == 0 || l < n then l else n
  }

  /** How many bytes they pop at most. */
  function PopSum(others: seq<Other>): nat {
    if others == [] then 0 else PopSum(others[..|others| - 1]) + others[|others| - 1].popped
  }

  lemma PopSumGrows(others: seq<Other>, k: nat)
    requires k < |others|
    ensures PopSum(others[..k + 1]) == PopSum(others[..k]) + others[k].popped
  {
    assert others[..k + 1][..k] == others[..k];
  }

  lemma {:induction false} PopSumOfPrefix(others: seq<Other>, k: nat)
    requires k <= |others|
    ensures PopSum(others[..k]) <= PopSum(others)
    decreases |others| - k
  {
    if k < |others| {
      PopSumGrows(others, k);
      PopSumOfPrefix(others, k + 1);
    } else {
      assert others[..k] == others;
    }
  }

  /** Bytes may leave a queue only to readers, and in order: at most `n` went. */
  predicate Removes(before: bytes, after: bytes, n: nat) {
    before <= after && |after| <= |before| + n
  }

  lemma RemovesTrans(a: bytes, b: bytes, c: bytes, m: nat, n: nat)
    requires Removes(a, b, m) && Removes(b, c, n)
    ensures Removes(a, c, m + n)
  {
  }

  /** When nothing left, what was pushed is at the end of the queue. */
  lemma OnlyAppended(removed: bytes, removed': bytes, bs: bytes, bs': bytes, more: bytes)
    requires Removes(removed, removed', 0) && removed' + bs' == (removed + bs) + more
    ensures removed' == removed && bs' == bs + more
  {
    assert removed' == removed;
    assert (removed + bs)  + more == removed + (bs + more);
    assert bs' == (removed' + bs')[|removed'|..] == bs + more;
  }

  predicate SomeStop(others: seq<Other>) {
    exists o :: o in others && o.stop
  }

  /** `rest` is the end of `byt`. */
  predicate IsRest(byt: bytes, rest: bytes) {
    |rest| <= |byt| && rest == byt[|byt| - |rest|..]
  }

  /** What comes before it. */
  function Done(byt: bytes, rest: bytes): bytes
    requires |rest| <= |byt|
  {
    byt[..|byt| - |rest|]
  }

  class Queue {
    var bs: bytes
    var readBlock: Signal
    var writeBlock: Signal
    const Size: nat

    ghost var installed: set<Signal>  // every channel that ever was readBlock or writeBlock
    ghost var pushed: bytes           // every byte put in
    ghost var removed: bytes          // every byte taken out

    ghost predicate Valid()
      reads this, installed
    {
      && readBlock in installed && writeBlock in installed && readBlock != writeBlock
      && 0 < Size && |bs| <= Size
      && (readBlock.closed <==> bs != [])
      && (writeBlock.closed <==> |bs| < Size)
      && (forall c :: c in installed && c != readBlock && c != writeBlock ==> c.closed)
      && pushed == removed + bs
    }

    constructor (size: nat)
      ensures Valid() && fresh(installed)
      ensures bs == [] && pushed == [] && removed == []
      ensures Size == if size == 0 then 14420 else size
    {
      bs := [];
      var r := new Signal();
      var w := new Signal();
      w.Close();
      readBlock := r;
      writeBlock := w;
      Size := if size == 0 then BUFFER_SIZE else size;
      installed := {r, w};
      pushed, removed := [], [];
    }

    /** No lost wake-up: a channel still open is the current one, and there really is nothing to wait up for. */
    lemma NoOrphan(c: Signal)
      requires Valid() && c in installed && !c.closed
      ensures (c == readBlock && bs == []) || (c == writeBlock && |bs| == Size)
    {
    }

    /** The locked part of `push`, run by a writer that `w` woke. By then the queue may be full again. */
    method PushWoken(w: Signal, byt: bytes) returns (rest: bytes)
      requires Valid() && w in installed && w.closed
      modifies this, installed
      ensures Valid() && installed >= old(installed) && fresh(installed - old(installed))
      ensures var k := Min(Size - |old(bs)|, |byt|);
        bs == old(bs) + byt[..k] && rest == byt[k..] && pushed == old(pushed) + byt[..k]
      ensures removed == old(removed)
    {
      if |bs| >= Size {
        rest := byt;
        return;
      }
      var s := Size - |bs|;
      if |byt| < s {
        s := |byt|;
      }
      bs := bs + byt[..s];
      pushed := pushed + byt[..s];
      if |bs| > 0 {
        readBlock.Close();
      }
      if |bs| >= Size {
        writeBlock.Close();
        var w' := new Signal();
        writeBlock := w';
        installed := installed + {w'};
      }
      rest := byt[s..];
    }

    /** `pop` into a destination of length `n`. An empty destination loses the whole queue. */
    method Pop(n: nat) returns (out: bytes, nn: nat)
      requires Valid()
      modifies this, installed
      ensures Valid() && installed >= old(installed) && fresh(installed - old(installed))
      ensures nn == PopCount(|old(bs)|, n)
      ensures bs == old(bs)[nn..] && removed == old(removed) + old(bs)[..nn] && pushed == old(pushed)
      ensures out == old(bs)[..Min(n, nn)]
      ensures 0 < n ==> |out| == nn && old(bs) == out + bs
    {
      if |bs| <= 0 {
        return [], 0;
      }
      nn := n;
      if n <= 0 || |bs| < n {
        nn := |bs|;
      }
      out := bs[..Min(n, nn)];
      removed := removed + bs[..nn];
      bs := bs[nn..];
      if |bs| < Size {
        writeBlock.Close();
      }
      if |bs| <= 0 {
        readBlock.Close();
        var r' := new Signal();
        readBlock := r';
        installed := installed + {r'};
      }
    }

    /** `BlockPop`: `None` stands for the panic after a second without data. */
    method BlockPop(n: nat) returns (r: Option<bytes>)
      requires Valid() && 0 < n
      modifies this, installed
      ensures Valid() && installed >= old(installed) && fresh(installed - old(installed))
      ensures r.Some? <==> old(bs) != []
      ensures r.Some? ==> |r.value| == Min(n, |old(bs)|) && old(bs) == r.value + bs
      ensures r.None? ==> bs == old(bs)
      ensures pushed == old(pushed)
    {
      if readBlock.closed {
        var out, nn := Pop(n);
        r := Some(out);
      } else {
        r := None;
      }
    }

    /** `BlockPopWithSignal`: any one of the ready cases is taken. */
    method BlockPopWithSignal(n: nat, stop: bool, to: bool) returns (r: PopResult)
      requires Valid() && 0 < n
      modifies this, installed
      ensures Valid() && installed >= old(installed) && fresh(installed - old(installed))
      ensures r.Popped? ==> r.bs != [] && |r.bs| == Min(n, |old(bs)|) && old(bs) == r.bs + bs
      ensures !r.Popped? ==> bs == old(bs)
      ensures r.PopStopped? ==> stop
      ensures r.PopTimedOut? ==> to
      ensures r.PopBlocked? <==> old(bs) == [] && !stop && !to
      ensures pushed == old(pushed)
    {
      if {
        case readBlock.closed =>
          var out, nn := Pop(n);
          r := Popped(out);
        case to => r := PopTimedOut;
        case stop => r := PopStopped;
        case !readBlock.closed && !to && !stop => r := PopBlocked;
      }
    }

    /** `push`: any ready case of its `select` is taken. */
    method Push(byt: bytes, stop: bool, to: bool) returns (rest: bytes, res: PushResult)
      requires Valid() && byt != []
      modifies this, installed
      ensures Valid() && installed >= old(installed) && fresh(installed - old(installed))
      ensures IsRest(byt, rest)
      ensures removed == old(removed) && bs == old(bs) + Done(byt, rest)
      ensures pushed == old(pushed) + Done(byt, rest)
      ensures res.Pushed? ==> |old(bs)| < Size && |rest| == |byt| - Min(Size - |old(bs)|, |byt|)
      ensures !res.Pushed? ==> rest == byt && bs == old(bs)
      ensures res.PushStopped? ==> stop
      ensures res.PushTimedOut? ==> to
      ensures res.PushBlocked? <==> |old(bs)| == Size && !stop && !to
    {
      if {
        case stop => rest, res := byt, PushStopped;
        case to => rest, res := byt, PushTimedOut;
        case writeBlock.closed =>
          rest := PushWoken(writeBlock, byt);
          res := Pushed;
        case !writeBlock.closed && !stop && !to => rest, res := byt, PushBlocked;
      }
    }

    /** A turn of the loop, after others did `o`. */
    method Turn(byt: bytes, o: Other, stop: bool, to: bool) returns (rest: bytes, res: PushResult)
      requires Valid() && byt != []
      modifies this, installed
      ensures Valid() && installed >= old(installed) && fresh(installed - old(installed))
      ensures IsRest(byt, rest)
      ensures pushed == old(pushed) + Done(byt, rest)
      ensures if res.Pushed? then |rest| < |byt| else rest == byt
      ensures Removes(old(removed), removed, o.popped)
      ensures bs == old(bs)[Min(o.popped, |old(bs)|)..] + Done(byt, rest)
      ensures res.PushStopped? ==> stop
      ensures res.PushTimedOut? ==> to
      ensures res.PushBlocked? ==> |bs| == Size && !stop && !to && o.popped == 0
    {
      if 0 < o.popped {
        var _, _ := Pop(o.popped);
      }
      rest, res := Push(byt, stop, to);
    }

    /** `BlockPushWithSignal`: pushes chunk after chunk. At each turn the next entry of `others` says what other
        goroutines did since the last one; with none left nothing more happens, and a writer on a full queue is
        still waiting. `stopped` says whether the stop signal has been given, `timed` whether there is a timeout. */
    method BlockPush(byt: bytes, others: seq<Other>, stop: bool, timed: bool)
      returns (rest: bytes, res: PushResult, stopped: bool)
      requires Valid()
      modifies this, installed
      ensures Valid() && installed >= old(installed) && fresh(installed - old(installed))
      ensures IsRest(byt, rest)
      ensures pushed == old(pushed) + Done(byt, rest)
      ensures Removes(old(removed), removed, PopSum(others))
      ensures PopSum(others) == 0 ==> bs == old(bs) + Done(byt, rest)
      ensures res.Pushed? <==> rest == []
      ensures res.PushBlocked? ==> |bs| == Size && !stopped
      ensures res.PushStopped? ==> stopped
      ensures res.PushTimedOut? ==> timed
      ensures (stop ==> stopped) && (stopped ==> stop || SomeStop(others))
      ensures |byt| <= |others| && !stop && OnlyPops(others) ==> res.Pushed?
    {
      var used, to := 0, false;
      rest, res, stopped := byt, Pushed, stop;
      while |rest| > 0
        invariant Valid() && installed >= old(installed) && fresh(installed - old(installed))
        invariant IsRest(byt, rest)
        invariant pushed == old(pushed) + Done(byt, rest)
        invariant used <= |others|
        invariant Removes(old(removed), removed, PopSum(others[..used]))
        invariant rest == [] ==> res.Pushed?
        invariant (stop ==> stopped) && (stopped ==> stop || SomeStop(others))
        invariant to ==> timed
        invariant !stop && OnlyPops(others) ==> !stopped && !to && used + |rest| <= |byt|
        decreases |rest| + |others| - used
      {
        var more := used < |others|;
        var o := Other(0, false, false);
        if more {
          o := others[used];
          used := used + 1;
        }
        stopped := stopped || o.stop;
        to := to || (timed && o.timeout);
        ghost var before, removed0, used0 := rest, removed, if more then used - 1 else used;
        rest, res := Turn(rest, o, stopped, to);
        PrefixGrows(old(pushed), byt, before, rest);
        assert fresh(installed - old(installed));
        TurnCounted(others, used0, used, old(removed), removed0, removed, o.popped);
        if !res.Pushed? && !(res.PushBlocked? && more) {
          break;
        }
      }
      Finished(others, used, old(removed), removed, old(bs), bs, Done(byt, rest));
    }
  }

  /** One more turn in the bound on removals. */
  lemma TurnCounted(others: seq<Other>, k: nat, k': nat, before: bytes, mid: bytes, after: bytes, n: nat)
    requires k <= k' <= |others| && Removes(before, mid, PopSum(others[..k])) && Removes(mid, after, n)
    requires if k' == k then n == 0 else k' == k + 1 && n == others[k].popped
    ensures Removes(before, after, PopSum(others[..k']))
  {
    if k < k' {
      PopSumGrows(others, k);
    }
    RemovesTrans(before, mid, after, PopSum(others[..k]), n);
  }

  /** What the bound on removals means after `used` turns, and for the queue's contents. */
  lemma Finished(others: seq<Other>, used: nat, removed: bytes, removed': bytes, bs: bytes, bs': bytes, done: bytes)
    requires used <= |others| && Removes(removed, removed', PopSum(others[..used]))
    requires removed' + bs' == (removed + bs) + done
    ensures Removes(removed, removed', PopSum(others))
    ensures PopSum(others) == 0 ==> bs' == bs + done
  {
    PopSumOfPrefix(others, used);
    if PopSum(others) == 0 {
      OnlyAppended(removed, removed', bs, bs', done);
    }
  }

  lemma PrefixGrows(before: bytes, byt: bytes, mid: bytes, rest: bytes)
    requires IsRest(byt, mid) && IsRest(mid, rest)
    ensures IsRest(byt, rest)
    ensures (before + Done(byt, mid)) + Done(mid, rest) == before + Done(byt, rest)
  {
    assert Done(byt, mid) + Done(mid, rest) == Done(byt, rest);
  }
}
