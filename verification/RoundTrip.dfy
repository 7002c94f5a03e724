/** The windowed minimum of measured round trips, which is the retransmission timeout of new segments. */
module RoundTrip {
  import opened Basics
  import opened SenderModel

  /** The filter after the given samples, the latest last. */
  function AfterSamples(samples: seq<int>): MinRtt {
    if samples == [] then MinRtt(0, DEF_RTO)
    else NextMinRtt(AfterSamples(samples[..|samples| - 1]), samples[|samples| - 1])
  }

  predicate IsMinimum(m: int, xs: seq<int>) {
    m in xs && forall x :: x in xs ==> m <= x
  }

  /** Sample number 0 is the default; the filter holds the minimum since the last multiple of twelve. */
  lemma {:induction false} FilterIsWindowedMinimum(samples: seq<int>)
    ensures var m := AfterSamples(samples);
      && m.n == |samples| % 12
      && IsMinimum(m.rtt, ([DEF_RTO] + samples)[12 * (|samples| / 12)..])
    decreases |samples|
  {
    if samples == [] {
      assert ([DEF_RTO] + samples)[0..] == [DEF_RTO];
    } else {
      var k := |samples|;
      var before := samples[..k - 1];
      var x := samples[k - 1];
      FilterIsWindowedMinimum(before);
      assert [DEF_RTO] + samples == [DEF_RTO] + before + [x];
      if k % 12 == 0 {
        assert ([DEF_RTO] + samples)[k..] == [x];
      } else {
        assert k / 12 == (k - 1) / 12;
        var from := 12 * (k / 12);
        assert ([DEF_RTO] + samples)[from..] == ([DEF_RTO] + before)[from..] + [x];
      }
    }
  }

  class Filter {
    var n: nat
    var rtt: int
    ghost var samples: seq<int>

    ghost predicate Valid()
      reads this
    {
      Value() == AfterSamples(samples)
    }

    function Value(): MinRtt
      reads this
    {
      MinRtt(n, rtt)
    }

    constructor ()
      ensures Valid() && samples == [] && Value() == MinRtt(0, DEF_RTO)
    {
      n, rtt := 0, DEF_RTO;
      samples := [];
    }

    /** `minrtt.com` */
    method Com(newrtt: int)
      requires Valid()
      modifies this
      ensures Valid() && samples == old(samples) + [newrtt]
      ensures Value() == NextMinRtt(old(Value()), newrtt)
      ensures n == |samples| % 12
      ensures IsMinimum(rtt, ([DEF_RTO] + samples)[12 * (|samples| / 12)..])
    {
      samples := samples + [newrtt];
      FilterIsWindowedMinimum(samples);
      if n > MIN_RTT_SAMPLING {
        n := 0;
        rtt := newrtt;
        return;
      }
      rtt := Min(rtt, newrtt);
      n := n + 1;
    }
  }
}
