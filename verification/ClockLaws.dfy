/** Error bounds: of one sample, of a scheduled start, and of the reported skew. */
module ClockLaws {
  import opened Types
  import opened Clock
  import opened AckTable

  /** A sample whose request left before the server's first timestamp and whose reply arrived
      after its second is accurate; the error is half the difference of the two delays, so it
      vanishes exactly on a symmetric path and reaches rtt/2 when one delay is 0. */
  lemma SampleIsAccurate(trueOffset: real, t0: real, t1: real, t2: real, t3: real)
    requires t0 + trueOffset <= t1 && t2 <= t3 + trueOffset
    ensures var s := SampleOf(t0, t1, t2, t3);
      && Accurate(trueOffset, s.offsetMs, s.rttMs)
      && (s.offsetMs == 1000.0 * trueOffset <==> t1 - (t0 + trueOffset) == (t3 + trueOffset) - t2)
      && (Abs(s.offsetMs - 1000.0 * trueOffset) == s.rttMs / 2.0 <==> t0 + trueOffset == t1 || t2 == t3 + trueOffset)
  {
    var out, back := t1 - (t0 + trueOffset), (t3 + trueOffset) - t2;
    var s := SampleOf(t0, t1, t2, t3);
    assert s.offsetMs - 1000.0 * trueOffset == 500.0 * (out - back);
    assert s.rttMs == 1000.0 * (out + back);
  }

  function Times(x: real, n: nat): real {
    x * n as real
  }

  lemma TimesOneMore(x: real, n: nat)
    ensures Times(x, 0) == 0.0 && Times(x, n + 1) == Times(x, n) + x
  {
    assert (n + 1) as real == n as real + 1.0;
  }

  /** The offset total, hence the average offset, stays between common bounds of the samples. */
  lemma {:induction false} TotalBetween(samples: seq<Sample>, lo: real, hi: real)
    requires forall s :: s in samples ==> lo <= s.offsetMs <= hi
    ensures Times(lo, |samples|) <= Total(samples) <= Times(hi, |samples|)
  {
    hide Times;
    TimesOneMore(lo, if samples == [] then 0 else |samples| - 1);
    TimesOneMore(hi, if samples == [] then 0 else |samples| - 1);
    if samples != [] {
      var init, last := samples[..|samples| - 1], samples[|samples| - 1];
      assert last in samples;
      forall s | s in init ensures s in samples {}
      TotalBetween(init, lo, hi);
    }
  }

  /** Handlers that start no earlier than the mapped local target start, on the server's clock,
      no earlier than executeAt - rtt/2; and if they start at most `late` after the target, no
      later than executeAt + rtt/2 + late. */
  lemma StartWindow(trueOffset: real, offsetMs: real, rttMs: real, executeAt: real, start: real, late: real)
    requires Accurate(trueOffset, offsetMs, rttMs)
    requires LocalForServer(executeAt, offsetMs) <= start
    ensures executeAt - rttMs / 2000.0 <= start + trueOffset
    ensures start <= LocalForServer(executeAt, offsetMs) + late ==> start + trueOffset <= executeAt + rttMs / 2000.0 + late
  {
    assert offsetMs / 1000.0 - trueOffset == (offsetMs - 1000.0 * trueOffset) / 1000.0;
  }

  /** A delay metric computed with an accurate pair differs by at most half the round trip from
      the true delay (milliseconds, cut off at 0). */
  lemma DelayIsSound(trueOffset: real, offsetMs: real, rttMs: real, ts: real, serverTs: real)
    requires Accurate(trueOffset, offsetMs, rttMs)
    ensures Abs(DelayMs(ts + offsetMs / 1000.0, serverTs) - Max(0.0, (ts + trueOffset - serverTs) * 1000.0)) <= rttMs / 2.0
  {
    assert (ts + offsetMs / 1000.0 - serverTs) * 1000.0 == (ts - serverTs) * 1000.0 + offsetMs;
    assert (ts + trueOffset - serverTs) * 1000.0 == (ts - serverTs) * 1000.0 + 1000.0 * trueOffset;
  }

  // ---------- skew ----------

  /** The same apply times on the server's true clock. */
  function TrueTimes(times: seq<ApplyTime>, trueOffset: Peer -> real): (r: seq<ApplyTime>)
    ensures |r| == |times|
  {
    if times == [] then []
    else
      var last := times[|times| - 1];
      TrueTimes(times[..|times| - 1], trueOffset) + [last.(at := last.applyTs + trueOffset(last.peer))]
  }

  function WorstRtt(times: seq<ApplyTime>): real
    requires times != []
  {
    if |times| == 1 then times[0].rttMs
    else Max(times[|times| - 1].rttMs, WorstRtt(times[..|times| - 1]))
  }

  lemma {:induction false} WorstIsLargest(times: seq<ApplyTime>)
    requires times != []
    ensures forall x :: x in times ==> x.rttMs <= WorstRtt(times)
    ensures exists x :: x in times && x.rttMs == WorstRtt(times)
  {
    var init, last := times[..|times| - 1], times[|times| - 1];
    assert forall x :: x in times <==> x in init || x == last;
    if init != [] {
      WorstIsLargest(init);
    }
  }

  /** Each entry was mapped with the clock pair it carries. */
  ghost predicate MappedByPair(times: seq<ApplyTime>) {
    forall x :: x in times ==> x.at == x.applyTs + x.offsetMs / 1000.0
  }

  ghost predicate AllAccurate(times: seq<ApplyTime>, trueOffset: Peer -> real) {
    forall x :: x in times ==> Accurate(trueOffset(x.peer), x.offsetMs, x.rttMs)
  }

  lemma EntryMovesLittle(x: ApplyTime, theta: real)
    requires x.at == x.applyTs + x.offsetMs / 1000.0 && Accurate(theta, x.offsetMs, x.rttMs)
    ensures Abs(x.at - (x.applyTs + theta)) <= x.rttMs / 2000.0
  {
    assert x.at - (x.applyTs + theta) == (x.offsetMs - 1000.0 * theta) / 1000.0;
  }

  lemma {:induction false} ExtremesMoveLittle(times: seq<ApplyTime>, trueOffset: Peer -> real)
    requires times != [] && MappedByPair(times) && AllAccurate(times, trueOffset)
    ensures var real_ := TrueTimes(times, trueOffset);
      && Abs(MaxAt(times) - MaxAt(real_)) <= WorstRtt(times) / 2000.0
      && Abs(MinAt(times) - MinAt(real_)) <= WorstRtt(times) / 2000.0
  {
    var init, last := times[..|times| - 1], times[|times| - 1];
    var real_ := TrueTimes(times, trueOffset);
    assert last in times;
    EntryMovesLittle(last, trueOffset(last.peer));
    hide Accurate;
    if init != [] {
      forall x | x in init ensures x in times {}
      ExtremesMoveLittle(init, trueOffset);
      assert real_[..|real_| - 1] == TrueTimes(init, trueOffset);
    } else {
      assert real_ == [real_[0]];
    }
  }

  /** A skew computed from accurate clock pairs differs from the true one by at most the largest
      round trip in the group (milliseconds). */
  lemma SkewIsSound(times: seq<ApplyTime>, trueOffset: Peer -> real)
    requires times != [] && MappedByPair(times) && AllAccurate(times, trueOffset)
    ensures Abs(Spread(times) * 1000.0 - Spread(TrueTimes(times, trueOffset)) * 1000.0) <= WorstRtt(times)
  {
    ExtremesMoveLittle(times, trueOffset);
  }
}
