/** Clock offset estimation. Every client clock runs a constant amount behind the server's:
    server time = local time + trueOffset (seconds). */
module Clock {
  import opened Types

  datatype Sample = Sample(rttMs: real, offsetMs: real)

  /** The four-timestamp estimate (section 8 of RFC 5905), in milliseconds. */
  function SampleOf(t0: real, t1: real, t2: real, t3: real): Sample {
    Sample((t3 - t0 - (t2 - t1)) * 1000.0, ((t1 - t0) + (t2 - t3)) * 500.0)
  }

  function LocalForServer(serverTime: real, offsetMs: real): real {
    serverTime - offsetMs / 1000.0
  }

  /** The estimate is within half the measured round trip of the true offset. */
  predicate Accurate(trueOffset: real, offsetMs: real, rttMs: real) {
    Abs(offsetMs - 1000.0 * trueOffset) <= rttMs / 2.0
  }

  function Total(samples: seq<Sample>): real {
    if samples == [] then 0.0 else Total(samples[..|samples| - 1]) + samples[|samples| - 1].offsetMs
  }

  class SyncEstimator {
    var samples: seq<Sample>

    constructor ()
      ensures samples == []
    {
      samples := [];
    }

    method AddSample(t0: real, t1: real, t2: real, t3: real) returns (sample: Sample)
      modifies this
      ensures sample == SampleOf(t0, t1, t2, t3)
      ensures samples == old(samples) + [sample]
    {
      var rttMs := (t3 - t0 - (t2 - t1)) * 1000.0;
      var offsetMs := ((t1 - t0) + (t2 - t3)) * 500.0;
      sample := Sample(rttMs, offsetMs);
      samples := samples + [sample];
    }

    /** The mean of the offsets; 0 without samples. */
    method AverageOffsetMs() returns (average: real)
      ensures samples == [] ==> average == 0.0
      ensures samples != [] ==> average * |samples| as real == Total(samples)
    {
      if samples == [] {
        return 0.0;
      }
      var sum, i := 0.0, 0;
      while i < |samples|
        invariant 0 <= i <= |samples| && sum == Total(samples[..i])
      {
        assert samples[..i + 1][..i] == samples[..i];
        sum := sum + samples[i].offsetMs;
        i := i + 1;
      }
      assert samples[..i] == samples;
      average := sum / |samples| as real;
    }
  }
}
