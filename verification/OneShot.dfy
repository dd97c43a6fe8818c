/** The one-shot conversion to 24 kHz mono, and exactly when the streaming form agrees with it. */
module OneShot {
  import opened Pcm
  import opened Wrappers
  import opened Resampler

  function Average(a: Sample, b: Sample): Sample { (a + b) / 2 }

  /** `PCM_SAMPLE_WIDTH * channels` for the two channel counts there are. */
  function FrameBytes(channels: int): nat { if channels == 2 then 4 else 2 }

  /** Stereo frames are averaged with floor division. */
  function Mono(samples: seq<Sample>, channels: nat): seq<Sample>
    requires channels == 1 || (channels == 2 && |samples| % 2 == 0)
  {
    if channels == 1 then samples
    else seq(|samples| / 2, i requires 0 <= i < |samples| / 2 => Average(samples[2 * i], samples[2 * i + 1]))
  }

  /** Each stereo frame becomes the floor of its channels' mean; a mono clip is left as it is. */
  lemma MonoIsFloorOfMean(samples: seq<Sample>, k: nat)
    requires |samples| % 2 == 0 && k < |samples| / 2
    ensures Mono(samples, 1) == samples && |Mono(samples, 2)| == |samples| / 2
    ensures var v: int := Mono(samples, 2)[k];
      2 * v <= samples[2 * k] as int + samples[2 * k + 1] as int < 2 * v + 2
  {
    AverageIsFloor(samples[2 * k], samples[2 * k + 1]);
  }

  lemma AverageIsFloor(a: Sample, b: Sample)
    ensures var v: int := Average(a, b); 2 * v <= a as int + b as int < 2 * v + 2
  {}

  /** Output frame `k`, read at source position `min(k * rate / 24000, last)`. */
  function OneShotFrame(rate: nat, x: seq<Sample>, k: nat): Sample
    requires x != []
  {
    var last := |x| - 1;
    var position: nat := Min(k * rate, last * REALTIME_SAMPLE_RATE);
    var l := position / REALTIME_SAMPLE_RATE;
    Interpolate(x[Min(l, last)], x[Min(l + 1, last)], position % REALTIME_SAMPLE_RATE, REALTIME_SAMPLE_RATE)
  }

  function OneShotFrames(rate: nat, x: seq<Sample>, m: nat): seq<Sample>
    requires x != []
  {
    if m == 0 then [] else OneShotFrames(rate, x, m - 1) + [OneShotFrame(rate, x, m - 1)]
  }

  function Convert(rate: nat, x: seq<Sample>): seq<Sample>
    requires rate > 0
  {
    if x == [] then []
    else if rate == REALTIME_SAMPLE_RATE then x
    else OneShotFrames(rate, x, Target(rate, REALTIME_SAMPLE_RATE, |x|))
  }

  method Pcm16Mono24Khz(data: seq<Byte>, sampleRate: int, channels: int)
      returns (r: Result<seq<Byte>, AudioError>)
    ensures r ==
      if !LegalRate(sampleRate) then Err(BadRate)
      else if channels != 1 && channels != 2 then Err(BadChannels)
      else if |data| % FrameBytes(channels) != 0 then Err(Unaligned)
      else if |data| / FrameBytes(channels) > sampleRate * MAX_PCM_DURATION_SECONDS then Err(TooLong)
      else Ok(Bytes(Convert(sampleRate, Mono(Samples(data), channels))))
  {
    hide Convert, Bytes, Samples, Mono;
    if !LegalRate(sampleRate) {
      return Err(BadRate);
    }
    if channels != 1 && channels != 2 {
      return Err(BadChannels);
    }
    if |data| % FrameBytes(channels) != 0 {
      return Err(Unaligned);
    }
    if data == [] {
      MonoLength(data, channels);
      ConvertNothing(sampleRate);
      return Ok([]);
    }
    var inputFrames := |data| / FrameBytes(channels);
    if inputFrames > sampleRate * MAX_PCM_DURATION_SECONDS {
      return Err(TooLong);
    }
    MonoLength(data, channels);
    var mono := Mono(Samples(data), channels);
    ConvertIs(sampleRate, mono);
    if sampleRate == REALTIME_SAMPLE_RATE {
      return Ok(Bytes(mono));
    }
    var output := ConvertLoop(sampleRate, mono);
    r := Ok(Bytes(output));
  }

  lemma MonoLength(data: seq<Byte>, channels: nat)
    requires (channels == 1 || channels == 2) && |data| % FrameBytes(channels) == 0
    ensures |data| % 2 == 0 && (channels == 2 ==> |Samples(data)| % 2 == 0)
    ensures |Mono(Samples(data), channels)| == |data| / FrameBytes(channels)
  {}

  lemma ConvertNothing(rate: nat)
    requires rate > 0
    ensures Bytes(Convert(rate, [])) == []
  {}

  lemma ConvertIs(rate: nat, x: seq<Sample>)
    requires rate > 0 && x != []
    ensures Convert(rate, x) == if rate == REALTIME_SAMPLE_RATE then x
                                else OneShotFrames(rate, x, Target(rate, REALTIME_SAMPLE_RATE, |x|))
  {}

  method ConvertLoop(rate: nat, mono: seq<Sample>) returns (output: seq<Sample>)
    requires rate > 0 && mono != []
    ensures output == OneShotFrames(rate, mono, Target(rate, REALTIME_SAMPLE_RATE, |mono|))
  {
    hide Round, Target;
    var outputLength := Target(rate, REALTIME_SAMPLE_RATE, |mono|);
    TargetIsPositive(rate, REALTIME_SAMPLE_RATE, |mono|);
    output := [];
    var last := |mono| - 1;
    for k := 0 to outputLength
      invariant output == OneShotFrames(rate, mono, k)
    {
      if |mono| == 1 {
        SingleSample(rate, mono, k);
        output := output + [mono[0]];
      } else {
        var position: nat := Min(k * rate, last * REALTIME_SAMPLE_RATE);
        var l := position / REALTIME_SAMPLE_RATE;
        var fraction := position % REALTIME_SAMPLE_RATE;
        FloorAtLeast(last + 1, position, REALTIME_SAMPLE_RATE);
        output := output + [Interpolate(mono[l], mono[Min(l + 1, last)], fraction, REALTIME_SAMPLE_RATE)];
      }
    }
  }

  lemma TargetIsPositive(src: nat, dst: nat, n: nat)
    requires src > 0 && n > 0
    ensures Target(src, dst, n) >= 1
  {}

  lemma SingleSample(rate: nat, x: seq<Sample>, k: nat)
    requires |x| == 1
    ensures OneShotFrame(rate, x, k) == x[0]
  {
    assert Min(k * rate, 0) == 0;
    InterpolateIsBetween(x[0], x[0], 0, REALTIME_SAMPLE_RATE);
  }

  // ----- agreement with the streaming form -----

  /** Frame by frame the two forms agree, past the end of the input too. */
  lemma FramesAgree(rate: nat, x: seq<Sample>, k: nat)
    requires rate > 0 && x != []
    ensures Frame(rate, REALTIME_SAMPLE_RATE, x, k) == OneShotFrame(rate, x, k)
  {
    hide Interpolate;
    var last := |x| - 1;
    if k * rate > last * REALTIME_SAMPLE_RATE {
      FloorAtLeast(last, k * rate, REALTIME_SAMPLE_RATE);
      assert last * REALTIME_SAMPLE_RATE / REALTIME_SAMPLE_RATE == last;
      InterpolateIsBetween(x[last], x[last], Offset(rate, REALTIME_SAMPLE_RATE, k), REALTIME_SAMPLE_RATE);
      InterpolateIsBetween(x[last], x[last], 0, REALTIME_SAMPLE_RATE);
    } else {
      FloorAtLeast(last + 1, k * rate, REALTIME_SAMPLE_RATE);
    }
  }

  lemma {:induction false} FrameSequencesAgree(rate: nat, x: seq<Sample>, m: nat)
    requires rate > 0 && x != []
    ensures Frames(rate, REALTIME_SAMPLE_RATE, x, m) == OneShotFrames(rate, x, m)
    ensures |OneShotFrames(rate, x, m)| == m
  {
    if m > 0 {
      FrameSequencesAgree(rate, x, m - 1);
      FramesAgree(rate, x, m - 1);
    }
  }

  /** At the wire rate the streaming form is the identity, as the one-shot form is by a shortcut. */
  lemma {:induction false} IdentityRate(x: seq<Sample>, m: nat)
    requires m <= |x|
    ensures Frames(REALTIME_SAMPLE_RATE, REALTIME_SAMPLE_RATE, x, m) == x[..m]
  {
    if m > 0 {
      IdentityRate(x, m - 1);
      IdentityFrame(x, m - 1);
      hide Frame;
      assert x[..m] == x[..m - 1] + [x[m - 1]];
    }
  }

  lemma IdentityFrame(x: seq<Sample>, k: nat)
    requires k < |x|
    ensures Frame(REALTIME_SAMPLE_RATE, REALTIME_SAMPLE_RATE, x, k) == x[k]
  {
    assert Left(REALTIME_SAMPLE_RATE, REALTIME_SAMPLE_RATE, k) == k;
    assert Offset(REALTIME_SAMPLE_RATE, REALTIME_SAMPLE_RATE, k) == 0;
    hide Left, Offset, Interpolate;
    InterpolateIsBetween(x[k], x[Min(k + 1, |x| - 1)], 0, REALTIME_SAMPLE_RATE);
  }

  /** For one input the forms agree exactly when the stream is not already past the rounded length. */
  lemma AgreeIffNotPastTarget(rate: nat, x: seq<Sample>)
    requires LegalRate(rate)
    ensures Frames(rate, REALTIME_SAMPLE_RATE, x, FinalCount(rate, REALTIME_SAMPLE_RATE, |x|)) == Convert(rate, x)
       <==> StreamedCount(rate, REALTIME_SAMPLE_RATE, |x|) <= Target(rate, REALTIME_SAMPLE_RATE, |x|)
  {
    if x != [] {
      hide Frame, OneShotFrame;
      FramesLength(rate, REALTIME_SAMPLE_RATE, x, FinalCount(rate, REALTIME_SAMPLE_RATE, |x|));
      if rate == REALTIME_SAMPLE_RATE {
        var n := |x|;
        assert (n - 1) * REALTIME_SAMPLE_RATE / REALTIME_SAMPLE_RATE == n - 1;
        RoundStaysWithin(n, n, n * REALTIME_SAMPLE_RATE, REALTIME_SAMPLE_RATE);
        IdentityRate(x, n);
        assert x[..n] == x;
      } else {
        FrameSequencesAgree(rate, x, FinalCount(rate, REALTIME_SAMPLE_RATE, |x|));
        FrameSequencesAgree(rate, x, Target(rate, REALTIME_SAMPLE_RATE, |x|));
      }
    }
  }

  /** A step longer than half an output frame cannot overshoot the rounded length. */
  lemma NotPastTargetBelowDouble(src: nat, dst: nat, n: nat)
    requires 0 < src < 2 * dst
    ensures StreamedCount(src, dst, n) <= Target(src, dst, n)
  {
    if n > 0 {
      var c := (n - 1) * dst / src;
      var v := Round(n * dst, src);
      FloorBounds((n - 1) * dst, src);
      assert (n - 1) * dst == n * dst - dst;
      RoundIsTheOnlyRounding(n * dst, src, v);
      assert v * src > c * src;
      if v <= c { MulMonotone(v, c, src); }
    }
  }

  /** From twice the output rate on, one second and one frame of input overshoots. */
  lemma PastTargetFromDouble(src: nat)
    requires src >= 2 * REALTIME_SAMPLE_RATE
    ensures StreamedCount(src, REALTIME_SAMPLE_RATE, src + 1) == REALTIME_SAMPLE_RATE + 1
    ensures Target(src, REALTIME_SAMPLE_RATE, src + 1) == REALTIME_SAMPLE_RATE
  {
    var dst := REALTIME_SAMPLE_RATE;
    assert (src + 1) * dst == dst * src + dst;
    assert src * dst / src == dst by { FloorBounds(src * dst, src); FloorAtLeast(dst, src * dst, src); FloorAtLeast(dst + 1, src * dst, src); }
    RoundIsTheOnlyRounding((src + 1) * dst, src, dst);
    assert dst * src - (src + 1) * dst == -dst;
  }

  ghost predicate AgreesOnEveryClip(rate: nat)
    requires rate > 0
  {
    forall x: seq<Sample> | |x| <= rate * MAX_PCM_DURATION_SECONDS ::
      Frames(rate, REALTIME_SAMPLE_RATE, x, FinalCount(rate, REALTIME_SAMPLE_RATE, |x|)) == Convert(rate, x)
  }

  /** The streaming and one-shot conversions agree on every clip exactly below 48 kHz. */
  lemma AgreementIffBelowDoubleRate(rate: nat)
    requires LegalRate(rate)
    ensures AgreesOnEveryClip(rate) <==> rate < 2 * REALTIME_SAMPLE_RATE
  {
    if rate < 2 * REALTIME_SAMPLE_RATE {
      forall x: seq<Sample> | |x| <= rate * MAX_PCM_DURATION_SECONDS
        ensures Frames(rate, REALTIME_SAMPLE_RATE, x, FinalCount(rate, REALTIME_SAMPLE_RATE, |x|)) == Convert(rate, x)
      {
        AgreeIffNotPastTarget(rate, x);
        NotPastTargetBelowDouble(rate, REALTIME_SAMPLE_RATE, |x|);
      }
    } else {
      var x: seq<Sample> := seq(rate + 1, _ => 0);
      AgreeIffNotPastTarget(rate, x);
      PastTargetFromDouble(rate);
      assert |x| <= rate * MAX_PCM_DURATION_SECONDS;
    }
  }

  /** Five samples at 48 kHz: three streamed frames, two one-shot frames. */
  lemma FiveSamplesDisagree()
    ensures StreamedCount(48000, REALTIME_SAMPLE_RATE, 5) == 3
    ensures Target(48000, REALTIME_SAMPLE_RATE, 5) == 2
  {}
}
