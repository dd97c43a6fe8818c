/**
 The incremental PCM16 resampler and the one-shot conversion of bridge/audio.py.

 The streaming object keeps a sliding window of the input and a running output count. The model
 proves that what it emits is a function of the whole input alone (`Frames`), however the input was
 cut into feeds, and compares that function with the one-shot conversion. Quotients and products
 are exact rationals.
 */
module Resampler {
  import opened Pcm
  import opened Wrappers

  const REALTIME_SAMPLE_RATE := 24000
  const MIN_PCM_SAMPLE_RATE := 8000
  const MAX_PCM_SAMPLE_RATE := 192000
  const MAX_PCM_DURATION_SECONDS := 300

  datatype AudioError = BadRate | BadChannels | Unaligned | TooLong | Finished

  predicate LegalRate(rate: int) { MIN_PCM_SAMPLE_RATE <= rate <= MAX_PCM_SAMPLE_RATE }

  // ----- whole-clip specification -----

  /** The source frame at or just before output frame `k`, and how far past it (over `dst`). */
  function Left(src: nat, dst: nat, k: nat): nat
    requires dst > 0
  {
    k * src / dst
  }

  function Offset(src: nat, dst: nat, k: nat): nat
    requires dst > 0
  {
    k * src % dst
  }

  /** Linear interpolation `offset/dst` of the way from `left` to `right`, rounded and clamped. */
  function Interpolate(left: Sample, right: Sample, offset: nat, dst: nat): Sample
    requires offset < dst
  {
    Clamp(Round(left * (dst - offset) + right * offset, dst))
  }

  /** Output frame `k` of the whole input `x`; reads past the end repeat the last sample. */
  function Frame(src: nat, dst: nat, x: seq<Sample>, k: nat): Sample
    requires dst > 0 && |x| > 0
  {
    var l := Left(src, dst, k);
    Interpolate(x[Min(l, |x| - 1)], x[Min(l + 1, |x| - 1)], Offset(src, dst, k), dst)
  }

  function Frames(src: nat, dst: nat, x: seq<Sample>, m: nat): seq<Sample>
    requires dst > 0
  {
    if x == [] || m == 0 then [] else Frames(src, dst, x, m - 1) + [Frame(src, dst, x, m - 1)]
  }

  /** How many frames are due once `n` source frames have arrived. */
  function StreamedCount(src: nat, dst: nat, n: nat): nat
    requires src > 0
  {
    if n == 0 then 0 else (n - 1) * dst / src + 1
  }

  /** The rounded nominal length, at least one frame for a non-empty input. */
  function Target(src: nat, dst: nat, n: nat): int
    requires src > 0
  {
    if n == 0 then 0 else Max(1, Round(n * dst, src))
  }

  function FinalCount(src: nat, dst: nat, n: nat): nat
    requires src > 0
  {
    Max(StreamedCount(src, dst, n), Target(src, dst, n))
  }

  /** A weighted sum with weights adding up to `w` lies between `w` times its bounds. */
  lemma WeightedSumIsBetween(lo: int, hi: int, a: int, b: int, f: nat, w: nat)
    requires lo <= a <= hi && lo <= b <= hi && f <= w
    ensures lo * w <= a * (w - f) + b * f <= hi * w
  {
    MulMonotone(lo, a, w - f);
    MulMonotone(lo, b, f);
    MulMonotone(a, hi, w - f);
    MulMonotone(b, hi, f);
    assert lo * (w - f) + lo * f == lo * w;
    assert hi * (w - f) + hi * f == hi * w;
  }

  /** Interpolation stays between its two samples, so the clamp never acts. */
  lemma InterpolateIsBetween(left: Sample, right: Sample, offset: nat, dst: nat)
    requires offset < dst
    ensures Min(left, right) <= Interpolate(left, right, offset, dst) <= Max(left, right)
    ensures Interpolate(left, right, offset, dst) == Round(left * (dst - offset) + right * offset, dst)
    ensures offset == 0 ==> Interpolate(left, right, offset, dst) == left
  {
    hide Round;
    WeightedSumIsBetween(Min(left, right), Max(left, right), left, right, offset, dst);
    RoundStaysWithin(Min(left, right), Max(left, right), left * (dst - offset) + right * offset, dst);
    if offset == 0 {
      RoundStaysWithin(left, left, left * dst, dst);
    }
  }

  lemma FloorExit(a: nat, dst: nat, n: nat)
    requires dst > 0
    ensures (a / dst < n && (a % dst == 0 || a / dst + 1 < n)) <==> a <= (n - 1) * dst
  {
    FloorBounds(a, dst);
    FloorAtLeast(n - 1, a, dst);
    FloorAtLeast(n, a, dst);
    assert n * dst == (n - 1) * dst + dst;
    assert a == (a / dst) * dst + a % dst;
  }

  /** The streaming loop's two exits, as one comparison of products. */
  lemma ReadyIff(src: nat, dst: nat, n: nat, k: nat)
    requires src > 0 && dst > 0
    ensures (Left(src, dst, k) < n && (Offset(src, dst, k) == 0 || Left(src, dst, k) + 1 < n))
       <==> k < StreamedCount(src, dst, n)
    ensures k < StreamedCount(src, dst, n) <==> k * src <= (n - 1) * dst
  {
    FloorExit(k * src, dst, n);
    if n > 0 {
      FloorAtLeast(k, (n - 1) * dst, src);
    } else {
      MulMonotone(n - 1, -1, dst);
    }
  }

  /** Every frame below the rounded length starts inside the input. */
  lemma TargetStartsInside(src: nat, dst: nat, n: nat, k: nat)
    requires src > 0 && dst > 0 && k < Target(src, dst, n)
    ensures Left(src, dst, k) < n
  {
    var q := n * dst / src;
    FloorBounds(n * dst, src);
    assert k * src < n * dst by {
      if k == 0 {
        MulMonotone(1, n, dst);
      } else if k < q {
        MulMonotone(k + 1, q, src);
        assert (k + 1) * src == k * src + src;
      } else {
        assert k == q;
      }
    }
    FloorAtLeast(n, k * src, dst);
  }

  /** A frame already due is not changed by input that arrives later. */
  lemma FrameStable(src: nat, dst: nat, x: seq<Sample>, y: seq<Sample>, k: nat)
    requires src > 0 && dst > 0 && k < StreamedCount(src, dst, |x|)
    ensures Frame(src, dst, x + y, k) == Frame(src, dst, x, k)
  {
    ReadyIff(src, dst, |x|, k);
    var l, f := Left(src, dst, k), Offset(src, dst, k);
    if f == 0 {
      var z := x + y;
      assert z[Min(l, |z| - 1)] == x[l];
      InterpolateIsBetween(x[l], x[Min(l + 1, |x| - 1)], f, dst);
      InterpolateIsBetween(x[l], z[Min(l + 1, |z| - 1)], f, dst);
    }
  }

  lemma StreamedCountGrows(src: nat, dst: nat, n: nat, more: nat)
    requires src > 0 && dst > 0
    ensures StreamedCount(src, dst, n) <= StreamedCount(src, dst, n + more) <= FinalCount(src, dst, n + more)
  {
    if n > 0 {
      MulMonotone(n - 1, n + more - 1, dst);
      FloorBounds((n - 1) * dst, src);
      FloorAtLeast((n - 1) * dst / src, (n + more - 1) * dst, src);
    }
  }

  lemma {:induction false} FramesStable(src: nat, dst: nat, x: seq<Sample>, y: seq<Sample>, m: nat)
    requires src > 0 && dst > 0 && m <= StreamedCount(src, dst, |x|)
    ensures Frames(src, dst, x + y, m) == Frames(src, dst, x, m)
  {
    if m > 0 {
      FramesStable(src, dst, x, y, m - 1);
      FrameStable(src, dst, x, y, m - 1);
    }
  }

  lemma LeftIs(src: nat, dst: nat, k: nat)
    requires dst > 0
    ensures Left(src, dst, k) == k * src / dst && Offset(src, dst, k) == k * src % dst < dst
  {}

  /** The frame read through a window that starts no later than its left sample. */
  lemma FrameFromWindow(src: nat, dst: nat, x: seq<Sample>, start: nat, k: nat, l: nat, f: nat)
    requires dst > 0 && l == k * src / dst && f == k * src % dst
    requires start <= l < |x|
    ensures Clamp(Round(x[start..][l - start] * (dst - f) + x[start..][Min(l + 1, |x| - 1) - start] * f, dst))
         == Frame(src, dst, x, k)
  {}

  lemma LeftGrows(src: nat, dst: nat, j: nat, k: nat)
    requires dst > 0 && j <= k
    ensures Left(src, dst, j) <= Left(src, dst, k)
  {
    MulMonotone(j, k, src);
    FloorBounds(j * src, dst);
    FloorAtLeast(Left(src, dst, j), k * src, dst);
  }

  // ----- whole runs -----

  lemma {:induction false} FramesLength(src: nat, dst: nat, x: seq<Sample>, m: nat)
    requires dst > 0
    ensures |Frames(src, dst, x, m)| == if x == [] then 0 else m
  {
    if m > 0 { FramesLength(src, dst, x, m - 1); }
  }

  lemma {:induction false} FramesPrefix(src: nat, dst: nat, x: seq<Sample>, m: nat, k: nat)
    requires dst > 0 && m <= k
    ensures Frames(src, dst, x, m) <= Frames(src, dst, x, k)
  {
    if m < k { FramesPrefix(src, dst, x, m, k - 1); }
  }

  /** What feeding `y` after `x` returns: the frames that became due. */
  function FeedOutput(src: nat, dst: nat, x: seq<Sample>, y: seq<Sample>): seq<Sample>
    requires src > 0 && dst > 0
  {
    var all := Frames(src, dst, x + y, StreamedCount(src, dst, |x + y|));
    all[Min(|all|, StreamedCount(src, dst, |x|))..]
  }

  function FinishOutput(src: nat, dst: nat, x: seq<Sample>): seq<Sample>
    requires src > 0 && dst > 0
  {
    var all := Frames(src, dst, x, FinalCount(src, dst, |x|));
    all[Min(|all|, StreamedCount(src, dst, |x|))..]
  }

  function Concat(chunks: seq<seq<Sample>>): seq<Sample> {
    if chunks == [] then [] else chunks[0] + Concat(chunks[1..])
  }

  /** Everything a run returns: one feed per chunk, then `finish`. `fed` came before. */
  function Run(src: nat, dst: nat, fed: seq<Sample>, chunks: seq<seq<Sample>>): seq<Sample>
    requires src > 0 && dst > 0
    decreases |chunks|
  {
    if chunks == [] then FinishOutput(src, dst, fed)
    else FeedOutput(src, dst, fed, chunks[0]) + Run(src, dst, fed + chunks[0], chunks[1..])
  }

  lemma AppendCancels(p: seq<Sample>, a: seq<Sample>, b: seq<Sample>)
    requires p + a == p + b
    ensures a == b
  {
    assert a == (p + a)[|p|..] && b == (p + b)[|p|..];
  }

  lemma EmptyStreamsNothing(src: nat, dst: nat)
    requires src > 0
    ensures StreamedCount(src, dst, 0) == 0
  {}

  lemma FeedOutputCompletes(src: nat, dst: nat, x: seq<Sample>, y: seq<Sample>)
    requires src > 0 && dst > 0
    ensures Frames(src, dst, x, StreamedCount(src, dst, |x|)) + FeedOutput(src, dst, x, y)
         == Frames(src, dst, x + y, StreamedCount(src, dst, |x + y|))
    ensures Frames(src, dst, x, StreamedCount(src, dst, |x|)) + FinishOutput(src, dst, x)
         == Frames(src, dst, x, FinalCount(src, dst, |x|))
  {
    hide StreamedCount, FinalCount;
    var due := StreamedCount(src, dst, |x|);
    StreamedCountGrows(src, dst, |x|, |y|);
    StreamedCountGrows(src, dst, |x|, 0);
    FramesStable(src, dst, x, y, due);
    FramesPrefix(src, dst, x + y, due, StreamedCount(src, dst, |x + y|));
    FramesPrefix(src, dst, x, due, FinalCount(src, dst, |x|));
    FramesLength(src, dst, x, due);
    FramesLength(src, dst, x + y, StreamedCount(src, dst, |x + y|));
    FramesLength(src, dst, x, FinalCount(src, dst, |x|));
    EmptyStreamsNothing(src, dst);
  }

  lemma {:induction false} RunCompletes(src: nat, dst: nat, fed: seq<Sample>, chunks: seq<seq<Sample>>)
    requires src > 0 && dst > 0
    ensures Frames(src, dst, fed, StreamedCount(src, dst, |fed|)) + Run(src, dst, fed, chunks)
         == Frames(src, dst, fed + Concat(chunks), FinalCount(src, dst, |fed + Concat(chunks)|))
    decreases |chunks|
  {
    hide Frames, FeedOutput, FinishOutput, StreamedCount, FinalCount;
    if chunks == [] {
      FeedOutputCompletes(src, dst, fed, []);
      assert fed + Concat(chunks) == fed;
    } else {
      var fed' := fed + chunks[0];
      FeedOutputCompletes(src, dst, fed, chunks[0]);
      RunCompletes(src, dst, fed', chunks[1..]);
      assert fed + Concat(chunks) == fed' + Concat(chunks[1..]);
    }
  }

  /** The concatenated output of a run is one function of the concatenated input. */
  lemma ChunkingIsInvisible(src: nat, dst: nat, chunks: seq<seq<Sample>>)
    requires src > 0 && dst > 0
    ensures Run(src, dst, [], chunks)
         == Frames(src, dst, Concat(chunks), FinalCount(src, dst, |Concat(chunks)|))
    ensures Concat(chunks) != [] ==>
      |Run(src, dst, [], chunks)| == Max((|Concat(chunks)| - 1) * dst / src + 1, Max(1, Round(|Concat(chunks)| * dst, src)))
  {
    hide Round;
    RunCompletes(src, dst, [], chunks);
    assert [] + Concat(chunks) == Concat(chunks);
    FramesLength(src, dst, Concat(chunks), FinalCount(src, dst, |Concat(chunks)|));
  }

  // ----- the streaming object -----

  class Pcm16MonoResampler {
    const sourceRate: nat
    const outputRate: nat
    var buffer: seq<Sample>
    var bufferStart: nat
    var inputFrames: nat
    var outputFrames: nat
    var closed: bool
    ghost var input: seq<Sample>    // everything fed so far
    ghost var emitted: seq<Sample>  // everything returned so far

    ghost predicate Valid()
      reads this
    {
      && LegalRate(sourceRate) && LegalRate(outputRate)
      && inputFrames == |input|
      && outputFrames == |emitted|
      && (!closed ==>
            && bufferStart <= |input|
            && buffer == input[bufferStart..]
            && bufferStart <= Left(sourceRate, outputRate, outputFrames))
      && outputFrames == (if closed then FinalCount(sourceRate, outputRate, |input|)
                          else StreamedCount(sourceRate, outputRate, |input|))
      && emitted == Frames(sourceRate, outputRate, input, outputFrames)
    }

    constructor (sourceRate: nat, outputRate: nat)
      requires LegalRate(sourceRate) && LegalRate(outputRate)
      ensures Valid() && !closed && input == [] && emitted == []
      ensures this.sourceRate == sourceRate && this.outputRate == outputRate
    {
      this.sourceRate, this.outputRate := sourceRate, outputRate;
      buffer, bufferStart, inputFrames, outputFrames, closed := [], 0, 0, 0, false;
      input, emitted := [], [];
    }

    /** Accepts one chunk; on success returns exactly the frames that became due. */
    method Feed(data: seq<Byte>) returns (r: Result<seq<Byte>, AudioError>)
      requires Valid()
      modifies this
      ensures Valid() && closed == old(closed)
      ensures r == Err(Finished) <==> old(closed)
      ensures r == Err(Unaligned) <==> !old(closed) && |data| % 2 != 0
      ensures r == Err(TooLong) <==>
        (!old(closed) && |data| % 2 == 0 && data != []
          && |old(input)| + |data| / 2 > sourceRate * MAX_PCM_DURATION_SECONDS)
      ensures r.Err? ==> input == old(input) && emitted == old(emitted)
      ensures r.Ok? ==> |data| % 2 == 0 && input == old(input) + Samples(data)
      ensures r.Ok? ==> |r.value| % 2 == 0 && emitted == old(emitted) + Samples(r.value)
      ensures r.Ok? ==> Samples(r.value) == FeedOutput(sourceRate, outputRate, old(input), Samples(data))
      ensures r.Ok? && data != [] ==> |buffer| <= 1
    {
      hide Frames, Left, StreamedCount, FinalCount, Bytes, FeedOutput, FinishOutput;
      if closed {
        return Err(Finished);
      }
      if |data| % 2 != 0 {
        return Err(Unaligned);
      }
      if data == [] {
        assert input + Samples(data) == input && emitted + Samples(data) == emitted;
        FeedOutputCompletes(sourceRate, outputRate, input, Samples(data));
        AppendCancels(emitted, FeedOutput(sourceRate, outputRate, input, Samples(data)), Samples(data));
        return Ok([]);
      }
      var samples := Samples(data);
      var nextInputFrames := inputFrames + |samples|;
      if nextInputFrames > sourceRate * MAX_PCM_DURATION_SECONDS {
        return Err(TooLong);
      }
      FramesStable(sourceRate, outputRate, input, samples, outputFrames);
      StreamedCountGrows(sourceRate, outputRate, |input|, |samples|);
      buffer := buffer + samples;
      inputFrames := nextInputFrames;
      ghost var before := input;
      input := input + samples;
      var output := Drain(false);
      SamplesOfBytes(output);
      FeedOutputCompletes(sourceRate, outputRate, before, samples);
      AppendCancels(old(emitted), output, FeedOutput(sourceRate, outputRate, before, samples));
      r := Ok(Bytes(output));
    }

    /** Flushes the tail once; later calls return nothing. */
    method Finish() returns (out: seq<Byte>)
      requires Valid()
      modifies this
      ensures Valid() && closed && input == old(input)
      ensures |out| % 2 == 0 && emitted == old(emitted) + Samples(out)
      ensures Samples(out) == if old(closed) then [] else FinishOutput(sourceRate, outputRate, input)
    {
      hide Frames, Left, StreamedCount, FinalCount, Bytes, FeedOutput, FinishOutput;
      if closed {
        assert emitted == emitted + Samples([]);
        return [];
      }
      closed := true;
      var output := Drain(true);
      buffer := [];
      SamplesOfBytes(output);
      FeedOutputCompletes(sourceRate, outputRate, input, []);
      AppendCancels(old(emitted), output, FinishOutput(sourceRate, outputRate, input));
      out := Bytes(output);
    }

    method Drain(final: bool) returns (output: seq<Sample>)
      requires LegalRate(sourceRate) && LegalRate(outputRate)
      requires inputFrames == |input| && outputFrames == |emitted|
      requires bufferStart <= |input| && buffer == input[bufferStart..]
      requires bufferStart <= Left(sourceRate, outputRate, outputFrames)
      requires outputFrames <= StreamedCount(sourceRate, outputRate, |input|)
      requires final ==> outputFrames == StreamedCount(sourceRate, outputRate, |input|)
      requires emitted == Frames(sourceRate, outputRate, input, outputFrames)
      modifies this`buffer, this`bufferStart, this`outputFrames, this`emitted
      ensures outputFrames == |emitted| && emitted == old(emitted) + output
      ensures outputFrames == if final then FinalCount(sourceRate, outputRate, |input|)
                              else StreamedCount(sourceRate, outputRate, |input|)
      ensures emitted == Frames(sourceRate, outputRate, input, outputFrames)
      ensures !final ==> bufferStart <= |input| && buffer == input[bufferStart..] && |buffer| <= 1
      ensures !final ==> bufferStart <= Left(sourceRate, outputRate, outputFrames)
    {
      hide Left, Frame, Offset, Interpolate, StreamedCount, Round;
      output := [];
      var targetFrames := if final && inputFrames != 0
        then Some(Max(1, Round(inputFrames * outputRate, sourceRate)))
        else None;
      ghost var due := if final then FinalCount(sourceRate, outputRate, |input|)
                       else StreamedCount(sourceRate, outputRate, |input|);
      while targetFrames == None || outputFrames < targetFrames.value
        invariant outputFrames == |emitted| && emitted == old(emitted) + output
        invariant old(outputFrames) <= outputFrames <= due
        invariant emitted == Frames(sourceRate, outputRate, input, outputFrames)
        invariant buffer == old(buffer) && bufferStart == old(bufferStart)
        invariant bufferStart <= Left(sourceRate, outputRate, outputFrames)
        decreases due - outputFrames
      {
        var positionNumerator := outputFrames * sourceRate;
        var leftIndex := positionNumerator / outputRate;
        var fractionNumerator := positionNumerator % outputRate;
        LeftIs(sourceRate, outputRate, outputFrames);
        ReadyIff(sourceRate, outputRate, |input|, outputFrames);
        if leftIndex >= inputFrames {
          if targetFrames != None { TargetStartsInside(sourceRate, outputRate, |input|, outputFrames); }
          break;
        }
        var rightIndex := leftIndex + 1;
        if fractionNumerator != 0 && rightIndex >= inputFrames && !final {
          break;
        }
        rightIndex := Min(rightIndex, inputFrames - 1);
        var left := buffer[leftIndex - bufferStart];
        var right := buffer[rightIndex - bufferStart];
        var value := Round(left * (outputRate - fractionNumerator) + right * fractionNumerator, outputRate);
        FrameFromWindow(sourceRate, outputRate, input, bufferStart, outputFrames, leftIndex, fractionNumerator);
        LeftGrows(sourceRate, outputRate, outputFrames, outputFrames + 1);
        output := output + [Clamp(value)];
        emitted := emitted + [Clamp(value)];
        outputFrames := outputFrames + 1;
      }
      if final {
        bufferStart := inputFrames;
      } else {
        ReadyIff(sourceRate, outputRate, |input|, outputFrames);
        var nextLeft := outputFrames * sourceRate / outputRate;
        var discard := Min(|buffer|, Max(0, nextLeft - bufferStart));
        LeftIs(sourceRate, outputRate, outputFrames);
        FloorAtLeast(inputFrames - 1, outputFrames * sourceRate, outputRate);
        if discard != 0 {
          buffer := buffer[discard..];
          bufferStart := bufferStart + discard;
        }
      }
    }
  }
}
