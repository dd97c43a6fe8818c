/**
 Frame levels and gain for transcription audio, over exact reals. The square root of a mean square
 is a parameter, `root`: nothing here depends on what it is.
 */
module Levels {
  import opened Wrappers
  import opened Pcm

  const FULL_SCALE := 32_768.0
  const TARGET_RMS := 0.05
  const TARGET_PEAK := 0.8
  const MAX_GAIN := 64.0
  const ACTIVE_WINDOW := 5
  const MIN_ACTIVE := 3

  type Root = real -> real

  /** One analyzed frame: the greatest magnitude, the sum of squares and the number of samples. */
  datatype Frame = Frame(peak: nat, squares: nat, count: nat)

  function RMax(a: real, b: real): real { if a >= b then a else b }

  function RMin(a: real, b: real): real { if a <= b then a else b }

  function Peak(samples: seq<Sample>): nat {
    if samples == [] then 0 else Max(Abs(samples[0]), Peak(samples[1..]))
  }

  function Squares(samples: seq<Sample>): nat {
    if samples == [] then 0 else
      var x: int := samples[0];
      SquareIsNat(x);
      x * x + Squares(samples[1..])
  }

  lemma SquareIsNat(x: int)
    ensures x * x >= 0
  {}

  function Analyze(samples: seq<Sample>): Frame { Frame(Peak(samples), Squares(samples), |samples|) }

  function Rms(root: Root, f: Frame): real {
    if f.count == 0 then 0.0 else root(f.squares as real / f.count as real) / FULL_SCALE
  }

  // ----- gain -----

  function GainForLevels(peak: real, rms: real): real {
    if peak <= 0.0 || rms <= 0.0 then 1.0
    else RMax(1.0, RMin(MAX_GAIN, RMin(TARGET_PEAK / peak, TARGET_RMS / rms)))
  }

  /** Rounding to the nearest integer, halves to even. */
  function RoundReal(x: real): int {
    var low := x.Floor;
    var rest := x - low as real;
    if rest < 0.5 || (rest == 0.5 && low % 2 == 0) then low else low + 1
  }

  function Amplified(x: Sample, gain: real): Sample { Clamp(RoundReal(x as real * gain)) }

  function ApplyGain(samples: seq<Sample>, gain: real): (r: seq<Sample>)
    ensures |r| == |samples|
  {
    if gain <= 1.0 || samples == [] then samples else [Amplified(samples[0], gain)] + ApplyGain(samples[1..], gain)
  }

  function NormalizedPeak(samples: seq<Sample>): real { Peak(samples) as real / FULL_SCALE }

  /** The gain of a whole clip, from its own levels. */
  function ClipGain(root: Root, samples: seq<Sample>): real {
    GainForLevels(NormalizedPeak(samples), Rms(root, Analyze(samples)))
  }

  /** The gain after one more chunk of a stream: it may only come down, and never below one. */
  function ChunkGain(gain: real, samples: seq<Sample>): real {
    var peak := NormalizedPeak(samples);
    if peak > 0.0 then RMax(1.0, RMin(gain, TARGET_PEAK / peak)) else gain
  }

  lemma {:induction false} PeakBounds(samples: seq<Sample>, i: nat)
    requires i < |samples|
    ensures Abs(samples[i]) <= Peak(samples) <= 32_768
  {
    if i > 0 { PeakBounds(samples[1..], i - 1); }
    PeakRange(samples);
  }

  lemma {:induction false} PeakRange(samples: seq<Sample>)
    ensures Peak(samples) <= 32_768
  {
    if samples != [] { PeakRange(samples[1..]); }
  }

  /** A gain above one that keeps the peak at most 0.8 of full scale. */
  predicate Unclipping(gain: real, samples: seq<Sample>) {
    gain > 1.0 ==> NormalizedPeak(samples) > 0.0 ==> gain <= TARGET_PEAK / NormalizedPeak(samples)
  }

  lemma ScaledWithin(x: int, peak: nat, gain: real)
    requires -(peak as int) <= x <= peak && peak > 0 && gain > 1.0
    requires gain <= TARGET_PEAK / (peak as real / FULL_SCALE)
    ensures -26_214.4 <= x as real * gain <= 26_214.4
  {
    var p := peak as real;
    DivideTimes(TARGET_PEAK, p / FULL_SCALE, gain);
    assert gain * p <= 26_214.4;
    ScaleBound(x as real, p, gain);
  }

  lemma DivideTimes(a: real, b: real, g: real)
    requires b > 0.0 && g <= a / b
    ensures g * b <= a
  {
    assert a / b * b == a;
    ScaleBound(g, a / b, b);
  }

  lemma ScaleBound(x: real, p: real, g: real)
    requires x <= p && g > 0.0
    ensures x * g <= p * g
    ensures -p <= x ==> -(p * g) <= x * g
  {}

  lemma RoundWithin(x: real)
    requires -26_214.4 <= x <= 26_214.4
    ensures -26_215 <= RoundReal(x) <= 26_215
    ensures Clamp(RoundReal(x)) == RoundReal(x)
  {}

  lemma AmplifiedExactly(x: Sample, peak: nat, gain: real)
    requires Abs(x) <= peak && gain > 1.0
    requires peak > 0 ==> gain <= TARGET_PEAK / (peak as real / FULL_SCALE)
    ensures Amplified(x, gain) == RoundReal(x as real * gain)
  {
    hide RoundReal;
    if peak > 0 {
      ScaledWithin(x, peak, gain);
      RoundWithin(x as real * gain);
    } else {
      assert x as real == 0.0 && 0.0 * gain == 0.0;
      RoundWithin(x as real * gain);
    }
  }

  /** With such a gain the clamp does nothing, and every sample is the rounded product. */
  lemma {:induction false} GainNeverClips(samples: seq<Sample>, gain: real, i: nat)
    requires gain > 1.0 && Unclipping(gain, samples) && i < |samples|
    ensures ApplyGain(samples, gain)[i] == RoundReal(samples[i] as real * gain)
  {
    hide Peak, ApplyGain;
    var x: Sample := samples[i];
    PeakBounds(samples, i);
    ApplyGainAt(samples, gain, i);
    AmplifiedExactly(x, Peak(samples), gain);
    assert ApplyGain(samples, gain)[i] == Amplified(x, gain);
    assert Amplified(x, gain) == RoundReal(x as real * gain);
  }

  lemma {:induction false} ApplyGainAt(samples: seq<Sample>, gain: real, i: nat)
    requires gain > 1.0 && i < |samples|
    ensures ApplyGain(samples, gain)[i] == Amplified(samples[i], gain)
  {
    if i > 0 { ApplyGainAt(samples[1..], gain, i - 1); }
  }

  /** The whole-clip gain and the gain after each chunk never clip; the latter never rises or drops below one. */
  lemma GainsAreSafe(root: Root, samples: seq<Sample>, gain: real)
    requires gain >= 1.0
    ensures Unclipping(ClipGain(root, samples), samples) && 1.0 <= ClipGain(root, samples) <= MAX_GAIN
    ensures Unclipping(ChunkGain(gain, samples), samples) && 1.0 <= ChunkGain(gain, samples) <= gain
  {}
}
