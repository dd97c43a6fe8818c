/**
 When the clamp of the streaming normalizer acts: never on a chunk after the verdict, and in the first
 emission exactly on what the gain, taken from the probe alone, lifts past full scale.
 */
module Clipping {
  import opened Wrappers
  import opened Pcm
  import opened Levels
  import opened Normalizer

  function Times(x: int, gain: real): real { x as real * gain }

  /** The sample comes out as the rounded product: the clamp did nothing. */
  predicate Exact(x: Sample, gain: real) { Scaled(x, gain) == RoundReal(Times(x, gain)) }

  /** The greatest positive sample, and the greatest magnitude of a negative one. */
  function High(samples: seq<Sample>): nat { if samples == [] then 0 else Max(Max(0, samples[0]), High(samples[1..])) }

  function Low(samples: seq<Sample>): nat {
    if samples == [] then 0 else
      var x: int := samples[0];
      Max(Max(0, -x), Low(samples[1..]))
  }

  predicate Inside(high: nat, low: nat, gain: real) { Times(high, gain) < 32_767.5 && Times(low, gain) <= 32_768.5 }

  /** Both extremes stay inside full scale after rounding, halves to even. */
  predicate Fits(samples: seq<Sample>, gain: real) { Inside(High(samples), Low(samples), gain) }

  lemma RoundingBounds(v: real)
    ensures RoundReal(v) <= 32_767 <==> v < 32_767.5
    ensures RoundReal(v) >= -32_768 <==> v >= -32_768.5
  {}

  lemma ExactIff(x: Sample, gain: real)
    requires gain >= 1.0
    ensures Exact(x, gain) <==> -32_768.5 <= Times(x, gain) < 32_767.5
  {
    RoundingBounds(Times(x, gain));
  }

  lemma TimesGrows(x: int, y: int, gain: real)
    requires gain >= 1.0
    ensures x <= y ==> Times(x, gain) <= Times(y, gain)
    ensures Times(0, gain) == 0.0 && Times(-x, gain) == -Times(x, gain)
  {
    assert (-x) as real == -(x as real);
    if x <= y { TimesUp(x as real, y as real, gain); }
  }

  lemma TimesUp(a: real, b: real, gain: real)
    requires gain >= 1.0 && a <= b
    ensures a * gain <= b * gain
  {}

  /** One sample in front of others. */
  lemma ExtremesOf(x: int, high: nat, low: nat, gain: real)
    requires gain >= 1.0
    ensures Inside(Max(Max(0, x), high), Max(Max(0, -x), low), gain) <==>
      -32_768.5 <= Times(x, gain) < 32_767.5 && Inside(high, low, gain)
  {
    hide Times;
    TimesGrows(x, 0, gain);
    TimesGrows(0, x, gain);
    TimesGrows(x, high, gain);
    TimesGrows(high, x, gain);
    TimesGrows(0, high, gain);
    TimesGrows(-x, low, gain);
    TimesGrows(low, -x, gain);
    TimesGrows(-x, 0, gain);
    TimesGrows(0, low, gain);
  }

  lemma FirstFits(samples: seq<Sample>, gain: real)
    requires gain >= 1.0 && samples != []
    ensures Fits(samples, gain) <==> Exact(samples[0], gain) && Fits(samples[1..], gain)
  {
    hide Exact, Inside, Times;
    ExactIff(samples[0], gain);
    ExtremesOf(samples[0], High(samples[1..]), Low(samples[1..]), gain);
  }

  /** Every sample comes out as the rounded product exactly if the two extremes stay inside full scale. */
  lemma {:induction false} FitsIff(samples: seq<Sample>, gain: real)
    requires gain >= 1.0
    ensures Fits(samples, gain) <==> forall i | 0 <= i < |samples| :: Exact(samples[i], gain)
  {
    if samples == [] { NothingFits(gain); return; }
    hide Exact, Fits;
    var rest := samples[1..];
    FitsIff(rest, gain);
    FirstFits(samples, gain);
    assert forall i | 0 <= i < |rest| :: rest[i] == samples[i + 1];
    assert forall i | 1 <= i < |samples| :: samples[i] == rest[i - 1];
    if forall i | 0 <= i < |samples| :: Exact(samples[i], gain) {
      assert Exact(samples[0], gain);
    }
  }

  lemma NothingFits(gain: real)
    requires gain >= 1.0
    ensures Fits([], gain)
  {
    TimesGrows(0, 0, gain);
  }

  lemma {:induction false} PeakIsExtreme(samples: seq<Sample>)
    ensures Peak(samples) == Max(High(samples), Low(samples))
  {
    if samples != [] { PeakIsExtreme(samples[1..]); }
  }

  /** In terms of the peak alone the condition is this, but for one unit of rounding. */
  lemma FitsByPeak(samples: seq<Sample>, gain: real)
    requires gain >= 1.0
    ensures Times(Peak(samples), gain) < 32_767.5 ==> Fits(samples, gain)
    ensures Fits(samples, gain) ==> Times(Peak(samples), gain) <= 32_768.5
  {
    hide Peak, High, Low, Times;
    PeakIsExtreme(samples);
    TimesGrows(High(samples), Peak(samples), gain);
    TimesGrows(Low(samples), Peak(samples), gain);
  }

  // ----- the stream -----

  /** How much of the stream had been fed when its verdict was made. */
  function DecidedAfter(root: Root, chunks: seq<seq<Sample>>): nat {
    if chunks == [] then 0
    else if StreamVerdict(root, Flatten(chunks[..|chunks| - 1])).Some? then DecidedAfter(root, chunks[..|chunks| - 1])
    else |Flatten(chunks)|
  }

  /**
   What is emitted, from `start`: up to `decided` with one gain, clamped or not, and from there on every
   sample as the rounded product.
   */
  ghost predicate ExactFrom(e: Emission, stream: seq<Sample>, start: nat, decided: nat, gain: real) {
    && start <= decided <= |stream| && |e.out| == |e.gains| == |stream| - start
    && e.gain.Some? && e.gain.value >= 1.0
    && (forall k | 0 <= k < decided - start :: e.gains[k] == gain && e.out[k] == Scaled(stream[start + k], gain))
    && (forall k | decided - start <= k < |e.out| :: e.out[k] == RoundReal(Times(stream[start + k], e.gains[k])))
  }

  lemma FirstIsScaled(root: Root, fed: seq<Sample>, pcm: seq<Sample>)
    requires StreamVerdict(root, fed + pcm).Some?
    ensures var c := StreamVerdict(root, fed + pcm).value.calibration;
      var out := Output(root, fed, None, pcm);
      ExactFrom(Emission([] + out, [] + Repeat(c.gain, |out|), Some(c.gain)), fed + pcm, EmissionStart(c.onset),
                |fed + pcm|, c.gain)
  {
    hide StreamVerdict, ApplyGain, Amplified, Scaled, Repeat;
    VerdictStands(root, fed + pcm, []);
    GainAtLeastOne(root, fed + pcm);
    var c := StreamVerdict(root, fed + pcm).value.calibration;
    var tail := (fed + pcm)[EmissionStart(c.onset)..];
    forall k | 0 <= k < |tail| ensures ApplyGain(tail, c.gain)[k] == Scaled(tail[k], c.gain) { ApplyGainScales(tail, c.gain, k); }
  }

  /** After the verdict the clamp never acts. */
  lemma LaterIsExact(gain: real, pcm: seq<Sample>, k: nat)
    requires gain >= 1.0 && k < |pcm|
    ensures var g := ChunkGain(gain, pcm); g >= 1.0 && ApplyGain(pcm, g)[k] == RoundReal(Times(pcm[k], g))
  {
    hide *;
    SafeGain(gain, pcm);
    UnclippingIsExact(ChunkGain(gain, pcm), pcm, k);
  }

  lemma UnclippingIsExact(g: real, pcm: seq<Sample>, k: nat)
    requires g >= 1.0 && Unclipping(g, pcm) && k < |pcm|
    ensures ApplyGain(pcm, g)[k] == RoundReal(Times(pcm[k], g))
  {
    hide RoundReal, Amplified, Peak, ApplyGain, Unclipping, Scaled;
    if g > 1.0 {
      GainNeverClips(pcm, g, k);
    } else {
      ApplyGainScales(pcm, g, k);
      UnitGain(pcm[k]);
    }
  }

  lemma SafeGain(gain: real, pcm: seq<Sample>)
    requires gain >= 1.0
    ensures Unclipping(ChunkGain(gain, pcm), pcm) && ChunkGain(gain, pcm) >= 1.0
  {
    hide Peak;
    GainsAreSafe(x => x, pcm, gain);
  }

  lemma UnitGain(x: Sample)
    ensures Scaled(x, 1.0) == x == RoundReal(Times(x, 1.0))
  {}

  lemma LaterKeepsExact(e: Emission, stream: seq<Sample>, pcm: seq<Sample>, start: nat, decided: nat, gain: real)
    requires ExactFrom(e, stream, start, decided, gain)
    ensures var g := ChunkGain(e.gain.value, pcm);
      var out := ApplyGain(pcm, g);
      ExactFrom(Emission(e.out + out, e.gains + Repeat(g, |out|), Some(g)), stream + pcm, start, decided, gain)
  {
    hide ApplyGain, RoundReal, Scaled, Repeat, Times, ChunkGain;
    var g := ChunkGain(e.gain.value, pcm);
    assert g >= 1.0 by { SafeGain(e.gain.value, pcm); }
    forall k | 0 <= k < |pcm| ensures ApplyGain(pcm, g)[k] == RoundReal(Times(pcm[k], g)) { LaterIsExact(e.gain.value, pcm, k); }
  }

  lemma {:induction false} EmittedIsExactFrom(root: Root, chunks: seq<seq<Sample>>)
    requires StreamVerdict(root, Flatten(chunks)).Some?
    ensures var c := StreamVerdict(root, Flatten(chunks)).value.calibration;
      ExactFrom(Emitted(root, chunks), Flatten(chunks), EmissionStart(c.onset), DecidedAfter(root, chunks), c.gain)
  {
    hide StreamVerdict, ExactFrom, ApplyGain, ChunkGain, Repeat;
    if chunks == [] { NothingDecided(root); return; }
    var was, pcm := chunks[..|chunks| - 1], chunks[|chunks| - 1];
    var fed, e := Flatten(was), Emitted(root, was);
    EmissionFollowsStream(root, was);
    if StreamVerdict(root, fed).Some? {
      var c := StreamVerdict(root, fed).value.calibration;
      EmittedIsExactFrom(root, was);
      VerdictStands(root, fed, pcm);
      ExactHasGain(e, fed, EmissionStart(c.onset), DecidedAfter(root, was), c.gain);
      LaterKeepsExact(e, fed, pcm, EmissionStart(c.onset), DecidedAfter(root, was), c.gain);
    } else {
      FirstIsScaled(root, fed, pcm);
    }
  }

  lemma ExactHasGain(e: Emission, stream: seq<Sample>, start: nat, decided: nat, gain: real)
    requires ExactFrom(e, stream, start, decided, gain)
    ensures e.gain.Some?
  {}

  /**
   However a stream is cut into chunks, every sample emitted by a chunk after the verdict is the rounded
   product with its gain. The whole emission is, exactly if the audio emitted with the verdict stays inside
   full scale under the probe's gain.
   */
  lemma EmissionIsExactIff(root: Root, chunks: seq<seq<Sample>>)
    requires StreamVerdict(root, Flatten(chunks)).Some?
    ensures var e, stream, c := Emitted(root, chunks), Flatten(chunks), StreamVerdict(root, Flatten(chunks)).value.calibration;
      var start, decided := EmissionStart(c.onset), DecidedAfter(root, chunks);
      && start <= decided <= |stream| && |e.out| == |e.gains| == |stream| - start
      && (forall k | decided - start <= k < |e.out| :: e.out[k] == RoundReal(Times(stream[start + k], e.gains[k])))
      && ((forall k | 0 <= k < |e.out| :: e.out[k] == RoundReal(Times(stream[start + k], e.gains[k]))) <==>
            Fits(stream[start..decided], c.gain))
  {
    hide StreamVerdict, Emitted, DecidedAfter;
    EmittedIsExactFrom(root, chunks);
    GainAtLeastOne(root, Flatten(chunks));
    var c := StreamVerdict(root, Flatten(chunks)).value.calibration;
    ExactIffFits(Emitted(root, chunks), Flatten(chunks), EmissionStart(c.onset), DecidedAfter(root, chunks), c.gain);
  }

  lemma ExactIffFits(e: Emission, stream: seq<Sample>, start: nat, decided: nat, gain: real)
    requires ExactFrom(e, stream, start, decided, gain) && gain >= 1.0
    ensures (forall k | 0 <= k < |e.out| :: e.out[k] == RoundReal(Times(stream[start + k], e.gains[k]))) <==>
      Fits(stream[start..decided], gain)
  {
    hide RoundReal, Scaled, Times, Fits;
    var tail := stream[start..decided];
    FitsIff(tail, gain);
    assert forall k | 0 <= k < |tail| :: tail[k] == stream[start + k];
    if forall k | 0 <= k < |e.out| :: e.out[k] == RoundReal(Times(stream[start + k], e.gains[k])) {
      forall k | 0 <= k < |tail| ensures Exact(tail[k], gain) {
        assert e.out[k] == RoundReal(Times(stream[start + k], e.gains[k]));
      }
    }
  }

  // ----- a stream on which the clamp acts -----

  /** A steady tone of 0.2 s; its level needs only that the root of 400 squared is 400. */
  function Steady(n: nat): seq<Sample> { seq(n, _ => 400) }

  const TONE := Frame(400, 76_800_000, 480)

  function Tones(m: nat): seq<Frame> { seq(m, _ => TONE) }

  lemma {:induction false} SteadyLevels(n: nat)
    ensures Peak(Steady(n)) == (if n == 0 then 0 else 400) && Squares(Steady(n)) == 160_000 * n
  {
    if n > 0 {
      SteadyLevels(n - 1);
      assert Steady(n)[1..] == Steady(n - 1);
    }
  }

  lemma {:induction false} SteadyFrames(m: nat, rest: seq<Sample>)
    requires |rest| < 480
    ensures FramesOf(Steady(480 * m) + rest) == Tones(m)
  {
    hide Analyze;
    if m == 0 { return; }
    var stream := Steady(480 * m) + rest;
    assert stream[..480] == Steady(480) && stream[480..] == Steady(480 * (m - 1)) + rest;
    SteadyFrames(m - 1, rest);
    ToneOfSteady();
    assert Tones(m) == [TONE] + Tones(m - 1);
  }

  lemma ToneOfSteady()
    ensures Analyze(Steady(480)) == TONE
  {
    hide Peak, Squares;
    SteadyLevels(480);
  }

  lemma {:induction false} ToneSums(m: nat)
    ensures MaxPeak(Tones(m)) == (if m == 0 then 0 else 400)
    ensures SumSquares(Tones(m)) == 76_800_000 * m && SumCounts(Tones(m)) == 480 * m
  {
    if m > 0 {
      ToneSums(m - 1);
      assert Tones(m)[1..] == Tones(m - 1);
    }
  }

  lemma ToneIsActive(root: Root)
    requires root(160_000.0) == 400.0
    ensures IsActive(root, TONE) && ProbeGain(root, Tones(10)) == 4.096
  {
    hide MaxPeak, SumSquares, SumCounts;
    ToneSums(10);
    assert 76_800_000.0 / 480.0 == 160_000.0 && 768_000_000.0 / 4_800.0 == 160_000.0;
    assert Rms(root, Combined(Tones(10))) == 400.0 / FULL_SCALE;
    assert TARGET_PEAK / (400.0 / FULL_SCALE) == 65.536 && TARGET_RMS / (400.0 / FULL_SCALE) == 4.096;
  }

  lemma {:induction false} AllActive(root: Root, m: nat)
    requires IsActive(root, TONE)
    ensures ActiveIn(root, Tones(m)) == m && (m > 0 ==> FirstActiveIn(root, Tones(m)) == 0)
  {
    hide IsActive;
    if m > 0 {
      AllActive(root, m - 1);
      assert Tones(m)[1..] == Tones(m - 1);
    }
  }

  lemma {:induction false} ToneOnset(root: Root, m: nat)
    requires IsActive(root, TONE)
    ensures LoudOnset(root, Tones(m)) == if m >= 3 then Some(0) else None
  {
    hide IsActive, ActiveIn;
    if m > 0 {
      ToneOnset(root, m - 1);
      assert Tones(m)[..m - 1] == Tones(m - 1);
      if m <= 3 {
        assert LastOf(Tones(m), ACTIVE_WINDOW) == Tones(m);
        AllActive(root, m);
      }
    }
  }

  lemma {:induction false} ToneVerdict(root: Root, m: nat)
    requires root(160_000.0) == 400.0 && m <= 10
    ensures FirstDecision(root, Tones(m)) == if m == 10 then Some(Verdict(Calibration(4.096, 0), 10)) else None
  {
    hide IsActive, LoudOnset, ProbeGain;
    ToneIsActive(root);
    ToneOnset(root, m);
    if m > 0 {
      ToneVerdict(root, m - 1);
      assert Tones(m)[..m - 1] == Tones(m - 1);
      if m == 10 { assert Tones(m)[0..10] == Tones(10); }
    }
  }

  /** The loud sample right after the probe is clamped: its rounded product is far past full scale. */
  lemma ClampActsOnFirstEmission(root: Root)
    requires root(160_000.0) == 400.0
    ensures var e := Emitted(root, [Steady(4_800) + [32_767]]);
      |e.out| == |e.gains| == 4_801 && e.gains[4_800] == 4.096 && e.out[4_800] == 32_767 < RoundReal(Times(32_767, 4.096))
  {
    hide FirstDecision, FramesOf, ApplyGain, Repeat, RoundReal;
    var pcm: seq<Sample> := Steady(4_800) + [32_767];
    SteadyFrames(10, [32_767]);
    ToneVerdict(root, 10);
    assert StreamVerdict(root, pcm) == Some(Verdict(Calibration(4.096, 0), 10));
    assert [pcm][..0] == [] && [] + pcm == pcm && pcm[0..] == pcm;
    assert Emitted(root, []) == Emission([], [], None) && Flatten([]) == [];
    ApplyGainScales(pcm, 4.096, 4_800);
    LoudIsClamped();
  }

  lemma LoudIsClamped()
    ensures Scaled(32_767, 4.096) == 32_767 < RoundReal(Times(32_767, 4.096))
  {}
}
