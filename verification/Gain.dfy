/**
 The gain is the best one: what the levels measure, and that the gain of a clip, and of a stream's verdict, is the
 greatest the targets allow. The verdict's gain is told by the samples of its probe.
 */
module Gain {
  import opened Wrappers
  import opened Pcm
  import opened Levels
  import opened Trim
  import opened Normalizer

  // ----- what the levels measure -----

  /** The peak is the greatest magnitude, and is reached. */
  lemma {:induction false} PeakIsReached(samples: seq<Sample>)
    requires samples != []
    ensures forall i | 0 <= i < |samples| :: Abs(samples[i]) <= Peak(samples)
    ensures exists i :: 0 <= i < |samples| && Abs(samples[i]) == Peak(samples)
  {
    forall i | 0 <= i < |samples| ensures Abs(samples[i]) <= Peak(samples) { PeakBounds(samples, i); }
    if |samples| == 1 || Abs(samples[0]) >= Peak(samples[1..]) {
      assert Abs(samples[0]) == Peak(samples);
    } else {
      PeakIsReached(samples[1..]);
      var i :| 0 <= i < |samples| - 1 && Abs(samples[1..][i]) == Peak(samples[1..]);
      assert Abs(samples[i + 1]) == Peak(samples);
    }
  }

  /** The level of two parts together is that of their peaks and of all their squares. */
  lemma {:induction false} LevelsAdd(a: seq<Sample>, b: seq<Sample>)
    ensures Peak(a + b) == Max(Peak(a), Peak(b)) && Squares(a + b) == Squares(a) + Squares(b)
  {
    if a == [] {
      assert a + b == b;
    } else {
      LevelsAdd(a[1..], b);
      assert (a + b)[1..] == a[1..] + b;
    }
  }

  lemma OneLevel(x: Sample)
    ensures Peak([x]) == Abs(x) && Squares([x]) == (x as int) * (x as int)
  {
    assert [x][1..] == [];
    SquareIsNat(x as int);
  }

  /** With a true square root, the level squared is the mean of the squared samples over full scale. */
  lemma RmsIsRootMeanSquare(root: Root, f: Frame)
    requires f.count > 0
    requires var mean := f.squares as real / f.count as real; root(mean) >= 0.0 && root(mean) * root(mean) == mean
    ensures Rms(root, f) >= 0.0
    ensures (Rms(root, f) * FULL_SCALE) * (Rms(root, f) * FULL_SCALE) * (f.count as real) == f.squares as real
  {
    var mean := f.squares as real / f.count as real;
    assert Rms(root, f) * FULL_SCALE == root(mean);
    assert mean * f.count as real == f.squares as real;
  }

  // ----- the greatest gain -----

  /** The gain brings neither level past its target. */
  predicate Allowed(gain: real, peak: real, rms: real) { gain * peak <= TARGET_PEAK && gain * rms <= TARGET_RMS }

  /** The greatest gain from 1 to 64 that is allowed, and 1 if none above it is; silence is left alone. */
  ghost predicate Greatest(gain: real, peak: real, rms: real) {
    if peak <= 0.0 || rms <= 0.0 then gain == 1.0
    else
      && 1.0 <= gain <= MAX_GAIN && (gain > 1.0 ==> Allowed(gain, peak, rms))
      && forall g: real :: gain < g <= MAX_GAIN ==> !Allowed(g, peak, rms)
  }

  lemma WithinTarget(g: real, level: real, target: real)
    requires level > 0.0
    ensures g * level <= target <==> g <= target / level
  {
    assert target / level * level == target;
    if g <= target / level { Scaling(g, target / level, level); } else { ScalingUp(target / level, g, level); }
  }

  lemma Scaling(a: real, b: real, level: real)
    requires level > 0.0 && a <= b
    ensures a * level <= b * level
  {}

  lemma ScalingUp(a: real, b: real, level: real)
    requires level > 0.0 && a < b
    ensures a * level < b * level
  {}

  lemma GainIsGreatest(peak: real, rms: real)
    ensures Greatest(GainForLevels(peak, rms), peak, rms)
  {
    if peak <= 0.0 || rms <= 0.0 { return; }
    var gain := GainForLevels(peak, rms);
    WithinTarget(gain, peak, TARGET_PEAK);
    WithinTarget(gain, rms, TARGET_RMS);
    forall g: real | gain < g <= MAX_GAIN ensures !Allowed(g, peak, rms) {
      WithinTarget(g, peak, TARGET_PEAK);
      WithinTarget(g, rms, TARGET_RMS);
    }
  }

  /** There is only one such gain. */
  lemma GreatestIsUnique(a: real, b: real, peak: real, rms: real)
    requires Greatest(a, peak, rms) && Greatest(b, peak, rms)
    ensures a == b
  {
    if peak > 0.0 && rms > 0.0 {
      assert (Allowed(a, peak, rms) || a == 1.0) && (Allowed(b, peak, rms) || b == 1.0);
    }
  }

  /** The gain of a whole clip is the greatest its own levels allow. */
  lemma ClipGainIsGreatest(root: Root, samples: seq<Sample>)
    ensures Greatest(ClipGain(root, samples), NormalizedPeak(samples), Rms(root, Analyze(samples)))
  {
    GainIsGreatest(NormalizedPeak(samples), Rms(root, Analyze(samples)));
  }

  // ----- the gain of a verdict -----

  /** The ten frames a calibration is taken from. */
  predicate Probes(root: Root, frames: seq<Frame>, c: Calibration) {
    && c.onset + PROBE_FRAMES <= |frames|
    && c.gain == ProbeGain(root, frames[c.onset..c.onset + PROBE_FRAMES])
  }

  lemma QuietProbes(root: Root, frames: seq<Frame>)
    ensures var q := QuietCalibration(root, LastOf(frames, QUIET_FRAMES), |frames|);
      q.Some? ==> Probes(root, frames, q.value)
  {
    var window := LastOf(frames, QUIET_FRAMES);
    var q := QuietCalibration(root, window, |frames|);
    if q.None? { return; }
    RmsLength(root, window);
    var levels := FrameRms(root, window);
    var onset := FirstSustained(levels, QuietThreshold(levels), 0).value;
    assert window[onset..onset + PROBE_FRAMES] == frames[q.value.onset..q.value.onset + PROBE_FRAMES];
  }

  lemma DecisionProbes(root: Root, frames: seq<Frame>)
    ensures Decision(root, frames).Some? ==> Probes(root, frames, Decision(root, frames).value)
  {
    hide QuietCalibration, ProbeGain, LoudOnset;
    QuietProbes(root, frames);
  }

  lemma {:induction false} FirstDecisionProbes(root: Root, frames: seq<Frame>)
    ensures FirstDecision(root, frames).Some? ==> Probes(root, frames, FirstDecision(root, frames).value.calibration)
  {
    hide Decision, ProbeGain;
    if frames == [] { return; }
    var front := frames[..|frames| - 1];
    FirstDecisionProbes(root, front);
    DecisionProbes(root, frames);
    if FirstDecision(root, front).Some? {
      var c := FirstDecision(root, front).value.calibration;
      assert front[c.onset..c.onset + PROBE_FRAMES] == frames[c.onset..c.onset + PROBE_FRAMES];
    }
  }

  lemma {:induction false} CombinedIsAnalyzed(samples: seq<Sample>)
    requires |samples| % FRAME_SAMPLES == 0
    ensures Combined(FramesOf(samples)) == Analyze(samples)
    decreases |samples|
  {
    if samples == [] { return; }
    var first, rest := samples[..FRAME_SAMPLES], samples[FRAME_SAMPLES..];
    assert samples == first + rest;
    LevelsAdd(first, rest);
    CombinedIsAnalyzed(rest);
    hide Peak, Squares;
    var frames := FramesOf(samples);
    assert frames[0] == Analyze(first) && frames[1..] == FramesOf(rest);
  }

  /** The samples of frames `from` to `from + n`. */
  function Stretch(stream: seq<Sample>, from: nat, n: nat): seq<Sample>
    requires (from + n) * FRAME_SAMPLES <= |stream|
  {
    stream[from * FRAME_SAMPLES..(from + n) * FRAME_SAMPLES]
  }

  lemma FramesOfStretch(stream: seq<Sample>, from: nat, n: nat)
    requires (from + n) * FRAME_SAMPLES <= |stream|
    ensures |FramesOf(stream)| >= from + n && FramesOf(stream)[from..from + n] == FramesOf(Stretch(stream, from, n))
  {
    hide FramesOf;
    var i, j := from * FRAME_SAMPLES, (from + n) * FRAME_SAMPLES;
    FramesConcat(stream[..i], stream[i..]);
    FramesConcat(stream[i..j], stream[j..]);
    FramesCount(stream[..i]);
    FramesCount(stream[i..j]);
    FramesCount(stream);
    assert stream[..i] + stream[i..] == stream && stream[i..j] + stream[j..] == stream[i..];
  }

  lemma ProbeIsInside(root: Root, stream: seq<Sample>)
    requires StreamVerdict(root, stream).Some?
    ensures var c := StreamVerdict(root, stream).value.calibration;
      && (c.onset + PROBE_FRAMES) * FRAME_SAMPLES <= |stream|
      && c.gain == ClipGain(root, Stretch(stream, c.onset, PROBE_FRAMES))
  {
    hide FirstDecision, FramesOf, Peak, Squares;
    var c := StreamVerdict(root, stream).value.calibration;
    FirstDecisionProbes(root, FramesOf(stream));
    FramesCount(stream);
    assert (c.onset + PROBE_FRAMES) * FRAME_SAMPLES <= |stream|;
    FramesOfStretch(stream, c.onset, PROBE_FRAMES);
    CombinedIsAnalyzed(Stretch(stream, c.onset, PROBE_FRAMES));
  }

  /**
   The gain a verdict calibrates is the greatest that the levels of its own probe allow: of the ten frames of the
   stream, 4,800 samples, from the onset it names.
   */
  lemma VerdictGainIsGreatest(root: Root, stream: seq<Sample>)
    requires StreamVerdict(root, stream).Some?
    ensures var c := StreamVerdict(root, stream).value.calibration;
      && (c.onset + PROBE_FRAMES) * FRAME_SAMPLES <= |stream|
      && var probe := Stretch(stream, c.onset, PROBE_FRAMES);
         Greatest(c.gain, NormalizedPeak(probe), Rms(root, Analyze(probe)))
  {
    hide StreamVerdict, Greatest, ClipGain;
    ProbeIsInside(root, stream);
    ClipGainIsGreatest(root, Stretch(stream, StreamVerdict(root, stream).value.calibration.onset, PROBE_FRAMES));
  }

  // ----- when a verdict is made -----

  /** The window of the last five frames has three active ones. */
  predicate LoudAt(root: Root, frames: seq<Frame>, n: nat)
    requires n <= |frames|
  {
    ActiveIn(root, LastOf(frames[..n], ACTIVE_WINDOW)) >= MIN_ACTIVE
  }

  /** The index is that of the first active frame of the window that ends after `n` frames. */
  ghost predicate FirstActiveOf(root: Root, frames: seq<Frame>, n: nat, i: nat)
    requires n <= |frames|
  {
    && i < n && n <= i + ACTIVE_WINDOW && IsActive(root, frames[i])
    && forall j | Max(0, n - ACTIVE_WINDOW) <= j < i :: !IsActive(root, frames[j])
  }

  lemma {:induction false} FirstActiveInIsFirst(root: Root, frames: seq<Frame>)
    requires ActiveIn(root, frames) > 0
    ensures var i := FirstActiveIn(root, frames);
      i < |frames| && IsActive(root, frames[i]) && forall j | 0 <= j < i :: !IsActive(root, frames[j])
  {
    if !IsActive(root, frames[0]) { FirstActiveInIsFirst(root, frames[1..]); }
  }

  lemma FirstInWindow(root: Root, frames: seq<Frame>)
    requires ActiveIn(root, LastOf(frames, ACTIVE_WINDOW)) >= MIN_ACTIVE
    ensures var window := LastOf(frames, ACTIVE_WINDOW);
      FirstActiveOf(root, frames, |frames|, |frames| - |window| + FirstActiveIn(root, window))
  {
    var window := LastOf(frames, ACTIVE_WINDOW);
    FirstActiveInIsFirst(root, window);
    hide IsActive, ActiveIn, FirstActiveIn;
    assert forall j | 0 <= j < |window| :: window[j] == frames[|frames| - |window| + j];
    var i := |frames| - |window| + FirstActiveIn(root, window);
    assert frames[i] == window[FirstActiveIn(root, window)];
    forall j | Max(0, |frames| - ACTIVE_WINDOW) <= j < i ensures !IsActive(root, frames[j]) {
      assert frames[j] == window[j - (|frames| - |window|)];
    }
  }

  /**
   Loud speech begins at the first active frame of the first window of five frames with three active ones: found
   exactly when there is such a window. `n` is how many frames have been seen when the window is complete.
   */
  lemma {:induction false} LoudOnsetIsFirst(root: Root, frames: seq<Frame>) returns (n: nat)
    ensures n <= |frames| + 1 && forall m: nat | m < n && m <= |frames| :: !LoudAt(root, frames, m)
    ensures LoudOnset(root, frames).Some? <==> n <= |frames|
    ensures LoudOnset(root, frames).Some? ==> LoudAt(root, frames, n) && FirstActiveOf(root, frames, n, LoudOnset(root, frames).value)
  {
    hide ActiveIn, FirstActiveIn, IsActive;
    if frames == [] {
      NoneActive(root);
      assert frames[..0] == [] && LastOf<Frame>([], ACTIVE_WINDOW) == [];
      return 1;
    }
    var front := frames[..|frames| - 1];
    n := LoudOnsetIsFirst(root, front);
    forall m: nat | m < |frames| ensures LoudAt(root, frames, m) == LoudAt(root, front, m) { assert frames[..m] == front[..m]; }
    if LoudOnset(root, front).Some? {
      assert LoudAt(root, front, n);
      return;
    }
    assert frames[..|frames|] == frames;
    if LoudAt(root, frames, |frames|) { FirstInWindow(root, frames); } else { n := |frames| + 1; }
  }

  lemma NoneActive(root: Root) ensures ActiveIn(root, []) == 0 {}

  /** A verdict is the first decision: made after `v.frames` frames, and none could be made before. */
  lemma {:induction false} VerdictIsFirst(root: Root, frames: seq<Frame>)
    ensures var v := FirstDecision(root, frames);
      && (v.None? ==> forall n: nat | 0 < n <= |frames| :: Decision(root, frames[..n]).None?)
      && (v.Some? ==> 0 < v.value.frames <= |frames| && Decision(root, frames[..v.value.frames]) == Some(v.value.calibration)
                      && forall n: nat | 0 < n < v.value.frames :: Decision(root, frames[..n]).None?)
  {
    hide Decision;
    if frames == [] { return; }
    var front := frames[..|frames| - 1];
    VerdictIsFirst(root, front);
    assert forall n: nat | n < |frames| :: frames[..n] == front[..n];
    assert frames[..|frames|] == frames;
  }

  /**
   Quiet speech is found in thirty frames exactly when a window of five has three that reach the quiet threshold, ten
   frames follow the first such frame, and those ten are loud enough and peak at least threefold over their RMS level.
   */
  lemma QuietIff(root: Root, window: seq<Frame>, count: nat, i: nat)
    requires QUIET_FRAMES <= |window| <= count && |FrameRms(root, window)| == |window|
    requires FirstOfFirst(FrameRms(root, window), QuietThreshold(FrameRms(root, window)), i)
    ensures QuietCalibration(root, window, count).Some? <==> i + PROBE_FRAMES <= |window| && Audible(root, window[i..i + PROBE_FRAMES])
    ensures QuietCalibration(root, window, count).Some? ==>
      QuietCalibration(root, window, count).value.onset == count - |window| + i
  {
    FirstSustainedIff(FrameRms(root, window), QuietThreshold(FrameRms(root, window)), i);
    hide FirstSustained, QuietThreshold, FrameRms, Rms;
  }

  predicate Audible(root: Root, probe: seq<Frame>) {
    var peak, rms := MaxPeak(probe) as real / FULL_SCALE, Rms(root, Combined(probe));
    peak >= 0.008 && rms >= 0.0005 && peak >= 3.0 * rms
  }

  lemma QuietIsSomewhere(root: Root, window: seq<Frame>, count: nat)
    requires |window| <= count && |FrameRms(root, window)| == |window|
    ensures QuietCalibration(root, window, count).Some? ==>
      |window| >= QUIET_FRAMES && exists i: nat :: FirstOfFirst(FrameRms(root, window), QuietThreshold(FrameRms(root, window)), i)
  {
    if |window| < QUIET_FRAMES { return; }
    var levels := FrameRms(root, window);
    var onset := FirstSustained(levels, QuietThreshold(levels), 0);
    if onset.Some? {
      FirstSustainedIff(levels, QuietThreshold(levels), onset.value);
      assert FirstOfFirst(levels, QuietThreshold(levels), onset.value);
    }
  }

  // ----- the gain of each chunk, and where emission starts -----

  /** The greatest gain that is no greater than `most` and brings the peak no further than 0.8; silence keeps it. */
  ghost predicate GreatestUpTo(gain: real, most: real, peak: real) {
    if peak <= 0.0 then gain == most
    else
      && 1.0 <= gain <= most && (gain > 1.0 ==> gain * peak <= TARGET_PEAK)
      && forall g: real :: gain < g <= most ==> !Allowed(g, peak, 0.0)
  }

  lemma ChunkGainIsGreatest(gain: real, samples: seq<Sample>)
    requires gain >= 1.0
    ensures GreatestUpTo(ChunkGain(gain, samples), gain, NormalizedPeak(samples))
  {
    var peak, now := NormalizedPeak(samples), ChunkGain(gain, samples);
    if peak <= 0.0 { return; }
    WithinTarget(now, peak, TARGET_PEAK);
    forall g: real | now < g <= gain ensures !Allowed(g, peak, 0.0) { WithinTarget(g, peak, TARGET_PEAK); }
  }

  /**
   In any run of the normalizer a chunk after the verdict is emitted with the greatest gain that is no greater than the
   one before it and that the chunk's own peak allows.
   */
  lemma NextGainIsGreatest(root: Root, chunks: seq<seq<Sample>>, pcm: seq<Sample>)
    requires StreamVerdict(root, Flatten(chunks)).Some?
    ensures var e, f := Emitted(root, chunks), Emitted(root, chunks + [pcm]);
      && e.gain.Some? && f.gain.Some? && GreatestUpTo(f.gain.value, e.gain.value, NormalizedPeak(pcm))
      && f.out == e.out + ApplyGain(pcm, f.gain.value)
  {
    hide StreamVerdict, ApplyGain, ChunkGain, Repeat, Peak, GreatestUpTo;
    EmissionFollowsStream(root, chunks);
    VerdictStands(root, Flatten(chunks), pcm);
    assert (chunks + [pcm])[..|chunks|] == chunks;
    ChunkGainIsGreatest(Emitted(root, chunks).gain.value, pcm);
  }

  /** What is emitted begins 320 ms before the onset, or with the stream if the onset is sooner. */
  lemma EmissionLeadsOnset(root: Root, chunks: seq<seq<Sample>>)
    requires StreamVerdict(root, Flatten(chunks)).Some?
    ensures var stream, out := Flatten(chunks), Emitted(root, chunks).out;
      var onset := StreamVerdict(root, stream).value.calibration.onset * FRAME_SAMPLES;
      |out| <= |stream| && |stream| - |out| == onset - Min(onset, PREROLL_SAMPLES)
  {
    hide StreamVerdict;
    EmissionFollowsStream(root, chunks);
  }
}
