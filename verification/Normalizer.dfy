/**
 The streaming transcription calibrator and normalizer: where in the stream speech begins, the gain
 it starts with, and which bytes are emitted, under any chunking.

 The incremental calibrator is proved to decide what a direct definition over all frames decides.
 Samples are the unit here: a frame is 480 of them, the 320 ms pre-roll 7,680.
 */
module Normalizer {
  import opened Wrappers
  import opened Pcm
  import opened Levels
  import opened Trim

  const PROBE_FRAMES := 10
  const QUIET_FRAMES := 30
  const ACTIVATION_RMS := 0.01
  const PREROLL_SAMPLES := 7_680
  const MAX_PENDING_SAMPLES := 22_080

  datatype Calibration = Calibration(gain: real, onset: nat)

  function LastOf<T>(xs: seq<T>, n: nat): seq<T> { if |xs| <= n then xs else xs[|xs| - n..] }

  // ----- the levels of a run of frames -----

  function MaxPeak(frames: seq<Frame>): nat { if frames == [] then 0 else Max(frames[0].peak, MaxPeak(frames[1..])) }

  function SumSquares(frames: seq<Frame>): nat { if frames == [] then 0 else frames[0].squares + SumSquares(frames[1..]) }

  function SumCounts(frames: seq<Frame>): nat { if frames == [] then 0 else frames[0].count + SumCounts(frames[1..]) }

  function Combined(frames: seq<Frame>): Frame { Frame(MaxPeak(frames), SumSquares(frames), SumCounts(frames)) }

  function ProbeGain(root: Root, frames: seq<Frame>): real {
    GainForLevels(MaxPeak(frames) as real / FULL_SCALE, Rms(root, Combined(frames)))
  }

  function FrameRms(root: Root, frames: seq<Frame>): seq<real> {
    if frames == [] then [] else [Rms(root, frames[0])] + FrameRms(root, frames[1..])
  }

  // ----- quiet speech, judged on a window of 30 frames -----

  function QuietThreshold(levels: seq<real>): real
    requires levels != []
  {
    var floor := Sorted(levels)[|levels| / 5];
    RMax(0.001, RMax(floor * 2.0, floor + 0.0005))
  }

  function QuietCalibration(root: Root, window: seq<Frame>, count: nat): Option<Calibration>
    requires |window| <= count
  {
    if |window| < QUIET_FRAMES then None
    else
      RmsLength(root, window);
      var levels := FrameRms(root, window);
      var onset := FirstSustained(levels, QuietThreshold(levels), 0);
      if onset.None? || |window| < onset.value + PROBE_FRAMES then None
      else
        var probe := window[onset.value..onset.value + PROBE_FRAMES];
        var peak, rms := MaxPeak(probe) as real / FULL_SCALE, Rms(root, Combined(probe));
        if peak < 0.008 || rms < 0.0005 || peak < 3.0 * rms then None
        else Some(Calibration(GainForLevels(peak, rms), count - |window| + onset.value))
  }

  lemma {:induction false} RmsLength(root: Root, frames: seq<Frame>)
    ensures |FrameRms(root, frames)| == |frames|
  {
    if frames != [] { RmsLength(root, frames[1..]); }
  }

  // ----- the direct definition, over all the frames so far -----

  predicate IsActive(root: Root, f: Frame) { Rms(root, f) >= ACTIVATION_RMS }

  function ActiveIn(root: Root, frames: seq<Frame>): nat {
    if frames == [] then 0 else (if IsActive(root, frames[0]) then 1 else 0) + ActiveIn(root, frames[1..])
  }

  function FirstActiveIn(root: Root, frames: seq<Frame>): (i: nat)
    requires ActiveIn(root, frames) > 0
    ensures i < |frames|
  {
    if IsActive(root, frames[0]) then 0 else 1 + FirstActiveIn(root, frames[1..])
  }

  /** Where loud speech begins: the first active frame of the first window of five with three active. */
  function LoudOnset(root: Root, frames: seq<Frame>): (r: Option<nat>)
    ensures r.Some? ==> r.value < |frames|
  {
    if frames == [] then None
    else
      var earlier := LoudOnset(root, frames[..|frames| - 1]);
      var window := LastOf(frames, ACTIVE_WINDOW);
      if earlier.Some? then earlier
      else if ActiveIn(root, window) >= MIN_ACTIVE then Some(|frames| - |window| + FirstActiveIn(root, window))
      else None
  }

  /** What is decided once these frames have been seen, if nothing was decided before. */
  function Decision(root: Root, frames: seq<Frame>): Option<Calibration> {
    var loud := LoudOnset(root, frames);
    if loud.Some? && |frames| >= loud.value + PROBE_FRAMES then
      Some(Calibration(ProbeGain(root, frames[loud.value..loud.value + PROBE_FRAMES]), loud.value))
    else QuietCalibration(root, LastOf(frames, QUIET_FRAMES), |frames|)
  }

  /** The first decision over a run of frames, and after how many frames it is made. */
  datatype Verdict = Verdict(calibration: Calibration, frames: nat)

  function FirstDecision(root: Root, frames: seq<Frame>): Option<Verdict> {
    if frames == [] then None
    else
      var earlier := FirstDecision(root, frames[..|frames| - 1]);
      if earlier.Some? then earlier
      else
        var now := Decision(root, frames);
        if now.Some? then Some(Verdict(now.value, |frames|)) else None
  }

  lemma {:induction false} DecisionStands(root: Root, frames: seq<Frame>, more: seq<Frame>)
    requires FirstDecision(root, frames).Some?
    ensures FirstDecision(root, frames + more) == FirstDecision(root, frames)
  {
    hide Decision;
    if more == [] {
      assert frames + more == frames;
    } else {
      DecisionStands(root, frames, more[..|more| - 1]);
      assert (frames + more)[..|frames + more| - 1] == frames + more[..|more| - 1];
    }
  }

  /** A first decision lies within the last 30 frames, and its probe is complete. */
  lemma {:induction false} DecisionIsRecent(root: Root, frames: seq<Frame>)
    ensures var v := FirstDecision(root, frames);
      v.Some? ==> v.value.frames <= |frames| && v.value.calibration.onset + PROBE_FRAMES <= v.value.frames
                  && v.value.frames <= v.value.calibration.onset + QUIET_FRAMES
  {
    if frames == [] { return; }
    DecisionIsRecent(root, frames[..|frames| - 1]);
    if FirstDecision(root, frames[..|frames| - 1]).Some? || Decision(root, frames).None? { return; }
    var loud := LoudOnset(root, frames);
    hide QuietCalibration, ProbeGain, FirstDecision;
    QuietIsRecent(root, LastOf(frames, QUIET_FRAMES), |frames|);
    if loud.Some? && |frames| >= loud.value + PROBE_FRAMES { LoudIsRecent(root, frames, loud.value); }
  }

  lemma QuietIsRecent(root: Root, window: seq<Frame>, count: nat)
    requires |window| <= QUIET_FRAMES && |window| <= count
    ensures var q := QuietCalibration(root, window, count);
      q.Some? ==> q.value.onset + PROBE_FRAMES <= count <= q.value.onset + QUIET_FRAMES
  {
    RmsLength(root, window);
  }

  lemma LoudIsRecent(root: Root, frames: seq<Frame>, onset: nat)
    requires frames != [] && LoudOnset(root, frames) == Some(onset)
    requires FirstDecision(root, frames[..|frames| - 1]).None?
    ensures |frames| <= onset + QUIET_FRAMES
  {
    var was := frames[..|frames| - 1];
    if was != [] && LoudOnset(root, was).Some? { UndecidedNow(root, was); }
  }

  lemma UndecidedNow(root: Root, frames: seq<Frame>)
    requires frames != [] && FirstDecision(root, frames).None?
    ensures Decision(root, frames).None?
    ensures LoudOnset(root, frames).Some? ==> |frames| < LoudOnset(root, frames).value + PROBE_FRAMES
  {}

  // ----- the incremental calibrator -----

  datatype Probe = NoProbe | Probe(frames: seq<Frame>, onset: nat)

  /** What the calibrator keeps: the last five and thirty frames, and the loud probe once it is open. */
  ghost predicate Represents(root: Root, window: seq<Frame>, probe: Probe, quiet: seq<Frame>, count: nat, frames: seq<Frame>) {
    && count == |frames| && quiet == LastOf(frames, QUIET_FRAMES)
    && match LoudOnset(root, frames) {
         case None => probe.NoProbe? && window == LastOf(frames, ACTIVE_WINDOW)
         case Some(onset) => probe == Probe(frames[onset..], onset)
       }
  }

  lemma LastOfAppend<T>(xs: seq<T>, x: T, n: nat)
    requires n > 0
    ensures LastOf(LastOf(xs, n) + [x], n) == LastOf(xs + [x], n)
  {}

  /** One more frame while the loud probe is open, ... */
  lemma OpenProbeHolds(root: Root, window: seq<Frame>, probe: Probe, quiet: seq<Frame>, count: nat, frames: seq<Frame>, f: Frame)
    requires Represents(root, window, probe, quiet, count, frames) && probe.Probe?
    ensures Represents(root, window, Probe(probe.frames + [f], probe.onset), LastOf(quiet + [f], QUIET_FRAMES), count + 1, frames + [f])
  {
    var all := frames + [f];
    assert all[..|all| - 1] == frames;
    LastOfAppend(frames, f, QUIET_FRAMES);
    hide LastOf, ActiveIn, FirstActiveIn;
    assert frames[probe.onset..] + [f] == all[probe.onset..];
  }

  /** ... and before, when it may open it. */
  lemma NoProbeHolds(root: Root, window: seq<Frame>, probe: Probe, quiet: seq<Frame>, count: nat, frames: seq<Frame>, f: Frame)
    requires Represents(root, window, probe, quiet, count, frames) && probe.NoProbe?
    ensures var w, q := LastOf(window + [f], ACTIVE_WINDOW), LastOf(quiet + [f], QUIET_FRAMES);
      && |w| <= count + 1
      && Represents(root, w,
                    if ActiveIn(root, w) >= MIN_ACTIVE
                    then Probe(w[FirstActiveIn(root, w)..], count + 1 - |w| + FirstActiveIn(root, w)) else NoProbe,
                    q, count + 1, frames + [f])
  {
    var all := frames + [f];
    assert all[..|all| - 1] == frames;
    LastOfAppend(frames, f, QUIET_FRAMES);
    LastOfAppend(frames, f, ACTIVE_WINDOW);
    LastOfIsTail(all, ACTIVE_WINDOW);
    hide LastOf, ActiveIn, FirstActiveIn;
  }

  lemma LastOfIsTail<T>(xs: seq<T>, n: nat)
    ensures |LastOf(xs, n)| <= |xs|
    ensures forall i: nat | i <= |LastOf(xs, n)| :: LastOf(xs, n)[i..] == xs[|xs| - |LastOf(xs, n)| + i..]
  {}

  /** What the calibrator keeps about a stream is bounded by one window. */
  class Calibrator {
    const root: Root
    var window: seq<Frame>
    var probe: Probe
    var quiet: seq<Frame>
    var count: nat

    ghost predicate Holds(frames: seq<Frame>)
      reads this
    {
      Represents(root, window, probe, quiet, count, frames)
    }

    constructor (root: Root)
      ensures Holds([]) && this.root == root
    {
      this.root := root;
      window, probe, quiet, count := [], NoProbe, [], 0;
    }

    method Remember(f: Frame, ghost frames: seq<Frame>)
      requires Holds(frames)
      modifies `window, `probe, `quiet, `count
      ensures Holds(frames + [f])
    {
      hide Represents, LoudOnset, ActiveIn, FirstActiveIn, LastOf;
      if probe.Probe? { OpenProbeHolds(root, window, probe, quiet, count, frames, f); }
      else { NoProbeHolds(root, window, probe, quiet, count, frames, f); }
      count := count + 1;
      quiet := LastOf(quiet + [f], QUIET_FRAMES);
      if probe.Probe? {
        probe := Probe(probe.frames + [f], probe.onset);
        return;
      }
      window := LastOf(window + [f], ACTIVE_WINDOW);
      if ActiveIn(root, window) >= MIN_ACTIVE {
        var offset := FirstActiveIn(root, window);
        probe := Probe(window[offset..], count - |window| + offset);
      }
    }

    method Decide(ghost frames: seq<Frame>) returns (decided: Option<Calibration>)
      requires Holds(frames)
      ensures decided == Decision(root, frames)
    {
      hide ProbeGain, QuietCalibration, LoudOnset;
      if probe.Probe? && |probe.frames| >= PROBE_FRAMES {
        assert probe.frames[..PROBE_FRAMES] == frames[probe.onset..probe.onset + PROBE_FRAMES];
        return Some(Calibration(ProbeGain(root, probe.frames[..PROBE_FRAMES]), probe.onset));
      }
      return QuietCalibration(root, quiet, count);
    }

    method FeedFrame(f: Frame, ghost frames: seq<Frame>) returns (decided: Option<Calibration>)
      requires Holds(frames)
      modifies `window, `probe, `quiet, `count
      ensures decided == Decision(root, frames + [f]) && Holds(frames + [f])
    {
      hide Represents, Decision;
      Remember(f, frames);
      decided := Decide(frames + [f]);
    }
  }

  // ----- streams -----

  function FramesOf(stream: seq<Sample>): seq<Frame>
    decreases |stream|
  {
    if |stream| < FRAME_SAMPLES then [] else [Analyze(stream[..FRAME_SAMPLES])] + FramesOf(stream[FRAME_SAMPLES..])
  }

  lemma {:induction false} FramesCount(stream: seq<Sample>)
    ensures |FramesOf(stream)| == |stream| / FRAME_SAMPLES
    decreases |stream|
  {
    hide Analyze;
    if |stream| >= FRAME_SAMPLES { FramesCount(stream[FRAME_SAMPLES..]); }
  }

  lemma {:induction false} FramesConcat(a: seq<Sample>, b: seq<Sample>)
    requires |a| % FRAME_SAMPLES == 0
    ensures FramesOf(a + b) == FramesOf(a) + FramesOf(b)
    decreases |a|
  {
    hide Analyze;
    if a == [] {
      assert a + b == b;
    } else {
      FramesConcat(a[FRAME_SAMPLES..], b);
      assert (a + b)[..FRAME_SAMPLES] == a[..FRAME_SAMPLES] && (a + b)[FRAME_SAMPLES..] == a[FRAME_SAMPLES..] + b;
    }
  }

  /** The complete frames of a stream, and what is left of it. */
  function Whole(stream: seq<Sample>): (n: nat)
    ensures n <= |stream| < n + FRAME_SAMPLES && n % FRAME_SAMPLES == 0
  {
    |stream| / FRAME_SAMPLES * FRAME_SAMPLES
  }

  lemma FramesOfWhole(stream: seq<Sample>, more: seq<Sample>)
    ensures FramesOf(stream + more) == FramesOf(stream) + FramesOf(stream[Whole(stream)..] + more)
  {
    var n := Whole(stream);
    FramesConcat(stream[..n], stream[n..] + more);
    FramesConcat(stream[..n], stream[n..]);
    assert stream[..n] + (stream[n..] + more) == stream + more && stream[..n] + stream[n..] == stream;
    assert FramesOf(stream[n..]) == [];
  }

  function StreamVerdict(root: Root, stream: seq<Sample>): Option<Verdict> { FirstDecision(root, FramesOf(stream)) }

  /** Emission starts 320 ms before the onset, or at the beginning. */
  function EmissionStart(onset: nat): nat { Max(0, onset * FRAME_SAMPLES - PREROLL_SAMPLES) }

  lemma VerdictStands(root: Root, stream: seq<Sample>, more: seq<Sample>)
    requires StreamVerdict(root, stream).Some?
    ensures StreamVerdict(root, stream + more) == StreamVerdict(root, stream)
    ensures EmissionStart(StreamVerdict(root, stream).value.calibration.onset) <= |stream|
  {
    hide FirstDecision, FramesOf;
    FramesOfWhole(stream, more);
    DecisionStands(root, FramesOf(stream), FramesOf(stream[Whole(stream)..] + more));
    DecisionIsRecent(root, FramesOf(stream));
    FramesCount(stream);
  }

  /**
   The bounded pending buffer never loses audio that is to be emitted: a verdict made only now starts
   its emission at or after anything a full buffer had discarded before.
   */
  lemma DiscardSparesPreroll(root: Root, stream: seq<Sample>, more: seq<Sample>, discarded: nat)
    requires StreamVerdict(root, stream).None? && StreamVerdict(root, stream + more).Some?
    requires discarded > 0 ==> discarded + MAX_PENDING_SAMPLES <= |stream|
    ensures EmissionStart(StreamVerdict(root, stream + more).value.calibration.onset) >= discarded
  {
    hide Decision, FramesOf;
    var v := StreamVerdict(root, stream + more).value;
    DecisionIsRecent(root, FramesOf(stream + more));
    FramesOfWhole(stream, more);
    FramesCount(stream);
    LaterVerdict(root, FramesOf(stream), FramesOf(stream[Whole(stream)..] + more));
    assert v.frames * FRAME_SAMPLES > |stream|;
  }

  lemma {:induction false} LaterVerdict(root: Root, frames: seq<Frame>, more: seq<Frame>)
    requires FirstDecision(root, frames).None? && FirstDecision(root, frames + more).Some?
    ensures FirstDecision(root, frames + more).value.frames > |frames|
  {
    hide Decision;
    assert more == [] ==> frames + more == frames;
    if more != [] {
      assert (frames + more)[..|frames + more| - 1] == frames + more[..|more| - 1];
      if FirstDecision(root, frames + more[..|more| - 1]).Some? { LaterVerdict(root, frames, more[..|more| - 1]); }
    }
  }

  lemma DecidedNow(root: Root, frames: seq<Frame>, f: Frame)
    requires FirstDecision(root, frames).None?
    ensures var now := Decision(root, frames + [f]);
      FirstDecision(root, frames + [f]) == if now.Some? then Some(Verdict(now.value, |frames| + 1)) else None
  {
    hide Decision;
    assert (frames + [f])[..|frames|] == frames;
  }

  // ----- what feeding a chunk emits -----

  function NextGain(root: Root, fed: seq<Sample>, gain: Option<real>, pcm: seq<Sample>): Option<real> {
    var v := StreamVerdict(root, fed + pcm);
    if v.None? then None
    else if gain.None? then Some(v.value.calibration.gain)
    else Some(ChunkGain(gain.value, pcm))
  }

  /** Nothing before the verdict, then the stream from its emission start, then every chunk. */
  function Output(root: Root, fed: seq<Sample>, gain: Option<real>, pcm: seq<Sample>): seq<Sample> {
    var v := StreamVerdict(root, fed + pcm);
    var now := NextGain(root, fed, gain, pcm);
    if v.None? then []
    else if gain.None? then
      VerdictStands(root, fed + pcm, []);
      ApplyGain((fed + pcm)[EmissionStart(v.value.calibration.onset)..], now.value)
    else ApplyGain(pcm, now.value)
  }

  function Flatten(chunks: seq<seq<Sample>>): seq<Sample> {
    if chunks == [] then [] else Flatten(chunks[..|chunks| - 1]) + chunks[|chunks| - 1]
  }

  /** All that was emitted, the gain of each sample of it, and the gain now. */
  datatype Emission = Emission(out: seq<Sample>, gains: seq<real>, gain: Option<real>)

  function Repeat(g: real, n: nat): (r: seq<real>)
    ensures |r| == n && forall i | 0 <= i < n :: r[i] == g
  {
    if n == 0 then [] else [g] + Repeat(g, n - 1)
  }

  function Emitted(root: Root, chunks: seq<seq<Sample>>): Emission {
    if chunks == [] then Emission([], [], None)
    else
      var e, fed, pcm := Emitted(root, chunks[..|chunks| - 1]), Flatten(chunks[..|chunks| - 1]), chunks[|chunks| - 1];
      var out, gain := Output(root, fed, e.gain, pcm), NextGain(root, fed, e.gain, pcm);
      Emission(e.out + out, e.gains + (if gain.Some? then Repeat(gain.value, |out|) else []), gain)
  }

  function Scaled(x: Sample, gain: real): Sample { if gain <= 1.0 then x else Amplified(x, gain) }

  lemma {:induction false} ApplyGainScales(samples: seq<Sample>, gain: real, i: nat)
    requires i < |samples|
    ensures ApplyGain(samples, gain)[i] == Scaled(samples[i], gain)
  {
    if gain > 1.0 { ApplyGainAt(samples, gain, i); }
  }

  /** `out` is the stream from `start`, each sample scaled by its gain; gains lie in [1, first] and never rise. */
  ghost predicate Follows(e: Emission, stream: seq<Sample>, start: nat, first: real) {
    && start <= |stream| && |e.out| == |e.gains| == |stream| - start
    && e.gain.Some? && 1.0 <= e.gain.value <= first
    && (forall k | 0 <= k < |e.out| :: e.out[k] == Scaled(stream[start + k], e.gains[k]) && e.gain.value <= e.gains[k] <= first)
    && (forall j, k | 0 <= j < k < |e.gains| :: e.gains[j] >= e.gains[k])
  }

  lemma FirstEmission(root: Root, fed: seq<Sample>, pcm: seq<Sample>)
    requires StreamVerdict(root, fed + pcm).Some?
    ensures var c := StreamVerdict(root, fed + pcm).value.calibration;
      var out := Output(root, fed, None, pcm);
      Follows(Emission([] + out, [] + Repeat(c.gain, |out|), Some(c.gain)), fed + pcm, EmissionStart(c.onset), c.gain)
  {
    hide StreamVerdict, ApplyGain, Amplified, Scaled, Repeat;
    VerdictStands(root, fed + pcm, []);
    GainAtLeastOne(root, fed + pcm);
    var c := StreamVerdict(root, fed + pcm).value.calibration;
    var tail := (fed + pcm)[EmissionStart(c.onset)..];
    forall k | 0 <= k < |tail| ensures ApplyGain(tail, c.gain)[k] == Scaled(tail[k], c.gain) { ApplyGainScales(tail, c.gain, k); }
  }

  lemma LaterEmission(e: Emission, stream: seq<Sample>, pcm: seq<Sample>, start: nat, first: real)
    requires Follows(e, stream, start, first)
    ensures var g := ChunkGain(e.gain.value, pcm);
      var out := ApplyGain(pcm, g);
      Follows(Emission(e.out + out, e.gains + Repeat(g, |out|), Some(g)), stream + pcm, start, first)
  {
    hide ApplyGain, Amplified, Scaled, Repeat, Peak;
    var g := ChunkGain(e.gain.value, pcm);
    forall k | 0 <= k < |pcm| ensures ApplyGain(pcm, g)[k] == Scaled(pcm[k], g) { ApplyGainScales(pcm, g, k); }
  }

  /**
   However a stream is cut into chunks, what is emitted starts at the verdict's emission start and
   follows the stream to its end; only how soon a later gain comes down depends on the chunks.
   */
  lemma {:induction false} EmissionFollowsStream(root: Root, chunks: seq<seq<Sample>>)
    ensures var e, v := Emitted(root, chunks), StreamVerdict(root, Flatten(chunks));
      if v.None? then e == Emission([], [], None)
      else Follows(e, Flatten(chunks), EmissionStart(v.value.calibration.onset), v.value.calibration.gain)
  {
    hide StreamVerdict, Follows, ApplyGain, ChunkGain, Repeat;
    if chunks == [] {
      NothingDecided(root);
      return;
    }
    var was, pcm := chunks[..|chunks| - 1], chunks[|chunks| - 1];
    var fed, e := Flatten(was), Emitted(root, was);
    EmissionFollowsStream(root, was);
    if StreamVerdict(root, fed).Some? {
      var v := StreamVerdict(root, fed).value;
      VerdictStands(root, fed, pcm);
      FollowsHasGain(e, fed, EmissionStart(v.calibration.onset), v.calibration.gain);
      LaterEmission(e, fed, pcm, EmissionStart(v.calibration.onset), v.calibration.gain);
    } else if StreamVerdict(root, fed + pcm).Some? {
      FirstEmission(root, fed, pcm);
    }
  }

  lemma FollowsHasGain(e: Emission, stream: seq<Sample>, start: nat, first: real)
    requires Follows(e, stream, start, first)
    ensures e.gain.Some?
  {}

  lemma NothingDecided(root: Root)
    ensures StreamVerdict(root, []).None?
  {
    EmptyFrames();
  }

  lemma NothingFed(root: Root)
    ensures StreamVerdict(root, []).None? && FramesOf([]) == [] && Whole([]) == 0
  {
    NothingDecided(root);
    EmptyFrames();
  }

  lemma WholeAdds(fed: seq<Sample>, pcm: seq<Sample>, complete: nat)
    requires complete == |fed[Whole(fed)..] + pcm| / FRAME_SAMPLES * FRAME_SAMPLES
    ensures Whole(fed + pcm) == Whole(fed) + complete
    ensures complete <= |fed[Whole(fed)..] + pcm| && (fed[Whole(fed)..] + pcm)[complete..] == (fed + pcm)[Whole(fed + pcm)..]
  {}

  // ----- the normalizer -----

  class StreamingNormalizer {
    const root: Root
    const calibrator: Calibrator
    var pending: seq<Sample>
    var pendingStart: nat
    var partial: seq<Sample>
    var gain: Option<real>
    var output: nat
    ghost var fed: seq<Sample>

    ghost predicate Waiting()
      reads this, calibrator
    {
      && StreamVerdict(root, fed).None? && calibrator.Holds(FramesOf(fed)) && partial == fed[Whole(fed)..]
      && pendingStart <= |fed| && pendingStart % FRAME_SAMPLES == 0 && pending == fed[pendingStart..]
      && |pending| < MAX_PENDING_SAMPLES + FRAME_SAMPLES
      && (pendingStart > 0 ==> |pending| >= MAX_PENDING_SAMPLES)
      && output == 0
    }

    ghost predicate Emitting()
      reads this
    {
      && gain.Some? && gain.value >= 1.0 && StreamVerdict(root, fed).Some?
      && var start := EmissionStart(StreamVerdict(root, fed).value.calibration.onset);
         start <= |fed| && output == |fed| - start
    }

    ghost predicate Valid()
      reads this, calibrator
    {
      calibrator.root == root && if gain.None? then Waiting() else Emitting()
    }

    constructor (root: Root)
      ensures Valid() && fresh(calibrator) && fed == [] && gain.None? && this.root == root
    {
      this.root := root;
      calibrator := new Calibrator(root);
      pending, pendingStart, partial, gain, output, fed := [], 0, [], None, 0, [];
      new;
      hide FirstDecision, Decision, FramesOf, Represents, StreamVerdict, Whole;
      NothingFed(root);
    }

    /** The calibrator's `feed`: analyzes each complete frame once, up to the first decision. */
    method Calibrate(pcm: seq<Sample>) returns (decided: Option<Calibration>)
      requires Valid() && gain.None?
      modifies `partial, calibrator
      ensures var v := StreamVerdict(root, fed + pcm);
        decided == if v.Some? then Some(v.value.calibration) else None
      ensures decided.None? ==> calibrator.Holds(FramesOf(fed + pcm)) && partial == (fed + pcm)[Whole(fed + pcm)..]
    {
      hide FramesOf, FirstDecision, Decision, Represents, Analyze;
      ghost var before := FramesOf(fed);
      FramesOfWhole(fed, pcm);
      partial := partial + pcm;
      assert partial == fed[Whole(fed)..] + pcm;
      var complete := |partial| / FRAME_SAMPLES * FRAME_SAMPLES;
      var offset := 0;
      assert before + [] == before;
      EmptyFrames();
      assert partial[..0] == [];
      ghost var all := partial;
      while offset < complete
        invariant 0 <= offset <= complete <= |partial| && offset % FRAME_SAMPLES == 0 && partial == all
        invariant calibrator.Holds(before + FramesOf(partial[..offset]))
        invariant FirstDecision(root, before + FramesOf(partial[..offset])).None?
        modifies `partial, calibrator
      {
        ghost var frames := before + FramesOf(partial[..offset]);
        var samples := partial[offset..offset + FRAME_SAMPLES];
        NextFrame(partial, offset);
        assert frames + [Analyze(samples)] == before + FramesOf(partial[..offset + FRAME_SAMPLES]);
        decided := calibrator.FeedFrame(Analyze(samples), frames);
        DecidedNow(root, frames, Analyze(samples));
        offset := offset + FRAME_SAMPLES;
        if decided.Some? {
          DecidedInside(root, before, partial, offset);
          partial := [];
          return;
        }
      }
      WholeFrames(partial, complete);
      WholeAdds(fed, pcm, complete);
      partial := partial[complete..];
      return None;
    }

    /** `_bound_pending_preroll`: discards whole frames only. */
    method BoundPending()
      requires pendingStart <= |fed| && pending == fed[pendingStart..] && pendingStart % FRAME_SAMPLES == 0
      requires pendingStart > 0 ==> |pending| >= MAX_PENDING_SAMPLES
      modifies `pending, `pendingStart
      ensures pendingStart <= |fed| && pendingStart % FRAME_SAMPLES == 0 && pending == fed[pendingStart..]
      ensures |pending| < MAX_PENDING_SAMPLES + FRAME_SAMPLES
      ensures pendingStart > 0 ==> |pending| >= MAX_PENDING_SAMPLES
    {
      if |pending| > MAX_PENDING_SAMPLES {
        var discard := |pending| - MAX_PENDING_SAMPLES;
        discard := discard - discard % FRAME_SAMPLES;
        pending := pending[discard..];
        pendingStart := pendingStart + discard;
      }
    }

    /**
     Before the verdict nothing is emitted. The verdict depends only on what was fed, however it was
     cut up, and emits the stream from exactly its emission start; after it every chunk is emitted.
     */
    method Feed(pcm: seq<Sample>) returns (out: seq<Sample>)
      requires Valid()
      modifies this, calibrator
      ensures Valid() && fed == old(fed) + pcm
      ensures out == Output(root, old(fed), old(gain), pcm) && gain == NextGain(root, old(fed), old(gain), pcm)
    {
      hide FirstDecision, FramesOf, Represents;
      if gain.Some? {
        VerdictStands(root, fed, pcm);
        gain := Some(ChunkGain(gain.value, pcm));
        out := ApplyGain(pcm, gain.value);
        output := output + |out|;
        fed := fed + pcm;
        return;
      }
      var decided := Calibrate(pcm);
      pending := pending + pcm;
      assert pending == (fed + pcm)[pendingStart..];
      if decided.None? {
        fed := fed + pcm;
        BoundPending();
        return [];
      }
      GainAtLeastOne(root, fed + pcm);
      DiscardSparesPreroll(root, fed, pcm, pendingStart);
      VerdictStands(root, fed + pcm, []);
      var start := EmissionStart(decided.value.onset);
      gain := Some(decided.value.gain);
      var discard := Max(0, start - pendingStart);
      out := ApplyGain(pending[discard..], decided.value.gain);
      pending := [];
      output := output + |out|;
      fed := fed + pcm;
      assert old(pending + pcm)[discard..] == fed[start..];
    }
  }

  /** A verdict made inside a buffer is the verdict of the whole of it. */
  lemma DecidedInside(root: Root, before: seq<Frame>, buffer: seq<Sample>, offset: nat)
    requires offset % FRAME_SAMPLES == 0 && offset <= |buffer|
    requires FirstDecision(root, before + FramesOf(buffer[..offset])).Some?
    ensures FirstDecision(root, before + FramesOf(buffer)) == FirstDecision(root, before + FramesOf(buffer[..offset]))
  {
    hide FirstDecision, FramesOf;
    FramesConcat(buffer[..offset], buffer[offset..]);
    assert buffer == buffer[..offset] + buffer[offset..];
    assert before + FramesOf(buffer) == (before + FramesOf(buffer[..offset])) + FramesOf(buffer[offset..]);
    DecisionStands(root, before + FramesOf(buffer[..offset]), FramesOf(buffer[offset..]));
  }

  lemma WholeFrames(buffer: seq<Sample>, complete: nat)
    requires complete % FRAME_SAMPLES == 0 && complete <= |buffer| < complete + FRAME_SAMPLES
    ensures FramesOf(buffer[..complete]) == FramesOf(buffer)
  {
    hide Analyze;
    FramesConcat(buffer[..complete], buffer[complete..]);
    assert buffer == buffer[..complete] + buffer[complete..];
    NoFrames(buffer[complete..]);
    assert FramesOf(buffer[..complete]) + [] == FramesOf(buffer[..complete]);
  }

  lemma EmptyFrames()
    ensures FramesOf([]) == []
  {}

  lemma NoFrames(rest: seq<Sample>)
    requires |rest| < FRAME_SAMPLES
    ensures FramesOf(rest) == []
  {}

  lemma NextFrame(stream: seq<Sample>, offset: nat)
    requires offset % FRAME_SAMPLES == 0 && offset + FRAME_SAMPLES <= |stream|
    ensures FramesOf(stream[..offset + FRAME_SAMPLES]) ==
      FramesOf(stream[..offset]) + [Analyze(stream[offset..offset + FRAME_SAMPLES])]
  {
    hide Analyze;
    var next := stream[offset..offset + FRAME_SAMPLES];
    assert stream[..offset + FRAME_SAMPLES] == stream[..offset] + next;
    FramesConcat(stream[..offset], next);
    assert next[..FRAME_SAMPLES] == next && next[FRAME_SAMPLES..] == [];
    assert FramesOf(next) == [Analyze(next)] + FramesOf([]);
  }

  lemma GainAtLeastOne(root: Root, stream: seq<Sample>)
    ensures StreamVerdict(root, stream).Some? ==> StreamVerdict(root, stream).value.calibration.gain >= 1.0
  {
    DecidedGain(root, FramesOf(stream));
  }

  lemma {:induction false} DecidedGain(root: Root, frames: seq<Frame>)
    ensures FirstDecision(root, frames).Some? ==> FirstDecision(root, frames).value.calibration.gain >= 1.0
  {
    hide LoudOnset, FirstSustained, QuietThreshold;
    if frames != [] { DecidedGain(root, frames[..|frames| - 1]); }
  }
}
