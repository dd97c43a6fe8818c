/**
 Trimming the silent start of a finite clip (`_trim_transcription_silence`,
 `_first_sustained_transcription_frame`): which frames may be dropped, and which never are.
 */
module Trim {
  import opened Wrappers
  import opened Pcm
  import opened Levels

  const FRAME_SAMPLES := 480
  const NOISE_PROBE_FRAMES := 30
  const PREROLL_FRAMES := 16
  const MIN_REMOVABLE_FRAMES := 100  // 2 s

  // ----- the first sustained frame -----

  function CountActive(levels: seq<real>, threshold: real): nat {
    if levels == [] then 0 else (if levels[0] >= threshold then 1 else 0) + CountActive(levels[1..], threshold)
  }

  function Window(levels: seq<real>, start: nat): seq<real>
    requires start <= |levels|
  {
    levels[start..Min(start + ACTIVE_WINDOW, |levels|)]
  }

  predicate Sustained(levels: seq<real>, threshold: real, start: nat) {
    start < |levels| && CountActive(Window(levels, start), threshold) >= MIN_ACTIVE
  }

  function FirstActive(levels: seq<real>, threshold: real): (i: nat)
    requires CountActive(levels, threshold) > 0
    ensures i < |levels|
  {
    if levels[0] >= threshold then 0 else 1 + FirstActive(levels[1..], threshold)
  }

  function FirstSustained(levels: seq<real>, threshold: real, from: nat): (r: Option<nat>)
    ensures r.Some? ==> from <= r.value < |levels|
    decreases |levels| - from
  {
    if from >= |levels| then None
    else if Sustained(levels, threshold, from) then Some(from + FirstActive(Window(levels, from), threshold))
    else FirstSustained(levels, threshold, from + 1)
  }

  lemma {:induction false} FirstActiveIsFirst(levels: seq<real>, threshold: real)
    requires CountActive(levels, threshold) > 0
    ensures var i := FirstActive(levels, threshold);
      i < |levels| && levels[i] >= threshold && forall j | 0 <= j < i :: levels[j] < threshold
  {
    if levels[0] < threshold { FirstActiveIsFirst(levels[1..], threshold); }
  }

  /**
   The frame found is the first active one of the first window of five with three active frames in it,
   and one is found exactly when there is such a window. `w` is where that window starts.
   */
  lemma {:induction false} FirstSustainedIsFirst(levels: seq<real>, threshold: real, from: nat) returns (w: nat)
    ensures var r := FirstSustained(levels, threshold, from);
      && from <= w && (forall v | from <= v < w :: !Sustained(levels, threshold, v))
      && (r.None? ==> w >= |levels|)
      && (r.Some? ==> w <= r.value && Sustained(levels, threshold, w) && levels[r.value] >= threshold
                      && forall j | w <= j < r.value :: levels[j] < threshold)
    decreases |levels| - from
  {
    hide CountActive;
    w := from;
    if from >= |levels| { return; }
    if Sustained(levels, threshold, from) {
      InWindow(levels, threshold, from);
    } else {
      w := FirstSustainedIsFirst(levels, threshold, from + 1);
    }
  }

  lemma InWindow(levels: seq<real>, threshold: real, start: nat)
    requires Sustained(levels, threshold, start)
    ensures var i := FirstActive(Window(levels, start), threshold);
      && start + i < |levels| && levels[start + i] >= threshold
      && forall j | start <= j < start + i :: levels[j] < threshold
  {
    FirstActiveIsFirst(Window(levels, start), threshold);
    hide CountActive, FirstActive;
    var i := FirstActive(Window(levels, start), threshold);
    assert levels[start + i] == Window(levels, start)[i];
    forall j | start <= j < start + i ensures levels[j] < threshold { assert levels[j] == Window(levels, start)[j - start]; }
  }

  method FindFirstSustained(levels: seq<real>, threshold: real) returns (r: Option<nat>)
    ensures r == FirstSustained(levels, threshold, 0)
  {
    var start := 0;
    while start < |levels|
      invariant start <= |levels| && FirstSustained(levels, threshold, start) == FirstSustained(levels, threshold, 0)
    {
      var window := levels[start..Min(start + ACTIVE_WINDOW, |levels|)];
      if CountActive(window, threshold) >= MIN_ACTIVE { return Some(start + FirstActive(window, threshold)); }
      start := start + 1;
    }
    return None;
  }

  // ----- order statistics -----

  function Insert(x: real, sorted: seq<real>): seq<real> {
    if sorted == [] || x <= sorted[0] then [x] + sorted else [sorted[0]] + Insert(x, sorted[1..])
  }

  function Sorted(levels: seq<real>): (r: seq<real>)
    ensures |r| == |levels|
  {
    if levels == [] then [] else
      InsertLength(levels[0], Sorted(levels[1..]));
      Insert(levels[0], Sorted(levels[1..]))
  }

  lemma {:induction false} InsertLength(x: real, sorted: seq<real>)
    ensures |Insert(x, sorted)| == |sorted| + 1
  {
    if sorted != [] { InsertLength(x, sorted[1..]); }
  }

  predicate Ascending(s: seq<real>) { forall i, j :: 0 <= i < j < |s| ==> s[i] <= s[j] }

  lemma {:induction false} InsertHolds(x: real, sorted: seq<real>)
    ensures forall y | y in Insert(x, sorted) :: y == x || y in sorted
    ensures multiset(Insert(x, sorted)) == multiset(sorted) + multiset{x}
  {
    if sorted != [] && x > sorted[0] {
      InsertHolds(x, sorted[1..]);
      assert sorted == [sorted[0]] + sorted[1..];
    }
  }

  lemma {:induction false} InsertAscends(x: real, sorted: seq<real>)
    requires Ascending(sorted)
    ensures Ascending(Insert(x, sorted))
  {
    if sorted != [] && x > sorted[0] {
      InsertAscends(x, sorted[1..]);
      InsertHolds(x, sorted[1..]);
      var rest := Insert(x, sorted[1..]);
      forall j | 0 <= j < |rest| ensures sorted[0] <= rest[j] { assert rest[j] in rest; }
      AscendsInFront(sorted[0], rest);
    }
  }

  lemma AscendsInFront(x: real, rest: seq<real>)
    requires Ascending(rest) && forall j | 0 <= j < |rest| :: x <= rest[j]
    ensures Ascending([x] + rest)
  {}

  lemma {:induction false} SortedAscends(levels: seq<real>)
    ensures Ascending(Sorted(levels)) && multiset(Sorted(levels)) == multiset(levels)
  {
    if levels != [] {
      SortedAscends(levels[1..]);
      InsertAscends(levels[0], Sorted(levels[1..]));
      InsertHolds(levels[0], Sorted(levels[1..]));
      assert levels == [levels[0]] + levels[1..];
    }
  }

  lemma {:induction false} CountInsert(x: real, sorted: seq<real>, threshold: real)
    ensures CountActive(Insert(x, sorted), threshold) == CountActive(sorted, threshold) + (if x >= threshold then 1 else 0)
  {
    if sorted != [] && x > sorted[0] {
      CountInsert(x, sorted[1..], threshold);
      assert Insert(x, sorted)[1..] == Insert(x, sorted[1..]);
    } else {
      assert ([x] + sorted)[1..] == sorted;
    }
  }

  lemma {:induction false} CountSorted(levels: seq<real>, threshold: real)
    ensures CountActive(Sorted(levels), threshold) == CountActive(levels, threshold)
  {
    if levels != [] {
      CountSorted(levels[1..], threshold);
      CountInsert(levels[0], Sorted(levels[1..]), threshold);
    }
  }

  lemma {:induction false} CountAscending(s: seq<real>, threshold: real, k: nat)
    requires Ascending(s) && k < |s|
    ensures s[k] >= threshold <==> CountActive(s, threshold) >= |s| - k
  {
    CountAtMost(s[1..], threshold);
    if k > 0 {
      CountAscending(s[1..], threshold, k - 1);
    } else if s[0] >= threshold {
      CountAll(s, threshold);
    }
  }

  lemma {:induction false} CountAtMost(s: seq<real>, threshold: real)
    ensures CountActive(s, threshold) <= |s|
  {
    if s != [] { CountAtMost(s[1..], threshold); }
  }

  lemma {:induction false} CountAll(s: seq<real>, threshold: real)
    requires forall i | 0 <= i < |s| :: s[i] >= threshold
    ensures CountActive(s, threshold) == |s|
  {
    if s != [] {
      CountAll(s[1..], threshold);
    }
  }

  /** The third greatest level reaches the threshold exactly when at least three levels do. */
  lemma ThirdGreatest(levels: seq<real>, threshold: real)
    requires |levels| >= MIN_ACTIVE
    ensures Sorted(levels)[|levels| - MIN_ACTIVE] >= threshold <==> CountActive(levels, threshold) >= MIN_ACTIVE
  {
    hide CountActive, Sorted;
    SortedAscends(levels);
    CountSorted(levels, threshold);
    CountAscending(Sorted(levels), threshold, |levels| - MIN_ACTIVE);
  }

  // ----- the trim -----

  datatype Noise = Noise(floor: real, ceiling: real)

  function OpeningNoise(levels: seq<real>): Noise
    requires levels != []
  {
    var opening := Sorted(levels[..Min(NOISE_PROBE_FRAMES, |levels|)]);
    Noise(opening[|opening| / 2], opening[Min(|opening| - 1, |opening| * 4 / 5)])
  }

  function ActiveThreshold(n: Noise): real {
    RMax(RMax(0.015, n.floor * 4.0), RMax(n.ceiling * 2.0, n.floor + 0.01))
  }

  function PreservationThreshold(n: Noise): real {
    RMax(RMax(0.003, n.floor * 1.35), RMax(n.ceiling * 1.1, n.floor + 0.002))
  }

  function FirstReaching(levels: seq<real>, threshold: real, limit: nat): nat
    requires limit <= |levels|
    decreases limit
  {
    if limit == 0 then 0
    else if levels[0] >= threshold then 0
    else 1 + FirstReaching(levels[1..], threshold, limit - 1)
  }

  /** The frame speech is taken to begin at, if there is speech. */
  function Onset(levels: seq<real>): Option<nat> {
    if |levels| < MIN_ACTIVE then None
    else
      var noise := OpeningNoise(levels);
      var active := ActiveThreshold(noise);
      if Sorted(levels)[|levels| - MIN_ACTIVE] < active then None
      else
        var first := FirstSustained(levels, active, 0);
        if first.None? then None
        else
          var kept := FirstSustained(levels[..first.value], PreservationThreshold(noise), 0);
          var onset := if kept.Some? then kept.value else first.value;
          Some(FirstReaching(levels, active, onset))
  }

  /** The number of whole frames dropped from the front. */
  function Dropped(levels: seq<real>): nat {
    var onset := Onset(levels);
    if onset.None? || onset.value < PREROLL_FRAMES + MIN_REMOVABLE_FRAMES then 0 else onset.value - PREROLL_FRAMES
  }

  /** The level of every frame of a clip, the last of which may be short. */
  function FrameLevels(root: Root, samples: seq<Sample>): seq<real>
    decreases |samples|
  {
    if samples == [] then []
    else
      var n := Min(FRAME_SAMPLES, |samples|);
      [Rms(root, Analyze(samples[..n]))] + FrameLevels(root, samples[n..])
  }

  lemma {:induction false} FrameLevelsCount(root: Root, samples: seq<Sample>)
    ensures |FrameLevels(root, samples)| * FRAME_SAMPLES < |samples| + FRAME_SAMPLES
    decreases |samples|
  {
    if samples != [] { FrameLevelsCount(root, samples[Min(FRAME_SAMPLES, |samples|)..]); }
  }

  lemma DroppedFits(root: Root, samples: seq<Sample>)
    ensures Dropped(FrameLevels(root, samples)) * FRAME_SAMPLES <= |samples|
  {
    var levels := FrameLevels(root, samples);
    FrameLevelsCount(root, samples);
    OnsetIsSafe(levels);
  }

  function TrimSilence(root: Root, samples: seq<Sample>): seq<Sample> {
    DroppedFits(root, samples);
    samples[Dropped(FrameLevels(root, samples)) * FRAME_SAMPLES..]
  }

  lemma {:induction false} FirstReachingIsFirst(levels: seq<real>, threshold: real, limit: nat)
    requires limit <= |levels|
    ensures var i := FirstReaching(levels, threshold, limit);
      i <= limit && (forall j | 0 <= j < i :: levels[j] < threshold) && (i < limit ==> levels[i] >= threshold)
  {
    if limit > 0 && levels[0] < threshold { FirstReachingIsFirst(levels[1..], threshold, limit - 1); }
  }

  /** No frame before the onset reaches the active threshold. */
  lemma OnsetIsSafe(levels: seq<real>)
    ensures var onset := Onset(levels);
      onset.Some? ==>
        && onset.value < |levels| && CountActive(levels, ActiveThreshold(OpeningNoise(levels))) >= MIN_ACTIVE
        && forall i | 0 <= i < onset.value :: levels[i] < ActiveThreshold(OpeningNoise(levels))
  {
    if |levels| < MIN_ACTIVE { return; }
    hide Sorted, OpeningNoise, FirstSustained, CountActive;
    var active := ActiveThreshold(OpeningNoise(levels));
    ThirdGreatest(levels, active);
    var first := FirstSustained(levels, active, 0);
    var _ := FirstSustainedIsFirst(levels, active, 0);
    if first.Some? {
      var kept := FirstSustained(levels[..first.value], PreservationThreshold(OpeningNoise(levels)), 0);
      var onset := if kept.Some? then kept.value else first.value;
      FirstReachingIsFirst(levels, active, onset);
    }
  }

  /**
   The result is the whole clip or a frame-aligned suffix that drops at least two seconds. A frame is
   dropped only if neither it nor any of the sixteen frames after it reaches the active threshold.
   */
  lemma TrimDropsOnlySilence(root: Root, samples: seq<Sample>)
    ensures var levels := FrameLevels(root, samples);
      var n := Dropped(levels);
      && n * FRAME_SAMPLES <= |samples| && TrimSilence(root, samples) == samples[n * FRAME_SAMPLES..]
      && (n == 0 || n >= MIN_REMOVABLE_FRAMES)
      && (n > 0 ==> n + PREROLL_FRAMES < |levels|
                    && forall i | 0 <= i < n + PREROLL_FRAMES :: levels[i] < ActiveThreshold(OpeningNoise(levels)))
  {
    DroppedFits(root, samples);
    OnsetIsSafe(FrameLevels(root, samples));
  }

  // ----- exactly what is dropped -----

  /** Frame `i` is the first active one of the first window of five frames with three active ones. */
  ghost predicate FirstOfFirst(levels: seq<real>, threshold: real, i: nat) {
    exists w: nat :: w <= i < |levels| && WindowAt(levels, threshold, w, i)
  }

  ghost predicate WindowAt(levels: seq<real>, threshold: real, w: nat, i: nat)
    requires w <= i < |levels|
  {
    && Sustained(levels, threshold, w) && (forall v: nat | v < w :: !Sustained(levels, threshold, v))
    && levels[i] >= threshold && forall j: nat | w <= j < i :: levels[j] < threshold
  }

  lemma FirstSustainedIff(levels: seq<real>, threshold: real, i: nat)
    ensures FirstSustained(levels, threshold, 0) == Some(i) <==> FirstOfFirst(levels, threshold, i)
    ensures FirstSustained(levels, threshold, 0).None? <==> forall w: nat :: !Sustained(levels, threshold, w)
  {
    hide FirstSustained, Sustained;
    var r := FirstSustained(levels, threshold, 0);
    var w := FirstSustainedIsFirst(levels, threshold, 0);
    SustainedIsInside(levels, threshold);
    if r.Some? { assert WindowAt(levels, threshold, w, r.value); }
    if FirstOfFirst(levels, threshold, i) {
      var u: nat :| u <= i < |levels| && WindowAt(levels, threshold, u, i);
      if r.Some? { assert u == w; }
    }
  }

  lemma SustainedIsInside(levels: seq<real>, threshold: real)
    ensures forall w: nat | Sustained(levels, threshold, w) :: w < |levels|
  {}

  /** A window with three active frames is enough for the third greatest level to be active. */
  lemma SustainedIsLoud(levels: seq<real>, threshold: real, w: nat)
    requires Sustained(levels, threshold, w)
    ensures |levels| >= MIN_ACTIVE && CountActive(levels, threshold) >= MIN_ACTIVE
  {
    var n := Min(w + ACTIVE_WINDOW, |levels|);
    assert levels == levels[..w] + (levels[w..n] + levels[n..]);
    CountParts(levels[..w], levels[w..n] + levels[n..], threshold);
    CountParts(levels[w..n], levels[n..], threshold);
    CountAtMost(levels, threshold);
  }

  lemma {:induction false} CountParts(a: seq<real>, b: seq<real>, threshold: real)
    ensures CountActive(a + b, threshold) == CountActive(a, threshold) + CountActive(b, threshold)
  {
    if a == [] {
      assert a + b == b;
    } else {
      CountParts(a[1..], b, threshold);
      assert (a + b)[1..] == a[1..] + b;
    }
  }

  /**
   Where speech is taken to begin: at the first frame of the first window, among the frames before the first
   sustained active frame, that is sustained at the lower preservation threshold, or at that active frame if there is
   no such window; and no later than the first frame that is active at all.
   */
  ghost predicate BeginsAt(levels: seq<real>, onset: nat)
    requires levels != []
  {
    var noise := OpeningNoise(levels);
    var active, low := ActiveThreshold(noise), PreservationThreshold(noise);
    exists first: nat, kept: nat :: BeginsFrom(levels, active, low, first, kept, onset)
  }

  ghost predicate BeginsFrom(levels: seq<real>, active: real, low: real, first: nat, kept: nat, onset: nat) {
    && FirstOfFirst(levels, active, first)
    && (FirstOfFirst(levels[..first], low, kept)
        || (kept == first && forall w: nat :: !Sustained(levels[..first], low, w)))
    && FirstUpTo(levels, active, kept, onset)
  }

  ghost predicate FirstUpTo(levels: seq<real>, active: real, limit: nat, onset: nat) {
    && onset <= limit <= |levels| && (forall j | 0 <= j < onset :: levels[j] < active)
    && (onset < limit ==> levels[onset] >= active)
  }

  lemma OnsetBegins(levels: seq<real>)
    requires levels != []
    ensures Onset(levels).Some? ==> BeginsAt(levels, Onset(levels).value)
  {
    if Onset(levels).None? { return; }
    hide Sorted, OpeningNoise, CountActive, FirstOfFirst, Sustained;
    var active, low := ActiveThreshold(OpeningNoise(levels)), PreservationThreshold(OpeningNoise(levels));
    hide ActiveThreshold, PreservationThreshold;
    var first := FirstSustained(levels, active, 0).value;
    FirstSustainedIff(levels, active, first);
    var k := FirstSustained(levels[..first], low, 0);
    var kept := if k.Some? then k.value else first;
    FirstSustainedIff(levels[..first], low, kept);
    FirstReachingIsFirst(levels, active, kept);
    assert BeginsFrom(levels, active, low, first, kept, Onset(levels).value);
  }

  lemma BeginsIsOnset(levels: seq<real>, onset: nat)
    requires levels != [] && BeginsAt(levels, onset)
    ensures Onset(levels) == Some(onset)
  {
    hide Sorted, OpeningNoise, CountActive, FirstOfFirst, Sustained;
    var active, low := ActiveThreshold(OpeningNoise(levels)), PreservationThreshold(OpeningNoise(levels));
    hide ActiveThreshold, PreservationThreshold;
    var first: nat, kept: nat :| BeginsFrom(levels, active, low, first, kept, onset);
    FirstSustainedIff(levels, active, first);
    var w := FirstSustainedIsFirst(levels, active, 0);
    SustainedIsLoud(levels, active, w);
    ThirdGreatest(levels, active);
    FirstSustainedIff(levels[..first], low, kept);
    FirstReachingIsFirst(levels, active, kept);
  }

  /**
   When frames are dropped, and how many. Speech that begins at least 116 frames in leaves sixteen frames before it
   and loses the rest; a clip in which it begins earlier, or not at all, is left whole.
   */
  lemma DroppedExactly(levels: seq<real>)
    requires levels != []
    ensures forall onset: nat | BeginsAt(levels, onset) ::
      Dropped(levels) == if onset >= PREROLL_FRAMES + MIN_REMOVABLE_FRAMES then onset - PREROLL_FRAMES else 0
    ensures Dropped(levels) > 0 ==> exists onset: nat :: BeginsAt(levels, onset) && Dropped(levels) == onset - PREROLL_FRAMES
  {
    hide Onset, BeginsAt;
    OnsetBegins(levels);
    forall onset: nat | BeginsAt(levels, onset) ensures Onset(levels) == Some(onset) { BeginsIsOnset(levels, onset); }
  }
}
