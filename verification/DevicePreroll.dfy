/**
 The device's bounded idle pre-roll (`_remember_realtime_preroll`, `_preroll_with_startup_headroom`):
 the audio kept from before the wake word, and how much of it a direct session may have.
 */
module DevicePreroll {
  import opened Pcm

  const PREROLL_MAX_BYTES := 12 * 1024
  const STARTUP_HEADROOM_BYTES := 32 * 1024

  type Frame = seq<Byte>

  /** The audio of a list of frames, in order. */
  function Audio(frames: seq<Frame>): seq<Byte> {
    if frames == [] then [] else Audio(frames[..|frames| - 1]) + frames[|frames| - 1]
  }

  function Size(frames: seq<Frame>): nat { |Audio(frames)| }

  function LastBytes(s: seq<Byte>, n: nat): seq<Byte> { if |s| <= n then s else s[|s| - n..] }

  predicate IsSuffix(s: seq<Byte>, of: seq<Byte>) { |s| <= |of| && s == of[|of| - |s|..] }

  // ----- remembering idle audio -----

  function DropOldest(frames: seq<Frame>): seq<Frame> {
    if frames != [] && Size(frames) > PREROLL_MAX_BYTES then DropOldest(frames[1..]) else frames
  }

  function Remember(frames: seq<Frame>, chunk: Frame): seq<Frame> {
    var kept := LastBytes(chunk, PREROLL_MAX_BYTES);
    DropOldest(if kept == [] then frames else frames + [kept])
  }

  lemma {:induction false} AudioConcat(a: seq<Frame>, b: seq<Frame>)
    ensures Audio(a + b) == Audio(a) + Audio(b)
  {
    if b == [] {
      assert a + b == a;
    } else {
      AudioConcat(a, b[..|b| - 1]);
      assert (a + b)[..|a + b| - 1] == a + b[..|b| - 1];
    }
  }

  lemma AudioOne(f: Frame)
    ensures Audio([f]) == f
  {
    assert [f][..0] == [];
  }

  lemma {:induction false} DropOldestKeepsSuffix(frames: seq<Frame>)
    ensures IsSuffix(Audio(DropOldest(frames)), Audio(frames))
    ensures Size(DropOldest(frames)) <= PREROLL_MAX_BYTES
    ensures Size(frames) <= PREROLL_MAX_BYTES ==> DropOldest(frames) == frames
    ensures |DropOldest(frames)| <= |frames| && DropOldest(frames) == frames[|frames| - |DropOldest(frames)|..]
  {
    if frames != [] && Size(frames) > PREROLL_MAX_BYTES {
      DropOldestKeepsSuffix(frames[1..]);
      assert frames == [frames[0]] + frames[1..];
      AudioConcat([frames[0]], frames[1..]);
    }
  }

  lemma SuffixTrans(a: seq<Byte>, b: seq<Byte>, c: seq<Byte>)
    requires IsSuffix(a, b) && IsSuffix(b, c)
    ensures IsSuffix(a, c)
  {}

  lemma SuffixExtends(a: seq<Byte>, b: seq<Byte>, c: seq<Byte>)
    requires IsSuffix(a, b)
    ensures IsSuffix(a + c, b + c)
  {
    assert b + c == b[..|b| - |a|] + (a + c);
  }

  lemma AppendedIsNewest(frames: seq<Frame>, kept: Frame, recorded: seq<Byte>)
    requires IsSuffix(Audio(frames), recorded)
    ensures IsSuffix(Audio(DropOldest(frames + [kept])), recorded + kept)
  {
    hide Audio, IsSuffix;
    DropOldestKeepsSuffix(frames + [kept]);
    AudioConcat(frames, [kept]);
    AudioOne(kept);
    SuffixExtends(Audio(frames), recorded, kept);
    SuffixTrans(Audio(DropOldest(frames + [kept])), Audio(frames) + kept, recorded + kept);
  }

  /** What is remembered is the end of everything recorded, within 12 KiB. */
  lemma RememberedIsNewest(frames: seq<Frame>, chunk: Frame, recorded: seq<Byte>)
    requires IsSuffix(Audio(frames), recorded)
    ensures IsSuffix(Audio(Remember(frames, chunk)), recorded + chunk)
    ensures Size(Remember(frames, chunk)) <= PREROLL_MAX_BYTES
  {
    hide Audio, DropOldest, IsSuffix;
    var kept := LastBytes(chunk, PREROLL_MAX_BYTES);
    if kept == [] {
      DropOldestKeepsSuffix(frames);
      assert recorded + chunk == recorded;
      SuffixTrans(Audio(DropOldest(frames)), Audio(frames), recorded);
      return;
    }
    DropOldestKeepsSuffix(frames + [kept]);
    if |chunk| <= PREROLL_MAX_BYTES {
      AppendedIsNewest(frames, kept, recorded);
    } else {
      KeptOnly(frames, kept);
      LastBytesIsSuffix(chunk, recorded);
      SuffixTrans(Audio(Remember(frames, chunk)), kept, recorded + chunk);
    }
  }

  lemma LastBytesIsSuffix(chunk: Frame, recorded: seq<Byte>)
    ensures IsSuffix(LastBytes(chunk, PREROLL_MAX_BYTES), recorded + chunk)
  {}

  /** A full-sized chunk pushes everything else out. */
  lemma KeptOnly(frames: seq<Frame>, kept: Frame)
    requires |kept| == PREROLL_MAX_BYTES
    ensures IsSuffix(Audio(DropOldest(frames + [kept])), kept)
  {
    AudioConcat(frames, [kept]);
    AudioOne(kept);
    DropOldestKeepsSuffix(frames + [kept]);
    var a := Audio(DropOldest(frames + [kept]));
    assert |a| <= |kept| && a == (Audio(frames) + kept)[|Audio(frames)| + |kept| - |a|..];
  }

  // ----- admitting pre-roll to a session -----

  /** At most 12 KiB, and never into the last 32 KiB of the smaller queue. */
  function Budget(fallbackCapacity: nat, inputCapacity: nat): nat {
    Min(PREROLL_MAX_BYTES, Max(0, Min(fallbackCapacity, inputCapacity) - STARTUP_HEADROOM_BYTES))
  }

  function Select(frames: seq<Frame>, remaining: nat): seq<Frame> {
    if frames == [] || remaining == 0 then []
    else
      var chunk := frames[|frames| - 1];
      if |chunk| <= remaining then Select(frames[..|frames| - 1], remaining - |chunk|) + [chunk]
      else
        var aligned := remaining - remaining % 2;
        if aligned == 0 then [] else [LastBytes(chunk, aligned)]
  }

  function Admitted(frames: seq<Frame>, fallbackCapacity: nat, inputCapacity: nat): seq<Frame> {
    Select(frames, Budget(fallbackCapacity, inputCapacity))
  }

  ghost predicate Even(frames: seq<Frame>) { forall f | f in frames :: |f| % 2 == 0 }

  /** One more chunk in front of what is selected, when it fits. */
  lemma ChunkInFront(rest: seq<Byte>, chunk: Frame, chosen: seq<Byte>)
    requires IsSuffix(chosen, rest)
    ensures IsSuffix(chosen + chunk, rest + chunk)
  {
    SuffixExtends(chosen, rest, chunk);
  }

  lemma CutChunkFits(rest: seq<Byte>, chunk: Frame, remaining: nat)
    requires |chunk| > remaining
    ensures var cut := LastBytes(chunk, remaining - remaining % 2); IsSuffix(cut, rest + chunk) && |cut| <= remaining
  {}

  lemma {:induction false} SelectedFits(frames: seq<Frame>, remaining: nat)
    ensures IsSuffix(Audio(Select(frames, remaining)), Audio(frames)) && Size(Select(frames, remaining)) <= remaining
  {
    hide IsSuffix, LastBytes;
    EmptyIsSuffix(Audio(frames));
    if frames == [] || remaining == 0 { return; }
    var chunk, rest := frames[|frames| - 1], frames[..|frames| - 1];
    if |chunk| <= remaining {
      SelectedFits(rest, remaining - |chunk|);
      AudioConcat(Select(rest, remaining - |chunk|), [chunk]);
      AudioOne(chunk);
      ChunkInFront(Audio(rest), chunk, Audio(Select(rest, remaining - |chunk|)));
    } else {
      AudioOne(LastBytes(chunk, remaining - remaining % 2));
      CutChunkFits(Audio(rest), chunk, remaining);
    }
  }

  lemma EmptyIsSuffix(s: seq<Byte>)
    ensures IsSuffix([], s)
  {}

  lemma {:induction false} SelectedIsLongest(frames: seq<Frame>, remaining: nat)
    requires Even(frames)
    ensures Size(Select(frames, remaining)) == Min(Size(frames), remaining - remaining % 2)
  {
    if frames == [] || remaining == 0 { return; }
    var chunk, rest := frames[|frames| - 1], frames[..|frames| - 1];
    assert chunk in frames && forall f | f in rest :: f in frames;
    if |chunk| <= remaining {
      SelectedIsLongest(rest, remaining - |chunk|);
      AudioConcat(Select(rest, remaining - |chunk|), [chunk]);
      AudioOne(chunk);
      EvenDifference(remaining, |chunk|);
    } else {
      AudioOne(LastBytes(chunk, remaining - remaining % 2));
    }
  }

  /**
   What is selected is the end of the audio within the budget; for whole samples it is as much of it
   as fits a whole number of samples.
   */
  lemma SelectedIsLongestSuffix(frames: seq<Frame>, remaining: nat)
    ensures IsSuffix(Audio(Select(frames, remaining)), Audio(frames)) && Size(Select(frames, remaining)) <= remaining
    ensures Even(frames) ==> Size(Select(frames, remaining)) == Min(Size(frames), remaining - remaining % 2)
  {
    hide Audio, Select, IsSuffix;
    SelectedFits(frames, remaining);
    if Even(frames) { SelectedIsLongest(frames, remaining); }
  }

  lemma EvenDifference(a: nat, b: nat)
    requires b <= a && b % 2 == 0
    ensures (a - b) % 2 == a % 2
  {}

  /** The loop of `_preroll_with_startup_headroom`, newest chunk first. */
  method WithStartupHeadroom(preroll: seq<Frame>, fallbackCapacity: nat, inputCapacity: nat) returns (selected: seq<Frame>)
    ensures selected == Admitted(preroll, fallbackCapacity, inputCapacity)
  {
    hide Budget, Select;
    var budget := Budget(fallbackCapacity, inputCapacity);
    selected := [];
    SelectNothing(preroll);
    if budget == 0 { return; }
    var remaining, i := budget, |preroll|;
    assert preroll[..|preroll|] == preroll;
    while i > 0
      invariant 0 <= i <= |preroll| && 0 < remaining
      invariant Select(preroll[..i], remaining) + selected == Select(preroll, budget)
    {
      i := i - 1;
      var chunk := preroll[i];
      assert preroll[..i + 1] == preroll[..i] + [chunk];
      SelectStep(preroll[..i + 1], preroll[..i], chunk, remaining);
      if |chunk| <= remaining {
        assert Select(preroll[..i], remaining - |chunk|) + [chunk] + selected
          == Select(preroll[..i], remaining - |chunk|) + ([chunk] + selected);
        selected := [chunk] + selected;
        remaining := remaining - |chunk|;
      } else {
        var aligned := remaining - remaining % 2;
        if aligned != 0 { selected := [LastBytes(chunk, aligned)] + selected; }
        return;
      }
      if remaining == 0 {
        SelectNothing(preroll[..i]);
        return;
      }
    }
  }

  lemma SelectStep(frames: seq<Frame>, rest: seq<Frame>, chunk: Frame, remaining: nat)
    requires frames == rest + [chunk] && remaining > 0
    ensures Select(frames, remaining) ==
      if |chunk| <= remaining then Select(rest, remaining - |chunk|) + [chunk]
      else if remaining - remaining % 2 == 0 then [] else [LastBytes(chunk, remaining - remaining % 2)]
  {
    assert frames[..|frames| - 1] == rest;
  }

  lemma SelectNothing(frames: seq<Frame>)
    ensures Select(frames, 0) == [] && forall n: nat :: Select([], n) == []
  {}

  /** The deque loop of `_remember_realtime_preroll`. */
  method RememberFrame(preroll: seq<Frame>, chunk: Frame) returns (kept: seq<Frame>)
    ensures kept == Remember(preroll, chunk)
  {
    var retained := chunk;
    if |retained| > PREROLL_MAX_BYTES { retained := retained[|retained| - PREROLL_MAX_BYTES..]; }
    kept := preroll;
    if retained != [] { kept := kept + [retained]; }
    var size := Size(kept);
    ghost var all := kept;
    while kept != [] && size > PREROLL_MAX_BYTES
      invariant size == Size(kept) && DropOldest(kept) == DropOldest(all)
      decreases |kept|
    {
      SizeDrops(kept);
      size := size - |kept[0]|;
      kept := kept[1..];
    }
  }

  lemma SizeDrops(frames: seq<Frame>)
    requires frames != []
    ensures Size(frames) == |frames[0]| + Size(frames[1..])
  {
    assert frames == [frames[0]] + frames[1..];
    AudioConcat([frames[0]], frames[1..]);
    AudioOne(frames[0]);
  }
}
