/**
 The output closures of the realtime socket over their shared variables. Each method is one await-free
 stretch under `output_state_lock`, proved to make exactly the step of `OutputGate` it stands for.
 */
module RealtimeOutput {
  import opened Wrappers
  import opened Pcm
  import opened OutputGate

  class Output {
    const managed: bool
    var epoch: nat
    var speaking: bool
    var armed: bool
    var armGeneration: nat
    var preroll: seq<Entry>
    var prerollBytes: int
    var stop: bool
    var lock: Holder
    var audio: Audio
    ghost var trace: seq<Out>
    ghost var lostAt: Option<nat>

    ghost function View(): State
      reads this
    {
      State(managed, epoch, speaking, armed, armGeneration, preroll, prerollBytes, stop, lock, audio, trace, lostAt)
    }

    constructor (managed: bool)
      ensures View() == Init(managed)
    {
      this.managed := managed;
      epoch, speaking, armed, armGeneration := 0, false, false, 0;
      preroll, prerollBytes, stop, lock, audio := [], 0, false, Free, LoopTest;
      trace, lostAt := [], None;
    }

    ghost predicate Counted()
      reads this
    {
      prerollBytes == Total(preroll)
    }

    method ClearPreroll()
      modifies `preroll, `prerollBytes
      ensures View() == WithPreroll(old(View()), [])
    {
      preroll, prerollBytes := [], 0;
    }

    method PrunePreroll(now: int)
      requires Counted()
      modifies `preroll, `prerollBytes
      ensures View() == Prune(old(View()), now)
    {
      var cutoff := now - PREROLL_TTL;
      while preroll != [] && (preroll[0].arm != armGeneration || preroll[0].at < cutoff)
        invariant Counted()
        invariant Pruned(preroll, armGeneration, cutoff) == Pruned(old(preroll), armGeneration, cutoff)
        decreases |preroll|
      {
        prerollBytes := prerollBytes - |preroll[0].piece.chunk|;
        preroll := preroll[1..];
      }
    }

    method QuarantineOutput(piece: Piece, signal: bool, now: int)
      requires Counted()
      modifies `preroll, `prerollBytes
      ensures View() == Quarantine(old(View()), piece, signal, now)
    {
      if !armed || !signal { return; }
      PrunePreroll(now);
      TotalAppend(preroll, Entry(armGeneration, now, piece));
      preroll := preroll + [Entry(armGeneration, now, piece)];
      prerollBytes := prerollBytes + |piece.chunk|;
      ghost var full := preroll;
      while prerollBytes > PREROLL_MAX_BYTES
        invariant Counted()
        invariant Capped(preroll) == Capped(full)
        decreases |preroll|
      {
        prerollBytes := prerollBytes - |preroll[0].piece.chunk|;
        preroll := preroll[1..];
      }
    }

    method BeginOutput(expected: Option<nat>, inAudio: bool)
      modifies this
      ensures View() == Begin(old(View()), expected, inAudio)
    {
      if speaking || stop {
        Leave(inAudio, LoopTest);
        return;
      }
      armed := false;
      epoch := epoch + 1;
      speaking := true;
      lock := SendingStarted(expected, inAudio);
    }

    /** Releases the lock; the audio task, when it held it, goes to `next`. */
    method Leave(inAudio: bool, next: Audio)
      modifies `lock, `audio
      ensures View() == old(View()).(holder := Free, audio := if inAudio then next else old(audio))
    {
      lock := Free;
      if inAudio { audio := next; }
    }

    method ArmOutput(expected: Option<nat>, b: Backend)
      requires lock.Free?
      modifies this
      ensures View() == Step(old(View()), EArm(expected), b)
    {
      if !Authorized(b, expected) { return; }
      if speaking || stop { return; }
      if armed { return; }
      armed := true;
      armGeneration := armGeneration + 1;
      if preroll != [] { BeginOutput(expected, false); }
    }

    method ExpireArm(generation: nat, b: Backend)
      requires lock.Free?
      modifies this
      ensures View() == Step(old(View()), EExpire(generation), b)
    {
      if armGeneration != generation || speaking { return; }
      armed := false;
      ClearPreroll();
    }

    method EndOutput(expected: Option<nat>, b: Backend)
      requires lock.Free?
      modifies this
      ensures View() == Step(old(View()), EEnd(expected), b)
    {
      armed := false;
      armGeneration := armGeneration + 1;
      if !speaking || (expected.Some? && epoch != expected.value) {
        ClearPreroll();
        return;
      }
      speaking := false;
      ClearPreroll();
      lock := SendingStopped;
    }

    method TestAudioLoop(b: Backend)
      requires audio.LoopTest?
      modifies this
      ensures View() == Step(old(View()), EAudioTest, b)
    {
      audio := if stop then Gone else Receiving;
    }

    method ReceiveAudio(chunk: Chunk, b: Backend)
      requires audio.Receiving?
      modifies this
      ensures View() == Step(old(View()), EAudioReceive(chunk), b)
    {
      var expected := if managed then b.outGen else None;
      if managed && (expected.None? || expected.value != b.gen) {
        audio := LoopTest;
        return;
      }
      audio := Holding(Piece(chunk, expected));
    }

    method EnterAudio(signal: bool, now: int, b: Backend)
      requires lock.Free? && audio.Holding? && Counted()
      modifies this
      ensures View() == Step(old(View()), EAudioEnter(signal, now), b)
    {
      var piece := audio.piece;
      if !Authorized(b, piece.from) {
        audio := LoopTest;
        return;
      }
      audio := Locked;
      if speaking {
        lock := SendingChunk(piece);
        return;
      }
      QuarantineOutput(piece, signal, now);
      if armed && preroll != [] {
        BeginOutput(piece.from, true);
      } else {
        Leave(true, LoopTest);
      }
    }

    /** The frame goes to the wire. */
    ghost method Put(o: Out)
      modifies `trace
      ensures View() == Write(old(View()), o)
    {
      trace := trace + [o];
    }

    /** A started or stopped frame never got there. */
    ghost method Miss()
      modifies `lostAt
      ensures View() == Lose(old(View()))
    {
      if lostAt.None? { lostAt := Some(|trace|); }
    }

    method SentStarted(outcome: Outcome, now: int, b: Backend)
      requires lock.SendingStarted? && Counted()
      modifies this
      ensures View() == Step(old(View()), ESend(outcome, now), b)
    {
      var expected, inAudio := lock.expected, lock.inAudio;
      if outcome.Lost? { Miss(); } else { Put(Started(epoch)); }
      if !outcome.Delivered? {
        Leave(inAudio, Gone);
        return;
      }
      if !Authorized(b, expected) {
        ClearPreroll();
        Leave(inAudio, LoopTest);
        return;
      }
      PrunePreroll(now);
      if preroll != [] {
        lock := SendingPreroll(expected, inAudio);
      } else {
        Leave(inAudio, LoopTest);
      }
    }

    /** The guarded binary frame: written only while its generation is authorized and current. */
    method WriteBinary(expected: Option<nat>, ghost pieces: seq<Piece>, outcome: Outcome, b: Backend)
      modifies `trace
      ensures View() == if outcome.Lost? then old(View()) else WriteGuarded(old(View()), expected, pieces, b)
    {
      if !outcome.Lost? && Authorized(b, expected) { Put(Binary(expected, pieces)); }
    }

    method SentPreroll(outcome: Outcome, now: int, b: Backend)
      requires lock.SendingPreroll?
      modifies this
      ensures View() == Step(old(View()), ESend(outcome, now), b)
    {
      hide WriteGuarded;
      WriteKeepsHolder(View(), lock.expected, Pieces(preroll), b);
      var expected, inAudio := lock.expected, lock.inAudio;
      WriteBinary(expected, Pieces(preroll), outcome, b);
      if outcome.Delivered? {
        ClearPreroll();
        Leave(inAudio, LoopTest);
      } else {
        Leave(inAudio, Gone);
      }
    }

    method SentChunk(outcome: Outcome, now: int, b: Backend)
      requires lock.SendingChunk?
      modifies this
      ensures View() == Step(old(View()), ESend(outcome, now), b)
    {
      var piece := lock.piece;
      WriteBinary(piece.from, [piece], outcome, b);
      Leave(true, if outcome.Delivered? then LoopTest else Gone);
    }

    method SentStopped(outcome: Outcome, now: int, b: Backend)
      requires lock.SendingStopped?
      modifies this
      ensures View() == Step(old(View()), ESend(outcome, now), b)
    {
      if outcome.Lost? { Miss(); } else { Put(Stopped(epoch)); }
      Leave(false, LoopTest);
    }
  }

  lemma {:induction false} TotalAppend(entries: seq<Entry>, e: Entry)
    ensures Total(entries + [e]) == Total(entries) + |e.piece.chunk|
  {
    if entries == [] {
      assert [] + [e] == [e] && [e][1..] == [];
    } else {
      assert (entries + [e])[1..] == entries[1..] + [e];
      TotalAppend(entries[1..], e);
    }
  }

  lemma WriteKeepsHolder(s: State, expected: Option<nat>, pieces: seq<Piece>, b: Backend)
    ensures WriteGuarded(s, expected, pieces, b).audio == s.audio
  {}
}
