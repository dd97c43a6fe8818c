/** What the speaking gate guarantees in every run, whatever the backend generations do meanwhile. */
module OutputGateSafety {
  import opened Wrappers
  import opened Pcm
  import opened OutputGate

  predicate InAudio(h: Holder) { h.SendingStarted? || h.SendingPreroll? || h.SendingChunk? }

  /** Who holds the output lock, and what that says about the audio task and the speaking flag. */
  ghost predicate Locking(s: State) {
    && (s.audio.Locked? <==> InAudio(s.holder))
    && (s.holder.SendingStarted? || s.holder.SendingPreroll? ==> s.holder.inAudio)
    && (InAudio(s.holder) ==> s.speaking)
    && (s.holder.SendingStopped? ==> !s.speaking)
    && (s.speaking || s.holder.SendingStopped? ==> s.epoch > 0)
  }

  /** The quarantine holds at most one chunk, and only while the audio task is flushing it. */
  ghost predicate Quarantined(s: State) {
    && s.prerollBytes == Total(s.preroll) <= PREROLL_MAX_BYTES
    && |s.preroll| <= 1
    && (s.preroll != [] ==>
          if s.holder.SendingStarted? || s.holder.SendingPreroll? then s.preroll[0].piece.from == s.holder.expected
          else s.holder.Free? && ((s.audio.Gone? && (s.stop || s.speaking)) || (s.audio.LoopTest? && s.stop)))
  }

  predicate Guarded(o: Out) {
    o.Binary? ==> o.guard.Some? && forall p | p in o.pieces :: p.from == o.guard
  }

  /** In managed mode every chunk carries the generation it was received under. */
  ghost predicate Tagged(s: State) {
    && (s.audio.Holding? ==> s.audio.piece.from.Some?)
    && (s.holder.SendingStarted? || s.holder.SendingPreroll? ==> s.holder.expected.Some?)
    && (s.holder.SendingChunk? ==> s.holder.piece.from.Some?)
    && (forall o | o in s.trace :: Guarded(o))
  }

  /** The phase the bridge believes the device is in. */
  function Believed(s: State): Phase {
    if s.holder.SendingStarted? then (if s.epoch > 0 then Silent(s.epoch - 1) else Broken)
    else if s.speaking || s.holder.SendingStopped? then Speaking(s.epoch)
    else Silent(s.epoch)
  }

  function Rank(p: Phase): int {
    match p
    case Silent(n) => 2 * n
    case Speaking(n) => 2 * n - 1
    case Broken => -1
  }

  /** Until a started/stopped frame is lost the device is where the bridge believes; then it lags behind. */
  ghost predicate Heeded(s: State) {
    match s.lostAt
    case None => Heard(s.trace) == Believed(s)
    case Some(n) =>
      && n <= |s.trace|
      && (n < |s.trace| ==> Heard(s.trace).Broken?)
      && (n == |s.trace| ==>
            && !Heard(s.trace).Broken? && Rank(Heard(s.trace)) < Rank(Believed(s))
            && (s.speaking && !s.holder.SendingStarted? ==> s.audio.Gone?))
  }

  ghost predicate Inv(s: State) {
    Locking(s) && Quarantined(s) && (s.managed ==> Tagged(s)) && Heeded(s)
  }

  lemma InitInv(managed: bool) ensures Inv(Init(managed)) {}

  lemma CappedSingle(e: Entry)
    ensures Capped([e]) == if |e.piece.chunk| > PREROLL_MAX_BYTES then [] else [e]
    ensures Total([e]) == |e.piece.chunk|
  {
    assert [e][1..] == [];
    assert Total([e]) == |e.piece.chunk| + Total([]);
    if |e.piece.chunk| > PREROLL_MAX_BYTES { assert Capped([]) == []; }
  }

  lemma PrunedSingle(e: Entry, arm: nat, cutoff: int)
    ensures Pruned([e], arm, cutoff) == if e.arm != arm || e.at < cutoff then [] else [e]
  {
    assert [e][1..] == [];
  }

  lemma ArmKeeps(s: State, expected: Option<nat>, b: Backend)
    requires Inv(s) && s.holder.Free?
    ensures Inv(Arm(s, expected, b))
  {}

  lemma ExpireKeeps(s: State, arm: nat)
    requires Inv(s) && s.holder.Free?
    ensures Inv(Expire(s, arm))
  {}

  lemma EndKeeps(s: State, epoch: Option<nat>)
    requires Inv(s) && s.holder.Free?
    ensures Inv(End(s, epoch))
  {}

  lemma StopKeeps(s: State)
    requires Inv(s)
    ensures Inv(s.(stop := true))
  {}

  lemma AudioGoneKeeps(s: State)
    requires Inv(s) && !s.audio.Locked?
    ensures Inv(s.(audio := Gone))
  {}

  lemma AudioTestKeeps(s: State)
    requires Inv(s)
    ensures Inv(AudioTest(s))
  {}

  lemma AudioReceiveKeeps(s: State, chunk: Chunk, b: Backend)
    requires Inv(s)
    ensures Inv(AudioReceive(s, chunk, b))
  {
    if !s.audio.Receiving? { return; }
  }

  lemma AudioEnterKeeps(s: State, signal: bool, now: int, b: Backend)
    requires Inv(s) && s.holder.Free?
    ensures Inv(AudioEnter(s, signal, now, b))
  {
    if !s.audio.Holding? || !Authorized(b, s.audio.piece.from) || s.speaking { return; }
    var e := Entry(s.armGen, now, s.audio.piece);
    CappedSingle(e);
    assert [] + [e] == [e];
  }

  lemma WriteBinaryKeeps(s: State, expected: Option<nat>, pieces: seq<Piece>, b: Backend)
    requires Inv(s) && s.audio.Locked? && !s.holder.SendingStarted?
    requires s.managed ==> Guarded(Binary(expected, pieces))
    ensures Inv(WriteGuarded(s, expected, pieces, b))
  {
    HeardExtends(s.trace, Binary(expected, pieces));
  }

  lemma AfterChunkKeeps(s: State)
    requires Inv(s) && (s.holder.SendingPreroll? || s.holder.SendingChunk?)
    ensures Inv(Return(WithPreroll(s, []), true)) && Inv(Raise(s, true))
    ensures s.holder.SendingChunk? ==> Inv(Return(s, true))
  {}

  lemma PrerollPieces(s: State)
    requires Quarantined(s) && s.holder.SendingPreroll?
    ensures forall p | p in Pieces(s.preroll) :: p.from == s.holder.expected
  {
    if s.preroll != [] { assert Pieces(s.preroll[1..]) == []; }
  }

  lemma SendAudioKeeps(s: State, outcome: Outcome, b: Backend)
    requires Inv(s)
    ensures s.holder.SendingPreroll? ==> Inv(SendPreroll(s, outcome, b))
    ensures s.holder.SendingChunk? ==> Inv(SendChunk(s, outcome, b))
  {
    hide Locking, Quarantined, Tagged, Heeded;
    LockedAudio(s);
    if s.holder.SendingPreroll? {
      AudioPrerollPieces(s);
      WriteBinaryKeeps(s, s.holder.expected, Pieces(s.preroll), b);
      AfterChunkKeeps(WriteGuarded(s, s.holder.expected, Pieces(s.preroll), b));
      AfterChunkKeeps(s);
    } else if s.holder.SendingChunk? {
      WriteBinaryKeeps(s, s.holder.piece.from, [s.holder.piece], b);
      AfterChunkKeeps(WriteGuarded(s, s.holder.piece.from, [s.holder.piece], b));
      AfterChunkKeeps(s);
    }
  }

  lemma LockedAudio(s: State)
    requires Inv(s)
    ensures s.holder.SendingPreroll? ==> s.audio.Locked? && s.holder.inAudio
    ensures s.holder.SendingChunk? ==> s.audio.Locked? && (s.managed ==> s.holder.piece.from.Some?)
  {}

  lemma AudioPrerollPieces(s: State)
    requires Inv(s) && s.holder.SendingPreroll?
    ensures s.managed ==> Guarded(Binary(s.holder.expected, Pieces(s.preroll)))
  {
    PrerollPieces(s);
  }

  lemma WriteStartedHeeded(s: State)
    requires Heeded(s) && Locking(s) && s.holder.SendingStarted?
    ensures Heeded(Write(s, Started(s.epoch)).(holder := Free))
    ensures Heeded(Lose(s).(holder := Free, audio := Gone))
  {
    HeardExtends(s.trace, Started(s.epoch));
    assert s.trace[..|s.trace|] == s.trace;
  }

  /** Once the started frame is out, where the coroutine goes next does not matter to the device. */
  lemma HeededAnywhere(s: State, t: State)
    requires Heeded(s) && s.holder.Free? && s.speaking && (s.lostAt.Some? ==> s.lostAt.value < |s.trace|)
    requires t.trace == s.trace && t.lostAt == s.lostAt && t.epoch == s.epoch && t.speaking
    requires !t.holder.SendingStarted?
    ensures Heeded(t)
  {}

  lemma AfterStartedKeeps(s: State, now: int, b: Backend)
    requires Locking(s) && Quarantined(s) && (s.managed ==> Tagged(s)) && s.holder.SendingStarted?
    ensures var t := SendStarted(s, Delivered, now, b); Locking(t) && Quarantined(t) && (s.managed ==> Tagged(t))
  {
    if !Authorized(b, s.holder.expected) { return; }
    if s.preroll != [] {
      assert s.preroll == [s.preroll[0]];
      PrunedSingle(s.preroll[0], s.armGen, now - PREROLL_TTL);
    }
  }

  lemma RaiseStartedKeeps(s: State, o: Outcome, now: int, b: Backend)
    requires Locking(s) && Quarantined(s) && (s.managed ==> Tagged(s)) && s.holder.SendingStarted? && !o.Delivered?
    ensures var t := SendStarted(s, o, now, b); Locking(t) && Quarantined(t) && (s.managed ==> Tagged(t))
  {}

  lemma SendStartedShape(s: State, o: Outcome, now: int, b: Backend)
    requires Locking(s) && s.holder.SendingStarted?
    ensures var t, w := SendStarted(s, o, now, b), Write(s, Started(s.epoch)).(holder := Free);
      && t.epoch == s.epoch && t.speaking && s.speaking && !t.holder.SendingStarted? && t.managed == s.managed
      && (o.Lost? ==> t == Lose(s).(holder := Free, audio := Gone))
      && (!o.Lost? ==> t.trace == w.trace && t.lostAt == w.lostAt)
  {}

  lemma SendStartedKeeps(s: State, o: Outcome, now: int, b: Backend)
    requires Inv(s) && s.holder.SendingStarted?
    ensures Inv(SendStarted(s, o, now, b))
  {
    hide Locking, Quarantined, Tagged, Heeded, SendStarted;
    if o.Delivered? { AfterStartedKeeps(s, now, b); } else { RaiseStartedKeeps(s, o, now, b); }
    SendStartedShape(s, o, now, b);
    WriteStartedHeeded(s);
    LostBeforeNow(s);
    if !o.Lost? { HeededAnywhere(Write(s, Started(s.epoch)).(holder := Free), SendStarted(s, o, now, b)); }
  }

  lemma LostBeforeNow(s: State)
    requires Heeded(s)
    ensures s.lostAt.Some? ==> s.lostAt.value <= |s.trace|
  {}

  lemma StoppedHeeded(s: State)
    requires Heeded(s) && Locking(s) && s.holder.SendingStopped?
    ensures Heeded(Write(s, Stopped(s.epoch)).(holder := Free)) && Heeded(Lose(s).(holder := Free))
  {
    HeardExtends(s.trace, Stopped(s.epoch));
    assert s.trace[..|s.trace|] == s.trace;
  }

  lemma StoppedRest(s: State, o: Outcome)
    requires Locking(s) && Quarantined(s) && (s.managed ==> Tagged(s)) && s.holder.SendingStopped?
    ensures var t := SendStopped(s, o); Locking(t) && Quarantined(t) && (s.managed ==> Tagged(t))
  {}

  lemma SendStoppedKeeps(s: State, outcome: Outcome)
    requires Inv(s) && s.holder.SendingStopped?
    ensures Inv(SendStopped(s, outcome))
  {
    hide Locking, Quarantined, Tagged, Heeded;
    StoppedHeeded(s);
    StoppedRest(s, outcome);
  }

  lemma StepKeeps(s: State, e: Event, b: Backend)
    requires Inv(s)
    ensures Inv(Step(s, e, b))
  {
    hide Inv, Locking, Quarantined, Tagged, Heeded, Arm, Expire, End, AudioTest, AudioReceive, AudioEnter,
      SendStarted, SendPreroll, SendChunk, SendStopped;
    if NeedsLock(e) && !s.holder.Free? { return; }
    match e
    case EArm(expected) => ArmKeeps(s, expected, b);
    case EExpire(arm) => ExpireKeeps(s, arm);
    case EEnd(epoch) => EndKeeps(s, epoch);
    case EStop => StopKeeps(s);
    case EAudioTest => AudioTestKeeps(s);
    case EAudioReceive(chunk) => AudioReceiveKeeps(s, chunk, b);
    case EAudioEnter(signal, now) => AudioEnterKeeps(s, signal, now, b);
    case EAudioGone => if !s.audio.Locked? { AudioGoneKeeps(s); }
    case ESend(outcome, now) =>
      if s.holder.SendingStarted? { SendStartedKeeps(s, outcome, now, b); }
      else if s.holder.SendingStopped? { SendStoppedKeeps(s, outcome); }
      else { SendAudioKeeps(s, outcome, b); }
  }

  lemma {:induction false} ReachedKeeps(managed: bool, run: seq<Moment>)
    ensures Inv(Reached(managed, run)) && Reached(managed, run).managed == managed
  {
    hide Inv, Step;
    if run == [] {
      InitInv(managed);
    } else {
      var s, m := Reached(managed, run[..|run| - 1]), run[|run| - 1];
      ReachedKeeps(managed, run[..|run| - 1]);
      StepKeeps(s, m.event, m.backend);
      StepWrites(s, m.event, m.backend);
    }
  }

  /** The trace and its loss mark move only as the holder of the lock sends. */
  ghost predicate Same(s: State, t: State) {
    t.trace == s.trace && t.lostAt == s.lostAt && t.managed == s.managed
  }

  lemma OnlySendsWrite(s: State, e: Event, b: Backend)
    requires !e.ESend?
    ensures Same(s, Step(s, e, b))
  {
    if NeedsLock(e) && !s.holder.Free? { return; }
    if e.EAudioEnter? && s.audio.Holding? {
      if !Authorized(b, s.audio.piece.from) || s.speaking { return; }
      if !s.armed || !e.signal { return; }
    }
  }

  /** What a send writes: the frame the holder of the lock has in hand, or nothing. */
  ghost predicate SendWrites(s: State, t: State, outcome: Outcome, b: Backend) {
    match s.holder
    case Free => Same(s, t)
    case SendingStarted(_, _) =>
      if outcome.Lost? then Same(Lose(s), t) else Same(Write(s, Started(s.epoch)), t)
    case SendingStopped =>
      if outcome.Lost? then Same(Lose(s), t) else Same(Write(s, Stopped(s.epoch)), t)
    case SendingPreroll(expected, _) =>
      if outcome.Lost? then Same(s, t) else Same(WriteGuarded(s, expected, Pieces(s.preroll), b), t)
    case SendingChunk(piece) =>
      if outcome.Lost? then Same(s, t) else Same(WriteGuarded(s, piece.from, [piece], b), t)
  }

  lemma AfterStartedIsSame(s: State, expected: Option<nat>, inAudio: bool, now: int, b: Backend)
    ensures Same(s, AfterStarted(s, expected, inAudio, now, b))
  {}

  lemma SendWritesOne(s: State, outcome: Outcome, now: int, b: Backend)
    ensures SendWrites(s, Send(s, outcome, now, b), outcome, b)
  {
    hide AfterStarted;
    if s.holder.SendingStarted? {
      AfterStartedIsSame(Write(s, Started(s.epoch)), s.holder.expected, s.holder.inAudio, now, b);
      return;
    }
    if s.holder.SendingPreroll? { return; }
  }

  /** A step writes at most one frame, and never rewrites one. */
  lemma StepWrites(s: State, e: Event, b: Backend)
    ensures s.trace <= Step(s, e, b).trace && |Step(s, e, b).trace| <= |s.trace| + 1
    ensures Step(s, e, b).managed == s.managed
  {
    hide Send;
    if e.ESend? { SendWritesOne(s, e.outcome, e.now, b); } else { OnlySendsWrite(s, e, b); }
  }

  // ----- the device trace -----

  /**
   The device hears (started e, binary*, stopped e)* with e = 1, 2, 3, ... up to the moment a started
   or stopped frame is lost, and the very next frame after a loss is out of place.
   */
  lemma TraceIsWellFormedIff(managed: bool, run: seq<Moment>)
    ensures var s := Reached(managed, run);
      WellFormed(s.trace) <==> s.lostAt.None? || s.lostAt.value == |s.trace|
  {
    ReachedKeeps(managed, run);
  }

  /** Only a lost started or stopped frame is recorded as a loss, with the frames written before it. */
  lemma LossIsALostControlFrame(s: State, e: Event, b: Backend)
    ensures Step(s, e, b).lostAt != s.lostAt <==>
      s.lostAt.None? && e.ESend? && e.outcome.Lost? && (s.holder.SendingStarted? || s.holder.SendingStopped?)
    ensures Step(s, e, b).lostAt != s.lostAt ==> Step(s, e, b).lostAt == Some(|s.trace|)
  {
    hide Send;
    if e.ESend? { SendWritesOne(s, e.outcome, e.now, b); } else { OnlySendsWrite(s, e, b); }
  }

  function At(e: Event): Moment { Moment(e, Backend(0, None)) }

  /** A chunk arrives in a fresh arm, and its session begins. */
  function Beginning(): seq<Moment> { [At(EArm(None)), At(EAudioTest)] + [At(EAudioReceive([7])), At(EAudioEnter(true, 0))] }

  /**
   The started frame times out while it waits for another coroutine's device send. The output lock passes
   to the end_output that was waiting for it, whose stopped frame is written before the socket is torn down.
   */
  function LostStart(): seq<Moment> { Beginning() + [At(ESend(Lost, 0)), At(EEnd(None))] + [At(ESend(Delivered, 0))] }

  lemma ReachedMore(managed: bool, run: seq<Moment>, m: Moment)
    ensures Reached(managed, run + [m]) == Step(Reached(managed, run), m.event, m.backend)
  {
    hide Step;
    assert (run + [m])[..|run|] == run;
  }

  lemma ReachedTwice(managed: bool, run: seq<Moment>, m: Moment, n: Moment)
    ensures Reached(managed, run + [m, n])
      == Step(Step(Reached(managed, run), m.event, m.backend), n.event, n.backend)
  {
    hide Step, Reached;
    ReachedMore(managed, run, m);
    ReachedMore(managed, run + [m], n);
    assert run + [m] + [n] == run + [m, n];
  }

  lemma ReachedNothing(managed: bool) ensures Reached(managed, []) == Init(managed) {}

  /** The state in which the started frame is being sent. */
  function BegunState(): State {
    Init(false).(armGen := 1, epoch := 1, speaking := true, preroll := [Entry(1, 0, Piece([7], None))], prerollBytes := 1,
                 holder := SendingStarted(None, true), audio := Locked)
  }

  lemma BeginningIsReached()
    ensures Reached(false, Beginning()) == BegunState()
  {
    hide Reached;
    var s, b := Init(false).(armed := true, armGen := 1), Backend(0, None);
    var run := [At(EArm(None)), At(EAudioTest)];
    ReachedNothing(false);
    ReachedTwice(false, [], At(EArm(None)), At(EAudioTest));
    assert [] + run == run;
    assert Step(Init(false), EArm(None), b) == s;
    ReachedTwice(false, run, At(EAudioReceive([7])), At(EAudioEnter(true, 0)));
    var held := s.(audio := Holding(Piece([7], None)));
    assert Step(s.(audio := Receiving), EAudioReceive([7]), b) == held;
    var entry := Entry(1, 0, Piece([7], None));
    CappedSingle(entry);
    assert [] + [entry] == [entry];
    assert Total([entry]) == 1 by { assert [entry][1..] == []; }
    assert Step(held, EAudioEnter(true, 0), b) == BegunState();
  }

  /** The trace does break: the device hears a stop of an epoch it never heard start. */
  lemma LostStartBreaksTheTrace()
    ensures var s := Reached(false, LostStart());
      s.trace == [Stopped(1)] && !WellFormed(s.trace) && s.audio.Gone? && !s.speaking
  {
    hide Reached;
    var b, s := Backend(0, None), BegunState();
    BeginningIsReached();
    ReachedTwice(false, Beginning(), At(ESend(Lost, 0)), At(EEnd(None)));
    ReachedMore(false, Beginning() + [At(ESend(Lost, 0)), At(EEnd(None))], At(ESend(Delivered, 0)));
    var lost := s.(holder := Free, audio := Gone, lostAt := Some(0));
    assert Step(s, ESend(Lost, 0), b) == lost;
    var ended := lost.(armGen := 2, preroll := [], prerollBytes := 0, speaking := false, holder := SendingStopped);
    assert Step(lost, EEnd(None), b) == ended;
    assert Step(ended, ESend(Delivered, 0), b) == ended.(holder := Free, trace := [Stopped(1)]);
    HeardExtends([], Stopped(1));
    assert [] + [Stopped(1)] == [Stopped(1)];
  }

  // ----- stale audio -----

  /**
   No stale audio crosses the device wire in managed mode: as a binary frame is written, the
   generation its one chunk was received under is authorized and current.
   */
  lemma BinaryIsCurrent(managed: bool, run: seq<Moment>, e: Event, b: Backend, o: Out)
    requires managed && o.Binary?
    requires Step(Reached(managed, run), e, b).trace == Reached(managed, run).trace + [o]
    ensures o.guard == b.outGen == Some(b.gen)
    ensures forall p | p in o.pieces :: p.from == Some(b.gen)
  {
    hide Step, Inv;
    ReachedKeeps(managed, run);
    BinaryWritten(Reached(managed, run), e, b, o);
  }

  lemma BinaryWritten(s: State, e: Event, b: Backend, o: Out)
    requires Inv(s) && s.managed && o.Binary? && Step(s, e, b).trace == s.trace + [o]
    ensures o.guard == b.outGen == Some(b.gen)
    ensures forall p | p in o.pieces :: p.from == Some(b.gen)
  {
    hide Send;
    if !e.ESend? { OnlySendsWrite(s, e, b); return; }
    SendWritesOne(s, e.outcome, e.now, b);
    assert (s.trace + [o])[|s.trace|] == o;
    if s.holder.SendingPreroll? { PrerollPieces(s); }
  }

  /** A chunk is kept only if it was received under the authorized, current generation. */
  lemma ReceivedIsCurrent(s: State, e: Event, b: Backend)
    ensures s.managed && !s.audio.Holding? && Step(s, e, b).audio.Holding? ==>
      e.EAudioReceive? && Step(s, e, b).audio.piece == Piece(e.chunk, Some(b.gen)) && b.outGen == Some(b.gen)
  {
    if e.ESend? { SendTakesNothing(s, e.outcome, e.now, b); return; }
    if e.EAudioEnter? && s.holder.Free? { return; }
    if e.EArm? && s.holder.Free? { return; }
  }

  lemma SendTakesNothing(s: State, outcome: Outcome, now: int, b: Backend)
    ensures Send(s, outcome, now, b).audio.Holding? ==> s.audio.Holding?
  {
    if s.holder.SendingStarted? { return; }
    if s.holder.SendingPreroll? { return; }
  }

  // ----- the pre-roll -----

  /**
   The byte count is the sum of the queued chunks and stays within 9,600. There is never more than
   one chunk, and with the lock free there is one only after the stop flag or a failed send.
   */
  lemma PrerollIsBounded(managed: bool, run: seq<Moment>)
    ensures var s := Reached(managed, run);
      && s.prerollBytes == Total(s.preroll) <= PREROLL_MAX_BYTES
      && |s.preroll| <= 1
      && (s.preroll != [] && s.holder.Free? ==> s.stop || (s.speaking && s.audio.Gone?))
  {
    ReachedKeeps(managed, run);
  }

  /** Arming never flushes: its flush branch is dead, only the audio task begins a session. */
  lemma OnlyAudioBegins(managed: bool, run: seq<Moment>, e: Event, b: Backend)
    ensures var s := Reached(managed, run);
      Step(s, e, b).epoch != s.epoch ==> e.EAudioEnter? && s.holder.Free? && BeginsWith(s, Step(s, e, b), e.signal, e.now)
  {
    var s := Reached(managed, run);
    hide Heard, Reached;
    ReachedKeeps(managed, run);
    if e.ESend? { SendKeepsEpoch(s, e.outcome, e.now, b); return; }
    if e.EAudioEnter? && s.holder.Free? { EnterBegins(s, e.signal, e.now, b); return; }
    if !e.EArm? { return; }
  }

  /** A session begins with exactly the chunk in hand in the quarantine. */
  predicate BeginsWith(s: State, t: State, signal: bool, now: int) {
    && s.audio.Holding? && s.armed && signal && t.epoch == s.epoch + 1
    && t.preroll == [Entry(s.armGen, now, s.audio.piece)]
  }

  lemma SendKeepsEpoch(s: State, outcome: Outcome, now: int, b: Backend)
    ensures Send(s, outcome, now, b).epoch == s.epoch
  {
    if s.holder.SendingStarted? { return; }
    if s.holder.SendingPreroll? { return; }
  }

  lemma EnterBegins(s: State, signal: bool, now: int, b: Backend)
    requires Inv(s) && s.holder.Free?
    ensures AudioEnter(s, signal, now, b).epoch != s.epoch ==> BeginsWith(s, AudioEnter(s, signal, now, b), signal, now)
  {
    if !s.audio.Holding? || !Authorized(b, s.audio.piece.from) || s.speaking { return; }
    var e := Entry(s.armGen, now, s.audio.piece);
    CappedSingle(e);
    assert [] + [e] == [e];
  }
}
