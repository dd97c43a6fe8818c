/**
 No audio is mislaid behind the speaking gate. Every chunk the audio task keeps is in its hand, in the hand of
 the coroutine that holds the output lock, or on the wire, in the order received and once; what gives a chunk up
 is told event by event.
 */
module OutputConservation {
  import opened Wrappers
  import opened OutputGate
  import opened OutputGateSafety

  // ----- where a chunk is -----

  predicate Flushing(h: Holder) { h.SendingStarted? || h.SendingPreroll? }

  /** The chunks kept and not yet written: with the lock's holder, and with the audio task. */
  function InFlight(s: State): seq<Piece> {
    (if Flushing(s.holder) then Pieces(s.preroll) else if s.holder.SendingChunk? then [s.holder.piece] else [])
    + (if s.audio.Holding? then [s.audio.piece] else [])
  }

  /** The chunks in the binary frames of a trace. */
  function Sounds(trace: seq<Out>): seq<Piece> {
    if trace == [] then []
    else
      Sounds(trace[..|trace| - 1]) + (if trace[|trace| - 1].Binary? then trace[|trace| - 1].pieces else [])
  }

  function Ledger(s: State): seq<Piece> { Sounds(s.trace) + InFlight(s) }

  /** The quarantine of a session being begun is the one chunk that begins it, of the current arm. */
  ghost predicate InHand(s: State) {
    Inv(s) && (Flushing(s.holder) ==> |s.preroll| == 1 && s.preroll[0].arm == s.armGen)
  }

  // ----- what an event does with a chunk -----

  /** The audio task keeps the chunk it received: in managed mode only under the authorized, current generation. */
  predicate Keeps(s: State, e: Event, b: Backend) {
    e.EAudioReceive? && s.audio.Receiving? && (s.managed ==> b.outGen == Some(b.gen))
  }

  function Kept(s: State, e: Event, b: Backend): Piece
    requires e.EAudioReceive?
  {
    Piece(e.chunk, if s.managed then b.outGen else None)
  }

  /** The quarantine wants only a chunk with signal, in an arm, that fits; and no session begins after the stop flag. */
  predicate Wanted(s: State, piece: Piece, signal: bool) {
    s.armed && signal && |piece.chunk| <= PREROLL_MAX_BYTES && !s.stop
  }

  /** The audio task gives up the chunk in its hand. */
  predicate Rejects(s: State, e: Event, b: Backend) {
    && s.audio.Holding?
    && (|| e.EAudioGone?
        || (e.EAudioEnter? && s.holder.Free?
            && (!Authorized(b, s.audio.piece.from) || (!s.speaking && !Wanted(s, s.audio.piece, e.signal)))))
  }

  /** The holder of the lock gives up the chunk it sends: the send failed, or its generation went stale, or it is too old. */
  predicate Spills(s: State, e: Event, b: Backend) {
    && e.ESend?
    && match s.holder
       case SendingStarted(expected, _) =>
         !e.outcome.Delivered? || !Authorized(b, expected) || (s.preroll != [] && s.preroll[0].at < e.now - PREROLL_TTL)
       case SendingPreroll(expected, _) => e.outcome.Lost? || !Authorized(b, expected)
       case SendingChunk(piece) => e.outcome.Lost? || !Authorized(b, piece.from)
       case _ => false
  }

  predicate GivesUp(s: State, e: Event, b: Backend) { Rejects(s, e, b) || Spills(s, e, b) }

  // ----- the account of one step -----

  lemma SoundsMore(trace: seq<Out>, o: Out)
    ensures Sounds(trace + [o]) == Sounds(trace) + (if o.Binary? then o.pieces else [])
  {
    assert (trace + [o])[..|trace|] == trace;
  }

  lemma OnePiece(entries: seq<Entry>)
    requires |entries| == 1
    ensures Pieces(entries) == [entries[0].piece]
  {
    assert Pieces(entries[1..]) == [];
  }

  /** What a step does to the ledger. */
  ghost predicate Balanced(s: State, e: Event, b: Backend, t: State) {
    if Keeps(s, e, b) then InFlight(s) == [] && InFlight(t) == [Kept(s, e, b)] && Sounds(t.trace) == Sounds(s.trace)
    else if GivesUp(s, e, b) then |InFlight(s)| == 1 && InFlight(t) == [] && Sounds(t.trace) == Sounds(s.trace)
    else Ledger(t) == Ledger(s)
  }

  lemma EnterSpeaking(s: State, signal: bool, now: int, b: Backend)
    requires InHand(s) && s.holder.Free? && s.audio.Holding? && (s.speaking || !Authorized(b, s.audio.piece.from))
    ensures var t := AudioEnter(s, signal, now, b); InHand(t) && Balanced(s, EAudioEnter(signal, now), b, t)
  {
    hide Inv;
    AudioEnterHolds(s, signal, now, b);
  }

  lemma AudioEnterHolds(s: State, signal: bool, now: int, b: Backend)
    requires Inv(s) && s.holder.Free?
    ensures Inv(AudioEnter(s, signal, now, b))
    ensures s.audio.Holding? ==> s.preroll == []
  {
    AudioEnterKeeps(s, signal, now, b);
  }

  /** Between two sessions the chunk in hand begins one, or is refused. */
  lemma EnterSilent(s: State, signal: bool, now: int, b: Backend)
    requires InHand(s) && s.holder.Free? && s.audio.Holding? && !s.speaking && Authorized(b, s.audio.piece.from)
    ensures var t := AudioEnter(s, signal, now, b); InHand(t) && Balanced(s, EAudioEnter(signal, now), b, t)
  {
    hide Inv;
    AudioEnterHolds(s, signal, now, b);
    var e := Entry(s.armGen, now, s.audio.piece);
    CappedSingle(e);
    assert [] + [e] == [e];
    OnePiece([e]);
  }

  lemma EnterBalances(s: State, signal: bool, now: int, b: Backend)
    requires InHand(s) && s.holder.Free?
    ensures var t := AudioEnter(s, signal, now, b); InHand(t) && Balanced(s, EAudioEnter(signal, now), b, t)
  {
    if !s.audio.Holding? { return; }
    hide InHand, Balanced, AudioEnter;
    if s.speaking || !Authorized(b, s.audio.piece.from) { EnterSpeaking(s, signal, now, b); } else { EnterSilent(s, signal, now, b); }
  }

  /** What the invariant says of the coroutine that holds the lock. */
  lemma HolderIsAudio(s: State)
    requires InHand(s)
    ensures Flushing(s.holder) ==> s.holder.inAudio && s.audio.Locked? && |s.preroll| == 1 && s.preroll[0].arm == s.armGen
    ensures s.holder.SendingChunk? ==> s.audio.Locked?
    ensures s.audio.Locked? ==> Flushing(s.holder) || s.holder.SendingChunk?
  {}

  lemma StartedMoves(s: State, outcome: Outcome, now: int, b: Backend)
    requires s.holder.SendingStarted? && s.holder.inAudio && s.audio.Locked? && |s.preroll| == 1 && s.preroll[0].arm == s.armGen
    ensures var t := SendStarted(s, outcome, now, b);
      && t.armGen == s.armGen && t.trace == (if outcome.Lost? then s.trace else s.trace + [Started(s.epoch)]) && !t.audio.Holding?
      && (if Spills(s, ESend(outcome, now), b) then t.holder.Free?
          else t.holder == SendingPreroll(s.holder.expected, true) && t.preroll == s.preroll)
  {
    assert s.preroll == [s.preroll[0]];
    PrunedSingle(s.preroll[0], s.armGen, now - PREROLL_TTL);
  }

  lemma StartedBalances(s: State, outcome: Outcome, now: int, b: Backend)
    requires InHand(s) && s.holder.SendingStarted?
    ensures var t := SendStarted(s, outcome, now, b); InHand(t) && Balanced(s, ESend(outcome, now), b, t)
  {
    hide Inv, SendStarted, Sounds, Spills, Pieces;
    HolderIsAudio(s);
    SendStartedKeeps(s, outcome, now, b);
    StartedMoves(s, outcome, now, b);
    SoundsMore(s.trace, Started(s.epoch));
    OnePiece(s.preroll);
  }

  lemma PrerollMoves(s: State, outcome: Outcome, b: Backend)
    requires s.holder.SendingPreroll? && s.holder.inAudio && s.audio.Locked?
    ensures var t := SendPreroll(s, outcome, b);
      && t.holder.Free? && !t.audio.Holding?
      && t.trace == if outcome.Lost? || !Authorized(b, s.holder.expected) then s.trace
                    else s.trace + [Binary(s.holder.expected, Pieces(s.preroll))]
  {}

  lemma PrerollBalances(s: State, outcome: Outcome, now: int, b: Backend)
    requires InHand(s) && s.holder.SendingPreroll?
    ensures var t := SendPreroll(s, outcome, b); InHand(t) && Balanced(s, ESend(outcome, now), b, t)
  {
    hide Inv, SendPreroll, Sounds, Pieces;
    HolderIsAudio(s);
    SendAudioKeeps(s, outcome, b);
    PrerollMoves(s, outcome, b);
    OnePiece(s.preroll);
    SoundsMore(s.trace, Binary(s.holder.expected, Pieces(s.preroll)));
  }

  lemma ChunkBalances(s: State, outcome: Outcome, now: int, b: Backend)
    requires InHand(s) && s.holder.SendingChunk?
    ensures var t := SendChunk(s, outcome, b); InHand(t) && Balanced(s, ESend(outcome, now), b, t)
  {
    hide Inv, Sounds, Pieces;
    HolderIsAudio(s);
    SendAudioKeeps(s, outcome, b);
    SoundsMore(s.trace, Binary(s.holder.piece.from, [s.holder.piece]));
  }

  lemma StoppedBalances(s: State, outcome: Outcome, now: int, b: Backend)
    requires InHand(s) && s.holder.SendingStopped?
    ensures var t := SendStopped(s, outcome); InHand(t) && Balanced(s, ESend(outcome, now), b, t)
  {
    SendStoppedKeeps(s, outcome);
    hide Inv;
    SoundsMore(s.trace, Stopped(s.epoch));
  }

  lemma SendBalances(s: State, outcome: Outcome, now: int, b: Backend)
    requires InHand(s)
    ensures var t := Send(s, outcome, now, b); InHand(t) && Balanced(s, ESend(outcome, now), b, t)
  {
    hide InHand, Balanced, SendStarted, SendPreroll, SendChunk, SendStopped;
    match s.holder
    case Free => NothingBalances(s, ESend(outcome, now), b);
    case SendingStarted(_, _) => StartedBalances(s, outcome, now, b);
    case SendingStopped => StoppedBalances(s, outcome, now, b);
    case SendingPreroll(_, _) => PrerollBalances(s, outcome, now, b);
    case SendingChunk(_) => ChunkBalances(s, outcome, now, b);
  }

  lemma NothingBalances(s: State, e: Event, b: Backend)
    requires !Keeps(s, e, b) && !GivesUp(s, e, b)
    ensures Balanced(s, e, b, s)
  {}

  lemma LockedOutBalances(s: State, e: Event, b: Backend)
    requires !s.holder.Free? && NeedsLock(e)
    ensures Balanced(s, e, b, s)
  {}

  /** Arming, its timeout and the end of a session find no chunk in flight under the lock. */
  lemma LockBalances(s: State, e: Event, b: Backend)
    requires InHand(s) && s.holder.Free? && (e.EArm? || e.EExpire? || e.EEnd?)
    ensures InHand(Step(s, e, b)) && Balanced(s, e, b, Step(s, e, b))
  {
    StepKeeps(s, e, b);
    assert s.preroll != [] ==> s.stop || s.speaking;
    hide Inv;
  }

  /** A step of the audio task, or the stop flag: the lock, its quarantine and the trace stay. */
  lemma TaskMoves(s: State, e: Event, b: Backend)
    requires e.EStop? || e.EAudioTest? || e.EAudioReceive? || e.EAudioGone?
    ensures var t := Step(s, e, b);
      && t.holder == s.holder && t.preroll == s.preroll && t.armGen == s.armGen && t.trace == s.trace
      && (Keeps(s, e, b) ==> t.audio == Holding(Kept(s, e, b)))
      && (!Keeps(s, e, b) ==> t.audio == s.audio || !t.audio.Holding?)
      && (!Keeps(s, e, b) && s.audio.Holding? ==> if Rejects(s, e, b) then !t.audio.Holding? else t.audio == s.audio)
  {}

  lemma AudioTaskBalances(s: State, e: Event, b: Backend)
    requires InHand(s) && (e.EStop? || e.EAudioTest? || e.EAudioReceive? || e.EAudioGone?)
    ensures InHand(Step(s, e, b)) && Balanced(s, e, b, Step(s, e, b))
  {
    hide Inv, Sounds, Pieces, Step;
    HolderIsAudio(s);
    StepKeeps(s, e, b);
    TaskMoves(s, e, b);
  }

  /**
   One step mislays nothing. At most one chunk is in flight; it is on the wire, or still in flight, after every
   step but those that give it up, and nothing else joins it.
   */
  lemma StepBalances(s: State, e: Event, b: Backend)
    requires InHand(s)
    ensures InHand(Step(s, e, b)) && Balanced(s, e, b, Step(s, e, b))
  {
    hide InHand, Balanced, Send, AudioEnter;
    if NeedsLock(e) && !s.holder.Free? { LockedOutBalances(s, e, b); return; }
    match e
    case ESend(outcome, now) => SendBalances(s, outcome, now, b);
    case EAudioEnter(signal, now) => EnterBalances(s, signal, now, b);
    case EArm(_) => LockBalances(s, e, b);
    case EExpire(_) => LockBalances(s, e, b);
    case EEnd(_) => LockBalances(s, e, b);
    case _ => AudioTaskBalances(s, e, b);
  }

  // ----- whole runs -----

  /** The chunks kept in a run, in order, less those that an event gave up. */
  function Survivors(managed: bool, run: seq<Moment>): seq<Piece> {
    if run == [] then []
    else
      var front, m := run[..|run| - 1], run[|run| - 1];
      var s, before := Reached(managed, front), Survivors(managed, front);
      if Keeps(s, m.event, m.backend) then before + [Kept(s, m.event, m.backend)]
      else if GivesUp(s, m.event, m.backend) && before != [] then before[..|before| - 1]
      else before
  }

  /**
   What the device was sent, followed by what is in flight, is what the audio task kept, in order and once, less
   what was given up. A chunk is given up only with its task, at a check of its generation, when its send fails,
   when its quarantine outlasted 500 milliseconds, or between sessions when the quarantine does not want it.
   */
  lemma {:induction false} KeptAudioIsAccountedFor(managed: bool, run: seq<Moment>)
    ensures var s := Reached(managed, run);
      InHand(s) && |InFlight(s)| <= 1 && Sounds(s.trace) + InFlight(s) == Survivors(managed, run)
  {
    hide Step, InHand, Keeps, GivesUp, InFlight;
    if run == [] {
      FreshLedger(managed);
    } else {
      var front, m := run[..|run| - 1], run[|run| - 1];
      var s, before := Reached(managed, front), Survivors(managed, front);
      KeptAudioIsAccountedFor(managed, front);
      StepBalances(s, m.event, m.backend);
      AtMostOne(Step(s, m.event, m.backend));
      if GivesUp(s, m.event, m.backend) && !Keeps(s, m.event, m.backend) {
        assert before[..|before| - 1] == Sounds(s.trace);
      }
    }
  }

  lemma FreshLedger(managed: bool)
    ensures InHand(Init(managed)) && InFlight(Init(managed)) == []
  {
    InitInv(managed);
  }

  lemma AtMostOne(s: State)
    requires InHand(s)
    ensures |InFlight(s)| <= 1
  {
    if Flushing(s.holder) { OnePiece(s.preroll); }
  }
}
