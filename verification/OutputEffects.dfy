/**
 What moves the speaking gate, and that it can always be passed: the complete causes of a session's beginning and
 end, of arming and disarming and of the lock's passing on, and a short way to the wire for any fresh chunk.
 */
module OutputEffects {
  import opened Wrappers
  import opened OutputGate
  import opened OutputGateSafety
  import opened OutputConservation

  // ----- the causes -----

  /** A wanted chunk of the authorized, current generation arrives between sessions. */
  predicate BeginsSession(s: State, e: Event, b: Backend) {
    && e.EAudioEnter? && s.holder.Free? && s.audio.Holding? && Authorized(b, s.audio.piece.from)
    && !s.speaking && Wanted(s, s.audio.piece, e.signal)
  }

  predicate EndsSession(s: State, e: Event) {
    e.EEnd? && s.holder.Free? && s.speaking && (e.epoch.Some? ==> e.epoch.value == s.epoch)
  }

  predicate Arms(s: State, e: Event, b: Backend) {
    e.EArm? && s.holder.Free? && Authorized(b, e.expected) && !s.speaking && !s.stop && !s.armed
  }

  /** The end of output, or the timeout of the current arm. */
  predicate Disarms(s: State, e: Event) {
    s.holder.Free? && (e.EEnd? || (e.EExpire? && e.arm == s.armGen && !s.speaking))
  }

  ghost predicate SessionMoves(s: State, e: Event, b: Backend, t: State) {
    && (t.speaking <==> BeginsSession(s, e, b) || (s.speaking && !EndsSession(s, e)))
    && t.epoch == (if BeginsSession(s, e, b) then s.epoch + 1 else s.epoch)
    && (t.armed <==> Arms(s, e, b) || (s.armed && !Disarms(s, e) && !BeginsSession(s, e, b)))
    && t.armGen == (if Arms(s, e, b) || (e.EEnd? && s.holder.Free?) then s.armGen + 1 else s.armGen)
    && (t.stop <==> s.stop || e.EStop?)
  }

  /** A send lets the lock go, unless the started frame is followed by the chunk that began the session. */
  ghost predicate HolderMoves(s: State, e: Event, b: Backend, t: State) {
    && (BeginsSession(s, e, b) ==> t.holder == SendingStarted(s.audio.piece.from, true))
    && (EndsSession(s, e) ==> t.holder == SendingStopped)
    && (!BeginsSession(s, e, b) && !EndsSession(s, e) && s.holder.Free? ==> t.holder.Free? || t.holder.SendingChunk?)
    && (!s.holder.Free? && !e.ESend? ==> t.holder == s.holder)
    && (!s.holder.Free? && e.ESend? ==>
          t.holder == if s.holder.SendingStarted? && !Spills(s, e, b) then SendingPreroll(s.holder.expected, true) else Free)
  }

  lemma EnterMoves(s: State, signal: bool, now: int, b: Backend)
    requires InHand(s) && s.holder.Free?
    ensures var e, t := EAudioEnter(signal, now), AudioEnter(s, signal, now, b); SessionMoves(s, e, b, t) && HolderMoves(s, e, b, t)
  {
    AudioEnterHolds(s, signal, now, b);
    hide InHand, Inv;
    if !s.audio.Holding? || s.speaking || !Authorized(b, s.audio.piece.from) { return; }
    var e := Entry(s.armGen, now, s.audio.piece);
    CappedSingle(e);
    assert [] + [e] == [e];
  }

  lemma ArmMoves(s: State, expected: Option<nat>, b: Backend)
    requires InHand(s) && s.holder.Free?
    ensures var e, t := EArm(expected), Arm(s, expected, b); SessionMoves(s, e, b, t) && HolderMoves(s, e, b, t)
  {
    assert s.preroll != [] ==> s.stop || s.speaking;
    hide InHand, Inv;
  }

  lemma StartedSendMoves(s: State, outcome: Outcome, now: int, b: Backend)
    requires InHand(s) && s.holder.SendingStarted?
    ensures var e, t := ESend(outcome, now), SendStarted(s, outcome, now, b); SessionMoves(s, e, b, t) && HolderMoves(s, e, b, t)
  {
    HolderIsAudio(s);
    hide InHand, Inv;
    StartedMoves(s, outcome, now, b);
  }

  lemma OtherSendMoves(s: State, outcome: Outcome, now: int, b: Backend)
    requires InHand(s) && !s.holder.SendingStarted?
    ensures var e, t := ESend(outcome, now), Send(s, outcome, now, b); SessionMoves(s, e, b, t) && HolderMoves(s, e, b, t)
  {
    hide InHand, Pieces;
    if s.holder.SendingPreroll? { return; }
    if s.holder.SendingChunk? { return; }
  }

  /** For each variable of the gate the complete list of what changes it. */
  lemma GateMoves(s: State, e: Event, b: Backend)
    requires InHand(s)
    ensures SessionMoves(s, e, b, Step(s, e, b)) && HolderMoves(s, e, b, Step(s, e, b))
  {
    hide InHand, Send, AudioEnter, Arm;
    if NeedsLock(e) && !s.holder.Free? { return; }
    match e
    case ESend(outcome, now) =>
      hide SessionMoves, HolderMoves, SendStarted;
      if s.holder.SendingStarted? { StartedSendMoves(s, outcome, now, b); SendIsStarted(s, outcome, now, b); }
      else { OtherSendMoves(s, outcome, now, b); }
    case EAudioEnter(signal, now) => EnterMoves(s, signal, now, b);
    case EArm(expected) => ArmMoves(s, expected, b);
    case _ =>
  }

  lemma SendIsStarted(s: State, outcome: Outcome, now: int, b: Backend)
    requires s.holder.SendingStarted?
    ensures Send(s, outcome, now, b) == SendStarted(s, outcome, now, b)
  {}

  // ----- the way to the wire -----

  function After(s: State, tail: seq<Moment>): State
    decreases |tail|
  {
    if tail == [] then s else After(Step(s, tail[0].event, tail[0].backend), tail[1..])
  }

  lemma AfterOne(s: State, m: Moment)
    ensures After(s, [m]) == Step(s, m.event, m.backend)
  {
    hide Step;
    assert After(Step(s, m.event, m.backend), []) == Step(s, m.event, m.backend);
  }

  lemma {:induction false} AfterBoth(s: State, tail: seq<Moment>, more: seq<Moment>)
    ensures After(s, tail + more) == After(After(s, tail), more)
    decreases |tail|
  {
    hide Step;
    if tail == [] {
      assert tail + more == more;
    } else {
      AfterBoth(Step(s, tail[0].event, tail[0].backend), tail[1..], more);
      assert (tail + more)[1..] == tail[1..] + more;
    }
  }

  lemma {:induction false} ReachedAfter(managed: bool, run: seq<Moment>, tail: seq<Moment>)
    ensures Reached(managed, run + tail) == After(Reached(managed, run), tail)
    decreases |tail|
  {
    hide Step;
    if tail == [] {
      assert run + tail == run;
    } else {
      ReachedMore(managed, run, tail[0]);
      ReachedAfter(managed, run + [tail[0]], tail[1..]);
      assert run + [tail[0]] + tail[1..] == run + tail;
    }
  }

  /** The audio task at work and its sends going through, with the backend as `b` throughout. */
  predicate Working(m: Moment, b: Backend) {
    && m.backend == b
    && (m.event.EAudioTest? || m.event.EAudioReceive? || m.event.EAudioEnter? || (m.event.ESend? && m.event.outcome.Delivered?))
  }

  ghost predicate AllWorking(tail: seq<Moment>, b: Backend) { forall m | m in tail :: Working(m, b) }

  /** The backend authorizes output; a session is under way or may begin; the audio task runs and nobody stopped it. */
  ghost predicate Open(s: State, b: Backend) {
    InHand(s) && (s.managed ==> b.outGen == Some(b.gen)) && (s.speaking || s.armed) && !s.stop && !s.audio.Gone?
  }

  lemma KeepsManaged(s: State, m: Moment)
    ensures Step(s, m.event, m.backend).managed == s.managed
  {
    StepWrites(s, m.event, m.backend);
  }

  lemma SendKeepsTask(s: State, now: int, b: Backend)
    ensures var t := Send(s, Delivered, now, b); !s.audio.Gone? ==> !t.audio.Gone?
  {
    if s.holder.SendingStarted? { return; }
    if s.holder.SendingPreroll? { return; }
  }

  lemma EnterKeepsTask(s: State, signal: bool, now: int, b: Backend)
    ensures var t := AudioEnter(s, signal, now, b); !s.audio.Gone? ==> !t.audio.Gone?
  {
    if !s.audio.Holding? || !Authorized(b, s.audio.piece.from) || s.speaking { return; }
  }

  lemma WorkKeepsTask(s: State, m: Moment, b: Backend)
    requires Working(m, b) && !s.stop && !s.audio.Gone?
    ensures !Step(s, m.event, b).audio.Gone?
  {
    hide Send, AudioEnter;
    if NeedsLock(m.event) && !s.holder.Free? { return; }
    match m.event
    case ESend(_, now) => SendKeepsTask(s, now, b);
    case EAudioEnter(signal, now) => EnterKeepsTask(s, signal, now, b);
    case _ =>
  }

  lemma StaysOpen(s: State, m: Moment, b: Backend)
    requires Open(s, b) && Working(m, b)
    ensures Open(Step(s, m.event, b), b)
  {
    hide Step, InHand;
    GateMoves(s, m.event, b);
    StepBalances(s, m.event, b);
    WorkKeepsTask(s, m, b);
    KeepsManaged(s, m);
  }

  lemma Sending(now: int, b: Backend)
    ensures Working(Moment(ESend(Delivered, now), b), b)
  {}

  lemma OpenIsInHand(s: State, b: Backend) requires Open(s, b) ensures InHand(s) {}

  /** One more send of the chunk in hand, and the audio task is back at its loop test. */
  lemma ReturnsToLoop(s: State, now: int, b: Backend)
    requires Open(s, b) && s.audio.Locked? && Step(s, ESend(Delivered, now), b).holder.Free?
    ensures Step(s, ESend(Delivered, now), b).audio.LoopTest?
  {
    HolderIsAudio(s);
    hide InHand, Inv, Pieces;
    if s.holder.SendingStarted? { return; }
    if s.holder.SendingPreroll? { return; }
  }

  lemma FirstSendStays(s: State, now: int, b: Backend)
    requires Open(s, b) && s.audio.Locked? && !Step(s, ESend(Delivered, now), b).holder.Free?
    ensures Step(s, ESend(Delivered, now), b).audio.Locked?
  {
    var t := Step(s, ESend(Delivered, now), b);
    StaysOpen(s, Moment(ESend(Delivered, now), b), b);
    GateMoves(s, ESend(Delivered, now), b);
    hide Step;
    HolderIsAudio(t);
  }

  /** The sends of an entered chunk bring the audio task back to its loop test. */
  lemma Drained(s: State, now: int, b: Backend) returns (tail: seq<Moment>)
    requires Open(s, b)
    ensures |tail| <= 2 && AllWorking(tail, b)
    ensures var t := After(s, tail); Open(t, b) && t.holder.Free?
    ensures (s.audio.Locked? || (s.holder.Free? && s.audio.LoopTest?)) ==> After(s, tail).audio.LoopTest?
  {
    hide Step, Open;
    var m := Moment(ESend(Delivered, now), b);
    tail := [];
    if s.holder.Free? { FreeIsNotLocked(s, b); return; }
    var t := Step(s, m.event, b);
    OpenIsInHand(s, b);
    GateMoves(s, m.event, b);
    StaysOpen(s, m, b);
    AfterOne(s, m);
    tail := [m];
    if t.holder.Free? { if s.audio.Locked? { ReturnsToLoop(s, now, b); } return; }
    if s.audio.Locked? { FirstSendStays(s, now, b); }
    OpenIsInHand(t, b);
    GateMoves(t, m.event, b);
    StaysOpen(t, m, b);
    if s.audio.Locked? { ReturnsToLoop(t, now, b); }
    AfterOne(t, m);
    AfterBoth(s, [m], [m]);
    tail := [m] + [m];
  }

  /** The audio task is brought, with the lock free, to where it can receive. */
  lemma TaskListens(s: State, now: int, b: Backend) returns (tail: seq<Moment>)
    requires Open(s, b)
    ensures |tail| <= 6 && AllWorking(tail, b)
    ensures var t := After(s, tail); Open(t, b) && t.holder.Free? && t.audio.Receiving?
  {
    hide Step, Open;
    tail := Drained(s, now, b);
    var t := After(s, tail);
    if t.audio.Receiving? { return; }
    if t.audio.Holding? {
      var e := Moment(EAudioEnter(true, now), b);
      StaysOpen(t, e, b);
      AfterOne(t, e);
      var u := Step(t, e.event, b);
      var more := Drained(u, now, b);
      AfterBoth(t, [e], more);
      var test := Moment(EAudioTest, b);
      var v := After(u, more);
      AfterOne(v, test);
      EnteredIsNotHeld(t, now, b);
      TestListens(v, b);
      StaysOpen(v, test, b);
      AfterBoth(t, [e] + more, [test]);
      AfterBoth(s, tail, [e] + more + [test]);
      tail := tail + ([e] + more + [test]);
    } else {
      var test := Moment(EAudioTest, b);
      FreeIsNotLocked(t, b);
      TestListens(t, b);
      StaysOpen(t, test, b);
      AfterOne(t, test);
      AfterBoth(s, tail, [test]);
      tail := tail + [test];
    }
  }

  lemma FreeIsNotLocked(s: State, b: Backend)
    requires Open(s, b) && s.holder.Free?
    ensures !s.audio.Locked? && !s.audio.Gone?
  {}

  lemma TestListens(s: State, b: Backend)
    requires Open(s, b) && s.audio.LoopTest?
    ensures var t := Step(s, EAudioTest, b); t.audio.Receiving? && t.holder == s.holder
  {}

  /** What the audio task had in hand, once it entered the gate, is with the lock or done with. */
  lemma EnteredIsNotHeld(s: State, now: int, b: Backend)
    requires Open(s, b) && s.holder.Free? && s.audio.Holding?
    ensures var t := Step(s, EAudioEnter(true, now), b); if t.holder.Free? then t.audio.LoopTest? else t.audio.Locked?
  {
    AudioEnterHolds(s, true, now, b);
    hide InHand, Inv;
    if s.speaking || !Authorized(b, s.audio.piece.from) { return; }
    var e := Entry(s.armGen, now, s.audio.piece);
    CappedSingle(e);
    assert [] + [e] == [e];
  }

  lemma Receives(s: State, chunk: Chunk, b: Backend)
    requires Open(s, b) && s.audio.Receiving?
    ensures var t := Step(s, EAudioReceive(chunk), b);
      t.holder == s.holder && t.audio == Holding(Piece(chunk, if s.managed then Some(b.gen) else None))
  {}

  /** The chunk enters the gate: into a session, or as the beginning of one. */
  lemma Enters(s: State, now: int, b: Backend)
    requires Open(s, b) && s.holder.Free? && s.audio.Holding? && Authorized(b, s.audio.piece.from)
    requires |s.audio.piece.chunk| <= PREROLL_MAX_BYTES
    ensures var t, piece := Step(s, EAudioEnter(true, now), b), s.audio.piece;
      || t.holder == SendingChunk(piece)
      || (t.holder == SendingStarted(piece.from, true) && t.preroll == [Entry(s.armGen, now, piece)])
  {
    AudioEnterHolds(s, true, now, b);
    hide InHand, Inv;
    if s.speaking { return; }
    var e := Entry(s.armGen, now, s.audio.piece);
    CappedSingle(e);
    assert [] + [e] == [e];
  }

  predicate EndsWith(trace: seq<Out>, o: Out) { trace != [] && trace[|trace| - 1] == o }

  lemma ChunkIsWritten(s: State, now: int, b: Backend)
    requires s.holder.SendingChunk? && Authorized(b, s.holder.piece.from)
    ensures EndsWith(Step(s, ESend(Delivered, now), b).trace, Binary(s.holder.piece.from, [s.holder.piece]))
  {}

  lemma SessionIsWritten(s: State, now: int, piece: Piece, b: Backend)
    requires Open(s, b) && s.holder == SendingStarted(piece.from, true) && Authorized(b, piece.from)
    requires |s.preroll| == 1 && s.preroll[0].piece == piece && s.preroll[0].at == now
    ensures var t := Step(s, ESend(Delivered, now), b);
      EndsWith(Step(t, ESend(Delivered, now), b).trace, Binary(piece.from, [piece]))
  {
    HolderIsAudio(s);
    hide InHand, Inv;
    var t := Step(s, ESend(Delivered, now), b);
    StartedMoves(s, Delivered, now, b);
    OnePiece(s.preroll);
    PrerollMoves(t, Delivered, b);
  }

  /** From where the audio task listens, a fresh chunk that fits is written after four more events at most. */
  lemma HeardFromHere(s: State, chunk: Chunk, now: int, b: Backend) returns (tail: seq<Moment>)
    requires Open(s, b) && s.holder.Free? && s.audio.Receiving? && |chunk| <= PREROLL_MAX_BYTES
    ensures |tail| <= 4 && AllWorking(tail, b)
    ensures var piece := Piece(chunk, if s.managed then Some(b.gen) else None);
      EndsWith(After(s, tail).trace, Binary(piece.from, [piece]))
  {
    var piece := Piece(chunk, if s.managed then Some(b.gen) else None);
    AuthorizedNow(s, b);
    var receive, enter, send := Moment(EAudioReceive(chunk), b), Moment(EAudioEnter(true, now), b), Moment(ESend(Delivered, now), b);
    hide Step, Open, EndsWith;
    var t := Step(s, receive.event, b);
    Receives(s, chunk, b);
    StaysOpen(s, receive, b);
    var u := Step(t, enter.event, b);
    Enters(t, now, b);
    StaysOpen(t, enter, b);
    AfterOne(s, receive);
    AfterOne(t, enter);
    AfterOne(u, send);
    AfterBoth(s, [receive], [enter]);
    AfterBoth(s, [receive] + [enter], [send]);
    if u.holder.SendingChunk? {
      ChunkIsWritten(u, now, b);
      tail := [receive] + [enter] + [send];
    } else {
      SessionIsWritten(u, now, piece, b);
      AfterOne(Step(u, send.event, b), send);
      AfterBoth(s, [receive] + [enter] + [send], [send]);
      tail := [receive] + [enter] + [send] + [send];
    }
  }

  lemma AuthorizedNow(s: State, b: Backend)
    requires Open(s, b)
    ensures Authorized(b, if s.managed then Some(b.gen) else None)
  {}

  /**
   The gate can be passed. Whenever output is authorized, armed or under way, and neither the audio task nor the
   socket has ended, at most ten events of the audio task and its sends, none of them failing, put a fresh chunk of
   at most 9,600 bytes on the wire as the last binary frame.
   */
  lemma AudioGetsThrough(managed: bool, run: seq<Moment>, chunk: Chunk, now: int, b: Backend)
    requires managed ==> b.outGen == Some(b.gen)
    requires var s := Reached(managed, run); (s.speaking || s.armed) && !s.stop && !s.audio.Gone?
    requires |chunk| <= PREROLL_MAX_BYTES
    ensures var piece := Piece(chunk, if managed then Some(b.gen) else None);
      exists tail :: (|tail| <= 10 && AllWorking(tail, b)
                      && EndsWith(Reached(managed, run + tail).trace, Binary(piece.from, [piece])))
  {
    var s := Reached(managed, run);
    hide Step, Reached, Survivors, EndsWith, AllWorking, InHand;
    KeptAudioIsAccountedFor(managed, run);
    ReachedKeeps(managed, run);
    var tail := TaskListens(s, now, b);
    var more := HeardFromHere(After(s, tail), chunk, now, b);
    AfterKeepsManaged(s, tail);
    AfterBoth(s, tail, more);
    BothWorking(tail, more, b);
    ReachedAfter(managed, run, tail + more);
  }

  lemma {:induction false} AfterKeepsManaged(s: State, tail: seq<Moment>)
    ensures After(s, tail).managed == s.managed
    decreases |tail|
  {
    hide Step;
    if tail != [] {
      KeepsManaged(s, tail[0]);
      AfterKeepsManaged(Step(s, tail[0].event, tail[0].backend), tail[1..]);
    }
  }

  lemma BothWorking(tail: seq<Moment>, more: seq<Moment>, b: Backend)
    requires AllWorking(tail, b) && AllWorking(more, b)
    ensures AllWorking(tail + more, b)
  {}
}
