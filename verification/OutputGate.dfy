/**
 The speaking gate of the v2 device wire: the arm, the epoch, the pre-roll quarantine and the frames
 the device sees.

 Every await-free stretch is one step. A coroutine that holds `output_state_lock` across a device
 send is a value of `Holder`; everything else under that lock is atomic. The backend generations are
 an environment (`Backend`): any step may see any value, so what is proved here holds whatever the
 rest of the socket does.
 */
module OutputGate {
  import opened Wrappers
  import opened Pcm

  const PREROLL_MAX_BYTES := 9_600
  const PREROLL_TTL := 500  // milliseconds

  type Chunk = seq<Byte>

  /** The two generation variables of the socket, as one step sees them. */
  datatype Backend = Backend(gen: nat, outGen: Option<nat>)

  /** A chunk of provider audio and the generation it was received under (none in unmanaged mode). */
  datatype Piece = Piece(chunk: Chunk, from: Option<nat>)

  datatype Entry = Entry(arm: nat, at: int, piece: Piece)

  /** A frame written to the device wire. `guard` is the generation checked as it was written. */
  datatype Out = Started(epoch: nat) | Binary(guard: Option<nat>, pieces: seq<Piece>) | Stopped(epoch: nat)

  /** The coroutine suspended in a device send while it holds the output lock. */
  datatype Holder =
    | Free
    | SendingStarted(expected: Option<nat>, inAudio: bool)
    | SendingPreroll(expected: Option<nat>, inAudio: bool)
    | SendingChunk(piece: Piece)
    | SendingStopped

  /** The audio task: at its loop test, receiving, holding a chunk outside the lock, inside it, gone. */
  datatype Audio = LoopTest | Receiving | Holding(piece: Piece) | Locked | Gone

  /** What happens to a frame that is being sent. `Lost` and `Raised` end the sending task. */
  datatype Outcome = Delivered | Raised | Lost

  datatype State = State(
    managed: bool,
    epoch: nat,
    speaking: bool,
    armed: bool,
    armGen: nat,
    preroll: seq<Entry>,
    prerollBytes: int,
    stop: bool,
    holder: Holder,
    audio: Audio,
    trace: seq<Out>,           // history: the frames written, in order
    lostAt: Option<nat>)       // history: the length of the trace at the first lost started/stopped frame

  function Init(managed: bool): State {
    State(managed, 0, false, false, 0, [], 0, false, Free, LoopTest, [], None)
  }

  /** The send guard: the generation expected is authorized and current. */
  predicate Authorized(b: Backend, expected: Option<nat>) {
    expected.None? || (b.outGen == expected && b.gen == expected.value)
  }

  function Total(entries: seq<Entry>): nat {
    if entries == [] then 0 else |entries[0].piece.chunk| + Total(entries[1..])
  }

  function Pieces(entries: seq<Entry>): seq<Piece> {
    if entries == [] then [] else [entries[0].piece] + Pieces(entries[1..])
  }

  // ----- the pieces of a step -----

  /** `prune_output_preroll_locked`: drops from the head only. */
  function Pruned(entries: seq<Entry>, arm: nat, cutoff: int): seq<Entry> {
    if entries != [] && (entries[0].arm != arm || entries[0].at < cutoff) then Pruned(entries[1..], arm, cutoff)
    else entries
  }

  function Capped(entries: seq<Entry>): seq<Entry> {
    if Total(entries) > PREROLL_MAX_BYTES then Capped(entries[1..]) else entries
  }

  function WithPreroll(s: State, entries: seq<Entry>): State {
    s.(preroll := entries, prerollBytes := Total(entries))
  }

  function Prune(s: State, now: int): State { WithPreroll(s, Pruned(s.preroll, s.armGen, now - PREROLL_TTL)) }

  /** `begin_output_locked`, up to the send of the started frame. */
  function Begin(s: State, expected: Option<nat>, inAudio: bool): State {
    if s.speaking || s.stop then Return(s, inAudio)
    else s.(armed := false, epoch := s.epoch + 1, speaking := true, holder := SendingStarted(expected, inAudio))
  }

  /** The coroutine releases the lock; the audio task goes back to its loop test. */
  function Return(s: State, inAudio: bool): State {
    s.(holder := Free, audio := if inAudio then LoopTest else s.audio)
  }

  function Raise(s: State, inAudio: bool): State {
    s.(holder := Free, audio := if inAudio then Gone else s.audio)
  }

  function Quarantine(s: State, piece: Piece, signal: bool, now: int): State {
    if !s.armed || !signal then s
    else
      var s1 := Prune(s, now);
      WithPreroll(s1, Capped(s1.preroll + [Entry(s.armGen, now, piece)]))
  }

  function Write(s: State, o: Out): State { s.(trace := s.trace + [o]) }

  function Lose(s: State): State { if s.lostAt.None? then s.(lostAt := Some(|s.trace|)) else s }

  // ----- the steps -----

  function Arm(s: State, expected: Option<nat>, b: Backend): State {
    if !Authorized(b, expected) || s.speaking || s.stop || s.armed then s
    else
      var s1 := s.(armed := true, armGen := s.armGen + 1);
      if s1.preroll != [] then Begin(s1, expected, false) else s1
  }

  /** The arm timeout; `arm` is the generation it was started for. */
  function Expire(s: State, arm: nat): State {
    if s.armGen != arm || s.speaking then s else WithPreroll(s.(armed := false), [])
  }

  /** The last locked region of `end_output`. `expected` is the epoch its tail wait was for. */
  function End(s: State, expected: Option<nat>): State {
    var s1 := WithPreroll(s.(armed := false, armGen := s.armGen + 1), []);
    if !s.speaking || (expected.Some? && s.epoch != expected.value) then s1
    else s1.(speaking := false, holder := SendingStopped)
  }

  function AudioTest(s: State): State {
    if !s.audio.LoopTest? then s else s.(audio := if s.stop then Gone else Receiving)
  }

  function AudioReceive(s: State, chunk: Chunk, b: Backend): State {
    if !s.audio.Receiving? then s
    else if s.managed && (b.outGen.None? || b.outGen.value != b.gen) then s.(audio := LoopTest)
    else s.(audio := Holding(Piece(chunk, if s.managed then b.outGen else None)))
  }

  function AudioEnter(s: State, signal: bool, now: int, b: Backend): State {
    if !s.audio.Holding? then s
    else
      var piece := s.audio.piece;
      if !Authorized(b, piece.from) then s.(audio := LoopTest)
      else if s.speaking then s.(audio := Locked, holder := SendingChunk(piece))
      else
        var s1 := Quarantine(s.(audio := Locked), piece, signal, now);
        if s1.armed && s1.preroll != [] then Begin(s1, piece.from, true) else Return(s1, true)
  }

  /** The started frame was sent: flush the quarantine unless the generation went stale meanwhile. */
  function AfterStarted(s: State, expected: Option<nat>, inAudio: bool, now: int, b: Backend): State {
    if !Authorized(b, expected) then Return(WithPreroll(s, []), inAudio)
    else
      var s1 := Prune(s, now);
      if s1.preroll == [] then Return(s1, inAudio) else s1.(holder := SendingPreroll(expected, inAudio))
  }

  /** The guard, evaluated under the send lock in the same stretch as the write. */
  function WriteGuarded(s: State, expected: Option<nat>, pieces: seq<Piece>, b: Backend): State {
    if Authorized(b, expected) then Write(s, Binary(expected, pieces)) else s
  }

  function SendStarted(s: State, outcome: Outcome, now: int, b: Backend): State
    requires s.holder.SendingStarted?
  {
    var h := s.holder;
    match outcome
    case Delivered => AfterStarted(Write(s, Started(s.epoch)), h.expected, h.inAudio, now, b)
    case Raised => Raise(Write(s, Started(s.epoch)), h.inAudio)
    case Lost => Raise(Lose(s), h.inAudio)
  }

  function SendPreroll(s: State, outcome: Outcome, b: Backend): State
    requires s.holder.SendingPreroll?
  {
    var h := s.holder;
    match outcome
    case Delivered => Return(WithPreroll(WriteGuarded(s, h.expected, Pieces(s.preroll), b), []), h.inAudio)
    case Raised => Raise(WriteGuarded(s, h.expected, Pieces(s.preroll), b), h.inAudio)
    case Lost => Raise(s, h.inAudio)
  }

  function SendChunk(s: State, outcome: Outcome, b: Backend): State
    requires s.holder.SendingChunk?
  {
    var piece := s.holder.piece;
    match outcome
    case Delivered => Return(WriteGuarded(s, piece.from, [piece], b), true)
    case Raised => Raise(WriteGuarded(s, piece.from, [piece], b), true)
    case Lost => Raise(s, true)
  }

  function SendStopped(s: State, outcome: Outcome): State
    requires s.holder.SendingStopped?
  {
    Return(if outcome.Lost? then Lose(s) else Write(s, Stopped(s.epoch)), false)
  }

  function Send(s: State, outcome: Outcome, now: int, b: Backend): State {
    match s.holder
    case Free => s
    case SendingStarted(_, _) => SendStarted(s, outcome, now, b)
    case SendingPreroll(_, _) => SendPreroll(s, outcome, b)
    case SendingChunk(_) => SendChunk(s, outcome, b)
    case SendingStopped => SendStopped(s, outcome)
  }

  datatype Event =
    | EArm(expected: Option<nat>)
    | EExpire(arm: nat)
    | EEnd(epoch: Option<nat>)
    | EStop
    | EAudioTest
    | EAudioReceive(chunk: Chunk)
    | EAudioEnter(signal: bool, now: int)
    | EAudioGone
    | ESend(outcome: Outcome, now: int)

  predicate NeedsLock(e: Event) { e.EArm? || e.EExpire? || e.EEnd? || e.EAudioEnter? }

  function Step(s: State, e: Event, b: Backend): State {
    if NeedsLock(e) && !s.holder.Free? then s
    else
      match e
      case EArm(expected) => Arm(s, expected, b)
      case EExpire(arm) => Expire(s, arm)
      case EEnd(epoch) => End(s, epoch)
      case EStop => s.(stop := true)
      case EAudioTest => AudioTest(s)
      case EAudioReceive(chunk) => AudioReceive(s, chunk, b)
      case EAudioEnter(signal, now) => AudioEnter(s, signal, now, b)
      case EAudioGone => if s.audio.Locked? then s else s.(audio := Gone)
      case ESend(outcome, now) => Send(s, outcome, now, b)
  }

  datatype Moment = Moment(event: Event, backend: Backend)

  function Reached(managed: bool, run: seq<Moment>): State {
    if run == [] then Init(managed)
    else Step(Reached(managed, run[..|run| - 1]), run[|run| - 1].event, run[|run| - 1].backend)
  }

  // ----- the device's view -----

  /** The device between two sessions of speech, or inside one, or given a frame out of place. */
  datatype Phase = Silent(last: nat) | Speaking(epoch: nat) | Broken

  function Hear(p: Phase, o: Out): Phase {
    if p.Silent? && o == Started(p.last + 1) then Speaking(p.last + 1)
    else if p.Speaking? && o.Binary? then p
    else if p.Speaking? && o == Stopped(p.epoch) then Silent(p.epoch)
    else Broken
  }

  function Heard(trace: seq<Out>): Phase {
    if trace == [] then Silent(0) else Hear(Heard(trace[..|trace| - 1]), trace[|trace| - 1])
  }

  /** A prefix of (started e, binary*, stopped e)* with e = 1, 2, 3, ... */
  predicate WellFormed(trace: seq<Out>) { !Heard(trace).Broken? }

  lemma HeardExtends(trace: seq<Out>, o: Out)
    ensures Heard(trace + [o]) == Hear(Heard(trace), o)
  {
    assert (trace + [o])[..|trace|] == trace;
  }

  // ----- the pre-roll -----

  ghost predicate Ordered(entries: seq<Entry>, arm: nat) {
    && (forall i :: 0 <= i < |entries| ==> entries[i].arm <= arm)
    && (forall i, j :: 0 <= i < j < |entries| ==> entries[i].arm <= entries[j].arm && entries[i].at <= entries[j].at)
  }

  /** Dropping from the head is enough: because entries are ordered, everything that stays is current. */
  lemma {:induction false} PruneKeepsExactlyTheCurrent(entries: seq<Entry>, arm: nat, cutoff: int)
    requires Ordered(entries, arm)
    ensures var kept := Pruned(entries, arm, cutoff);
      && |kept| <= |entries| && kept == entries[|entries| - |kept|..]
      && (forall e | e in kept :: e.arm == arm && e.at >= cutoff)
      && (forall e | e in entries[..|entries| - |kept|] :: e.arm != arm || e.at < cutoff)
  {
    if entries != [] && (entries[0].arm != arm || entries[0].at < cutoff) {
      PruneKeepsExactlyTheCurrent(entries[1..], arm, cutoff);
      var n := |entries| - |Pruned(entries, arm, cutoff)|;
      assert entries[..n] == [entries[0]] + entries[1..][..n - 1];
    } else {
      assert entries[0..] == entries;
    }
  }

  /** Capping keeps a suffix of at most 9,600 bytes, and no longer suffix would fit. */
  lemma {:induction false} CappedIsLongestFittingSuffix(entries: seq<Entry>)
    ensures var kept := Capped(entries);
      && |kept| <= |entries| && kept == entries[|entries| - |kept|..]
      && Total(kept) <= PREROLL_MAX_BYTES
      && forall n :: 0 <= n < |entries| - |kept| ==> Total(entries[n..]) > PREROLL_MAX_BYTES
  {
    assert entries[0..] == entries;
    if Total(entries) > PREROLL_MAX_BYTES {
      CappedIsLongestFittingSuffix(entries[1..]);
      var n := |entries| - |Capped(entries)|;
      forall m | 0 <= m < n ensures Total(entries[m..]) > PREROLL_MAX_BYTES {
        if m > 0 { assert entries[m..] == entries[1..][m - 1..]; }
      }
    }
  }
}
