/**
 The device's direct-session owner and its fallback to Home Assistant (`_start_realtime_wakeup`,
 `_realtime_handle_audio`, `_fallback_realtime_to_ha`, `_detach_realtime_owner`, `_realtime_stop`).

 Every step runs under the re-entrant lock. A stop may be requested inside any vendor call: the code
 polls for it, and `stopAt` is the first poll that sees it (a request is never taken back before the
 fallback is over). Session readiness is monotone, and a session that failed before it was ready
 never becomes ready.
 */
module DeviceWake {
  import opened Wrappers
  import opened Pcm
  import opened DevicePreroll

  datatype Owner = Owner(readySeen: bool, stopping: bool, stored: seq<Frame>, storedBytes: nat)

  /** Nobody streams, a direct session owns the microphone, or Home Assistant's pipeline does. */
  datatype Mode = Idle | Direct(owner: Owner) | Home

  datatype Submit = Accepted | Refused | Raised

  /** The session as one frame finds it. */
  datatype Session = Session(failedBeforeReady: bool, terminal: bool, ready: bool, submit: Submit)

  datatype Start = NotConstructed | Stopped | Interrupted | Failed | Running

  /**
   What happens during one handover: the first poll that sees a stop, whether the vendor's wake takes (a
   wake that raises is rolled back), and the frame whose handler raises, if one does.
   */
  datatype Handover = Handover(stopAt: Option<nat>, armed: bool, raisesAt: Option<nat>)

  datatype State = State(
    fallbackCapacity: nat,
    inputCapacity: nat,
    mode: Mode,
    preroll: seq<Frame>,
    vendor: seq<Frame>,       // history: frames handed to the vendor's audio handler
    mark: nat,                // history: how many of them before the latest wake
    admitted: seq<Frame>,     // history: the pre-roll of the latest wake
    since: seq<Frame>,        // history: frames since the latest wake
    cut: nat,                 // history: frames given in the latest handover, ...
    missed: nat,              // history: ... and how many of its frames were not
    recorded: seq<Byte>)      // history: idle audio since the pre-roll was last emptied

  function Init(fallbackCapacity: nat, inputCapacity: nat): State {
    State(fallbackCapacity, inputCapacity, Idle, [], [], 0, [], [], 0, 0, [])
  }

  function Discard(s: State): State { s.(preroll := [], recorded := []) }

  function Detach(s: State): State { Discard(s).(mode := Idle) }

  predicate StopSeen(stopAt: Option<nat>, poll: nat) { stopAt.Some? && poll >= stopAt.value }

  /** The frames handed over, from number `i` on, before a poll sees the stop or a handler raises. */
  function HandedOver(frames: seq<Frame>, h: Handover, i: nat): (given: seq<Frame>)
    ensures given <= frames
  {
    if frames == [] || StopSeen(h.stopAt, 4 + i) then []
    else [frames[0]] + if h.raisesAt == Some(i) then [] else HandedOver(frames[1..], h, i + 1)
  }

  /** Home Assistant owns the pipeline with what it was handed of `frames`. */
  function GiveHome(s: State, given: seq<Frame>, frames: seq<Frame>): State
    requires given <= frames
  {
    s.(vendor := s.vendor + given, mode := Home, cut := |given|, missed := |frames| - |given|)
  }

  lemma {:induction false} AllHandedOver(frames: seq<Frame>, h: Handover, i: nat)
    requires h.stopAt.None? && h.raisesAt.None?
    ensures HandedOver(frames, h, i) == frames
  {
    if frames != [] {
      AllHandedOver(frames[1..], h, i + 1);
      assert frames == [frames[0]] + frames[1..];
    }
  }

  /**
   `_fallback_realtime_to_ha`. Its polls: on entry, after stopping the session, before and after the
   vendor's wake, before every frame, and at the end.
   */
  function Fallback(s: State, o: Owner, frames: seq<Frame>, h: Handover): State {
    if StopSeen(h.stopAt, 0) then s.(mode := Direct(o.(stopping := true)))
    else if StopSeen(h.stopAt, 3) || !h.armed then Detach(s)
    else
      var given := HandedOver(frames, h, 0);
      if StopSeen(h.stopAt, 4 + |given|) then Detach(s).(vendor := s.vendor + given)
      else GiveHome(Discard(s), given, frames)
  }

  function Wake(s: State, start: Start, h: Handover): State {
    if !s.mode.Idle? then s
    else
      var admitted := Admitted(s.preroll, s.fallbackCapacity, s.inputCapacity);
      var s1 := Discard(s).(mark := |s.vendor|, admitted := admitted, since := [], cut := 0, missed := 0);
      var o := Owner(false, false, admitted, Size(admitted));
      match start
      case NotConstructed =>
        var unpolled := h.(stopAt := None);
        if h.armed then GiveHome(s1, HandedOver(admitted, unpolled, 0), admitted) else s1
      case Stopped => s1
      case Interrupted => s1
      case Failed => Fallback(s1, o, admitted, h)
      case Running => s1.(mode := Direct(o))
  }

  /** A session that was seen ready stays ready. */
  predicate Plausible(o: Owner, session: Session) {
    o.readySeen ==> session.ready && !session.failedBeforeReady
  }

  /** The owner with the frame stored for a fallback, or with everything dropped once ready. */
  function Stored(o: Owner, chunk: Frame, ready: bool): Owner {
    if !ready then o.(stored := o.stored + [chunk], storedBytes := o.storedBytes + |chunk|)
    else if o.readySeen then o
    else o.(readySeen := true, stored := [], storedBytes := 0)
  }

  /** The frame a fallback is called with is handed over last, if it is not empty. */
  function Trailing(chunk: Frame): seq<Frame> { if chunk == [] then [] else [chunk] }

  function DirectFrame(s: State, chunk: Frame, session: Session, muted: bool, stopsNow: bool, h: Handover): State
    requires s.mode.Direct?
  {
    var o := s.mode.owner;
    var s1 := s.(since := s.since + [chunk]);
    if o.stopping then s1
    else if muted then Detach(s1)
    else if session.failedBeforeReady then
      Fallback(s.(since := s.since + Trailing(chunk)), o, o.stored + Trailing(chunk), h)
    else if session.terminal then Detach(s1)
    else if !session.ready && o.storedBytes + |chunk| > s.fallbackCapacity then
      Fallback(s.(since := s.since + Trailing(chunk)), o, o.stored + Trailing(chunk), h)
    else Submitted(s1, Stored(o, chunk, session.ready), session.submit, stopsNow, h)
  }

  /** What follows from submitting the frame to the session. */
  function Submitted(s: State, o: Owner, submit: Submit, stopsNow: bool, h: Handover): State {
    if stopsNow then (if submit.Raised? then Detach(s) else s.(mode := Direct(o.(stopping := true))))
    else if submit.Accepted? then s.(mode := Direct(o))
    else if !o.readySeen then Fallback(s, o, o.stored, h)
    else Detach(s)
  }

  /** A frame with no direct owner: the vendor's handler gets it, and idle audio is remembered. */
  function OtherFrame(s: State, chunk: Frame, eligible: bool): State {
    var s1 := s.(vendor := s.vendor + [chunk], since := s.since + [chunk]);
    if s.mode.Idle? && eligible then s1.(preroll := Remember(s.preroll, chunk), recorded := s.recorded + chunk)
    else Discard(s1)
  }

  /** A normal wake reclaims the microphone for Home Assistant, from a direct session too. */
  function NormalWake(s: State, armed: bool): State {
    if s.mode.Home? then Discard(s)
    else Detach(s).(mode := if armed then Home else Idle, mark := |s.vendor|, admitted := [], since := [],
                    cut := 0, missed := 0)
  }

  datatype Event =
    | ENormalWake(armed: bool)
    | EWake(start: Start, handover: Handover)
    | EFrame(chunk: Frame, session: Session, muted: bool, stopsNow: bool, handover: Handover)
    | ERequestStop
    | EStop
    | EPipelineEnds

  function Step(s: State, e: Event): State {
    match e
    case ENormalWake(armed) => NormalWake(s, armed)
    case EWake(start, handover) => Wake(s, start, handover)
    case EFrame(chunk, session, muted, stopsNow, handover) =>
      if !s.mode.Direct? then OtherFrame(s, chunk, !muted)
      else if !Plausible(s.mode.owner, session) then s
      else DirectFrame(s, chunk, session, muted, stopsNow, handover)
    case ERequestStop => if s.mode.Direct? then s.(mode := Direct(s.mode.owner.(stopping := true))) else s
    case EStop => Detach(s)
    case EPipelineEnds => if s.mode.Home? then s.(mode := Idle) else s
  }

  function Reached(fallbackCapacity: nat, inputCapacity: nat, run: seq<Event>): State {
    if run == [] then Init(fallbackCapacity, inputCapacity)
    else Step(Reached(fallbackCapacity, inputCapacity, run[..|run| - 1]), run[|run| - 1])
  }

  // ----- the invariant -----

  ghost predicate Remembered(s: State) {
    IsSuffix(Audio(s.preroll), s.recorded) && Size(s.preroll) <= PREROLL_MAX_BYTES
  }

  /** Everything since the wake except for one gap of `missed` frames. */
  predicate HeardBut(s: State) {
    var all := s.admitted + s.since;
    s.cut + s.missed <= |all| && s.mark <= |s.vendor| && s.vendor[s.mark..] == all[..s.cut] + all[s.cut + s.missed..]
  }

  /** Until it is seen ready, a direct session has stored its pre-roll and every frame since the wake. */
  ghost predicate Held(s: State) {
    && s.mark <= |s.vendor|
    && (s.mode.Direct? ==>
          && |s.vendor| == s.mark
          && s.mode.owner.storedBytes == Size(s.mode.owner.stored) <= s.fallbackCapacity
          && (s.mode.owner.readySeen ==> s.mode.owner.stored == [])
          && (!s.mode.owner.readySeen && !s.mode.owner.stopping ==> s.mode.owner.stored == s.admitted + s.since))
    && (s.mode.Home? ==> HeardBut(s))
  }

  ghost predicate Inv(s: State) { Remembered(s) && Held(s) }

  lemma GiveHomeKeeps(s: State, given: seq<Frame>, frames: seq<Frame>)
    requires |s.vendor| == s.mark && frames == s.admitted + s.since && given <= frames && Remembered(s)
    ensures Inv(GiveHome(s, given, frames))
  {
    hide Remembered;
    assert (s.vendor + given)[s.mark..] == given;
    assert frames[..|given|] + frames[|frames|..] == given;
    RememberedIgnoresMode(s, GiveHome(s, given, frames));
  }

  lemma RememberedIgnoresMode(s: State, t: State)
    requires Remembered(s) && t.preroll == s.preroll && t.recorded == s.recorded
    ensures Remembered(t)
  {}

  lemma FallbackKeeps(s: State, o: Owner, frames: seq<Frame>, h: Handover)
    requires |s.vendor| == s.mark && frames == s.admitted + s.since && Inv(s.(mode := Direct(o.(stopping := true))))
    ensures Inv(Fallback(s, o, frames, h))
  {
    hide Audio, HeardBut, IsSuffix;
    RememberedIgnoresMode(s.(mode := Direct(o.(stopping := true))), s);
    DetachKeeps(s);
    NothingRemembered(s);
    GiveHomeKeeps(Discard(s), HandedOver(frames, h, 0), frames);
  }

  lemma NothingRemembered(s: State) ensures Remembered(Discard(s)) {}

  /** What Home Assistant gets of a fallback is a prefix of the frames; all of them if nothing goes wrong. */
  lemma FallbackHandsPrefix(s: State, o: Owner, frames: seq<Frame>, h: Handover)
    ensures s.vendor <= Fallback(s, o, frames, h).vendor <= s.vendor + frames
    ensures h.stopAt.None? && h.armed && h.raisesAt.None? ==>
      var t := Fallback(s, o, frames, h); t.mode.Home? && t.missed == 0 && t.vendor == s.vendor + frames
  {
    if h.stopAt.None? && h.raisesAt.None? { AllHandedOver(frames, h, 0); }
  }

  lemma AdmittedFits(s: State)
    ensures Size(Admitted(s.preroll, s.fallbackCapacity, s.inputCapacity)) <= s.fallbackCapacity
  {
    SelectedIsLongestSuffix(s.preroll, Budget(s.fallbackCapacity, s.inputCapacity));
  }

  /** The state a wake begins from: nothing handed over yet. */
  function Woken(s: State): State {
    Discard(s).(mark := |s.vendor|, admitted := Admitted(s.preroll, s.fallbackCapacity, s.inputCapacity), since := [],
                cut := 0, missed := 0)
  }

  lemma WokenKeeps(s: State, stopping: bool)
    requires Inv(s) && s.mode.Idle?
    ensures Inv(Woken(s)) && |Woken(s).vendor| == Woken(s).mark && Woken(s).admitted + Woken(s).since == Woken(s).admitted
    ensures Inv(Woken(s).(mode := Direct(Owner(false, stopping, Woken(s).admitted, Size(Woken(s).admitted)))))
  {
    AdmittedFits(s);
    hide Admitted;
    var admitted := Woken(s).admitted;
    assert admitted + [] == admitted;
  }

  lemma WakeKeeps(s: State, start: Start, h: Handover)
    requires Inv(s)
    ensures Inv(Wake(s, start, h))
  {
    hide Fallback, Admitted, Remembered, Held, GiveHome;
    if !s.mode.Idle? { return; }
    WokenKeeps(s, false);
    WokenKeeps(s, true);
    var admitted := Woken(s).admitted;
    GiveHomeKeeps(Woken(s), HandedOver(admitted, h.(stopAt := None), 0), admitted);
    FallbackKeeps(Woken(s), Owner(false, false, admitted, Size(admitted)), admitted, h);
  }

  lemma StoredKeeps(s: State, chunk: Frame, ready: bool, stopping: bool)
    requires Inv(s) && s.mode.Direct? && !s.mode.owner.stopping
    requires s.mode.owner.readySeen ==> ready
    requires !ready ==> s.mode.owner.storedBytes + |chunk| <= s.fallbackCapacity
    ensures var t := s.(since := s.since + [chunk], mode := Direct(Stored(s.mode.owner, chunk, ready).(stopping := stopping)));
      Inv(t) && (!t.mode.owner.readySeen ==> t.mode.owner.stored == t.admitted + t.since)
  {
    var o := s.mode.owner;
    AudioConcat(o.stored, [chunk]);
    AudioOne(chunk);
    assert s.admitted + (s.since + [chunk]) == s.admitted + s.since + [chunk];
  }

  lemma SubmittedKeeps(s: State, o: Owner, submit: Submit, stopsNow: bool, h: Handover)
    requires Inv(s.(mode := Direct(o))) && Inv(s.(mode := Direct(o.(stopping := true))))
    requires !o.readySeen ==> o.stored == s.admitted + s.since
    ensures Inv(Submitted(s, o, submit, stopsNow, h))
  {
    hide Audio, Fallback, IsSuffix;
    DetachKeeps(s);
    if stopsNow || submit.Accepted? { return; }
    if !o.readySeen { FallbackKeeps(s, o, o.stored, h); }
  }

  lemma DirectFallbackKeeps(s: State, chunk: Frame, h: Handover)
    requires Inv(s) && s.mode.Direct? && !s.mode.owner.readySeen && !s.mode.owner.stopping
    ensures Inv(Fallback(s.(since := s.since + Trailing(chunk)), s.mode.owner, s.mode.owner.stored + Trailing(chunk), h))
  {
    hide Audio, Fallback, Remembered, Trailing;
    assert s.admitted + (s.since + Trailing(chunk)) == s.admitted + s.since + Trailing(chunk);
    StoppingKeeps(s, Trailing(chunk));
    FallbackKeeps(s.(since := s.since + Trailing(chunk)), s.mode.owner, s.mode.owner.stored + Trailing(chunk), h);
  }

  lemma StoppingKeeps(s: State, more: seq<Frame>)
    requires Inv(s) && s.mode.Direct?
    ensures Inv(s.(since := s.since + more, mode := Direct(s.mode.owner.(stopping := true))))
  {
    hide Audio, HeardBut;
  }

  /** The stored frames of a session not yet ready, with or without the current one already among them. */
  lemma StoredIsEverything(s: State, chunk: Frame)
    requires Inv(s) && s.mode.Direct? && !s.mode.owner.readySeen && !s.mode.owner.stopping
    ensures s.mode.owner.stored == s.admitted + s.since
    ensures Stored(s.mode.owner, chunk, false).stored == s.admitted + s.since + [chunk]
  {}

  lemma DirectFrameKeeps(s: State, chunk: Frame, session: Session, muted: bool, stopsNow: bool, h: Handover)
    requires Inv(s) && s.mode.Direct? && Plausible(s.mode.owner, session)
    ensures Inv(DirectFrame(s, chunk, session, muted, stopsNow, h))
  {
    hide Remembered, Audio, Fallback, Submitted, Stored, Trailing, HeardBut;
    var o := s.mode.owner;
    var s1 := s.(since := s.since + [chunk]);
    if o.stopping { SinceAside(s, chunk); return; }
    DetachKeeps(s1);
    if muted { return; }
    if session.failedBeforeReady { DirectFallbackKeeps(s, chunk, h); return; }
    if session.terminal { return; }
    if !session.ready && o.storedBytes + |chunk| > s.fallbackCapacity {
      DirectFallbackKeeps(s, chunk, h);
      return;
    }
    StoredKeeps(s, chunk, session.ready, false);
    StoredKeeps(s, chunk, session.ready, true);
    StoredFlags(o, chunk, session.ready);
    SubmittedKeeps(s1, Stored(o, chunk, session.ready), session.submit, stopsNow, h);
  }

  lemma StoredFlags(o: Owner, chunk: Frame, ready: bool)
    ensures Stored(o, chunk, ready).(stopping := o.stopping) == Stored(o, chunk, ready)
  {}

  lemma SinceAside(s: State, chunk: Frame)
    requires Inv(s) && s.mode.Direct? && s.mode.owner.stopping
    ensures Inv(s.(since := s.since + [chunk]))
  {}

  lemma OtherFrameKeeps(s: State, chunk: Frame, eligible: bool)
    requires Inv(s) && !s.mode.Direct?
    ensures Inv(OtherFrame(s, chunk, eligible))
  {
    RememberedIsNewest(s.preroll, chunk, s.recorded);
    if s.mode.Home? { hide Audio, IsSuffix; HeardMore(s, chunk); }
  }

  lemma HeardMore(s: State, chunk: Frame)
    requires HeardBut(s)
    ensures HeardBut(s.(vendor := s.vendor + [chunk], since := s.since + [chunk]))
  {
    var all := s.admitted + s.since;
    assert s.admitted + (s.since + [chunk]) == all + [chunk];
    assert (all + [chunk])[s.cut + s.missed..] == all[s.cut + s.missed..] + [chunk];
    assert (s.vendor + [chunk])[s.mark..] == s.vendor[s.mark..] + [chunk];
  }

  lemma StepKeeps(s: State, e: Event)
    requires Inv(s)
    ensures Inv(Step(s, e))
  {
    hide Remember, Wake, NormalWake, OtherFrame, DirectFrame, Audio;
    match e
    case ENormalWake(armed) => NormalWakeKeeps(s, armed);
    case EWake(start, handover) => WakeKeeps(s, start, handover);
    case EFrame(chunk, session, muted, stopsNow, handover) =>
      if !s.mode.Direct? {
        OtherFrameKeeps(s, chunk, !muted);
      } else if Plausible(s.mode.owner, session) {
        DirectFrameKeeps(s, chunk, session, muted, stopsNow, handover);
      }
    case ERequestStop =>
    case EStop => DetachKeeps(s);
    case EPipelineEnds =>
  }

  lemma NormalWakeKeeps(s: State, armed: bool)
    requires Inv(s)
    ensures Inv(NormalWake(s, armed))
  {
    assert s.vendor[|s.vendor|..] == [];
  }

  lemma DetachKeeps(s: State)
    requires s.mark <= |s.vendor|
    ensures Inv(Detach(s))
  {}

  lemma {:induction false} ReachedKeeps(fallbackCapacity: nat, inputCapacity: nat, run: seq<Event>)
    ensures Inv(Reached(fallbackCapacity, inputCapacity, run))
  {
    hide Step, Inv;
    if run == [] { InitInv(fallbackCapacity, inputCapacity); } else {
      ReachedKeeps(fallbackCapacity, inputCapacity, run[..|run| - 1]);
      StepKeeps(Reached(fallbackCapacity, inputCapacity, run[..|run| - 1]), run[|run| - 1]);
    }
  }

  lemma InitInv(fallbackCapacity: nat, inputCapacity: nat)
    ensures Inv(Init(fallbackCapacity, inputCapacity))
  {}

  // ----- what the device guarantees -----

  /** While a direct session owns the microphone, Home Assistant gets none of its audio, and what is stored is bounded. */
  lemma DirectAudioStaysDirect(fallbackCapacity: nat, inputCapacity: nat, run: seq<Event>)
    requires Reached(fallbackCapacity, inputCapacity, run).mode.Direct?
    ensures var s := Reached(fallbackCapacity, inputCapacity, run);
      && |s.vendor| == s.mark
      && s.mode.owner.storedBytes == Size(s.mode.owner.stored) <= s.fallbackCapacity
  {
    ReachedKeeps(fallbackCapacity, inputCapacity, run);
  }

  predicate FailsStartup(s: State, chunk: Frame, session: Session) {
    s.mode.Direct? && !s.mode.owner.readySeen && !s.mode.owner.stopping &&
    (session.failedBeforeReady ||
     (!session.terminal && !session.ready &&
      (s.mode.owner.storedBytes + |chunk| > s.fallbackCapacity || !session.submit.Accepted?)))
  }

  /**
   A session that fails before it was ready falls back: unless a stop is requested, the vendor's wake does
   not take or its handler raises, Home Assistant has everything since the wake, this frame included.
   */
  lemma StartupFailureFallsBack(fallbackCapacity: nat, inputCapacity: nat, run: seq<Event>, e: Event)
    requires e.EFrame? && FailsStartup(Reached(fallbackCapacity, inputCapacity, run), e.chunk, e.session)
    requires !e.muted && !e.stopsNow && e.handover == Handover(None, true, None)
    ensures var s, t := Reached(fallbackCapacity, inputCapacity, run), Step(Reached(fallbackCapacity, inputCapacity, run), e);
      var all := s.vendor + (s.admitted + s.since);
      t.mode.Home? && t.missed == 0 && (t.vendor == all + [e.chunk] || (e.chunk == [] && t.vendor == all))
  {
    hide Inv, Audio, Fallback, Reached;
    var s := Reached(fallbackCapacity, inputCapacity, run);
    var o, since := s.mode.owner, s.admitted + s.since;
    ReachedKeeps(fallbackCapacity, inputCapacity, run);
    StoredIsEverything(s, e.chunk);
    FallbackHandsPrefix(s.(since := s.since + Trailing(e.chunk)), o, since + Trailing(e.chunk), e.handover);
    FallbackHandsPrefix(s.(since := s.since + [e.chunk]), Stored(o, e.chunk, false), since + [e.chunk], e.handover);
    assert s.vendor + (since + [e.chunk]) == s.vendor + since + [e.chunk];
    assert s.vendor + (since + []) == s.vendor + since;
  }

  lemma HomeSawNoStop(s: State, o: Owner, frames: seq<Frame>, h: Handover)
    ensures var t := Fallback(s, o, frames, h);
      t.mode.Home? ==> |t.vendor| >= |s.vendor| && !StopSeen(h.stopAt, 4 + |t.vendor| - |s.vendor|)
  {}

  /** What a direct session has stored, with a frame after it or not, is a prefix of everything. */
  lemma PrefixOfAll(s: State, chunk: Frame)
    requires Inv(s) && s.mode.Direct?
    ensures s.vendor[s.mark..] == [] && |s.vendor| == s.mark
    ensures !s.mode.owner.stopping ==>
      s.mode.owner.readySeen || s.mode.owner.stored + Trailing(chunk) <= s.admitted + s.since + [chunk]
    ensures !s.mode.owner.stopping && !s.mode.owner.readySeen ==>
      Stored(s.mode.owner, chunk, false).stored <= s.admitted + s.since + [chunk]
    ensures forall more: seq<Frame> :: (s.vendor + more)[s.mark..] == more
  {}

  /**
   However a handover ends, Home Assistant was handed a prefix of that audio, and it keeps the pipeline
   only if no poll has seen a stop.
   */
  lemma FallbackIsAPrefix(s: State, e: Event)
    requires Inv(s) && e.EFrame? && s.mode.Direct? && Plausible(s.mode.owner, e.session)
    ensures s.vendor <= Step(s, e).vendor && Step(s, e).vendor[s.mark..] <= s.admitted + s.since + [e.chunk]
    ensures Step(s, e).mode.Home? ==> !StopSeen(e.handover.stopAt, 4 + |Step(s, e).vendor| - |s.vendor|)
  {
    hide Inv, Audio, Fallback, HandedOver, Stored, Trailing;
    PrefixOfAll(s, e.chunk);
    var o, u := s.mode.owner, Stored(s.mode.owner, e.chunk, e.session.ready);
    if o.stopping { return; }
    StoredReady(o, e.chunk, e.session.ready);
    var s0, s1 := s.(since := s.since + Trailing(e.chunk)), s.(since := s.since + [e.chunk]);
    GivesPrefix(s, s0, o, o.stored + Trailing(e.chunk), e.handover);
    HomeSawNoStop(s0, o, o.stored + Trailing(e.chunk), e.handover);
    GivesPrefix(s, s1, u, u.stored, e.handover);
    HomeSawNoStop(s1, u, u.stored, e.handover);
  }

  lemma StoredReady(o: Owner, chunk: Frame, ready: bool)
    ensures Stored(o, chunk, ready).readySeen == (o.readySeen || ready)
    ensures !ready ==> Stored(o, chunk, ready) == Stored(o, chunk, false)
  {}

  /** What a fallback adds to what the vendor was handed is a prefix of its frames. */
  lemma GivesPrefix(s: State, t: State, o: Owner, frames: seq<Frame>, h: Handover)
    requires t.vendor == s.vendor && |s.vendor| == s.mark
    ensures s.vendor <= Fallback(t, o, frames, h).vendor && Fallback(t, o, frames, h).vendor[s.mark..] <= frames
  {
    FallbackHandsPrefix(t, o, frames, h);
    assert (s.vendor + frames)[s.mark..] == frames;
  }

  /** The admitted pre-roll is the end of the idle audio recorded before the wake, within its budget. */
  lemma AdmittedIsRecordedSuffix(fallbackCapacity: nat, inputCapacity: nat, run: seq<Event>, e: Event)
    requires e.EWake? && Reached(fallbackCapacity, inputCapacity, run).mode.Idle?
    ensures var s := Reached(fallbackCapacity, inputCapacity, run);
      var audio := Audio(Step(s, e).admitted);
      IsSuffix(audio, s.recorded) && |audio| <= Budget(s.fallbackCapacity, s.inputCapacity)
  {
    var s := Reached(fallbackCapacity, inputCapacity, run);
    ReachedKeeps(fallbackCapacity, inputCapacity, run);
    hide Select, HandedOver;
    SelectedIsLongestSuffix(s.preroll, Budget(s.fallbackCapacity, s.inputCapacity));
    SuffixTrans(Audio(Admitted(s.preroll, s.fallbackCapacity, s.inputCapacity)), Audio(s.preroll), s.recorded);
  }

  lemma HandOverFirst(frames: seq<Frame>, h: Handover, i: nat)
    requires frames != [] && !StopSeen(h.stopAt, 4 + i)
    ensures HandedOver(frames, h, i) == [frames[0]] + if h.raisesAt == Some(i) then [] else HandedOver(frames[1..], h, i + 1)
  {}

  lemma HandOverOne(frames: seq<Frame>, h: Handover, i: nat)
    requires i < |frames| && !StopSeen(h.stopAt, 4 + i)
    ensures frames[..i + 1] == frames[..i] + [frames[i]]
    ensures frames[..i] + HandedOver(frames[i..], h, i)
      == frames[..i + 1] + if h.raisesAt == Some(i) then [] else HandedOver(frames[i + 1..], h, i + 1)
  {
    hide HandedOver, StopSeen;
    HandOverFirst(frames[i..], h, i);
    assert frames[i..][1..] == frames[i + 1..];
    var rest := if h.raisesAt == Some(i) then [] else HandedOver(frames[i + 1..], h, i + 1);
    assert frames[..i] + ([frames[i]] + rest) == frames[..i] + [frames[i]] + rest;
  }

  lemma HandOverNone(frames: seq<Frame>, h: Handover, i: nat)
    requires i == |frames| || (i < |frames| && StopSeen(h.stopAt, 4 + i))
    ensures HandedOver(frames[i..], h, i) == []
  {}

  /** What is handed home does not depend on who held the microphone before. */
  lemma HomeTwice(s: State, frames: seq<Frame>, h: Handover)
    ensures var given := HandedOver(frames, h, 0);
      GiveHome(s.(mode := Home), given, frames) == GiveHome(s, given, frames)
  {}

  // ----- the device object -----

  /** The patched satellite: the same steps over its own fields. */
  class Satellite {
    const fallbackCapacity: nat
    const inputCapacity: nat
    var mode: Mode
    var preroll: seq<Frame>
    ghost var vendor: seq<Frame>
    ghost var mark: nat
    ghost var admitted: seq<Frame>
    ghost var since: seq<Frame>
    ghost var cut: nat
    ghost var missed: nat
    ghost var recorded: seq<Byte>

    ghost function View(): State
      reads this
    {
      State(fallbackCapacity, inputCapacity, mode, preroll, vendor, mark, admitted, since, cut, missed, recorded)
    }

    constructor (fallbackCapacity: nat, inputCapacity: nat)
      ensures View() == Init(fallbackCapacity, inputCapacity)
    {
      this.fallbackCapacity, this.inputCapacity := fallbackCapacity, inputCapacity;
      mode, preroll, vendor, mark := Idle, [], [], 0;
      admitted, since, recorded, cut, missed := [], [], [], 0, 0;
    }

    method DiscardPreroll()
      modifies `preroll, `recorded
      ensures View() == Discard(old(View()))
    {
      preroll := [];
      recorded := [];
    }

    method DetachOwner()
      modifies `mode, `preroll, `recorded
      ensures View() == Detach(old(View()))
    {
      mode := Idle;
      DiscardPreroll();
    }

    /** The vendor's own audio handler. */
    ghost method VendorHandleAudio(chunk: Frame)
      modifies `vendor
      ensures View() == old(View()).(vendor := old(vendor) + [chunk])
    {
      vendor := vendor + [chunk];
    }

    method FallbackToHa(owner: Owner, replay: seq<Frame>, h: Handover)
      modifies this
      ensures View() == Fallback(old(View()), owner, replay, h)
    {
      if StopSeen(h.stopAt, 0) {
        mode := Direct(owner.(stopping := true));
        return;
      }
      DetachOwner();
      if StopSeen(h.stopAt, 1) || StopSeen(h.stopAt, 2) || StopSeen(h.stopAt, 3) { return; }
      if !h.armed { return; }
      mode := Home;
      ReplayFrames(replay, h);
    }

    /** The replay loop, and the last poll after it. */
    method ReplayFrames(replay: seq<Frame>, h: Handover)
      requires mode.Home?
      modifies `vendor, `mode, `cut, `missed
      ensures var given := HandedOver(replay, h, 0);
        View() == if StopSeen(h.stopAt, 4 + |given|) then old(View()).(mode := Idle, vendor := old(vendor) + given)
                  else GiveHome(old(View()), given, replay)
    {
      hide HandedOver, StopSeen;
      ghost var start, given := vendor, HandedOver(replay, h, 0);
      assert replay[0..] == replay && replay[..0] == [];
      var i := 0;
      var stopped, raised := StopSeen(h.stopAt, 4), false;
      while i < |replay| && !stopped && !raised
        invariant i <= |replay|
        invariant vendor == start + replay[..i]
        invariant stopped == StopSeen(h.stopAt, 4 + i)
        invariant given == replay[..i] + if raised then [] else HandedOver(replay[i..], h, i)
        modifies `vendor
      {
        HandOverOne(replay, h, i);
        VendorHandleAudio(replay[i]);
        raised := h.raisesAt == Some(i);
        i := i + 1;
        stopped := StopSeen(h.stopAt, 4 + i);
      }
      if !raised { HandOverNone(replay, h, i); }
      assert given == replay[..i];
      if stopped {
        mode := Idle;
      } else {
        cut, missed := |given|, |replay| - |given|;
      }
    }

    method HandleDirectAudio(chunk: Frame, session: Session, muted: bool, stopsNow: bool, h: Handover)
      requires mode.Direct? && Plausible(mode.owner, session)
      modifies this
      ensures View() == Step(old(View()), EFrame(chunk, session, muted, stopsNow, h))
    {
      hide Fallback;
      var owner := mode.owner;
      if owner.stopping {
        since := since + [chunk];
        return;
      }
      if muted {
        since := since + [chunk];
        DetachOwner();
        return;
      }
      if session.failedBeforeReady {
        since := since + Trailing(chunk);
        FallbackToHa(owner, owner.stored + Trailing(chunk), h);
        return;
      }
      if session.terminal {
        since := since + [chunk];
        DetachOwner();
        return;
      }
      if !session.ready {
        if owner.storedBytes + |chunk| > fallbackCapacity {
          since := since + Trailing(chunk);
          FallbackToHa(owner, owner.stored + Trailing(chunk), h);
          return;
        }
        owner := owner.(stored := owner.stored + [chunk], storedBytes := owner.storedBytes + |chunk|);
      } else if !owner.readySeen {
        owner := owner.(readySeen := true, stored := [], storedBytes := 0);
      }
      since := since + [chunk];
      Submit(owner, session.submit, stopsNow, h);
    }

    method Submit(owner: Owner, submit: Submit, stopsNow: bool, h: Handover)
      modifies this
      ensures View() == Submitted(old(View()), owner, submit, stopsNow, h)
    {
      hide Fallback;
      if stopsNow {
        if submit.Raised? { DetachOwner(); } else { mode := Direct(owner.(stopping := true)); }
      } else if submit.Accepted? {
        mode := Direct(owner);
      } else if !owner.readySeen {
        FallbackToHa(owner, owner.stored, h);
      } else {
        DetachOwner();
      }
    }

    /** `_start_realtime_wakeup`, from taking the pre-roll to the end of its start-up. */
    method StartWakeup(start: Start, h: Handover)
      requires mode.Idle?
      modifies this
      ensures View() == Step(old(View()), EWake(start, h))
    {
      hide Fallback, Admitted, GiveHome, HandedOver;
      var prerollAudio := WithStartupHeadroom(preroll, fallbackCapacity, inputCapacity);
      DiscardPreroll();
      mark, admitted, since, cut, missed := |vendor|, prerollAudio, [], 0, 0;
      var owner := Owner(false, false, prerollAudio, Size(prerollAudio));
      match start {
        case NotConstructed =>
          if h.armed {
            ghost var s1 := View();
            mode := Home;
            HomeTwice(s1, prerollAudio, h.(stopAt := None));
            ReplayFrames(prerollAudio, h.(stopAt := None));
          }
        case Stopped =>
        case Interrupted =>
        case Failed => FallbackToHa(owner, prerollAudio, h);
        case Running => mode := Direct(owner);
      }
    }

    /** A frame nobody owns: remembered while idle, and always handed to the vendor. */
    method HandleOtherAudio(chunk: Frame, eligible: bool)
      requires !mode.Direct?
      modifies this
      ensures View() == OtherFrame(old(View()), chunk, eligible)
    {
      if mode.Idle? && eligible {
        preroll := RememberFrame(preroll, chunk);
        recorded := recorded + chunk;
      } else {
        DiscardPreroll();
      }
      VendorHandleAudio(chunk);
      since := since + [chunk];
    }
  }
}
