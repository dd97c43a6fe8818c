/**
 Who owns the microphone, exactly: what begins and ends a direct session, what asks it to stop, what marks it ready,
 and what takes the pipeline from Home Assistant again.
 */
module DeviceModes {
  import opened Wrappers
  import opened Pcm
  import opened DevicePreroll
  import opened DeviceWake
  import opened DeviceHandover

  /** A frame the direct session has to deal with: it was not told to stop, and its session is in keeping. */
  predicate Meets(s: State, e: Event) {
    e.EFrame? && s.mode.Direct? && Plausible(s.mode.owner, e.session) && !s.mode.owner.stopping
  }

  /** The session takes the frame as it should: alive, unmuted, with room in the store until it is ready. */
  predicate Submits(s: State, e: Event) {
    && Meets(s, e) && !e.muted && !e.session.failedBeforeReady && !e.session.terminal
    && (e.session.ready || s.mode.owner.storedBytes + |e.chunk| <= s.fallbackCapacity)
  }

  /** The session fails the frame and no stop was asked for: it hands over, or ends if it was ready before. */
  predicate Fails(s: State, e: Event) { Submits(s, e) && !e.stopsNow && !e.session.submit.Accepted? }

  /** A fallback that finds a stop on entry leaves the session to its stop. */
  predicate FallbackStops(s: State, e: Event) {
    && Meets(s, e) && !e.muted && StopSeen(e.handover.stopAt, 0)
    && (e.session.failedBeforeReady
        || (!e.session.terminal && !e.session.ready && !Submits(s, e))
        || (Fails(s, e) && !e.session.ready))
  }

  predicate EndsDirect(s: State, e: Event) {
    && s.mode.Direct?
    && (|| e.ENormalWake? || e.EStop?
        || (Meets(s, e) && !FallbackStops(s, e)
            && (e.muted || !Submits(s, e) || Fails(s, e) || (e.stopsNow && e.session.submit.Raised?))))
  }

  predicate BeginsDirect(s: State, e: Event) {
    && s.mode.Idle? && e.EWake?
    && (e.start.Running? || (e.start.Failed? && StopSeen(e.handover.stopAt, 0)))
  }

  predicate AsksToStop(s: State, e: Event) {
    e.ERequestStop? || (Submits(s, e) && e.stopsNow) || FallbackStops(s, e)
  }

  /** The first frame that finds the session ready. */
  predicate BecomesReady(s: State, e: Event) {
    Submits(s, e) && e.session.ready && !s.mode.owner.readySeen
  }

  predicate EndsHome(s: State, e: Event) { s.mode.Home? && (e.EStop? || e.EPipelineEnds?) }

  // ----- the closed form of a fallback -----

  lemma FallbackMode(s: State, o: Owner, frames: seq<Frame>, h: Handover)
    ensures var t := Fallback(s, o, frames, h);
      && (t.mode.Direct? <==> StopSeen(h.stopAt, 0))
      && (t.mode.Direct? ==> t.mode.owner == o.(stopping := true))
  {
    hide HandedOver;
  }

  lemma FrameMode(s: State, e: Event)
    requires Meets(s, e)
    ensures var t := Step(s, e);
      && (t.mode.Direct? <==> !EndsDirect(s, e))
      && (t.mode.Direct? ==> (t.mode.owner.stopping <==> AsksToStop(s, e))
                             && (t.mode.owner.readySeen <==> s.mode.owner.readySeen || BecomesReady(s, e)))
  {
    hide Fallback;
    var o, chunk, h := s.mode.owner, e.chunk, e.handover;
    FallbackMode(s.(since := s.since + Trailing(chunk)), o, o.stored + Trailing(chunk), h);
    FallbackMode(s.(since := s.since + [chunk]), Stored(o, chunk, e.session.ready), Stored(o, chunk, e.session.ready).stored, h);
  }

  lemma WakeMode(s: State, e: Event)
    requires e.EWake?
    ensures var t := Step(s, e);
      && (s.mode.Idle? ==> (t.mode.Direct? <==> BeginsDirect(s, e)))
      && (!s.mode.Idle? ==> t == s)
      && (s.mode.Idle? && t.mode.Direct? ==>
            !t.mode.owner.readySeen && (t.mode.owner.stopping <==> !e.start.Running?)
            && t.mode.owner.stored == Admitted(s.preroll, s.fallbackCapacity, s.inputCapacity))
  {
    hide Fallback, HandedOver, Admitted;
    if s.mode.Idle? {
      var w := Woken(s);
      FallbackMode(w, Owner(false, false, w.admitted, Size(w.admitted)), w.admitted, e.handover);
    }
  }

  lemma OtherMode(s: State, e: Event)
    requires !e.EWake? && !Meets(s, e)
    ensures var t := Step(s, e);
      && (t.mode.Direct? <==> s.mode.Direct? && !EndsDirect(s, e))
      && (t.mode.Direct? ==> (t.mode.owner.stopping <==> s.mode.owner.stopping || AsksToStop(s, e))
                             && t.mode.owner.readySeen == s.mode.owner.readySeen)
  {
    hide Remember;
  }

  /**
   Who owns the microphone after a step. A direct session begins with a wake that starts it, or that fails with a stop
   already asked for; it ends with a normal wake, a stop, or a frame that finds it muted, dead, full or failing; it is
   told to stop, and found ready, exactly as listed. Home Assistant keeps the pipeline until it ends or is stopped.
   */
  lemma OwnerMoves(s: State, e: Event)
    ensures var t := Step(s, e);
      && (t.mode.Direct? <==> BeginsDirect(s, e) || (s.mode.Direct? && !EndsDirect(s, e)))
      && (s.mode.Direct? && t.mode.Direct? ==>
            && (t.mode.owner.stopping <==> s.mode.owner.stopping || AsksToStop(s, e))
            && (t.mode.owner.readySeen <==> s.mode.owner.readySeen || BecomesReady(s, e)))
      && (s.mode.Home? ==> (t.mode.Home? <==> !EndsHome(s, e)))
  {
    HomeMode(s, e);
    hide Step;
    if e.EWake? { WakeMode(s, e); }
    else if Meets(s, e) { FrameMode(s, e); }
    else { OtherMode(s, e); }
  }

  lemma HomeMode(s: State, e: Event)
    ensures s.mode.Home? ==> (Step(s, e).mode.Home? <==> !EndsHome(s, e))
  {
    hide Remember;
    if !s.mode.Home? { return; }
  }

  // ----- frames nobody owns directly -----

  predicate Remembers(s: State, e: Event) { e.EFrame? && s.mode.Idle? && !e.muted }

  /**
   Without a direct owner every frame goes to the vendor's handler. An idle, unmuted one is remembered besides, and
   any other empties what was remembered.
   */
  lemma OtherFramesMove(s: State, e: Event)
    requires e.EFrame? && !s.mode.Direct?
    ensures var t := Step(s, e);
      && t.vendor == s.vendor + [e.chunk] && t.since == s.since + [e.chunk] && t.mode == s.mode
      && (Remembers(s, e) ==> t.preroll == Remember(s.preroll, e.chunk) && t.recorded == s.recorded + e.chunk)
      && (!Remembers(s, e) ==> t.preroll == [] && t.recorded == [])
  {
    hide Remember;
  }
}
