/**
 What a handover to Home Assistant gives it, exactly: which steps hand the pipeline over, how much of the
 audio due then is replayed, and when the result is everything since the wake.
 */
module DeviceHandover {
  import opened Wrappers
  import opened Pcm
  import opened DevicePreroll
  import opened DeviceWake

  // ----- the replay in closed form -----

  /** How many of `n` frames are replayed unless a stop is seen: up to the one whose handler raises. */
  function Replayed(h: Handover, n: nat): nat {
    if h.raisesAt.Some? && h.raisesAt.value < n then h.raisesAt.value + 1 else n
  }

  /** The same for the frames from number `i` on. */
  function ReplayedFrom(h: Handover, i: nat, n: nat): nat {
    if h.raisesAt.Some? && i <= h.raisesAt.value < i + n then h.raisesAt.value + 1 - i else n
  }

  lemma {:induction false} ReplayOutcomeFrom(frames: seq<Frame>, h: Handover, i: nat)
    ensures var k := ReplayedFrom(h, i, |frames|);
      && (StopSeen(h.stopAt, 4 + i + |HandedOver(frames, h, i)|) <==> StopSeen(h.stopAt, 4 + i + k))
      && (!StopSeen(h.stopAt, 4 + i + k) ==> HandedOver(frames, h, i) == frames[..k])
  {
    if frames != [] && !StopSeen(h.stopAt, 4 + i) && h.raisesAt != Some(i) {
      ReplayOutcomeFrom(frames[1..], h, i + 1);
      var k := ReplayedFrom(h, i + 1, |frames| - 1);
      assert [frames[0]] + frames[1..][..k] == frames[..k + 1];
    }
  }

  /** The pipeline is kept exactly if the wake takes and no poll up to the last one sees a stop. */
  lemma FallbackOutcome(s: State, o: Owner, frames: seq<Frame>, h: Handover)
    ensures var t, k := Fallback(s, o, frames, h), Replayed(h, |frames|);
      && (t.mode.Home? <==> h.armed && !StopSeen(h.stopAt, 4 + k))
      && (t.mode.Home? ==> t == GiveHome(Discard(s), frames[..k], frames))
  {
    hide HandedOver;
    ReplayOutcomeFrom(frames, h, 0);
  }

  // ----- which steps hand the pipeline over -----

  /** The frame is refused a place in the stored audio before it could be added to it. */
  predicate Rejects(s: State, chunk: Frame, session: Session)
    requires s.mode.Direct?
  {
    session.failedBeforeReady
    || (!session.terminal && !session.ready && s.mode.owner.storedBytes + |chunk| > s.fallbackCapacity)
  }

  /** This frame makes a direct session fall back. */
  predicate FallsBack(s: State, e: Event) {
    && e.EFrame? && s.mode.Direct? && !s.mode.owner.readySeen && !s.mode.owner.stopping && !e.muted
    && (Rejects(s, e.chunk, e.session)
        || (!e.session.terminal && !e.session.ready && !e.session.submit.Accepted? && !e.stopsNow))
  }

  /** The audio Home Assistant is due if this event hands the pipeline over. */
  function Due(s: State, e: Event): seq<Frame> {
    match e
    case EWake(_, _) => Admitted(s.preroll, s.fallbackCapacity, s.inputCapacity)
    case EFrame(chunk, session, _, _, _) =>
      s.admitted + s.since + if s.mode.Direct? && Rejects(s, chunk, session) then Trailing(chunk) else [chunk]
    case _ => []
  }

  /** How much of it is replayed. */
  function Given(s: State, e: Event): (k: nat)
    ensures k <= |Due(s, e)|
  {
    if e.EWake? || e.EFrame? then Replayed(e.handover, |Due(s, e)|) else 0
  }

  predicate TakesPipeline(s: State, e: Event) {
    match e
    case ENormalWake(armed) => armed
    case EWake(start, h) =>
      && s.mode.Idle? && h.armed
      && (start.NotConstructed? || (start.Failed? && !StopSeen(h.stopAt, 4 + Given(s, e))))
    case EFrame(_, _, _, _, h) => FallsBack(s, e) && h.armed && !StopSeen(h.stopAt, 4 + Given(s, e))
    case _ => false
  }

  /** The pipeline was taken with the first `Given` frames of what is due. */
  ghost predicate Takes(s: State, e: Event, t: State) {
    && t.admitted + t.since == Due(s, e) && t.mark <= |t.vendor| && t.vendor[t.mark..] == Due(s, e)[..Given(s, e)]
    && t.missed == |Due(s, e)| - Given(s, e)
  }

  lemma WakeOutcome(s: State, e: Event)
    requires Inv(s) && e.EWake? && s.mode.Idle?
    ensures var t := Step(s, e);
      (t.mode.Home? <==> TakesPipeline(s, e)) && (t.mode.Home? ==> Takes(s, e, t))
  {
    hide Inv, Admitted, HandedOver, Fallback;
    var w, h := Woken(s), e.handover;
    var frames := w.admitted;
    FallbackOutcome(w, Owner(false, false, frames, Size(frames)), frames, h);
    ReplayOutcomeFrom(frames, h.(stopAt := None), 0);
    assert frames + [] == frames;
    assert (s.vendor + frames[..Replayed(h, |frames|)])[|s.vendor|..] == frames[..Replayed(h, |frames|)];
  }

  lemma DirectOutcome(s: State, frames: seq<Frame>, since: seq<Frame>, o: Owner, h: Handover)
    requires |s.vendor| == s.mark && frames == s.admitted + since
    ensures var t, k := Fallback(s.(since := since), o, frames, h), Replayed(h, |frames|);
      && (t.mode.Home? <==> h.armed && !StopSeen(h.stopAt, 4 + k))
      && (t.mode.Home? ==> t.admitted + t.since == frames && t.mark <= |t.vendor| && t.vendor[t.mark..] == frames[..k]
                           && t.missed == |frames| - k)
  {
    hide Fallback;
    FallbackOutcome(s.(since := since), o, frames, h);
    assert (s.vendor + frames[..Replayed(h, |frames|)])[s.mark..] == frames[..Replayed(h, |frames|)];
  }

  lemma FrameOutcome(s: State, e: Event)
    requires Inv(s) && e.EFrame? && s.mode.Direct?
    ensures var t := Step(s, e);
      (t.mode.Home? <==> TakesPipeline(s, e)) && (t.mode.Home? ==> Takes(s, e, t))
  {
    hide Audio, Fallback, HeardBut;
    var o, chunk, h := s.mode.owner, e.chunk, e.handover;
    if o.readySeen || o.stopping { return; }
    StoredIsEverything(s, chunk);
    assert s.admitted + (s.since + Trailing(chunk)) == s.admitted + s.since + Trailing(chunk);
    assert s.admitted + (s.since + [chunk]) == s.admitted + s.since + [chunk];
    DirectOutcome(s, o.stored + Trailing(chunk), s.since + Trailing(chunk), o, h);
    DirectOutcome(s, o.stored + [chunk], s.since + [chunk], Stored(o, chunk, false), h);
  }

  lemma StepOutcome(s: State, e: Event)
    requires Inv(s) && !s.mode.Home?
    ensures var t := Step(s, e);
      (t.mode.Home? <==> TakesPipeline(s, e)) && (t.mode.Home? ==> Takes(s, e, t))
  {
    hide Inv, Wake, DirectFrame, Remember, Due, Given;
    match e
    case ENormalWake(_) => NormalOutcome(s, e);
    case EWake(_, _) => if s.mode.Idle? { WakeOutcome(s, e); } else { NoWake(s, e); }
    case EFrame(_, _, _, _, _) => if s.mode.Direct? { FrameOutcome(s, e); }
    case _ =>
  }

  lemma NoWake(s: State, e: Event)
    requires e.EWake? && !s.mode.Idle?
    ensures Step(s, e) == s
  {}

  lemma NormalOutcome(s: State, e: Event)
    requires e.ENormalWake? && !s.mode.Home?
    ensures Takes(s, e, Step(s, e))
  {}

  /** A handler raises during the replay, and not for the last frame that was due. */
  predicate LosesTail(s: State, e: Event) {
    (e.EWake? || e.EFrame?) && e.handover.raisesAt.Some? && e.handover.raisesAt.value + 1 < |Due(s, e)|
  }

  lemma GivenIff(s: State, e: Event)
    requires !e.ENormalWake? ==> e.EWake? || e.EFrame?
    ensures Given(s, e) < |Due(s, e)| <==> LosesTail(s, e)
  {}

  /**
   In every run a step hands the pipeline over exactly if it is one that takes it: a raise does not stop it.
   Home Assistant then has everything since the wake exactly unless a handler raised before the last frame
   due; if one did, it has everything up to that frame and nothing after it.
   */
  lemma HandoverIsCompleteIff(fallbackCapacity: nat, inputCapacity: nat, run: seq<Event>, e: Event)
    requires !Reached(fallbackCapacity, inputCapacity, run).mode.Home?
    ensures var s, t := Reached(fallbackCapacity, inputCapacity, run), Step(Reached(fallbackCapacity, inputCapacity, run), e);
      && (t.mode.Home? <==> TakesPipeline(s, e))
      && (t.mode.Home? ==>
            && t.admitted + t.since == Due(s, e) && t.mark <= |t.vendor|
            && (t.vendor[t.mark..] == t.admitted + t.since <==> !LosesTail(s, e))
            && (LosesTail(s, e) ==> t.vendor[t.mark..] == Due(s, e)[..e.handover.raisesAt.value + 1]))
  {
    hide Step, Inv, Reached, TakesPipeline;
    var s := Reached(fallbackCapacity, inputCapacity, run);
    ReachedKeeps(fallbackCapacity, inputCapacity, run);
    StepOutcome(s, e);
    if Step(s, e).mode.Home? { OnlyThreeTake(s, e); GivenIff(s, e); }
  }

  lemma OnlyThreeTake(s: State, e: Event)
    requires TakesPipeline(s, e)
    ensures e.ENormalWake? || e.EWake? || e.EFrame?
  {}

  // ----- over a whole run -----

  /** Step `k` handed over the pipeline that Home Assistant has owned ever since. */
  ghost predicate Latest(fallbackCapacity: nat, inputCapacity: nat, run: seq<Event>, k: nat) {
    && k < |run| && !Reached(fallbackCapacity, inputCapacity, run[..k]).mode.Home?
    && forall j: nat :: k < j <= |run| ==> Reached(fallbackCapacity, inputCapacity, run[..j]).mode.Home?
  }

  /** That step lost the tail of its audio. */
  ghost predicate TailLost(fallbackCapacity: nat, inputCapacity: nat, run: seq<Event>) {
    exists k: nat :: Latest(fallbackCapacity, inputCapacity, run, k)
                     && LosesTail(Reached(fallbackCapacity, inputCapacity, run[..k]), run[k])
  }

  lemma HomeKeepsGap(s: State, e: Event)
    requires s.mode.Home? && Step(s, e).mode.Home?
    ensures Step(s, e).missed == s.missed
  {
    hide Remember, Audio;
  }

  lemma LatestOfFront(fallbackCapacity: nat, inputCapacity: nat, run: seq<Event>, k: nat)
    requires run != [] && Reached(fallbackCapacity, inputCapacity, run).mode.Home?
    ensures Latest(fallbackCapacity, inputCapacity, run, k) <==>
      if Reached(fallbackCapacity, inputCapacity, run[..|run| - 1]).mode.Home?
      then Latest(fallbackCapacity, inputCapacity, run[..|run| - 1], k) else k == |run| - 1
  {
    hide Reached;
    var front, n := run[..|run| - 1], |run| - 1;
    assert run[..n + 1] == run;
    assert forall j: nat :: j <= n ==> front[..j] == run[..j];
  }

  lemma {:induction false} MissedIffTailLost(fallbackCapacity: nat, inputCapacity: nat, run: seq<Event>)
    requires Reached(fallbackCapacity, inputCapacity, run).mode.Home?
    ensures Reached(fallbackCapacity, inputCapacity, run).missed > 0 <==> TailLost(fallbackCapacity, inputCapacity, run)
  {
    hide Step, Latest, LosesTail, Inv, Takes, TakesPipeline, Due, Given;
    if run == [] { return; }
    var front, n := run[..|run| - 1], |run| - 1;
    var s, e := Reached(fallbackCapacity, inputCapacity, front), run[n];
    forall k: nat ensures Latest(fallbackCapacity, inputCapacity, run, k) <==>
      if s.mode.Home? then Latest(fallbackCapacity, inputCapacity, front, k) else k == n
    {
      LatestOfFront(fallbackCapacity, inputCapacity, run, k);
    }
    if s.mode.Home? {
      HomeKeepsGap(s, e);
      MissedIffTailLost(fallbackCapacity, inputCapacity, front);
      SameTail(fallbackCapacity, inputCapacity, run);
    } else {
      ReachedKeeps(fallbackCapacity, inputCapacity, front);
      MissedNow(s, e);
      assert TailLost(fallbackCapacity, inputCapacity, run) <==> LosesTail(s, e);
    }
  }

  lemma SameTail(fallbackCapacity: nat, inputCapacity: nat, run: seq<Event>)
    requires run != [] && forall k: nat :: Latest(fallbackCapacity, inputCapacity, run, k) <==>
                                        Latest(fallbackCapacity, inputCapacity, run[..|run| - 1], k)
    ensures TailLost(fallbackCapacity, inputCapacity, run) <==> TailLost(fallbackCapacity, inputCapacity, run[..|run| - 1])
  {
    hide Reached, LosesTail;
    var front, n := run[..|run| - 1], |run| - 1;
    assert forall j: nat :: j <= n ==> front[..j] == run[..j];
    forall k: nat | Latest(fallbackCapacity, inputCapacity, front, k)
      ensures Reached(fallbackCapacity, inputCapacity, run[..k]) == Reached(fallbackCapacity, inputCapacity, front[..k])
      ensures run[k] == front[k]
    {}
  }

  lemma MissedNow(s: State, e: Event)
    requires Inv(s) && !s.mode.Home? && Step(s, e).mode.Home?
    ensures Step(s, e).missed > 0 <==> LosesTail(s, e)
  {
    hide Step, Inv, TakesPipeline, Due;
    StepOutcome(s, e);
    OnlyThreeTake(s, e);
    GivenIff(s, e);
  }

  /**
   While Home Assistant owns the pipeline it has been handed the admitted pre-roll and every frame since
   the wake, in order and once, but for one gap; it has everything exactly unless a handler raised before
   the last frame due in the handover that gave it the pipeline.
   */
  lemma HomeHearsEverythingIff(fallbackCapacity: nat, inputCapacity: nat, run: seq<Event>)
    requires Reached(fallbackCapacity, inputCapacity, run).mode.Home?
    ensures var s := Reached(fallbackCapacity, inputCapacity, run);
      var all := s.admitted + s.since;
      && s.cut + s.missed <= |all| && s.mark <= |s.vendor|
      && s.vendor[s.mark..] == all[..s.cut] + all[s.cut + s.missed..]
      && (s.vendor[s.mark..] == all <==> !TailLost(fallbackCapacity, inputCapacity, run))
  {
    hide Reached, TailLost, Inv, HeardBut;
    ReachedKeeps(fallbackCapacity, inputCapacity, run);
    MissedIffTailLost(fallbackCapacity, inputCapacity, run);
    OneGap(Reached(fallbackCapacity, inputCapacity, run));
  }

  lemma OneGap(s: State)
    requires Inv(s) && s.mode.Home?
    ensures var all := s.admitted + s.since;
      && s.cut + s.missed <= |all| && s.mark <= |s.vendor|
      && s.vendor[s.mark..] == all[..s.cut] + all[s.cut + s.missed..]
      && (s.vendor[s.mark..] == all <==> s.missed == 0)
  {
    hide Audio, IsSuffix, Remembered;
    assert HeardBut(s);
    var all := s.admitted + s.since;
    assert all == all[..s.cut] + all[s.cut..];
  }

  // ----- a run that leaves a gap -----

  const FINE := Handover(None, true, None)
  const RAISES := Handover(None, true, Some(0))

  /** A direct session starts, hears one frame, and fails on the second; the handler raises on the first. */
  function GapRun(): seq<Event> {
    [EWake(Running, FINE), EFrame([1, 2], Session(false, false, false, Accepted), false, false, FINE)]
    + [EFrame([3, 4], Session(true, true, false, Refused), false, false, RAISES),
       EFrame([5, 6], Session(true, true, false, Refused), false, false, FINE)]
  }

  lemma Twice(fallbackCapacity: nat, inputCapacity: nat, run: seq<Event>, e: Event, f: Event)
    ensures Reached(fallbackCapacity, inputCapacity, run + [e, f])
      == Step(Step(Reached(fallbackCapacity, inputCapacity, run), e), f)
  {
    hide Step;
    assert (run + [e, f])[..|run| + 1] == run + [e] && (run + [e])[..|run|] == run;
  }

  lemma ReachedNothing() ensures Reached(4, 4, []) == Init(4, 4) {}

  /** Home Assistant owns the pipeline, goes on hearing, and never hears the frame in between. */
  lemma RaiseLeavesGap()
    ensures var s := Reached(4, 4, GapRun());
      s.mode.Home? && s.mark == 0 && s.vendor == [[1, 2], [5, 6]] && s.admitted + s.since == [[1, 2], [3, 4], [5, 6]]
  {
    hide Reached;
    var run := GapRun()[..2];
    ReachedNothing();
    Twice(4, 4, [], GapRun()[0], GapRun()[1]);
    assert [] + [GapRun()[0], GapRun()[1]] == run;
    FirstFrameStored();
    Twice(4, 4, run, GapRun()[2], GapRun()[3]);
    assert run + [GapRun()[2], GapRun()[3]] == GapRun();
    SecondFrameRaises();
  }

  function AfterFirst(): State {
    Init(4, 4).(mode := Direct(Owner(false, false, [[1, 2]], 2)), since := [[1, 2]])
  }

  lemma FirstFrameStored()
    ensures Step(Step(Init(4, 4), GapRun()[0]), GapRun()[1]) == AfterFirst()
  {
    var s := Init(4, 4).(mode := Direct(Owner(false, false, [], 0)));
    assert Step(Init(4, 4), GapRun()[0]) == s;
    var o: Owner := s.mode.owner;
    assert [] + [[1, 2]] == [[1, 2]];
    assert Stored(o, [1, 2], false) == Owner(false, false, [[1, 2]], 2);
    assert s.since + [[1, 2]] == [[1, 2]];
  }

  lemma SecondFrameRaises()
    ensures Step(Step(AfterFirst(), GapRun()[2]), GapRun()[3])
      == AfterFirst().(mode := Home, vendor := [[1, 2], [5, 6]], since := [[1, 2], [3, 4], [5, 6]], cut := 1, missed := 1)
  {
    var s := AfterFirst();
    var frames: seq<Frame> := [[1, 2], [3, 4]];
    HandOverFirst(frames, RAISES, 0);
    assert s.mode.owner.stored + Trailing([3, 4]) == frames;
    assert Step(s, GapRun()[2]) == s.(mode := Home, vendor := [[1, 2]], since := frames, cut := 1, missed := 1);
  }
}
