/**
 The speech lane keeps moving: the complete causes of its shared variables, a way back to idle from every reachable
 state, and the handing of a session from a transcription to the synthesis that follows it.
 */
module LaneProgress {
  import opened Wrappers
  import opened SpeechLane

  // ----- the causes -----

  predicate Grants(s: State, e: Event) { e.EAcquire? && s.owner.None? && s.cleanup == {} && e.l !in s.granted }

  /** The grant hands the offered session to the new lease. */
  predicate HandsOver(s: State, e: Event) { Grants(s, e) && s.offer.Some? && e.kind.Synthesis? && e.compatible }

  predicate InStage(s: State, l: Lease, stage: Stage) { l in s.leases && s.leases[l].stage == stage }

  function Single(r: Option<Resource>): set<Resource> { if r.Some? then {r.value} else {} }

  predicate BeginsOffer(s: State, e: Event) { e.EBeginOffer? && InStage(s, e.l, InBody) && s.leases[e.l].made.Some? }

  predicate Publishes(s: State, e: Event) { e.EPublish? && InStage(s, e.l, Offering) && s.leases[e.l].made.Some? }

  predicate Makes(s: State, e: Event) { e.EMake? && e.l in s.leases && MayMake(s.leases[e.l]) && e.r !in s.made }

  predicate Releases(s: State, e: Event) { e.ERelease? && InStage(s, e.l, Leaving) }

  /** The sessions whose close an event starts, or asks for again. */
  function Closed(s: State, e: Event): set<Resource> {
    match e
    case EAcquire(_, _, _) => if Grants(s, e) && !HandsOver(s, e) then Single(s.offer) else {}
    case ECheckRetained(l, good) => if InStage(s, l, Taken) && !good then Single(s.leases[l].retained) else {}
    case ESanitized(l, good) => if InStage(s, l, Sanitizing) && !good then Single(s.leases[l].retained) else {}
    case EBeginOffer(_) => if BeginsOffer(s, e) then Single(s.offer) else {}
    case EBodyClose(l) => if InStage(s, l, InBody) then Single(s.leases[l].retained) else {}
    case EUnwind(l) =>
      if InStage(s, l, Offering) || (InStage(s, l, InBody) && !s.leases[l].kind.Streaming?) then Single(s.leases[l].made) else {}
    case EGathered(l) => if InStage(s, l, Gathering) then Single(s.leases[l].made) else {}
    case ELeave(l) => if l in s.leases && MayLeave(s.leases[l]) then Single(s.leases[l].retained) else {}
    case EWithdraw(r) => if s.offer == Some(r) then {r} else {}
    case _ => {}
  }

  function OwnerAfter(s: State, e: Event): Option<Lease> {
    if Grants(s, e) then Some(e.l) else if Releases(s, e) && s.owner == Some(e.l) then None else s.owner
  }

  function OfferAfter(s: State, e: Event): Option<Resource> {
    if Publishes(s, e) then s.leases[e.l].made
    else if Grants(s, e) || BeginsOffer(s, e) || (e.EWithdraw? && s.offer == Some(e.r)) then None
    else s.offer
  }

  function MadeAfter(s: State, e: Event): map<Resource, Kind> {
    if Makes(s, e) then s.made[e.r := s.leases[e.l].kind] else s.made
  }

  /** The close that finishes. */
  function Finishing(s: State, e: Event): set<Resource> { if e.ECleanupFinished? && e.r in s.cleanup then {e.r} else {} }

  ghost predicate LaneMoves(s: State, e: Event, t: State) {
    && t.owner == OwnerAfter(s, e) && t.offer == OfferAfter(s, e) && t.made == MadeAfter(s, e)
    && t.closeTasks == s.closeTasks + Closed(s, e)
    && t.cleanup == s.cleanup + Closed(s, e) - Finishing(s, e)
    && t.finished == s.finished + Finishing(s, e)
    && t.granted == (if Grants(s, e) then s.granted + {e.l} else s.granted)
  }

  lemma GrantMoves(s: State, e: Event)
    requires e.EAcquire?
    ensures LaneMoves(s, e, Step(s, e))
  {}

  /** Only the leases, and the histories beside them, differ. */
  predicate SameShared(s: State, t: State) {
    && t.owner == s.owner && t.offer == s.offer && t.closeTasks == s.closeTasks && t.cleanup == s.cleanup
    && t.finished == s.finished && t.made == s.made && t.granted == s.granted
  }

  predicate OfOneLease(e: Event) {
    e.ECheckRetained? || e.ESanitized? || e.EEnter? || e.EBodyClose? || e.EUnwind? || e.EGathered? || e.EGatherCancelled? || e.ELeave?
  }

  lemma LocalCauses(s: State, e: Event)
    requires OfOneLease(e)
    ensures OwnerAfter(s, e) == s.owner && OfferAfter(s, e) == s.offer && MadeAfter(s, e) == s.made
    ensures !Grants(s, e) && Finishing(s, e) == {}
  {}

  lemma TrackShared(s: State, r: Resource)
    ensures var t := Track(s, r);
      && t.owner == s.owner && t.offer == s.offer && t.closeTasks == s.closeTasks + {r} && t.cleanup == s.cleanup + {r}
      && t.finished == s.finished && t.made == s.made && t.granted == s.granted
  {}

  lemma Nothing(rs: set<Resource>)
    ensures rs + {} == rs && rs - {} == rs
  {}

  /** What an event of one lease closes, and nothing else that is shared. */
  lemma ClosingMoves(s: State, e: Event, t: State, closed: set<Resource>)
    requires OfOneLease(e) && Closed(s, e) == closed
    requires t.owner == s.owner && t.offer == s.offer && t.made == s.made && t.granted == s.granted && t.finished == s.finished
    requires t.closeTasks == s.closeTasks + closed && t.cleanup == s.cleanup + closed
    ensures LaneMoves(s, e, t)
  {
    LocalCauses(s, e);
    hide Closed, Grants, OwnerAfter, OfferAfter, MadeAfter, Finishing, OfOneLease;
    Nothing(s.finished);
    Nothing(s.cleanup + closed);
  }

  lemma LocalMoves(s: State, e: Event, t: State)
    requires OfOneLease(e) && |Closed(s, e)| <= 1
    requires Closed(s, e) == {} ==> SameShared(s, t)
    requires forall r | r in Closed(s, e) :: SameShared(Track(s, r), t)
    ensures LaneMoves(s, e, t)
  {
    hide Closed, Track, OfOneLease, LaneMoves;
    if Closed(s, e) == {} {
      Nothing(s.closeTasks);
      Nothing(s.cleanup);
      ClosingMoves(s, e, t, {});
    } else {
      var r :| r in Closed(s, e);
      OneOnly(Closed(s, e), r);
      TrackShared(s, r);
      ClosingMoves(s, e, t, {r});
    }
  }

  lemma OneOnly(rs: set<Resource>, r: Resource)
    requires r in rs && |rs| <= 1
    ensures rs == {r}
  {
    assert |rs - {r}| == |rs| - 1;
    assert rs - {r} == {};
  }

  lemma SingleClosed(s: State, e: Event)
    ensures |Closed(s, e)| <= 1
  {
    assert forall r: Resource :: |{r}| == 1;
  }

  lemma RetainedShared(s: State, e: Event)
    requires e.ECheckRetained? || e.ESanitized? || e.EEnter? || e.EBodyClose?
    requires forall l | l in s.leases :: LocalOk(s.leases[l])
    ensures Closed(s, e) == {} ==> SameShared(s, Step(s, e))
    ensures forall r | r in Closed(s, e) :: SameShared(Track(s, r), Step(s, e))
  {
    hide Track;
  }

  lemma EndingShared(s: State, e: Event)
    requires e.EUnwind? || e.EGathered? || e.EGatherCancelled? || e.ELeave?
    requires forall l | l in s.leases :: LocalOk(s.leases[l])
    ensures Closed(s, e) == {} ==> SameShared(s, Step(s, e))
    ensures forall r | r in Closed(s, e) :: SameShared(Track(s, r), Step(s, e))
  {
    hide Track;
  }

  lemma MakeMoves(s: State, e: Event)
    requires e.EMake? || e.EPublish?
    ensures LaneMoves(s, e, Step(s, e))
  {}

  lemma OfferMoves(s: State, e: Event)
    requires e.EBeginOffer? || e.EWithdraw?
    ensures LaneMoves(s, e, Step(s, e))
  {}

  lemma IdleMoves(s: State, e: Event)
    requires e.ERelease? || e.ECleanupFinished?
    ensures LaneMoves(s, e, Step(s, e))
  {}

  /**
   For each shared variable of the lane the complete list of what changes it: when a lease is granted and released,
   when an offer is published, taken or withdrawn, and which sessions every event sends to cleanup.
   */
  lemma StepMoves(s: State, e: Event)
    requires Inv(s)
    ensures LaneMoves(s, e, Step(s, e))
  {
    hide LaneMoves, Step, AllPlaced, Closes, Closed;
    SingleClosed(s, e);
    if e.EAcquire? { GrantMoves(s, e); }
    else if e.EMake? || e.EPublish? { MakeMoves(s, e); }
    else if e.EBeginOffer? || e.EWithdraw? { OfferMoves(s, e); }
    else if e.ERelease? || e.ECleanupFinished? { IdleMoves(s, e); }
    else {
      if e.EUnwind? || e.EGathered? || e.EGatherCancelled? || e.ELeave? { EndingShared(s, e); } else { RetainedShared(s, e); }
      LocalMoves(s, e, Step(s, e));
    }
  }

  // ----- back to idle -----

  function After(s: State, tail: seq<Event>): State
    decreases |tail|
  {
    if tail == [] then s else After(Step(s, tail[0]), tail[1..])
  }

  lemma AfterOne(s: State, e: Event)
    ensures After(s, [e]) == Step(s, e)
  {
    hide Step;
    assert After(Step(s, e), []) == Step(s, e);
  }

  lemma {:induction false} AfterBoth(s: State, tail: seq<Event>, more: seq<Event>)
    ensures After(s, tail + more) == After(After(s, tail), more)
    decreases |tail|
  {
    hide Step;
    if tail == [] {
      assert tail + more == more;
    } else {
      AfterBoth(Step(s, tail[0]), tail[1..], more);
      assert (tail + more)[1..] == tail[1..] + more;
    }
  }

  lemma {:induction false} ReachedAfter(run: seq<Event>, tail: seq<Event>)
    ensures Reached(run + tail) == After(Reached(run), tail)
    decreases |tail|
  {
    hide Step;
    if tail == [] {
      assert run + tail == run;
    } else {
      Once(run, tail[0]);
      ReachedAfter(run + [tail[0]], tail[1..]);
      assert run + [tail[0]] + tail[1..] == run + tail;
    }
  }

  /** No request comes in, no session is made or offered: those under way only come to their ends. */
  predicate Winding(e: Event) { e.EUnwind? || e.EGathered? || e.ELeave? || e.ERelease? || e.ECleanupFinished? }

  ghost predicate AllWinding(tail: seq<Event>) { forall e | e in tail :: Winding(e) }

  function Rank(stage: Stage): nat {
    match stage
    case InBody => 4
    case Offering => 4
    case Gathering => 3
    case Leaving => 1
    case _ => 2
  }

  /** The next event on a lease's way out. */
  function WayOut(l: Lease, stage: Stage): Event {
    match stage
    case InBody => EUnwind(l)
    case Offering => EUnwind(l)
    case Gathering => EGathered(l)
    case Leaving => ERelease(l)
    case _ => ELeave(l)
  }

  lemma OneStepOut(s: State, l: Lease)
    requires Inv(s) && s.owner == Some(l) && l in s.leases
    ensures var t := Step(s, WayOut(l, s.leases[l].stage));
      t.owner.None? || (t.owner == Some(l) && l in t.leases && Rank(t.leases[l].stage) < Rank(s.leases[l].stage))
  {
    hide AllPlaced, Closes;
    if s.leases[l].stage.InBody? { return; }
    if s.leases[l].stage.Offering? { return; }
  }

  lemma OwnerLeaves(s: State, n: nat) returns (tail: seq<Event>)
    requires Inv(s) && (s.owner.Some? ==> s.owner.value in s.leases && Rank(s.leases[s.owner.value].stage) <= n)
    ensures |tail| <= n && AllWinding(tail) && Inv(After(s, tail)) && After(s, tail).owner.None?
    decreases n
  {
    hide Inv, Step, After;
    tail := [];
    AfterNothing(s);
    if s.owner.None? { return; }
    var l := s.owner.value;
    var e := WayOut(l, s.leases[l].stage);
    OneStepOut(s, l);
    StepKeeps(s, e);
    OwnerIsThere(Step(s, e));
    var more := OwnerLeaves(Step(s, e), n - 1);
    AfterOne(s, e);
    AfterBoth(s, [e], more);
    tail := [e] + more;
  }

  lemma AfterNothing(s: State) ensures After(s, []) == s {}

  lemma OwnerIsThere(s: State)
    requires Inv(s)
    ensures s.owner.Some? ==> s.owner.value in s.leases
  {}

  lemma OneClosed(s: State, r: Resource)
    requires r in s.cleanup
    ensures var t := Step(s, ECleanupFinished(r)); t.cleanup == s.cleanup - {r} && t.owner == s.owner
  {}

  lemma {:induction false} CleanupEnds(s: State) returns (tail: seq<Event>)
    requires Inv(s) && s.owner.None?
    ensures |tail| == |s.cleanup| && AllWinding(tail)
    ensures var t := After(s, tail); Inv(t) && t.owner.None? && t.cleanup == {}
    decreases |s.cleanup|
  {
    hide Inv, Step, After;
    tail := [];
    AfterNothing(s);
    if s.cleanup == {} { return; }
    var r :| r in s.cleanup;
    var e := ECleanupFinished(r);
    OneClosed(s, r);
    StepKeeps(s, e);
    var more := CleanupEnds(Step(s, e));
    AfterOne(s, e);
    AfterBoth(s, [e], more);
    tail := [e] + more;
  }

  /**
   The lane always comes back: from every reachable state the lease under way leaves in at most four events, the
   closes that are left finish, and then a fresh request of any kind is granted.
   */
  lemma LaneComesBack(run: seq<Event>, l: Lease, kind: Kind, compatible: bool)
    ensures exists tail :: (AllWinding(tail) && Idle(Reached(run + tail)) && Admits(Reached(run + tail), l, kind, compatible))
  {
    hide Inv, Step, After, Reached, Admits;
    ReachedKeeps(run);
    OwnerIsThere(Reached(run));
    var out := OwnerLeaves(Reached(run), 4);
    var rest := CleanupEnds(After(Reached(run), out));
    AfterBoth(Reached(run), out, rest);
    ReachedAfter(run, out + rest);
    ActiveFlagIsExact(run + (out + rest));
    IdleGrants(Reached(run + (out + rest)), l, kind, compatible);
    assert AllWinding(out + rest);
  }

  predicate Idle(s: State) { s.owner.None? && s.cleanup == {} && !s.active }

  /** A request never granted before becomes the owner. */
  predicate Admits(s: State, l: Lease, kind: Kind, compatible: bool) {
    l !in s.granted ==> Step(s, EAcquire(l, kind, compatible)).owner == Some(l)
  }

  lemma IdleGrants(s: State, l: Lease, kind: Kind, compatible: bool)
    requires s.owner.None? && s.cleanup == {}
    ensures Admits(s, l, kind, compatible)
  {}

  // ----- handing a session on -----

  /** Lease `l` owns the lane with these variables, nothing is being closed, and the slot holds `offer`. */
  predicate Owns(s: State, l: Lease, x: Local, offer: Option<Resource>) {
    s.owner == Some(l) && l in s.leases && s.leases[l] == x && s.cleanup == {} && s.offer == offer
  }

  predicate Fresh(s: State, l: Lease) { s.owner.None? && s.cleanup == {} && l !in s.granted }

  lemma Admitted(s: State, l: Lease, kind: Kind)
    requires Fresh(s, l) && s.offer.None?
    ensures var t := Step(s, EAcquire(l, kind, false));
      Owns(t, l, Local(kind, Entering, None, None, false), None) && t.granted == s.granted + {l} && t.made == s.made
  {}

  lemma Enters(s: State, l: Lease, kind: Kind)
    requires Owns(s, l, Local(kind, Entering, None, None, false), None)
    ensures var t := Step(s, EEnter(l));
      Owns(t, l, Local(kind, InBody, None, None, false), None) && t.granted == s.granted && t.made == s.made
  {}

  lemma MakesOne(s: State, l: Lease, r: Resource)
    requires Owns(s, l, Local(Finite, InBody, None, None, false), None) && r !in s.made
    ensures var t := Step(s, EMake(l, r));
      Owns(t, l, Local(Finite, InBody, None, Some(r), false), None) && t.granted == s.granted
  {}

  lemma OffersIt(s: State, l: Lease, r: Resource)
    requires Owns(s, l, Local(Finite, InBody, None, Some(r), false), None)
    ensures var t := Step(Step(s, EBeginOffer(l)), EPublish(l));
      Owns(t, l, Local(Finite, InBody, None, None, true), Some(r)) && t.granted == s.granted
  {
    assert Owns(Step(s, EBeginOffer(l)), l, Local(Finite, Offering, None, Some(r), false), None);
  }

  lemma LeavesIt(s: State, l: Lease, r: Resource)
    requires Owns(s, l, Local(Finite, InBody, None, None, true), Some(r))
    ensures var t := Step(Step(Step(s, EUnwind(l)), ELeave(l)), ERelease(l));
      t.owner.None? && t.cleanup == {} && t.offer == Some(r) && t.granted == s.granted
  {
    assert Owns(Step(s, EUnwind(l)), l, Local(Finite, Ended, None, None, true), Some(r));
    assert Owns(Step(Step(s, EUnwind(l)), ELeave(l)), l, Local(Finite, Leaving, None, None, true), Some(r));
  }

  lemma TakesIt(s: State, m: Lease, r: Resource)
    requires Fresh(s, m) && s.offer == Some(r)
    ensures var t := Step(Step(Step(s, EAcquire(m, Synthesis, true)), ECheckRetained(m, true)), ESanitized(m, true));
      Owns(t, m, Local(Synthesis, InBody, Some(r), None, false), None)
  {
    var a := Step(s, EAcquire(m, Synthesis, true));
    assert Owns(a, m, Local(Synthesis, Taken, Some(r), None, false), None);
    assert Owns(Step(a, ECheckRetained(m, true)), m, Local(Synthesis, Sanitizing, Some(r), None, false), None);
  }

  function Making(l: Lease, r: Resource): seq<Event> { [EAcquire(l, Finite, false)] + [EEnter(l)] + [EMake(l, r)] }

  function Offer(l: Lease): seq<Event> { [EBeginOffer(l), EPublish(l)] + [EUnwind(l), ELeave(l)] + [ERelease(l)] }

  function Taking(m: Lease): seq<Event> { [EAcquire(m, Synthesis, true), ECheckRetained(m, true)] + [ESanitized(m, true)] }

  /**
   A session is handed on: with the lane idle and its slot empty, a transcription that makes a session, offers it and
   leaves has it taken up by the next compatible synthesis, which runs with that very session.
   */
  lemma SessionIsHandedOn(run: seq<Event>, l: Lease, m: Lease, r: Resource)
    requires var s := Reached(run); Fresh(s, l) && m !in s.granted && l != m && s.offer.None? && r !in s.made
    ensures Owns(Reached(run + Making(l, r) + Offer(l) + Taking(m)), m, Local(Synthesis, InBody, Some(r), None, false), None)
  {
    hide Step, Reached, Owns;
    var a := run + [EAcquire(l, Finite, false)];
    var b := a + [EEnter(l)];
    var c := b + [EMake(l, r)];
    var s := Reached(run);
    Once(run, EAcquire(l, Finite, false));
    Once(a, EEnter(l));
    Once(b, EMake(l, r));
    assert run + Making(l, r) == c;
    Admitted(s, l, Finite);
    Enters(Reached(a), l, Finite);
    MakesOne(Reached(b), l, r);
    HandsOn(c, l, m, r);
  }

  lemma HandsOn(run: seq<Event>, l: Lease, m: Lease, r: Resource)
    requires Owns(Reached(run), l, Local(Finite, InBody, None, Some(r), false), None) && m !in Reached(run).granted
    ensures Owns(Reached(run + Offer(l) + Taking(m)), m, Local(Synthesis, InBody, Some(r), None, false), None)
  {
    hide Step, Reached, Owns;
    var d := run + [EBeginOffer(l), EPublish(l)];
    var e := d + [EUnwind(l), ELeave(l)];
    var f := e + [ERelease(l)];
    var g := f + [EAcquire(m, Synthesis, true), ECheckRetained(m, true)];
    Twice(run, EBeginOffer(l), EPublish(l));
    Twice(d, EUnwind(l), ELeave(l));
    Once(e, ERelease(l));
    Twice(f, EAcquire(m, Synthesis, true), ECheckRetained(m, true));
    Once(g, ESanitized(m, true));
    assert run + Offer(l) == f && f + Taking(m) == g + [ESanitized(m, true)];
    OffersIt(Reached(run), l, r);
    LeavesIt(Reached(d), l, r);
    TakesIt(Reached(f), m, r);
  }
}
