/**
 The speech lane of `BridgeState`: the lease over the single realtime speech channel, the offer slot
 for a retained session, the cleanup tasks of closed ones, and the requests that make such sessions.

 Each await-free stretch is one step; a request inside the lease is an entry of `leases`. Any step may
 be followed by any other, so a request may be cancelled at any of its awaits. Its cleanup is made of
 steps too: where that cleanup itself awaits, it can be cancelled in turn.
 */
module SpeechLane {
  import opened Wrappers

  type Lease = nat
  type Resource = nat

  /** Transcriptions make sessions, a synthesis may be handed one, a realtime session does neither. */
  datatype Kind = Finite | Streaming | Synthesis | Realtime

  /** Where a request inside the lease is. `Gathering` is the await in the streaming handler's `finally`. */
  datatype Stage = Taken | Sanitizing | Entering | InBody | Offering | Gathering | Ended | Leaving

  /** `retained` is the session it was handed, `made` the one it made and has not handed on. */
  datatype Local = Local(kind: Kind, stage: Stage, retained: Option<Resource>, made: Option<Resource>, promoted: bool)

  datatype State = State(
    owner: Option<Lease>,
    offer: Option<Resource>,
    cleanup: set<Resource>,           // `_speech_cleanup_tasks`, named by their resource
    closeTasks: set<Resource>,        // resources whose one close task exists
    active: bool,                     // `_speech_session_active`
    leases: map<Lease, Local>,
    granted: set<Lease>,              // history: leases ever granted
    made: map<Resource, Kind>,        // history: sessions ever made, and by which kind of request
    bodyClosed: set<Resource>,        // history: closed by the body of the request that held them
    finished: set<Resource>,          // history: closes that have finished
    abandoned: set<Resource>,         // history: dropped by a cancelled gather
    closeStarts: multiset<Resource>)  // history: how often a close was started

  function Init(): State { State(None, None, {}, {}, false, map[], {}, map[], {}, {}, {}, multiset{}) }

  function Refresh(s: State): State { s.(active := s.owner.Some? || s.cleanup != {}) }

  /** `_track_speech_cleanup`: the memoised close task, tracked until it finishes. */
  function Track(s: State, r: Resource): State {
    Refresh(s.(cleanup := s.cleanup + {r}, closeTasks := s.closeTasks + {r},
               closeStarts := if r in s.closeTasks then s.closeStarts else s.closeStarts + multiset{r}))
  }

  function SetLocal(s: State, l: Lease, x: Local): State { s.(leases := s.leases[l := x]) }

  function MarkBodyClosed(s: State, r: Resource): State { s.(bodyClosed := s.bodyClosed + {r}) }

  datatype Admission = Busy | MustWait | Granted

  function Admit(s: State): Admission {
    if s.owner.Some? then Busy else if s.cleanup != {} then MustWait else Granted
  }

  /** The locked region of `speech_session_lease`; only a synthesis brings a handoff token. */
  function Acquire(s: State, l: Lease, kind: Kind, compatible: bool): State {
    if !Admit(s).Granted? || l in s.granted then s
    else
      var s1 := Refresh(s.(owner := Some(l))).(offer := None, granted := s.granted + {l});
      if s.offer.None? then SetLocal(s1, l, Local(kind, Entering, None, None, false))
      else if kind.Synthesis? && compatible then SetLocal(s1, l, Local(kind, Taken, s.offer, None, false))
      else SetLocal(Track(s1, s.offer.value), l, Local(kind, Entering, None, None, false))
  }

  /** The watchdog was cancelled; the session may have gone stale meanwhile. */
  function CheckRetained(s: State, l: Lease, good: bool): State {
    if l !in s.leases || !s.leases[l].stage.Taken? || s.leases[l].retained.None? then s
    else if good then SetLocal(s, l, s.leases[l].(stage := Sanitizing))
    else SetLocal(Track(s, s.leases[l].retained.value), l, s.leases[l].(stage := Entering, retained := None))
  }

  function Sanitized(s: State, l: Lease, good: bool): State {
    if l !in s.leases || !s.leases[l].stage.Sanitizing? || s.leases[l].retained.None? then s
    else if good then SetLocal(s, l, s.leases[l].(stage := InBody))
    else SetLocal(Track(s, s.leases[l].retained.value), l, s.leases[l].(stage := Entering, retained := None))
  }

  function Enter(s: State, l: Lease): State {
    if l !in s.leases || !s.leases[l].stage.Entering? then s
    else SetLocal(s, l, s.leases[l].(stage := InBody))
  }

  predicate MayMake(x: Local) {
    && (x.kind.Finite? || x.kind.Streaming?)
    && (x.stage.InBody? || (x.stage.Gathering? && x.kind.Streaming?))
    && x.made.None? && !x.promoted
  }

  /** A transcription keeps its session to hand it on; a streaming one may finish as late as the gather. */
  function Make(s: State, l: Lease, r: Resource): State {
    if l !in s.leases || !MayMake(s.leases[l]) || r in s.made then s
    else SetLocal(s.(made := s.made[r := s.leases[l].kind]), l, s.leases[l].(made := Some(r)))
  }

  /** The first locked region of `offer_speech_session`. */
  function BeginOffer(s: State, l: Lease): State {
    if l !in s.leases || !s.leases[l].stage.InBody? || s.leases[l].made.None? then s
    else
      var s1 := s.(offer := None);
      SetLocal(if s.offer.Some? then Track(s1, s.offer.value) else s1, l, s.leases[l].(stage := Offering))
  }

  /** The second one publishes the offer. */
  function Publish(s: State, l: Lease): State {
    if l !in s.leases || !s.leases[l].stage.Offering? || s.leases[l].made.None? then s
    else SetLocal(s.(offer := s.leases[l].made), l, s.leases[l].(stage := InBody, made := None, promoted := true))
  }

  /** `run_session` closes the session it was handed; the lease keeps its own reference. */
  function BodyClose(s: State, l: Lease): State {
    if l !in s.leases || !s.leases[l].stage.InBody? || s.leases[l].retained.None? then s
    else MarkBodyClosed(Track(s, s.leases[l].retained.value), s.leases[l].retained.value)
  }

  /**
   The body is left, by return, exception or cancellation. A finite transcription closes what it has not
   handed on before it awaits anything; a streaming one closes it here only if the offer itself failed.
   */
  function Unwind(s: State, l: Lease): State {
    if l !in s.leases || !(s.leases[l].stage.InBody? || s.leases[l].stage.Offering?) then s
    else
      var x := s.leases[l];
      if x.kind.Streaming? then
        var t := if x.stage.Offering? && x.made.Some? then MarkBodyClosed(Track(s, x.made.value), x.made.value) else s;
        SetLocal(t, l, x.(stage := Gathering))
      else
        SetLocal(if x.made.Some? then Track(s, x.made.value) else s, l, x.(stage := Ended, made := None))
  }

  /** The gather returned: an outcome that was not handed on is closed. */
  function Gathered(s: State, l: Lease): State {
    if l !in s.leases || !s.leases[l].stage.Gathering? then s
    else
      var x := s.leases[l];
      SetLocal(if x.made.Some? then Track(s, x.made.value) else s, l, x.(stage := Ended, made := None))
  }

  /** The handler is cancelled at the gather: the close after it is skipped. */
  function GatherCancelled(s: State, l: Lease): State {
    if l !in s.leases || !s.leases[l].stage.Gathering? then s
    else
      var x := s.leases[l];
      var lost := if x.made.Some? && x.made.value !in s.closeTasks then {x.made.value} else {};
      SetLocal(s.(abandoned := s.abandoned + lost), l, x.(stage := Ended, made := None))
  }

  predicate MayLeave(x: Local) { x.stage.Taken? || x.stage.Sanitizing? || x.stage.Entering? || x.stage.Ended? }

  /** The `finally` of the lease: first the retained session is closed, ... */
  function Leave(s: State, l: Lease): State {
    if l !in s.leases || !MayLeave(s.leases[l]) then s
    else
      var x := s.leases[l];
      SetLocal(if x.retained.Some? then Track(s, x.retained.value) else s, l, x.(stage := Leaving, retained := None))
  }

  /** ... then the owner is cleared. */
  function Release(s: State, l: Lease): State {
    if l !in s.leases || !s.leases[l].stage.Leaving? then s
    else Refresh(s.(owner := if s.owner == Some(l) then None else s.owner, leases := s.leases - {l}))
  }

  /** Release by token or expiry, invalidation by the watchdog of this offer, and shutdown. */
  function Withdraw(s: State, r: Resource): State {
    if s.offer != Some(r) then s else Track(s.(offer := None), r)
  }

  function CleanupFinished(s: State, r: Resource): State {
    if r !in s.cleanup then s else Refresh(s.(cleanup := s.cleanup - {r}, finished := s.finished + {r}))
  }

  datatype Event =
    | EAcquire(l: Lease, kind: Kind, compatible: bool)
    | ECheckRetained(l: Lease, good: bool)
    | ESanitized(l: Lease, good: bool)
    | EEnter(l: Lease)
    | EMake(l: Lease, r: Resource)
    | EBeginOffer(l: Lease)
    | EPublish(l: Lease)
    | EBodyClose(l: Lease)
    | EUnwind(l: Lease)
    | EGathered(l: Lease)
    | EGatherCancelled(l: Lease)
    | ELeave(l: Lease)
    | ERelease(l: Lease)
    | EWithdraw(r: Resource)
    | ECleanupFinished(r: Resource)

  function Step(s: State, e: Event): State {
    match e
    case EAcquire(l, kind, compatible) => Acquire(s, l, kind, compatible)
    case ECheckRetained(l, good) => CheckRetained(s, l, good)
    case ESanitized(l, good) => Sanitized(s, l, good)
    case EEnter(l) => Enter(s, l)
    case EMake(l, r) => Make(s, l, r)
    case EBeginOffer(l) => BeginOffer(s, l)
    case EPublish(l) => Publish(s, l)
    case EBodyClose(l) => BodyClose(s, l)
    case EUnwind(l) => Unwind(s, l)
    case EGathered(l) => Gathered(s, l)
    case EGatherCancelled(l) => GatherCancelled(s, l)
    case ELeave(l) => Leave(s, l)
    case ERelease(l) => Release(s, l)
    case EWithdraw(r) => Withdraw(s, r)
    case ECleanupFinished(r) => CleanupFinished(s, r)
  }

  function Reached(run: seq<Event>): State {
    if run == [] then Init() else Step(Reached(run[..|run| - 1]), run[|run| - 1])
  }

  // ----- the invariant -----

  /** The lease that owns the lane holds the session in one of its two variables. */
  predicate Held(s: State, r: Resource) {
    && s.owner.Some? && s.owner.value in s.leases
    && (s.leases[s.owner.value].retained == Some(r) || s.leases[s.owner.value].made == Some(r))
  }

  /** In how many of the three places a session is: the offer slot, the lease, its close task. */
  function Holders(s: State, r: Resource): nat {
    (if s.offer == Some(r) then 1 else 0) + (if Held(s, r) then 1 else 0) + (if r in s.closeTasks then 1 else 0)
  }

  ghost predicate LocalOk(x: Local) {
    && (x.retained.Some? ==> x.kind.Synthesis?)
    && (x.made.Some? ==> (x.kind.Finite? || x.kind.Streaming?) && !x.promoted)
    && (x.stage.Taken? || x.stage.Sanitizing? ==> x.retained.Some?)
    && (x.stage.Offering? ==> x.made.Some?)
    && (x.stage.Gathering? ==> x.kind.Streaming?)
    && (x.promoted ==> x.stage.InBody? || x.stage.Gathering? || x.stage.Ended? || x.stage.Leaving?)
    && (x.made.Some? ==> x.stage.InBody? || x.stage.Offering? || x.stage.Gathering?)
    && (x.stage.Leaving? ==> x.retained.None?)
  }

  ghost predicate Exclusive(s: State) {
    && (forall l | l in s.leases :: s.owner == Some(l) && l in s.granted && LocalOk(s.leases[l]))
    && (s.owner.Some? ==> s.owner.value in s.leases)
    && (s.owner.Some? && s.offer.Some? ==> s.leases[s.owner.value].promoted)
    && s.active == (s.owner.Some? || s.cleanup != {})
  }

  ghost predicate Placed(s: State, r: Resource) {
    && (r in s.made <==> s.offer == Some(r) || Held(s, r) || r in s.closeTasks || r in s.abandoned)
    && (s.offer == Some(r) ==> !Held(s, r) && r !in s.closeTasks && r !in s.abandoned)
    && (Held(s, r) ==> (r in s.closeTasks <==> r in s.bodyClosed) && r !in s.abandoned)
    && (r in s.abandoned ==> r !in s.closeTasks && s.made[r].Streaming?)
    && (r in s.bodyClosed ==> r in s.closeTasks)
    && (s.owner.Some? && s.owner.value in s.leases && s.leases[s.owner.value].made == Some(r) ==>
          s.made[r] == s.leases[s.owner.value].kind && (r in s.closeTasks ==> s.leases[s.owner.value].stage.Gathering?))
  }

  ghost predicate Closes(s: State) {
    && s.closeTasks == s.finished + s.cleanup
    && (forall r: Resource :: s.closeStarts[r] == if r in s.closeTasks then 1 else 0)
  }

  ghost predicate AllPlaced(s: State) { forall r: Resource :: Placed(s, r) }

  ghost predicate Inv(s: State) { Exclusive(s) && AllPlaced(s) && Closes(s) }

  lemma InitInv() ensures Inv(Init()) {}

  lemma TrackCloses(s: State, r: Resource)
    requires Closes(s)
    ensures Closes(Track(s, r))
  {}

  lemma AcquireKeeps(s: State, l: Lease, kind: Kind, compatible: bool)
    requires Inv(s)
    ensures Inv(Acquire(s, l, kind, compatible))
  {
    if !Admit(s).Granted? || l in s.granted { return; }
    var t := Acquire(s, l, kind, compatible);
    forall r: Resource ensures Placed(t, r) { assert Placed(s, r); }
  }

  lemma CheckKeeps(s: State, l: Lease, good: bool)
    requires Inv(s)
    ensures Inv(CheckRetained(s, l, good))
  {
    if l !in s.leases { return; }
    forall r: Resource ensures Placed(CheckRetained(s, l, good), r) { assert Placed(s, r); }
  }

  lemma SanitizedKeeps(s: State, l: Lease, good: bool)
    requires Inv(s)
    ensures Inv(Sanitized(s, l, good)) && Inv(Enter(s, l))
  {
    if l !in s.leases { return; }
    forall r: Resource ensures Placed(Sanitized(s, l, good), r) && Placed(Enter(s, l), r) { assert Placed(s, r); }
  }

  lemma MakeKeeps(s: State, l: Lease, q: Resource)
    requires Inv(s)
    ensures Inv(Make(s, l, q))
  {
    if l !in s.leases || !MayMake(s.leases[l]) || q in s.made { return; }
    assert Placed(s, q);
    forall r: Resource ensures Placed(Make(s, l, q), r) { assert Placed(s, r); }
  }

  lemma OfferKeeps(s: State, l: Lease)
    requires Inv(s)
    ensures Inv(BeginOffer(s, l)) && Inv(Publish(s, l)) && Inv(BodyClose(s, l))
  {
    if l !in s.leases { return; }
    forall r: Resource
      ensures Placed(BeginOffer(s, l), r) && Placed(Publish(s, l), r) && Placed(BodyClose(s, l), r)
    {
      assert Placed(s, r);
    }
  }

  lemma UnwindKeeps(s: State, l: Lease)
    requires Inv(s)
    ensures Inv(Unwind(s, l))
  {
    if l !in s.leases || !(s.leases[l].stage.InBody? || s.leases[l].stage.Offering?) { return; }
    if s.leases[l].made.None? {
      forall r: Resource ensures Placed(Unwind(s, l), r) { assert Placed(s, r); }
      return;
    }
    assert Placed(s, s.leases[l].made.value);
    forall r: Resource ensures Placed(Unwind(s, l), r) { assert Placed(s, r); }
  }

  lemma GatherKeeps(s: State, l: Lease)
    requires Inv(s)
    ensures Inv(Gathered(s, l)) && Inv(GatherCancelled(s, l))
  {
    if l !in s.leases { return; }
    forall r: Resource ensures Placed(Gathered(s, l), r) && Placed(GatherCancelled(s, l), r) { assert Placed(s, r); }
  }

  lemma LeaveKeeps(s: State, l: Lease)
    requires Inv(s)
    ensures Inv(Leave(s, l)) && Inv(Release(s, l))
  {
    if l !in s.leases { return; }
    forall r: Resource ensures Placed(Leave(s, l), r) && Placed(Release(s, l), r) { assert Placed(s, r); }
  }

  lemma CleanupKeeps(s: State, q: Resource)
    requires Inv(s)
    ensures Inv(Withdraw(s, q)) && Inv(CleanupFinished(s, q))
  {
    forall r: Resource ensures Placed(Withdraw(s, q), r) && Placed(CleanupFinished(s, q), r) { assert Placed(s, r); }
  }

  lemma StepKeeps(s: State, e: Event)
    requires Inv(s)
    ensures Inv(Step(s, e))
  {
    hide Inv, Acquire, CheckRetained, Sanitized, Enter, Make, BeginOffer, Publish, BodyClose, Unwind, Gathered,
      GatherCancelled, Leave, Release, Withdraw, CleanupFinished;
    match e
    case EAcquire(l, kind, compatible) => AcquireKeeps(s, l, kind, compatible);
    case ECheckRetained(l, good) => CheckKeeps(s, l, good);
    case ESanitized(l, good) => SanitizedKeeps(s, l, good);
    case EEnter(l) => SanitizedKeeps(s, l, true);
    case EMake(l, r) => MakeKeeps(s, l, r);
    case EBeginOffer(l) => OfferKeeps(s, l);
    case EPublish(l) => OfferKeeps(s, l);
    case EBodyClose(l) => OfferKeeps(s, l);
    case EUnwind(l) => UnwindKeeps(s, l);
    case EGathered(l) => GatherKeeps(s, l);
    case EGatherCancelled(l) => GatherKeeps(s, l);
    case ELeave(l) => LeaveKeeps(s, l);
    case ERelease(l) => LeaveKeeps(s, l);
    case EWithdraw(r) => CleanupKeeps(s, r);
    case ECleanupFinished(r) => CleanupKeeps(s, r);
  }

  lemma {:induction false} ReachedKeeps(run: seq<Event>)
    ensures Inv(Reached(run))
  {
    hide Inv, Step;
    if run == [] { InitInv(); } else {
      ReachedKeeps(run[..|run| - 1]);
      StepKeeps(Reached(run[..|run| - 1]), run[|run| - 1]);
    }
  }

  // ----- lost sessions -----

  /** The handler of `l` is cancelled at its gather while it has session `r`, which nothing has closed yet. */
  predicate LosesAtGather(s: State, e: Event, r: Resource) {
    && e.EGatherCancelled? && e.l in s.leases && s.leases[e.l].stage.Gathering?
    && s.leases[e.l].made == Some(r) && r !in s.closeTasks
  }

  /** Some step of a run is such a cancellation. */
  predicate Lost(run: seq<Event>, r: Resource) {
    exists k: nat :: k < |run| && LosesAtGather(Reached(run[..k]), run[k], r)
  }

  lemma AbandonedByStep(s: State, e: Event, r: Resource)
    ensures r in Step(s, e).abandoned <==> r in s.abandoned || LosesAtGather(s, e, r)
  {}

  lemma {:induction false} AbandonedIsLost(run: seq<Event>, r: Resource)
    ensures r in Reached(run).abandoned <==> Lost(run, r)
  {
    hide Step, LosesAtGather;
    if run == [] { assert !Lost(run, r); return; }
    var front, n := run[..|run| - 1], |run| - 1;
    AbandonedIsLost(front, r);
    AbandonedByStep(Reached(front), run[n], r);
    assert forall k: nat :: k <= n ==> front[..k] == run[..k];
    assert forall k: nat :: k < n ==> front[k] == run[k];
    if LosesAtGather(Reached(front), run[n], r) { assert LosesAtGather(Reached(run[..n]), run[n], r); }
    if Lost(front, r) {
      var k: nat :| k < n && LosesAtGather(Reached(front[..k]), front[k], r);
      assert LosesAtGather(Reached(run[..k]), run[k], r);
    }
    if Lost(run, r) {
      var k: nat :| k < |run| && LosesAtGather(Reached(run[..k]), run[k], r);
      if k < n { assert LosesAtGather(Reached(front[..k]), front[k], r); }
    }
  }

  // ----- what the lane guarantees -----

  /** At most one request is inside the lease, and it is the owner. */
  lemma LeaseIsExclusive(run: seq<Event>, l: Lease, m: Lease)
    requires l in Reached(run).leases && m in Reached(run).leases
    ensures l == m && Reached(run).owner == Some(l)
  {
    ReachedKeeps(run);
  }

  /**
   When a lease is granted, every close that ever started has finished, and every session ever made is
   finished, lost, or the offer, which goes to the new lease or into cleanup.
   */
  lemma GrantFindsAllClosed(run: seq<Event>, e: Event, l: Lease)
    requires l !in Reached(run).leases && l in Step(Reached(run), e).leases
    ensures var s, t := Reached(run), Step(Reached(run), e);
      && s.closeTasks <= s.finished
      && (forall r: Resource :: r in s.made ==> r in s.finished || Lost(run, r) || s.offer == Some(r))
      && (s.offer.Some? ==> s.offer.value in t.cleanup || t.leases[l].retained == s.offer)
      && (forall r: Resource :: r in t.made && !Held(t, r) && r !in t.cleanup ==> r in t.finished || Lost(run, r))
  {
    ReachedKeeps(run);
    var s, t := Reached(run), Step(Reached(run), e);
    hide Reached, Lost;
    assert e.EAcquire? && Admit(s).Granted? && e.l == l;
    forall r: Resource
      ensures r in s.made ==> r in s.finished || Lost(run, r) || s.offer == Some(r)
      ensures r in t.made && !Held(t, r) && r !in t.cleanup ==> r in t.finished || Lost(run, r)
    {
      AbandonedIsLost(run, r);
      assert Placed(s, r);
    }
  }

  /**
   A session is in no place exactly when it was lost, and in two exactly while a lease holds it whose own
   body has closed it; the second place is then its close task.
   */
  lemma SessionPlaces(run: seq<Event>, r: Resource)
    requires r in Reached(run).made
    ensures var s := Reached(run);
      && Holders(s, r) <= 2
      && (Holders(s, r) == 0 <==> Lost(run, r))
      && (Holders(s, r) == 2 <==> Held(s, r) && r in s.bodyClosed)
      && (Holders(s, r) == 2 ==> r in s.closeTasks && s.offer != Some(r))
  {
    ReachedKeeps(run);
    AbandonedIsLost(run, r);
    hide Reached, Lost;
    assert Placed(Reached(run), r);
  }

  /** Nothing but a session that was made is anywhere. */
  lemma OnlyMadeSessions(run: seq<Event>, r: Resource)
    requires Holders(Reached(run), r) > 0
    ensures r in Reached(run).made
  {
    ReachedKeeps(run);
    assert Placed(Reached(run), r);
  }

  /** The close of a session starts at most once, also when its lease closes it after its body did. */
  lemma CloseStartsAtMostOnce(run: seq<Event>, r: Resource)
    ensures Reached(run).closeStarts[r] == if r in Reached(run).closeTasks then 1 else 0
  {
    ReachedKeeps(run);
  }

  /** A session leaving the offer slot goes in the same step to a new lease or to cleanup, never both. */
  lemma OfferGoesToOne(run: seq<Event>, e: Event, r: Resource)
    requires Reached(run).offer == Some(r) && Step(Reached(run), e).offer != Some(r)
    ensures var s, t := Reached(run), Step(Reached(run), e);
      && t.offer.None?
      && (if e.EAcquire? && e.kind.Synthesis? && e.compatible then
            s.owner.None? && t.owner == Some(e.l) && t.leases[e.l].retained == Some(r) && r !in t.closeTasks
          else r in t.cleanup && r !in s.closeTasks && t.closeStarts == s.closeStarts + multiset{r})
  {
    ReachedKeeps(run);
    var s := Reached(run);
    hide Reached;
    assert Placed(s, r);
  }

  /** The lane is reported active exactly while it is owned or being cleaned up. */
  lemma ActiveFlagIsExact(run: seq<Event>)
    ensures Reached(run).active <==> Reached(run).owner.Some? || Reached(run).cleanup != {}
  {
    ReachedKeeps(run);
  }

  /** An offer never replaces another: the lease that makes one has already taken the slot's. */
  lemma NoOfferIsReplaced(run: seq<Event>, l: Lease)
    requires var s := Reached(run); l in s.leases && s.leases[l].made.Some?
    ensures Reached(run).offer.None?
  {
    ReachedKeeps(run);
  }

  /**
   With the lane idle, a session is left unclosed exactly when its handler was cancelled at that gather;
   its request was then a streaming transcription, and its close can never start.
   */
  lemma LeaksIffGatherCancelled(run: seq<Event>, r: Resource)
    requires Reached(run).owner.None? && Reached(run).offer.None? && r in Reached(run).made
    ensures r !in Reached(run).closeTasks <==> Lost(run, r)
    ensures Lost(run, r) ==> Reached(run).made[r].Streaming?
  {
    ReachedKeeps(run);
    AbandonedIsLost(run, r);
    hide Reached, Lost;
    assert Placed(Reached(run), r);
  }

  /** Whatever was cancelled, with the lane idle every session of a finite transcription has been closed. */
  lemma FiniteNeverLeaks(run: seq<Event>, r: Resource)
    requires Reached(run).owner.None? && Reached(run).offer.None?
    requires r in Reached(run).made && Reached(run).made[r].Finite?
    ensures r in Reached(run).closeTasks
  {
    LeaksIffGatherCancelled(run, r);
  }

  /** A lost session stays lost: no later step starts its close. */
  lemma LostIsForever(run: seq<Event>, r: Resource)
    requires Lost(run, r)
    ensures r !in Reached(run).closeTasks && Holders(Reached(run), r) == 0
  {
    ReachedKeeps(run);
    AbandonedIsLost(run, r);
    hide Reached, Lost;
    assert Placed(Reached(run), r);
  }

  lemma {:induction false} Twice(run: seq<Event>, e: Event, f: Event)
    ensures Reached(run + [e, f]) == Step(Step(Reached(run), e), f)
  {
    hide Step;
    assert (run + [e, f])[..|run| + 1] == run + [e] && (run + [e])[..|run|] == run;
  }

  /** A request is admitted to an idle lane and its body begins. */
  lemma Enters(kind: Kind)
    ensures Reached([EAcquire(0, kind, false), EEnter(0)])
      == Init().(owner := Some(0), active := true, granted := {0},
                 leases := map[0 := Local(kind, InBody, None, None, false)])
  {
    hide Reached;
    var s := Init().(owner := Some(0), active := true, granted := {0},
                     leases := map[0 := Local(kind, Entering, None, None, false)]);
    Twice([], EAcquire(0, kind, false), EEnter(0));
    assert Reached([]) == Init() by { ReachedNil(); }
    assert [] + [EAcquire(0, kind, false), EEnter(0)] == [EAcquire(0, kind, false), EEnter(0)];
    assert Step(Init(), EAcquire(0, kind, false)) == s;
  }

  /** A transcription is admitted to an idle lane, makes session 7, and its body takes one more step. */
  lemma MakesOne(kind: Kind, e: Event)
    requires kind.Finite? || kind.Streaming?
    ensures var s := Init().(owner := Some(0), active := true, granted := {0}, made := map[7 := kind],
                             leases := map[0 := Local(kind, InBody, None, Some(7), false)]);
      Reached([EAcquire(0, kind, false), EEnter(0), EMake(0, 7), e]) == Step(s, e)
  {
    hide Reached, Step;
    var run := [EAcquire(0, kind, false), EEnter(0)];
    Enters(kind);
    Twice(run, EMake(0, 7), e);
    assert run + [EMake(0, 7), e] == [EAcquire(0, kind, false), EEnter(0), EMake(0, 7), e];
    MakesStep(kind);
  }

  lemma MakesStep(kind: Kind)
    requires kind.Finite? || kind.Streaming?
    ensures var s := Init().(owner := Some(0), active := true, granted := {0},
                             leases := map[0 := Local(kind, InBody, None, None, false)]);
      Step(s, EMake(0, 7)) == s.(made := map[7 := kind], leases := map[0 := Local(kind, InBody, None, Some(7), false)])
  {}

  lemma ReachedNil() ensures Reached([]) == Init() {}

  function LeakingRun(): seq<Event> {
    [EAcquire(0, Streaming, false), EEnter(0), EMake(0, 7), EUnwind(0)] + [EGatherCancelled(0), ELeave(0)]
  }

  /** The device cancels as the transcription finishes, then the handler is cancelled at the gather. */
  lemma CancelledGatherLeaks()
    ensures var s := Reached(LeakingRun() + [ERelease(0)]);
      s.owner.None? && s.offer.None? && s.cleanup == {} && !s.active && 7 in s.made && 7 !in s.closeTasks
  {
    hide Reached;
    MakesOne(Streaming, EUnwind(0));
    Twice([EAcquire(0, Streaming, false), EEnter(0), EMake(0, 7), EUnwind(0)], EGatherCancelled(0), ELeave(0));
    var s := Init().(owner := Some(0), active := true, granted := {0}, made := map[7 := Streaming],
                     leases := map[0 := Local(Streaming, Gathering, None, Some(7), false)]);
    var t := s.(abandoned := {7}, leases := map[0 := Local(Streaming, Leaving, None, None, false)]);
    assert Step(s, EGatherCancelled(0)) == t.(leases := map[0 := Local(Streaming, Ended, None, None, false)]);
    assert Reached(LeakingRun()) == t;
    Once(LeakingRun(), ERelease(0));
  }

  lemma Once(run: seq<Event>, e: Event)
    ensures Reached(run + [e]) == Step(Reached(run), e)
  {
    assert (run + [e])[..|run|] == run;
  }

  function HandedOnRun(): seq<Event> {
    [EAcquire(0, Finite, false), EEnter(0), EMake(0, 7), EBeginOffer(0)] + [EPublish(0), EUnwind(0)]
    + [ELeave(0), ERelease(0)]
  }

  /** A finite transcription hands its session on and leaves the lane idle with the offer in its slot. */
  lemma HandedOn()
    ensures Reached(HandedOnRun()) == Init().(offer := Some(7), granted := {0}, made := map[7 := Finite])
  {
    hide Reached;
    MakesOne(Finite, EBeginOffer(0));
    var run := [EAcquire(0, Finite, false), EEnter(0), EMake(0, 7), EBeginOffer(0)];
    var s := Init().(owner := Some(0), active := true, granted := {0}, made := map[7 := Finite],
                     leases := map[0 := Local(Finite, Offering, None, Some(7), false)]);
    var t := s.(offer := Some(7), leases := map[0 := Local(Finite, InBody, None, None, true)]);
    Twice(run, EPublish(0), EUnwind(0));
    assert Step(s, EPublish(0)) == t;
    assert Reached(run + [EPublish(0), EUnwind(0)]) == t.(leases := map[0 := Local(Finite, Ended, None, None, true)]);
    Twice(run + [EPublish(0), EUnwind(0)], ELeave(0), ERelease(0));
    assert Reached(HandedOnRun()) == t.(owner := None, active := false, leases := map[]);
  }

  function BodyClosesRun(): seq<Event> {
    HandedOnRun() + [EAcquire(1, Synthesis, true), ECheckRetained(1, true)] + [ESanitized(1, true), EBodyClose(1)]
  }

  /** A synthesis closes the session it was handed, and the lease closes it again: one close task. */
  lemma BodyAndLeaseBothClose()
    ensures var s, t := Reached(BodyClosesRun()), Reached(BodyClosesRun() + [EUnwind(1), ELeave(1)]);
      && Holders(s, 7) == 2 && s.owner == Some(1) && 1 in s.leases && s.leases[1].retained == Some(7)
      && Holders(t, 7) == 1 && t.closeStarts == multiset{7}
  {
    hide Reached;
    HandedOn();
    var local := Local(Synthesis, Taken, Some(7), None, false);
    var s := Init().(granted := {0, 1}, made := map[7 := Finite], owner := Some(1), active := true,
                     leases := map[1 := local]);
    Twice(HandedOnRun(), EAcquire(1, Synthesis, true), ECheckRetained(1, true));
    assert Step(Reached(HandedOnRun()), EAcquire(1, Synthesis, true)) == s;
    var run := HandedOnRun() + [EAcquire(1, Synthesis, true), ECheckRetained(1, true)];
    assert Reached(run) == s.(leases := map[1 := local.(stage := Sanitizing)]);
    Twice(run, ESanitized(1, true), EBodyClose(1));
    assert Step(Reached(run), ESanitized(1, true)) == s.(leases := map[1 := local.(stage := InBody)]);
    var t := s.(cleanup := {7}, closeTasks := {7}, closeStarts := multiset{7}, bodyClosed := {7});
    assert Reached(BodyClosesRun()) == t.(leases := map[1 := local.(stage := InBody)]);
    Twice(BodyClosesRun(), EUnwind(1), ELeave(1));
    assert Step(Reached(BodyClosesRun()), EUnwind(1)) == t.(leases := map[1 := local.(stage := Ended)]);
  }

  // ----- the lane object -----

  /** The speech fields of `BridgeState`, and the local variables of the requests inside the lease. */
  class BridgeState {
    var speechOwner: Option<Lease>
    var speechOffer: Option<Resource>
    var cleanupTasks: set<Resource>
    var closeTasks: set<Resource>
    var speechActive: bool
    var leases: map<Lease, Local>
    ghost var granted: set<Lease>
    ghost var made: map<Resource, Kind>
    ghost var bodyClosed: set<Resource>
    ghost var finished: set<Resource>
    ghost var abandoned: set<Resource>
    ghost var closeStarts: multiset<Resource>

    ghost function View(): State
      reads this
    {
      State(speechOwner, speechOffer, cleanupTasks, closeTasks, speechActive, leases, granted, made, bodyClosed,
            finished, abandoned, closeStarts)
    }

    constructor ()
      ensures View() == Init()
    {
      speechOwner, speechOffer, cleanupTasks, closeTasks, speechActive := None, None, {}, {}, false;
      leases, granted, made, closeStarts := map[], {}, map[], multiset{};
      bodyClosed, finished, abandoned := {}, {}, {};
    }

    method RefreshActive()
      modifies `speechActive
      ensures View() == Refresh(old(View()))
    {
      speechActive := speechOwner.Some? || cleanupTasks != {};
    }

    method TrackCleanup(r: Resource)
      modifies `cleanupTasks, `closeTasks, `closeStarts, `speechActive
      ensures View() == Track(old(View()), r)
    {
      if r !in closeTasks {
        closeTasks := closeTasks + {r};
        closeStarts := closeStarts + multiset{r};
      }
      if r !in cleanupTasks { cleanupTasks := cleanupTasks + {r}; }
      RefreshActive();
    }

    method TryAcquire(l: Lease, kind: Kind, compatible: bool) returns (admission: Admission)
      requires l !in granted
      modifies this
      ensures View() == Step(old(View()), EAcquire(l, kind, compatible)) && admission == Admit(old(View()))
    {
      if speechOwner.Some? { return Busy; }
      if cleanupTasks != {} { return MustWait; }
      speechOwner := Some(l);
      granted := granted + {l};
      RefreshActive();
      var offer := speechOffer;
      speechOffer := None;
      var retained := None;
      if offer.Some? {
        if kind.Synthesis? && compatible { retained := offer; } else { TrackCleanup(offer.value); }
      }
      leases := leases[l := Local(kind, if retained.Some? then Taken else Entering, retained, None, false)];
      return Granted;
    }

    /** The retained session proved stale: it is closed and the lease goes on without it. */
    method GiveUpRetained(l: Lease)
      requires l in leases && leases[l].retained.Some? && (leases[l].stage.Taken? || leases[l].stage.Sanitizing?)
      modifies this
      ensures View()
        == Step(old(View()), if old(leases)[l].stage.Taken? then ECheckRetained(l, false) else ESanitized(l, false))
    {
      TrackCleanup(leases[l].retained.value);
      leases := leases[l := leases[l].(stage := Entering, retained := None)];
    }

    method BeginOfferSession(l: Lease)
      requires l in leases && leases[l].stage.InBody? && leases[l].made.Some?
      modifies this
      ensures View() == Step(old(View()), EBeginOffer(l))
    {
      var replaced := speechOffer;
      speechOffer := None;
      if replaced.Some? { TrackCleanup(replaced.value); }
      leases := leases[l := leases[l].(stage := Offering)];
    }

    method PublishOffer(l: Lease)
      requires l in leases && leases[l].stage.Offering? && leases[l].made.Some?
      modifies this
      ensures View() == Step(old(View()), EPublish(l))
    {
      speechOffer := leases[l].made;
      leases := leases[l := leases[l].(stage := InBody, made := None, promoted := true)];
    }

    method WithdrawOffer(r: Resource)
      modifies this
      ensures View() == Step(old(View()), EWithdraw(r))
    {
      if speechOffer != Some(r) { return; }
      speechOffer := None;
      TrackCleanup(r);
    }

    /** The `finally` of `run_session` for a session it was handed. */
    method CloseInBody(l: Lease)
      requires l in leases && leases[l].stage.InBody? && leases[l].retained.Some?
      modifies this
      ensures View() == Step(old(View()), EBodyClose(l))
    {
      TrackCleanup(leases[l].retained.value);
      bodyClosed := bodyClosed + {leases[l].retained.value};
    }

    /** The `finally` of the finite handler. */
    method FinishFinite(l: Lease)
      requires l in leases && leases[l].kind.Finite? && (leases[l].stage.InBody? || leases[l].stage.Offering?)
      modifies this
      ensures View() == Step(old(View()), EUnwind(l))
    {
      var x := leases[l];
      if x.made.Some? { TrackCleanup(x.made.value); }
      leases := leases[l := x.(stage := Ended, made := None)];
    }

    /** The streaming handler on its way to the gather: a failed offer closes its session at once. */
    method UnwindStreaming(l: Lease)
      requires l in leases && leases[l].kind.Streaming? && (leases[l].stage.InBody? || leases[l].stage.Offering?)
      modifies this
      ensures View() == Step(old(View()), EUnwind(l))
    {
      var x := leases[l];
      if x.stage.Offering? && x.made.Some? {
        TrackCleanup(x.made.value);
        bodyClosed := bodyClosed + {x.made.value};
      }
      leases := leases[l := x.(stage := Gathering)];
    }

    /** The rest of the streaming handler's `finally`, unless the gather itself was cancelled. */
    method FinishGather(l: Lease, cancelled: bool)
      requires l in leases && leases[l].stage.Gathering?
      modifies this
      ensures View() == Step(old(View()), if cancelled then EGatherCancelled(l) else EGathered(l))
    {
      var x := leases[l];
      leases := leases[l := x.(stage := Ended, made := None)];
      if x.made.None? { return; }
      if cancelled {
        abandoned := abandoned + if x.made.value in closeTasks then {} else {x.made.value};
        return;
      }
      TrackCleanup(x.made.value);
    }

    method LeaveLease(l: Lease)
      requires l in leases && MayLeave(leases[l])
      modifies this
      ensures View() == Step(old(View()), ELeave(l))
    {
      if leases[l].retained.Some? { TrackCleanup(leases[l].retained.value); }
      leases := leases[l := leases[l].(stage := Leaving, retained := None)];
    }

    method ReleaseLease(l: Lease)
      requires l in leases && leases[l].stage.Leaving?
      modifies this
      ensures View() == Step(old(View()), ERelease(l))
    {
      if speechOwner == Some(l) { speechOwner := None; }
      leases := leases - {l};
      RefreshActive();
    }

    /** The done callback of a tracked close task. */
    method OnCleanupFinished(r: Resource)
      requires r in cleanupTasks
      modifies this
      ensures View() == Step(old(View()), ECleanupFinished(r))
    {
      cleanupTasks := cleanupTasks - {r};
      finished := finished + {r};
      RefreshActive();
    }
  }
}
