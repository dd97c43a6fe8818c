/**
 The tool session and the JSON-RPC client together: what answers one tool request, when the session's own
 response races the client's fallback timer.

 A response of the session calls the client's `_respond` in the stretch that claims it. A write that no
 activation tracks completes or fails on its own, as `written` says.
 */
module ToolResponses {
  import opened Wrappers
  import A = AppServerResponses
  import R = ToolRouter
  import T = ToolAuthority
  import W = ToolWire
  import B = ToolBroker

  type Id = R.RequestId

  datatype State = State(
    world: T.World,
    client: A.State,
    asked: map<Id, A.Activation>,   // history: requests broadcast to the session, and their latest activation
    arrivals: multiset<Id>,         // history: how often a request with this id has arrived
    untracked: multiset<Id>)        // history: untracked writes that completed

  datatype Event = ClientEvent(client: A.Event) | SessionEvent(session: T.Happening, written: bool)

  function Init(snapshot: Option<W.Snapshot>): State {
    State(T.InitWorld(snapshot), A.Init(), map[], multiset{}, multiset{})
  }

  predicate Arrives(e: A.Event) { e.EDeliver? || e.EUndelivered? || e.EOther? }

  function OnClient(s: State, e: A.Event): State {
    s.(client := A.Step(s.client, e),
       asked := if e.EDeliver? then s.asked[e.id := s.client.next] else s.asked,
       arrivals := if Arrives(e) then s.arrivals + multiset{e.id} else s.arrivals)
  }

  /** The session hears of a request only from the client's broadcast. */
  predicate Heard(s: State, h: T.Happening) { (h.Start? || h.RejectUnowned?) ==> h.request in s.asked }

  predicate Responds(w: T.World, h: T.Happening) { |T.Next(w, h).router.responses| > |w.router.responses| }

  /** The request the session's newest response is for. */
  function Answered(w: T.World, h: T.Happening): Id
    requires Responds(w, h)
  {
    var responses := T.Next(w, h).router.responses;
    responses[|responses| - 1].request
  }

  /** The session answers a request that no activation tracks and the retired list does not hold back. */
  predicate WritesUntracked(s: State, e: Event, q: Id) {
    && e.SessionEvent? && e.written && Heard(s, e.session) && Responds(s.world, e.session)
    && Answered(s.world, e.session) == q && A.RouteOf(s.client, q).Untracked?
  }

  function Step(s: State, e: Event): State {
    match e
    case ClientEvent(c) => OnClient(s, c)
    case SessionEvent(h, written) =>
      if !Heard(s, h) then s
      else
        s.(world := T.Next(s.world, h),
           untracked := if Responds(s.world, h) && WritesUntracked(s, e, Answered(s.world, h))
                        then s.untracked + multiset{Answered(s.world, h)} else s.untracked)
  }

  function Reached(snapshot: Option<W.Snapshot>, run: seq<Event>): State {
    if run == [] then Init(snapshot) else Step(Reached(snapshot, run[..|run| - 1]), run[|run| - 1])
  }

  /** The responses that went out for a request: its activation's commit, and untracked writes. */
  function Sent(s: State, q: Id): nat
    requires q in s.asked
  {
    s.client.commits[s.asked[q]] + s.untracked[q]
  }

  // ----- what the session answers -----

  /** Its responses and active requests are among those the session was asked. */
  ghost predicate Asked(r: R.Router, asked: set<Id>) {
    && r.active.Keys <= asked && r.tasks.Keys <= asked && forall x | x in r.responses :: x.request in asked
  }

  lemma RespondAsked(r: R.Router, q: Id, success: bool, body: R.Body, asked: set<Id>)
    requires Asked(r, asked) && q in asked
    ensures Asked(R.Respond(r, q, success, body), asked) && Asked(R.RespondAndEnd(r, q, success, body), asked)
    ensures Asked(R.RespondAndEnd(R.Trip(r), q, success, body), asked)
  {}

  lemma StartAsked(r: R.Router, q: Id, callId: string, name: Option<string>, json: Option<W.Json>, asked: set<Id>)
    requires Asked(r, asked) && q in asked
    ensures Asked(R.Start(r, q, callId, name, json), asked)
  {
    hide R.Rejection;
  }

  lemma EndsAsked(r: R.Router, q: Id, asked: set<Id>)
    requires Asked(r, asked)
    ensures Asked(R.Finish(r, q), asked) && Asked(R.CancelTask(r, q), asked) && Asked(R.Teardown(r, q), asked)
  {}

  lemma RunAsked(r: R.Router, q: Id, why: W.Refusal, id: W.CallId, asked: set<Id>)
    requires Asked(r, asked)
    ensures Asked(R.RunWithoutBroker(r, q), asked)
    ensures q in r.tasks ==> Asked(R.Refused(r, q, why), asked) && Asked(R.Called(r, q, id), asked)
  {
    hide R.Respond;
    var plan := R.PlanOf(r, q);
    if plan.Answer? { RespondAsked(r, q, false, R.Made(plan.error), asked); }
    if q in r.tasks { RefusalAsked(r, q, why, asked); }
  }

  lemma RefusalAsked(r: R.Router, q: Id, why: W.Refusal, asked: set<Id>)
    requires Asked(r, asked) && q in asked
    ensures Asked(R.Refused(r, q, why), asked)
  {
    hide Asked, R.RespondAndEnd, R.Trip;
    RespondAsked(r, q, false, R.Made("home_assistant_tool_outcome_unknown"), asked);
    RespondAsked(r, q, false, R.Made("home_assistant_tool_unavailable"), asked);
  }

  lemma CallEndAsked(r: R.Router, q: Id, ending: W.Ending, future: W.Future, doNotRetry: bool, asked: set<Id>)
    requires Asked(r, asked) && q in r.tasks
    ensures Asked(R.CallEnded(r, q, ending, future, doNotRetry), asked)
  {
    EndAsked(r, q, asked);
    hide Asked, R.RespondAndEnd, R.End, R.Trip;
    RespondAsked(r, q, false, R.Made("home_assistant_tool_outcome_unknown"), asked);
    if future.Resolved? { RespondAsked(r, q, future.success, R.FromHome(future.value), asked); }
  }

  lemma EndAsked(r: R.Router, q: Id, asked: set<Id>)
    requires Asked(r, asked) && q in r.tasks
    ensures q in asked && Asked(R.End(r, q), asked)
  {}

  lemma DoRunAsked(w: T.World, q: Id, closed: bool, argsFit: bool, asked: set<Id>)
    requires Asked(w.router, asked)
    ensures Asked(T.DoRun(w, q, closed, argsFit).router, asked)
  {
    hide Asked, R.RunWithoutBroker, R.Refused, R.Called;
    var plan := R.PlanOf(w.router, q);
    RunAsked(w.router, q, W.AuthorityChanged, w.broker.nextCall, asked);
    if plan.CallBroker? {
      var why := B.Refuses(w.broker, plan.snapshot, closed, plan.name, argsFit);
      if why.Some? { RunAsked(w.router, q, why.value, 0, asked); }
    }
  }

  lemma DoEndsAsked(w: T.World, q: Id, ending: W.Ending, doNotRetry: bool, asked: set<Id>)
    requires Asked(w.router, asked)
    ensures Asked(T.DoCallEnds(w, q, ending, doNotRetry).router, asked)
  {
    hide Asked, R.CallEnded;
    if q in w.router.tasks && w.router.tasks[q].Calling? && w.router.tasks[q].id in w.broker.futures {
      CallEndAsked(w.router, q, ending, w.broker.futures[w.router.tasks[q].id], doNotRetry, asked);
    }
  }

  lemma WorldAsked(w: T.World, h: T.Happening, asked: set<Id>)
    requires Asked(w.router, asked) && ((h.Start? || h.RejectUnowned?) ==> h.request in asked)
    ensures Asked(T.Next(w, h).router, asked)
  {
    hide Asked, R.Start, R.Respond, R.CancelTask, R.Finish, R.Teardown;
    if h.Start? {
      StartAsked(w.router, h.request, h.callId, h.name, h.json, asked);
    } else if h.RejectUnowned? {
      RespondAsked(w.router, h.request, false, R.Made("unowned_home_assistant_tool_call"), asked);
    } else if h.CancelTask? || h.TaskDone? || h.Teardown? {
      EndsAsked(w.router, h.request, asked);
    } else if h.Run? {
      DoRunAsked(w, h.request, h.closed, h.argsFit, asked);
    } else if h.CallEnds? {
      DoEndsAsked(w, h.request, h.ending, h.doNotRetry, asked);
    } else {
      T.OthersLeaveSession(w, h);
    }
  }

  /** A step of the session appends at most one response. */
  predicate Grown(r: R.Router, t: R.Router) { r.responses <= t.responses && |t.responses| <= |r.responses| + 1 }

  lemma RespondGrown(r: R.Router, q: Id, success: bool, body: R.Body)
    ensures Grown(r, R.Respond(r, q, success, body)) && Grown(r, R.RespondAndEnd(r, q, success, body))
    ensures Grown(r, R.RespondAndEnd(R.Trip(r), q, success, body))
  {}

  lemma EndsGrown(r: R.Router, q: Id, callId: string, name: Option<string>, json: Option<W.Json>, id: W.CallId)
    ensures Grown(r, R.Start(r, q, callId, name, json)) && Grown(r, R.Finish(r, q)) && Grown(r, R.CancelTask(r, q))
    ensures Grown(r, R.Called(r, q, id)) && Grown(r, R.End(r, q))
  {
    hide R.Rejection;
  }

  lemma RejectionsGrown(r: R.Router, q: Id)
    ensures Grown(r, R.RejectUnowned(r, q)) && Grown(r, R.Teardown(r, q)) && Grown(r, R.RunWithoutBroker(r, q))
  {
    NothingGrown(r);
    RespondGrown(r, q, false, R.Made("home_assistant_tool_outcome_unknown"));
    RespondGrown(r, q, false, R.Made("unowned_home_assistant_tool_call"));
    hide Grown, R.Respond, R.RespondAndEnd, R.Trip, R.End;
    var plan := R.PlanOf(r, q);
    if plan.Answer? { RespondGrown(r, q, false, R.Made(plan.error)); }
  }

  lemma CallsGrown(r: R.Router, q: Id, why: W.Refusal, ending: W.Ending, future: W.Future, doNotRetry: bool)
    ensures Grown(r, R.Refused(r, q, why)) && Grown(r, R.CallEnded(r, q, ending, future, doNotRetry))
  {
    EndsGrown(r, q, "", None, None, 0);
    RespondGrown(r, q, false, R.Made("home_assistant_tool_outcome_unknown"));
    RespondGrown(r, q, false, R.Made("home_assistant_tool_unavailable"));
    hide Grown, R.Respond, R.RespondAndEnd, R.Trip, R.End;
    if future.Resolved? { RespondGrown(r, q, future.success, R.FromHome(future.value)); }
  }

  lemma AnswersGrown(r: R.Router, q: Id, why: W.Refusal, ending: W.Ending, future: W.Future, doNotRetry: bool)
    ensures Grown(r, R.RejectUnowned(r, q)) && Grown(r, R.Teardown(r, q)) && Grown(r, R.RunWithoutBroker(r, q))
    ensures Grown(r, R.Refused(r, q, why)) && Grown(r, R.CallEnded(r, q, ending, future, doNotRetry))
  {
    RejectionsGrown(r, q);
    CallsGrown(r, q, why, ending, future, doNotRetry);
    hide Grown, R.RejectUnowned, R.Teardown, R.RunWithoutBroker, R.Refused, R.CallEnded;
  }

  lemma DoRunGrown(w: T.World, q: Id, closed: bool, argsFit: bool)
    ensures Grown(w.router, T.DoRun(w, q, closed, argsFit).router)
  {
    hide Grown, R.RunWithoutBroker, R.Refused, R.Called;
    var plan := R.PlanOf(w.router, q);
    AnswersGrown(w.router, q, W.AuthorityChanged, W.Cancelled, W.Waiting, false);
    EndsGrown(w.router, q, "", None, None, w.broker.nextCall);
    if plan.CallBroker? {
      var why := B.Refuses(w.broker, plan.snapshot, closed, plan.name, argsFit);
      if why.Some? { AnswersGrown(w.router, q, why.value, W.Cancelled, W.Waiting, false); }
    }
  }

  lemma DoEndsGrown(w: T.World, q: Id, ending: W.Ending, doNotRetry: bool)
    ensures Grown(w.router, T.DoCallEnds(w, q, ending, doNotRetry).router)
  {
    hide Grown, R.CallEnded;
    NothingGrown(w.router);
    if q in w.router.tasks && w.router.tasks[q].Calling? && w.router.tasks[q].id in w.broker.futures {
      AnswersGrown(w.router, q, W.AuthorityChanged, ending, w.broker.futures[w.router.tasks[q].id], doNotRetry);
    }
  }

  lemma NothingGrown(r: R.Router) ensures Grown(r, r) {}

  lemma WorldGrown(w: T.World, h: T.Happening)
    ensures Grown(w.router, T.Next(w, h).router)
  {
    hide Grown, R.Start, R.RejectUnowned, R.CancelTask, R.Finish, R.Teardown, T.DoRun, T.DoCallEnds;
    NothingGrown(w.router);
    if h.Start? {
      EndsGrown(w.router, h.request, h.callId, h.name, h.json, 0);
    } else if h.RejectUnowned? || h.Teardown? || h.CancelTask? || h.TaskDone? {
      AnswersGrown(w.router, h.request, W.AuthorityChanged, W.Cancelled, W.Waiting, false);
      EndsGrown(w.router, h.request, "", None, None, 0);
    } else if h.Run? {
      DoRunGrown(w, h.request, h.closed, h.argsFit);
    } else if h.CallEnds? {
      DoEndsGrown(w, h.request, h.ending, h.doNotRetry);
    } else {
      T.OthersLeaveSession(w, h);
    }
  }

  // ----- the client's side of one request -----

  /** While an id has arrived once, its activation is current and open, or committed with its id retired. */
  predicate Tracked(c: A.State, q: Id, a: A.Activation) {
    (q in c.states && c.states[q] == a) || (q in c.retiredAt && a in c.written)
  }

  predicate ArrivesAs(e: A.Event, q: Id) { Arrives(e) && e.id == q }

  lemma ArriveTracks(c: A.State, e: A.Event, q: Id, a: A.Activation)
    requires Tracked(c, q, a) && Arrives(e) && e.id != q
    ensures Tracked(A.Step(c, e), q, a)
  {
    hide A.Without;
  }

  lemma CommitTracks(c: A.State, b: A.Activation, q: Id, a: A.Activation)
    requires A.Inv(c) && Tracked(c, q, a)
    ensures Tracked(A.Commit(c, b), q, a)
  {
    if b !in c.writing || b !in c.idOf { return; }
    hide A.Inv, A.Commit, A.Retire;
    A.CommitShape(c, b);
    A.CommittedStates(c, A.Commit(c, b), b);
    RetireNotes(c.(states := c.states - {c.idOf[b]}), c.idOf[b]);
  }

  lemma RetireNotes(c: A.State, id: Id)
    ensures A.Retire(c, id).retiredAt == c.retiredAt[id := c.total]
  {}

  lemma StepTracks(c: A.State, e: A.Event, q: Id, a: A.Activation)
    requires A.Inv(c) && Tracked(c, q, a) && !ArrivesAs(e, q) && !A.Step(c, e).closed
    ensures Tracked(A.Step(c, e), q, a)
  {
    hide A.Inv, A.Commit;
    if Arrives(e) { ArriveTracks(c, e, q, a); return; }
    if e.ECommit? { CommitTracks(c, e.a, q, a); return; }
  }

  lemma DeliverTracks(c: A.State, q: Id)
    ensures Tracked(A.Step(c, A.EDeliver(q)), q, c.next)
  {
    hide A.Without;
  }

  lemma ClosedStays(c: A.State, e: A.Event)
    ensures c.closed ==> A.Step(c, e).closed
  {
    hide A.Without;
    if e.ECommit? && e.a in c.writing && e.a in c.idOf { A.CommitShape(c, e.a); }
  }

  lemma WrittenGrows(c: A.State, e: A.Event)
    ensures c.written <= A.Step(c, e).written
  {
    hide A.Without;
    if e.ECommit? && e.a in c.writing && e.a in c.idOf { A.CommitShape(c, e.a); }
  }

  // ----- the joint invariant -----

  /** What is known of one request id. */
  ghost predicate Known(s: State, q: Id) {
    && (q in s.asked ==> s.arrivals[q] >= 1)
    && (q in s.asked && s.arrivals[q] == 1 && !s.client.closed ==> Tracked(s.client, q, s.asked[q]))
    && (q in s.asked && s.arrivals[q] == 1 && !s.client.closed && s.untracked[q] == 1 ==> s.asked[q] in s.client.written)
    && s.untracked[q] <= 1
    && (s.untracked[q] == 1 ==> exists x :: x in s.world.router.responses && x.request == q)
  }

  ghost predicate Inv(s: State) {
    && A.Inv(s.client) && T.Sound(s.world) && Asked(s.world.router, s.asked.Keys)
    && forall q: Id :: Known(s, q)
  }

  lemma InitInv(snapshot: Option<W.Snapshot>)
    ensures Inv(Init(snapshot))
  {
    T.InitSound(snapshot);
    A.InitInv();
    hide A.Inv, T.Sound;
  }

  lemma ClientKnows(s: State, e: A.Event, q: Id)
    requires A.Inv(s.client) && Known(s, q) && Asked(s.world.router, s.asked.Keys)
    ensures Known(OnClient(s, e), q)
  {
    hide A.Inv, A.Step, Tracked;
    ClosedStays(s.client, e);
    WrittenGrows(s.client, e);
    if e == A.EDeliver(q) { DeliverTracks(s.client, q); return; }
    if q in s.asked && s.arrivals[q] == 1 && !A.Step(s.client, e).closed && !ArrivesAs(e, q) {
      StepTracks(s.client, e, q, s.asked[q]);
    }
  }

  /** The session's newest response is the first one for its request. */
  lemma NewResponse(w: T.World, h: T.Happening)
    requires T.Sound(w)
    ensures var was, now := w.router.responses, T.Next(w, h).router.responses;
      if Responds(w, h) then
        now == was + [now[|now| - 1]] && forall x | x in was :: x.request != Answered(w, h)
      else now == was
  {
    hide T.Next, T.Sound;
    WorldGrown(w, h);
    T.NextKeeps(w, h);
    OneResponse(T.Next(w, h));
    var was, now := w.router.responses, T.Next(w, h).router.responses;
    if Responds(w, h) {
      forall x | x in was ensures x.request != Answered(w, h) {
        var i :| 0 <= i < |was| && was[i] == x;
        assert now[i] == x;
      }
    }
  }

  lemma SessionKnows(s: State, e: Event, q: Id)
    requires Inv(s) && e.SessionEvent? && Heard(s, e.session)
    ensures Known(Step(s, e), q)
  {
    hide T.Next, T.Sound, Tracked, Responds, Answered, WritesUntracked, A.Inv, Asked;
    assert Known(s, q);
    NewResponse(s.world, e.session);
    if Responds(s.world, e.session) { AnsweredIsLast(s.world, e.session); }
    if WritesUntracked(s, e, q) { UntrackedWasCommitted(s, e, q); }
    assert forall x | x in s.world.router.responses :: x in T.Next(s.world, e.session).router.responses;
  }

  lemma UntrackedWasCommitted(s: State, e: Event, q: Id)
    requires Known(s, q) && WritesUntracked(s, e, q)
    ensures q in s.asked && s.arrivals[q] == 1 && !s.client.closed ==> s.asked[q] in s.client.written
  {
    hide T.Next, Heard, Responds, Answered;
  }

  lemma AnsweredIsLast(w: T.World, h: T.Happening)
    requires Responds(w, h)
    ensures exists x :: x in T.Next(w, h).router.responses && x.request == Answered(w, h)
  {
    hide T.Next;
    var now := T.Next(w, h).router.responses;
    assert now[|now| - 1] in now;
  }

  lemma OneResponse(w: T.World)
    requires T.Sound(w)
    ensures forall i, j :: 0 <= i < j < |w.router.responses| ==> w.router.responses[i].request != w.router.responses[j].request
  {
    hide B.Inv, T.Wired, T.Ran, T.Reported, T.Resolves, T.Routed, R.Calls, R.OnePerCallId, R.Bounded;
  }

  lemma StepKeeps(s: State, e: Event)
    requires Inv(s)
    ensures Inv(Step(s, e))
  {
    hide A.Inv, T.Sound, A.Step, T.Next, Known, Asked;
    match e
    case ClientEvent(c) =>
      A.StepKeeps(s.client, c);
      AskedMore(s.world.router, s.asked.Keys, Step(s, e).asked.Keys);
      forall q: Id ensures Known(Step(s, e), q) { ClientKnows(s, c, q); }
    case SessionEvent(h, _) =>
      if Heard(s, h) {
        T.NextKeeps(s.world, h);
        WorldAsked(s.world, h, s.asked.Keys);
        forall q: Id ensures Known(Step(s, e), q) { SessionKnows(s, e, q); }
      }
  }

  lemma AskedMore(r: R.Router, asked: set<Id>, more: set<Id>)
    requires Asked(r, asked) && asked <= more
    ensures Asked(r, more)
  {}

  lemma {:induction false} ReachedKeeps(snapshot: Option<W.Snapshot>, run: seq<Event>)
    ensures Inv(Reached(snapshot, run))
  {
    hide Inv, Step;
    if run == [] { InitInv(snapshot); } else {
      ReachedKeeps(snapshot, run[..|run| - 1]);
      StepKeeps(Reached(snapshot, run[..|run| - 1]), run[|run| - 1]);
    }
  }

  // ----- one response, unless it comes too late -----

  /** The session answers a request whose id was retired and has left the retired list, and the write succeeds. */
  predicate AnswersEvicted(s: State, e: Event, q: Id) {
    && e.SessionEvent? && e.written && Heard(s, e.session) && Responds(s.world, e.session)
    && Answered(s.world, e.session) == q && q in s.client.retiredAt && q !in s.client.retired
  }

  ghost predicate Late(snapshot: Option<W.Snapshot>, run: seq<Event>, q: Id) {
    exists k: nat :: k < |run| && AnswersEvicted(Reached(snapshot, run[..k]), run[k], q)
  }

  lemma UntrackedIsEvicted(s: State, e: Event, q: Id)
    requires Inv(s) && s.arrivals[q] <= 1 && !s.client.closed
    ensures WritesUntracked(s, e, q) <==> AnswersEvicted(s, e, q)
  {
    hide A.Inv, T.Sound, T.Next, Asked, Responds, Answered;
    RetiredIsNotOpen(s.client);
    assert Known(s, q);
    if WritesUntracked(s, e, q) { AnsweredWasAsked(s, e); }
  }

  lemma RetiredIsNotOpen(c: A.State)
    requires A.Inv(c)
    ensures forall q | q in c.retiredAt :: q !in c.states
  {
    hide A.Activations, A.Timers, A.Ordered, A.Evicted;
  }

  lemma AnsweredWasAsked(s: State, e: Event)
    requires Inv(s) && e.SessionEvent? && Heard(s, e.session) && Responds(s.world, e.session)
    ensures Answered(s.world, e.session) in s.asked
  {
    hide A.Inv, T.Sound, T.Next;
    WorldAsked(s.world, e.session, s.asked.Keys);
    var now := T.Next(s.world, e.session).router.responses;
    assert now[|now| - 1] in now;
  }

  lemma StepUntracked(s: State, e: Event, q: Id)
    ensures Step(s, e).untracked[q] == s.untracked[q] + if WritesUntracked(s, e, q) then 1 else 0
    ensures s.arrivals[q] <= Step(s, e).arrivals[q] && (s.client.closed ==> Step(s, e).client.closed)
  {
    hide T.Next, A.Step, Heard, Responds, Answered;
    if e.ClientEvent? { ClosedStays(s.client, e.client); }
  }

  lemma {:induction false} UntrackedIffLate(snapshot: Option<W.Snapshot>, run: seq<Event>, q: Id)
    requires Reached(snapshot, run).arrivals[q] <= 1 && !Reached(snapshot, run).client.closed
    ensures Reached(snapshot, run).untracked[q] >= 1 <==> Late(snapshot, run, q)
  {
    hide Step, Inv, AnswersEvicted, WritesUntracked;
    if run == [] { return; }
    var front, n := run[..|run| - 1], |run| - 1;
    var s := Reached(snapshot, front);
    StepUntracked(s, run[n], q);
    ReachedKeeps(snapshot, front);
    UntrackedIsEvicted(s, run[n], q);
    UntrackedIffLate(snapshot, front, q);
    LateMore(snapshot, run, q);
  }

  lemma LateMore(snapshot: Option<W.Snapshot>, run: seq<Event>, q: Id)
    requires run != []
    ensures var front := run[..|run| - 1];
      Late(snapshot, run, q) <==> Late(snapshot, front, q) || AnswersEvicted(Reached(snapshot, front), run[|run| - 1], q)
  {
    hide Step, AnswersEvicted, Reached;
    var front, n := run[..|run| - 1], |run| - 1;
    if Late(snapshot, run, q) {
      var k: nat :| k < |run| && AnswersEvicted(Reached(snapshot, run[..k]), run[k], q);
      if k < n { assert front[..k] == run[..k] && AnswersEvicted(Reached(snapshot, front[..k]), front[k], q); }
    }
    if Late(snapshot, front, q) {
      var k: nat :| k < n && AnswersEvicted(Reached(snapshot, front[..k]), front[k], q);
      assert front[..k] == run[..k] && AnswersEvicted(Reached(snapshot, run[..k]), run[k], q);
    }
    if AnswersEvicted(Reached(snapshot, front), run[n], q) { assert front == run[..n]; }
  }

  /**
   A request whose id has arrived once gets at most two responses, of the session's own and the fallback
   timer's together, and two exactly if the session answered only after the id had been retired and had
   left the retired list again.
   */
  lemma AnsweredTwiceIffLate(snapshot: Option<W.Snapshot>, run: seq<Event>, q: Id)
    requires var s := Reached(snapshot, run); q in s.asked && s.arrivals[q] == 1 && !s.client.closed
    ensures var s := Reached(snapshot, run);
      Sent(s, q) <= 2 && (Sent(s, q) == 2 <==> Late(snapshot, run, q))
  {
    hide Reached, Late, Tracked;
    ReachedKeeps(snapshot, run);
    UntrackedIffLate(snapshot, run, q);
    CommitsAreOne(Reached(snapshot, run), q);
  }

  lemma CommitsAreOne(s: State, q: Id)
    requires Inv(s) && q in s.asked && s.arrivals[q] == 1 && !s.client.closed
    ensures s.client.commits[s.asked[q]] <= 1 && s.untracked[q] <= 1
    ensures s.untracked[q] == 1 ==> s.client.commits[s.asked[q]] == 1
  {
    hide T.Sound, A.Timers, A.Retired, Tracked, Asked;
    assert Known(s, q);
  }

  /** Such an answer comes after at least 1,024 later retirements. */
  lemma LateIsVeryLate(snapshot: Option<W.Snapshot>, run: seq<Event>, e: Event, q: Id)
    requires AnswersEvicted(Reached(snapshot, run), e, q)
    ensures var c := Reached(snapshot, run).client; c.total - c.retiredAt[q] - 1 >= A.MAX_RETIRED
  {
    hide Reached, T.Sound, A.Activations, A.Timers, T.Next;
    ReachedKeeps(snapshot, run);
  }

  // ----- it does happen -----

  /** The first request is broadcast, the session starts it, and the fallback timer answers it. */
  function TimedOut(): seq<Event> {
    [ClientEvent(A.EDeliver(A.Name(0))), SessionEvent(T.Start(A.Name(0), "call", None, None), true)]
    + [ClientEvent(A.EBeginWrite(0)), ClientEvent(A.ECommit(0))]
  }

  /** Then `n` requests in all arrive and are answered, and the session answers the first one. */
  function AndMore(n: nat): seq<Event>
    requires n >= 1
  {
    if n == 1 then TimedOut()
    else
      AndMore(n - 1) + [ClientEvent(A.EUndelivered(A.Name(n - 1))), ClientEvent(A.EBeginWrite(n - 1))]
      + [ClientEvent(A.ECommit(n - 1))]
  }

  function LateRun(): seq<Event> { AndMore(A.MAX_RETIRED + 1) + [SessionEvent(T.Run(A.Name(0), false, false), true)] }

  lemma Once(snapshot: Option<W.Snapshot>, run: seq<Event>, e: Event)
    ensures Reached(snapshot, run + [e]) == Step(Reached(snapshot, run), e)
  {
    assert (run + [e])[..|run|] == run;
  }

  lemma Twice(snapshot: Option<W.Snapshot>, run: seq<Event>, e: Event, f: Event)
    ensures Reached(snapshot, run + [e, f]) == Step(Step(Reached(snapshot, run), e), f)
  {
    hide Step, Reached;
    Once(snapshot, run, e);
    Once(snapshot, run + [e], f);
    assert run + [e] + [f] == run + [e, f];
  }

  lemma ReachedNothing(snapshot: Option<W.Snapshot>) ensures Reached(snapshot, []) == Init(snapshot) {}

  function AskedWorld(): T.World { T.Next(T.InitWorld(None), T.Start(A.Name(0), "call", None, None)) }

  ghost predicate Ready(s: State, n: nat) {
    && n >= 1 && A.AllAnswered(s.client, n) && !s.client.closed && s.world == AskedWorld()
    && s.asked == map[A.Name(0) := 0] && s.arrivals[A.Name(0)] == 1
  }

  lemma StaysOpen(c: A.State, e: A.Event)
    requires !e.EClose?
    ensures A.Step(c, e).closed == c.closed
  {
    hide A.Without;
    if e.ECommit? && e.a in c.writing && e.a in c.idOf { A.CommitShape(c, e.a); }
  }

  lemma OneMoreReady(s: State, n: nat)
    requires Ready(s, n)
    ensures Ready(Step(Step(Step(s, ClientEvent(A.EUndelivered(A.Name(n)))), ClientEvent(A.EBeginWrite(n))),
                       ClientEvent(A.ECommit(n))), n + 1)
  {
    hide A.AllAnswered, A.Step, AskedWorld;
    A.OneMoreAnswered(s.client, n);
    A.NamesDiffer(n);
    var c1 := A.Step(s.client, A.EUndelivered(A.Name(n)));
    var c2 := A.Step(c1, A.EBeginWrite(n));
    StaysOpen(s.client, A.EUndelivered(A.Name(n)));
    StaysOpen(c1, A.EBeginWrite(n));
    StaysOpen(c2, A.ECommit(n));
  }

  lemma {:induction false} MoreIsReady(n: nat)
    requires n >= 1
    ensures Ready(Reached(None, AndMore(n)), n)
  {
    hide Ready, Step, Reached;
    if n == 1 { FirstIsReady(); return; }
    MoreIsReady(n - 1);
    var run := AndMore(n - 1);
    var e, f := ClientEvent(A.EUndelivered(A.Name(n - 1))), ClientEvent(A.EBeginWrite(n - 1));
    Twice(None, run, e, f);
    Once(None, run + [e, f], ClientEvent(A.ECommit(n - 1)));
    OneMoreReady(Reached(None, run), n - 1);
  }

  lemma FirstIsReady()
    ensures Ready(Reached(None, TimedOut()), 1)
  {
    hide Reached, Ready, Step;
    var e, f := ClientEvent(A.EDeliver(A.Name(0))), SessionEvent(T.Start(A.Name(0), "call", None, None), true);
    ReachedNothing(None);
    Twice(None, [], e, f);
    assert [] + [e, f] == [e, f];
    Twice(None, [e, f], ClientEvent(A.EBeginWrite(0)), ClientEvent(A.ECommit(0)));
    FirstSteps();
  }

  lemma FirstSteps()
    ensures var s := Step(Step(Init(None), ClientEvent(A.EDeliver(A.Name(0)))),
                          SessionEvent(T.Start(A.Name(0), "call", None, None), true));
      Ready(Step(Step(s, ClientEvent(A.EBeginWrite(0))), ClientEvent(A.ECommit(0))), 1)
  {
    hide A.AllAnswered, A.Step, T.Next;
    FirstClientSteps();
  }

  lemma FirstClientSteps()
    ensures var c := A.Step(A.Step(A.Step(A.Init(), A.EDeliver(A.Name(0))), A.EBeginWrite(0)), A.ECommit(0));
      A.AllAnswered(c, 1) && !c.closed && A.Step(A.Init(), A.EDeliver(A.Name(0))).next == 1
  {
    var id := A.Name(0);
    var c1 := A.Step(A.Init(), A.EDeliver(id));
    assert c1 == A.Init().(states := map[id := 0], idOf := map[0 := id], next := 1, timers := map[id := 0], sleeping := {0},
                           delivered := {0});
    assert A.Step(c1, A.EBeginWrite(0)) == c1.(writing := {0});
    assert A.Names(0, 1) == [id];
  }

  /** One request, answered by its timer and, 1,024 requests later, by the session as well. */
  lemma TimedOutThenLate()
    ensures var s := Reached(None, LateRun());
      && A.Name(0) in s.asked && s.arrivals[A.Name(0)] == 1 && !s.client.closed && Late(None, LateRun(), A.Name(0))
      && Sent(s, A.Name(0)) == 2
  {
    hide Reached, Step, Ready, Late;
    var run, e := AndMore(A.MAX_RETIRED + 1), SessionEvent(T.Run(A.Name(0), false, false), true);
    MoreIsReady(A.MAX_RETIRED + 1);
    Once(None, run, e);
    LastAnswer(Reached(None, run), e);
    assert LateRun()[..|LateRun()| - 1] == run;
    LateMore(None, LateRun(), A.Name(0));
    AnsweredTwiceIffLate(None, LateRun(), A.Name(0));
  }

  lemma LastAnswer(s: State, e: Event)
    requires Ready(s, A.MAX_RETIRED + 1) && e == SessionEvent(T.Run(A.Name(0), false, false), true)
    ensures AnswersEvicted(s, e, A.Name(0))
    ensures var t := Step(s, e); A.Name(0) in t.asked && t.arrivals[A.Name(0)] == 1 && !t.client.closed
  {
    RunAnswers();
    assert forall id | id in s.client.retired :: |id| >= 1;
  }

  lemma RunAnswers()
    ensures var h := T.Run(A.Name(0), false, false); Responds(AskedWorld(), h) && Answered(AskedWorld(), h) == A.Name(0)
  {
    hide A.Name, R.RespondAndEnd, R.Start, R.Trip;
    var r := R.Start(R.Init(None), A.Name(0), "call", None, None);
    StartedAlone(A.Name(0));
    assert AskedWorld().router == r;
    var t := R.RespondAndEnd(R.Trip(r), A.Name(0), false, R.Made("home_assistant_tool_unavailable"));
    assert T.Next(AskedWorld(), T.Run(A.Name(0), false, false)).router == t;
  }

  /** A call without a tool name, started in a session without tools, is about to be answered. */
  lemma StartedAlone(q: Id)
    ensures var r := R.Start(R.Init(None), q, "call", None, None);
      && R.PlanOf(r, q) == R.Answer("home_assistant_tool_unavailable", true)
      && r.responses == []
      && R.RespondAndEnd(R.Trip(r), q, false, R.Made("home_assistant_tool_unavailable")).responses
         == [R.Response(q, false, R.Made("home_assistant_tool_unavailable"))]
  {}
}
