/**
 The session's circuit breaker and its answers, end to end: what trips the breaker, what every response says,
 which requests reach the broker and with what, and what a response of unknown outcome means for later requests.
 */
module ToolBreaker {
  import opened Wrappers
  import opened ToolWire
  import opened ToolBroker
  import opened ToolAuthority
  import E = ToolEndpoint
  import R = ToolRouter

  const UNKNOWN := "home_assistant_tool_outcome_unknown"

  // ----- the causes -----

  /** The request's task first runs, and it was not rejected. */
  predicate Executes(w: World, h: Happening) {
    h.Run? && h.request in w.router.tasks && w.router.tasks[h.request].Executing?
  }

  /** Its snapshot, name and arguments are there. */
  predicate Complete(w: World, h: Happening)
    requires Executes(w, h)
  {
    var task := w.router.tasks[h.request];
    w.router.snapshot.Some? && task.name.Some? && task.args.Some?
  }

  function Refusing(w: World, h: Happening): Option<Refusal>
    requires Executes(w, h) && Complete(w, h)
  {
    Refuses(w.broker, w.router.snapshot.value, h.closed, w.router.tasks[h.request].name.value, h.argsFit)
  }

  predicate Reaches(w: World, h: Happening) { Executes(w, h) && Complete(w, h) && Refusing(w, h).None? }

  predicate EndsCall(w: World, h: Happening) {
    && h.CallEnds? && h.request in w.router.tasks && w.router.tasks[h.request].Calling?
    && MayEnd(w.broker, w.router.tasks[h.request].id, h.ending)
  }

  /** The correlation future of the request's call. */
  function FutureOf(w: World, h: Happening): Future
    requires EndsCall(w, h)
  {
    w.broker.futures[w.router.tasks[h.request].id]
  }

  predicate ReturnsResult(w: World, h: Happening) { EndsCall(w, h) && h.ending.Returned? && FutureOf(w, h).Resolved? }

  /** Timed out, disconnected or never sent: nobody knows what Home Assistant did. */
  predicate EndsUnknown(w: World, h: Happening) {
    EndsCall(w, h) && (h.ending.TimedOut? || h.ending.SendFailed? || (h.ending.Returned? && FutureOf(w, h).Disconnected?))
  }

  predicate FailsForGood(w: World, h: Happening) { ReturnsResult(w, h) && !FutureOf(w, h).success && h.doNotRetry }

  predicate Trips(w: World, h: Happening) {
    || (Executes(w, h) && (!Complete(w, h) || Refusing(w, h).Some?))
    || EndsUnknown(w, h) || FailsForGood(w, h)
  }

  predicate Admits(w: World, h: Happening) {
    && h.Start? && h.request !in w.router.seenRequests && !w.router.failedClosed
    && |w.router.seenRequests| < R.MAX_TOOL_CALLS_PER_SESSION && h.callId !in w.router.seenCalls
    && |w.router.active| < R.MAX_PENDING
  }

  function Failure(q: R.RequestId, error: string): Option<R.Response> { Some(R.Response(q, false, R.Made(error))) }

  /** The response a happening makes for its request, if nothing has answered it before. */
  function AnswerOf(w: World, h: Happening): Option<R.Response> {
    if h.RejectUnowned? then Failure(h.request, "unowned_home_assistant_tool_call")
    else if h.Teardown? && h.request in w.router.active && h.request !in w.router.tasks then Failure(h.request, UNKNOWN)
    else if h.Run? && h.request in w.router.tasks && w.router.tasks[h.request].Rejecting? then
      Failure(h.request, w.router.tasks[h.request].error)
    else if Executes(w, h) && Complete(w, h) && Refusing(w, h).Some? then
      Failure(h.request, if Refusing(w, h).value.AuthorityChanged? || Refusing(w, h).value.TooManyPending? then UNKNOWN
                         else "home_assistant_tool_unavailable")
    else if Executes(w, h) && !Complete(w, h) then Failure(h.request, "home_assistant_tool_unavailable")
    else if ReturnsResult(w, h) then Some(R.Response(h.request, FutureOf(w, h).success, R.FromHome(FutureOf(w, h).value)))
    else if EndsUnknown(w, h) then Failure(h.request, UNKNOWN)
    else None
  }

  function Answered(w: World, h: Happening): seq<R.Response> {
    var x := AnswerOf(w, h);
    if x.Some? && x.value.request !in w.router.claimed then [x.value] else []
  }

  // ----- the session after a step -----

  ghost predicate SessionMoves(w: World, h: Happening, t: R.Router) {
    && (t.failedClosed <==> w.router.failedClosed || Trips(w, h))
    && t.responses == w.router.responses + Answered(w, h)
    && t.claimed == w.router.claimed + (if AnswerOf(w, h).Some? then {h.request} else {})
    && t.callOf == (if Reaches(w, h) then w.router.callOf[h.request := w.broker.nextCall] else w.router.callOf)
    && t.seenRequests == (if h.Start? then w.router.seenRequests + {h.request} else w.router.seenRequests)
    && t.admitted == (if Admits(w, h) then w.router.admitted[h.request := h.callId] else w.router.admitted)
    && t.snapshot == w.router.snapshot
  }

  lemma StartRejects(r: R.Router, q: R.RequestId, callId: string)
    requires q !in r.seenRequests
    ensures R.Rejection(r.(seenRequests := r.seenRequests + {q}), callId).None? <==>
      !r.failedClosed && |r.seenRequests| < R.MAX_TOOL_CALLS_PER_SESSION && callId !in r.seenCalls && |r.active| < R.MAX_PENDING
  {
    assert |r.seenRequests + {q}| == |r.seenRequests| + 1;
  }

  lemma SessionOnly(w: World, h: Happening)
    requires h.Start? || h.RejectUnowned? || h.Teardown? || h.TaskDone? || h.CancelTask?
    ensures !Trips(w, h) && !Reaches(w, h)
    ensures h.Start? || h.TaskDone? || h.CancelTask? ==> AnswerOf(w, h).None?
  {}

  lemma StartIsStart(w: World, h: Happening)
    requires h.Start?
    ensures Next(w, h).router == R.Start(w.router, h.request, h.callId, h.name, h.json)
  {}

  lemma StartMoves(w: World, h: Happening)
    requires h.Start?
    ensures SessionMoves(w, h, Next(w, h).router)
  {
    SessionOnly(w, h);
    StartIsStart(w, h);
    if h.request in w.router.seenRequests {
      assert w.router.seenRequests + {h.request} == w.router.seenRequests;
    } else {
      StartRejects(w.router, h.request, h.callId);
    }
    hide R.Rejection, Next, AnswerOf, Trips, Reaches;
  }

  /** What a response changes: the claim, and the history. */
  lemma RespondMoves(r: R.Router, q: R.RequestId, success: bool, body: R.Body)
    ensures var t := R.Respond(r, q, success, body);
      t == r.(claimed := r.claimed + {q}, responses := r.responses + if q in r.claimed then [] else [R.Response(q, success, body)])
  {
    if q in r.claimed { assert r.claimed + {q} == r.claimed; }
  }

  lemma EndedMoves(w: World, h: Happening, r: R.Router, q: R.RequestId, success: bool, body: R.Body)
    requires (h.Run? || h.CallEnds?) && q == h.request && !Reaches(w, h) && AnswerOf(w, h) == Some(R.Response(q, success, body))
    requires r == if Trips(w, h) then R.Trip(w.router) else w.router
    ensures SessionMoves(w, h, R.RespondAndEnd(r, q, success, body))
  {
    hide AnswerOf, Trips, Reaches, R.Respond, Admits;
    RespondMoves(r, q, success, body);
    NotAdmitted(w, h);
  }

  lemma NotAdmitted(w: World, h: Happening)
    requires !h.Start?
    ensures !Admits(w, h)
  {}

  lemma AnswersMove(w: World, h: Happening)
    requires h.RejectUnowned? || h.Teardown? || h.TaskDone? || h.CancelTask?
    ensures SessionMoves(w, h, Next(w, h).router)
  {
    SessionOnly(w, h);
    hide R.Respond, Trips, Reaches;
    RespondMoves(w.router, h.request, false, R.Made("unowned_home_assistant_tool_call"));
    RespondMoves(w.router, h.request, false, R.Made(UNKNOWN));
  }

  /** Nothing but the tasks moves. */
  lemma SilentMoves(w: World, h: Happening, t: R.Router)
    requires h.Run? || h.CallEnds?
    requires AnswerOf(w, h).None? && !Trips(w, h) && !Reaches(w, h)
    requires t == w.router.(tasks := t.tasks)
    ensures SessionMoves(w, h, t)
  {
    hide AnswerOf, Trips, Reaches, Admits;
    NotAdmitted(w, h);
  }

  lemma ReachedMoves(w: World, h: Happening)
    requires Reaches(w, h)
    ensures SessionMoves(w, h, R.Called(w.router, h.request, w.broker.nextCall))
  {
    hide Refuses;
  }

  lemma RunMoves(w: World, h: Happening)
    requires h.Run?
    ensures SessionMoves(w, h, Next(w, h).router)
  {
    hide Step, Refuses, SessionMoves, R.RespondAndEnd, R.Called, R.Trip;
    var q, r := h.request, w.router;
    if q !in r.tasks { SilentMoves(w, h, r); return; }
    match r.tasks[q]
    case Rejecting(error) => EndedMoves(w, h, r, q, false, R.Made(error));
    case Executing(_, _) =>
      if Reaches(w, h) { ReachedMoves(w, h); }
      else { EndedMoves(w, h, R.Trip(r), q, false, AnswerOf(w, h).value.body); }
    case Calling(_) => SilentMoves(w, h, r);
    case Ending => SilentMoves(w, h, r);
  }

  lemma EndMoves(w: World, h: Happening)
    requires h.CallEnds?
    ensures SessionMoves(w, h, Next(w, h).router)
  {
    hide Step, SessionMoves, R.RespondAndEnd, R.Trip;
    var q, r := h.request, w.router;
    if !EndsCall(w, h) { SilentMoves(w, h, r); return; }
    if h.ending.Cancelled? { SilentMoves(w, h, R.End(r, q)); return; }
    var f := FutureOf(w, h);
    if ReturnsResult(w, h) {
      EndedMoves(w, h, if FailsForGood(w, h) then R.Trip(r) else r, q, f.success, R.FromHome(f.value));
    } else {
      EndedMoves(w, h, R.Trip(r), q, false, R.Made(UNKNOWN));
    }
  }

  lemma OthersMoveNothing(w: World, h: Happening)
    requires !h.Start? && !h.RejectUnowned? && !h.CancelTask? && !h.TaskDone? && !h.Teardown? && !h.Run? && !h.CallEnds?
    ensures SessionMoves(w, h, Next(w, h).router)
  {
    hide Next;
    OthersLeaveSession(w, h);
  }

  /**
   One step of the world, as the session sees it. The breaker trips exactly when a request runs malformed or
   without a snapshot, the broker refuses it, or its call times out, is disconnected, cannot be sent, or fails with
   the flag not to retry. A resolved future is answered with its own success flag and value, every other end of a
   call but its cancellation with a failure of unknown outcome. A request reaches the broker exactly when it runs
   complete and is not refused, and is admitted exactly when it is new, the breaker is closed, its call id is new and
   both limits leave room.
   */
  lemma StepMoves(w: World, h: Happening)
    ensures SessionMoves(w, h, Next(w, h).router)
  {
    hide SessionMoves, Next;
    if h.Start? { StartMoves(w, h); }
    else if h.RejectUnowned? || h.Teardown? || h.TaskDone? || h.CancelTask? { AnswersMove(w, h); }
    else if h.Run? { RunMoves(w, h); }
    else if h.CallEnds? { EndMoves(w, h); }
    else { OthersMoveNothing(w, h); }
  }

  // ----- whole runs -----

  /** The rejections' errors, none of which speaks of an unknown outcome. */
  predicate KnownError(error: string) {
    || error == "home_assistant_tool_session_unavailable" || error == "home_assistant_tool_session_limit"
    || error == "duplicate_home_assistant_tool_call" || error == "too_many_home_assistant_tool_calls"
  }

  ghost predicate Rejected(r: R.Router) {
    forall q | q in r.tasks && r.tasks[q].Rejecting? :: KnownError(r.tasks[q].error)
  }

  lemma KnownIsNotUnknown(error: string)
    requires KnownError(error)
    ensures error != UNKNOWN
  {
    assert UNKNOWN[20] == 'o';
    assert "home_assistant_tool_session_unavailable"[20] == 's' && "home_assistant_tool_session_limit"[20] == 's';
    assert "duplicate_home_assistant_tool_call"[0] == 'd' && "too_many_home_assistant_tool_calls"[0] == 't';
  }

  /** Why a new request is not admitted, in the order of the tests. */
  function RejectionOf(w: World, h: Happening): string
    requires h.Start?
  {
    if w.router.failedClosed then "home_assistant_tool_session_unavailable"
    else if |w.router.seenRequests| >= R.MAX_TOOL_CALLS_PER_SESSION then "home_assistant_tool_session_limit"
    else if h.callId in w.router.seenCalls then "duplicate_home_assistant_tool_call"
    else "too_many_home_assistant_tool_calls"
  }

  predicate IsNew(w: World, h: Happening) { h.Start? && h.request !in w.router.seenRequests }

  /** The task's coroutine is over but for its done-callback. */
  predicate Finishes(w: World, h: Happening) {
    || (h.Run? && h.request in w.router.tasks && R.Pending(w.router.tasks[h.request]) && !Reaches(w, h))
    || EndsCall(w, h)
    || (h.CancelTask? && h.request in w.router.tasks && R.Pending(w.router.tasks[h.request]))
  }

  /** The done-callback. */
  predicate CallsBack(w: World, h: Happening) {
    h.TaskDone? && h.request in w.router.tasks && w.router.tasks[h.request].Ending?
  }

  function TasksAfter(w: World, h: Happening): map<R.RequestId, R.Task> {
    var tasks := w.router.tasks;
    if IsNew(w, h) then tasks[h.request := if Admits(w, h) then R.Executing(h.name, h.json) else R.Rejecting(RejectionOf(w, h))]
    else if Reaches(w, h) then tasks[h.request := R.Calling(w.broker.nextCall)]
    else if Finishes(w, h) then tasks[h.request := R.Ending]
    else if CallsBack(w, h) then tasks - {h.request}
    else tasks
  }

  /** A request stays active until its done-callback finds its response claimed. */
  function ActiveAfter(w: World, h: Happening): map<R.RequestId, string> {
    if IsNew(w, h) then w.router.active[h.request := h.callId]
    else if CallsBack(w, h) && h.request in w.router.claimed then w.router.active - {h.request}
    else w.router.active
  }

  ghost predicate TasksMove(w: World, h: Happening, t: R.Router) { t.tasks == TasksAfter(w, h) && t.active == ActiveAfter(w, h) }

  lemma StartErrors(w: World, h: Happening)
    requires IsNew(w, h)
    ensures var r := R.Rejection(w.router.(seenRequests := w.router.seenRequests + {h.request}), h.callId);
      r == if Admits(w, h) then None else Some(RejectionOf(w, h))
  {
    assert |w.router.seenRequests + {h.request}| == |w.router.seenRequests| + 1;
  }

  lemma StartTasks(w: World, h: Happening)
    requires h.Start?
    ensures TasksMove(w, h, Next(w, h).router)
  {
    StartIsStart(w, h);
    SessionOnly(w, h);
    if IsNew(w, h) { StartErrors(w, h); }
    hide Next, R.Rejection, Reaches, RejectionOf, Admits;
  }

  lemma SessionTasks(w: World, h: Happening)
    requires h.RejectUnowned? || h.Teardown? || h.TaskDone? || h.CancelTask?
    ensures TasksMove(w, h, Next(w, h).router)
  {
    SessionOnly(w, h);
    hide Reaches;
  }

  lemma RunReaches(w: World, h: Happening)
    requires Reaches(w, h)
    ensures var r, t := w.router, Next(w, h).router;
      t.active == r.active && t.tasks == r.tasks[h.request := R.Calling(w.broker.nextCall)]
  {
    hide Step, Refuses;
  }

  lemma RejectionRuns(w: World, h: Happening)
    requires h.Run? && h.request in w.router.tasks && w.router.tasks[h.request].Rejecting?
    ensures var r, t := w.router, Next(w, h).router; t.active == r.active && t.tasks == r.tasks[h.request := R.Ending]
  {
    hide Step, Refuses, R.RespondAndEnd;
    EndsTask(w.router, h.request);
  }

  lemma RefusalRuns(w: World, h: Happening)
    requires Executes(w, h) && !Reaches(w, h)
    ensures var r, t := w.router, Next(w, h).router; t.active == r.active && t.tasks == r.tasks[h.request := R.Ending]
  {
    RunIsRun(w, h);
    hide Next, Step, Refuses, R.RespondAndEnd;
    EndsTask(w.router, h.request);
    if !Complete(w, h) { return; }
  }

  lemma RunIsRun(w: World, h: Happening)
    ensures h.Run? ==> Next(w, h) == DoRun(w, h.request, h.closed, h.argsFit)
    ensures h.CallEnds? ==> Next(w, h) == DoCallEnds(w, h.request, h.ending, h.doNotRetry)
  {}

  lemma RunNothing(w: World, h: Happening)
    requires h.Run? && (h.request !in w.router.tasks || !R.Pending(w.router.tasks[h.request]))
    ensures Next(w, h).router == w.router && !Reaches(w, h)
  {
    hide Step, Refuses, R.RespondAndEnd;
  }

  lemma RunTasks(w: World, h: Happening)
    requires h.Run?
    ensures TasksMove(w, h, Next(w, h).router)
  {
    hide Next, Reaches;
    if h.request !in w.router.tasks || !R.Pending(w.router.tasks[h.request]) { RunNothing(w, h); }
    else if Reaches(w, h) { RunReaches(w, h); }
    else if Executes(w, h) { RefusalRuns(w, h); }
    else { RejectionRuns(w, h); }
  }

  /** Answering, tripped or not, leaves the request's task with nothing to do but its done-callback. */
  lemma EndsTask(r: R.Router, q: R.RequestId)
    ensures forall success, body ::
      var t := R.RespondAndEnd(r, q, success, body); t.tasks == r.tasks[q := R.Ending] && t.active == r.active
    ensures forall success, body ::
      var t := R.RespondAndEnd(R.Trip(r), q, success, body); t.tasks == r.tasks[q := R.Ending] && t.active == r.active
  {}

  lemma EndShape(w: World, h: Happening)
    requires h.CallEnds?
    ensures var r, t := w.router, Next(w, h).router;
      t.active == r.active && t.tasks == if EndsCall(w, h) then r.tasks[h.request := R.Ending] else r.tasks
  {
    RunIsRun(w, h);
    hide Next, Step, R.RespondAndEnd;
    EndsTask(w.router, h.request);
    if !EndsCall(w, h) { return; }
  }

  lemma EndTasks(w: World, h: Happening)
    requires h.CallEnds?
    ensures TasksMove(w, h, Next(w, h).router)
  {
    EndShape(w, h);
    hide Next, Reaches, EndsCall;
    NotReached(w, h);
  }

  lemma NotReached(w: World, h: Happening)
    requires !h.Run?
    ensures !Reaches(w, h)
  {}

  /**
   The session's tasks in any step: a new request gets one, which executes or holds its rejection, runs once, waits
   inside the broker's call exactly if it reaches it, and ends with its answer, its call or its cancellation; its
   done-callback takes it away, and the request with it if it was answered.
   */
  lemma StepTasks(w: World, h: Happening)
    ensures TasksMove(w, h, Next(w, h).router)
  {
    hide TasksMove, Next;
    if h.Start? { StartTasks(w, h); }
    else if h.RejectUnowned? || h.Teardown? || h.TaskDone? || h.CancelTask? { SessionTasks(w, h); }
    else if h.Run? { RunTasks(w, h); }
    else if h.CallEnds? { EndTasks(w, h); }
    else { OthersLeaveSession(w, h); OthersTasks(w, h); }
  }

  lemma OthersTasks(w: World, h: Happening)
    requires !h.Start? && !h.RejectUnowned? && !h.CancelTask? && !h.TaskDone? && !h.Teardown? && !h.Run? && !h.CallEnds?
    ensures TasksMove(w, h, w.router)
  {
    NotReached(w, h);
    hide Reaches;
  }

  lemma {:induction false} RejectionsAreKnown(snapshot: Option<Snapshot>, run: seq<Happening>)
    ensures Rejected(WorldAfter(snapshot, run).router)
  {
    hide Next;
    if run == [] { return; }
    RejectionsAreKnown(snapshot, run[..|run| - 1]);
    StepTasks(WorldAfter(snapshot, run[..|run| - 1]), run[|run| - 1]);
  }

  /** A response of unknown outcome, unless a teardown makes it, comes with a tripped breaker. */
  lemma UnknownTrips(w: World, h: Happening, x: R.Response)
    requires Rejected(w.router) && !h.Teardown? && x.body == R.Made(UNKNOWN)
    requires Next(w, h).router.responses == w.router.responses + [x]
    ensures Trips(w, h) && Next(w, h).router.failedClosed
  {
    StepMoves(w, h);
    hide Next, Refuses;
    assert (w.router.responses + Answered(w, h))[|w.router.responses|] == x;
    assert AnswerOf(w, h) == Some(x);
    assert UNKNOWN[0] == 'h' && "unowned_home_assistant_tool_call"[0] == 'u';
    assert UNKNOWN[20] == 'o' && "home_assistant_tool_unavailable"[20] == 'u';
    if h.Run? && h.request in w.router.tasks && w.router.tasks[h.request].Rejecting? {
      KnownIsNotUnknown(w.router.tasks[h.request].error);
    }
  }

  lemma MoreWorld(snapshot: Option<Snapshot>, run: seq<Happening>, h: Happening)
    ensures WorldAfter(snapshot, run + [h]) == Next(WorldAfter(snapshot, run), h)
  {
    hide Next;
    assert (run + [h])[..|run|] == run;
  }

  /**
   After a response that tells of an unknown outcome, unless a teardown made it, no request first seen later
   reaches the broker, however long the session goes on.
   */
  lemma UnknownOutcomeEndsCalls(snapshot: Option<Snapshot>, run: seq<Happening>, h: Happening, x: R.Response,
                                more: seq<Happening>, q: R.RequestId)
    requires !h.Teardown? && x.body == R.Made(UNKNOWN)
    requires WorldAfter(snapshot, run + [h]).router.responses == WorldAfter(snapshot, run).router.responses + [x]
    requires q !in WorldAfter(snapshot, run + [h]).router.seenRequests
    ensures q !in WorldAfter(snapshot, run + [h] + more).router.callOf
    ensures WorldAfter(snapshot, run + [h] + more).router.calls[q] == 0
  {
    hide Next, WorldAfter, Trips;
    RejectionsAreKnown(snapshot, run);
    MoreWorld(snapshot, run, h);
    UnknownTrips(WorldAfter(snapshot, run), h, x);
    TrippedMeansNoCalls(snapshot, run + [h], more, q);
  }

  // ----- what reaches the broker -----

  predicate StartedAs(h: Happening, q: R.RequestId, name: Option<string>, args: Option<Json>) {
    h.Start? && h.request == q && h.name == name && h.json == args
  }

  ghost predicate StartedIn(run: seq<Happening>, q: R.RequestId, name: Option<string>, args: Option<Json>) {
    exists k: nat :: k < |run| && StartedAs(run[k], q, name, args)
  }

  lemma StartedBefore(run: seq<Happening>, q: R.RequestId, name: Option<string>, args: Option<Json>)
    requires run != [] && (StartedIn(run[..|run| - 1], q, name, args) || StartedAs(run[|run| - 1], q, name, args))
    ensures StartedIn(run, q, name, args)
  {
    if StartedIn(run[..|run| - 1], q, name, args) {
      var k: nat :| k < |run| - 1 && StartedAs(run[..|run| - 1][k], q, name, args);
      assert run[k] == run[..|run| - 1][k];
    }
  }

  /** A step issues a call of this session only for a request that runs complete, with what its task holds. */
  lemma IssuedByRun(w: World, h: Happening, id: CallId)
    requires id in Next(w, h).issued && Next(w, h).issued[id].request.Some?
    ensures (id in w.issued && w.issued[id] == Next(w, h).issued[id]) ||
      (Reaches(w, h) && id == w.broker.nextCall
       && var i, task := Next(w, h).issued[id], w.router.tasks[h.request];
          i.request == Some(h.request) && Some(i.name) == task.name && Some(i.args) == task.args
          && i.gen == w.router.snapshot.value.gen)
  {
    hide Step, E.Step, Refuses, EndpointEvent, R.RunWithoutBroker, R.Refused, R.Called, R.CallEnded, R.Start;
  }

  ghost predicate Traced(w: World, run: seq<Happening>) {
    && (forall q | q in w.router.tasks && w.router.tasks[q].Executing? ::
          StartedIn(run, q, w.router.tasks[q].name, w.router.tasks[q].args))
    && (forall id | id in w.issued && w.issued[id].request.Some? ::
          StartedIn(run, w.issued[id].request.value, Some(w.issued[id].name), Some(w.issued[id].args)))
  }

  lemma TracedStep(w: World, h: Happening, run: seq<Happening>)
    requires run != [] && h == run[|run| - 1] && Traced(w, run[..|run| - 1])
    ensures Traced(Next(w, h), run)
  {
    hide Next, StartedIn, Refuses;
    var t := Next(w, h);
    StepTasks(w, h);
    forall q | q in t.router.tasks && t.router.tasks[q].Executing?
      ensures StartedIn(run, q, t.router.tasks[q].name, t.router.tasks[q].args)
    {
      StartedBefore(run, q, t.router.tasks[q].name, t.router.tasks[q].args);
    }
    forall id | id in t.issued && t.issued[id].request.Some?
      ensures StartedIn(run, t.issued[id].request.value, Some(t.issued[id].name), Some(t.issued[id].args))
    {
      IssuedByRun(w, h, id);
      StartedBefore(run, t.issued[id].request.value, Some(t.issued[id].name), Some(t.issued[id].args));
    }
  }

  /** A broker call made for a request carries the name and arguments the request was started with. */
  lemma {:induction false} CallsAreAsRequested(snapshot: Option<Snapshot>, run: seq<Happening>)
    ensures var w := WorldAfter(snapshot, run);
      forall id | id in w.issued && w.issued[id].request.Some? ::
        StartedIn(run, w.issued[id].request.value, Some(w.issued[id].name), Some(w.issued[id].args))
  {
    AllTraced(snapshot, run);
  }

  lemma {:induction false} AllTraced(snapshot: Option<Snapshot>, run: seq<Happening>)
    ensures Traced(WorldAfter(snapshot, run), run)
  {
    hide Next, Traced, StartedIn;
    if run == [] { FreshTraced(snapshot); return; }
    AllTraced(snapshot, run[..|run| - 1]);
    TracedStep(WorldAfter(snapshot, run[..|run| - 1]), run[|run| - 1], run);
  }

  lemma FreshTraced(snapshot: Option<Snapshot>) ensures Traced(InitWorld(snapshot), []) {}
}
