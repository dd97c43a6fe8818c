/**
 The bridge session's side of tool calls: request and call deduplication, the circuit breaker, and
 one response per App Server request (`start_home_assistant_tool_call`, `execute_home_assistant_tool_call`,
 `respond_to_provider_tool_once`, `reject_unowned_tool_call` and the teardown).
 */
module ToolRouter {
  import opened Wrappers
  import opened ToolWire

  const MAX_TOOL_CALLS_PER_SESSION := 1_024
  const MAX_PENDING := 16

  type RequestId = string

  /** The result of a response: one the bridge made up, or the one Home Assistant returned. */
  datatype Body = Made(error: string) | FromHome(value: Json)

  datatype Response = Response(request: RequestId, success: bool, body: Body)

  /**
   A tool-call task: not yet run, inside the broker's `call`, or writing its response. It stays `Ending`
   until its done-callback has run, whether the write succeeded or not.
   */
  datatype Task = Rejecting(error: string) | Executing(name: Option<string>, args: Option<Json>) | Calling(id: CallId) | Ending

  datatype Router = Router(
    snapshot: Option<Snapshot>,             // captured when the session starts
    failedClosed: bool,                     // the circuit breaker
    seenRequests: set<RequestId>,
    seenCalls: set<string>,
    active: map<RequestId, string>,
    tasks: map<RequestId, Task>,
    claimed: set<RequestId>,
    responses: seq<Response>,               // history: responses attempted, in order
    callOf: map<RequestId, CallId>,         // history: the broker call of a request
    calls: multiset<RequestId>,             // history: one occurrence for every broker call
    startedOpen: set<RequestId>,            // history: requests started while the breaker was closed
    admitted: map<RequestId, string>)       // history: requests not rejected, and their provider call ids

  function Init(snapshot: Option<Snapshot>): Router {
    Router(snapshot, false, {}, {}, map[], map[], {}, [], map[], multiset{}, {}, map[])
  }

  function Respond(s: Router, request: RequestId, success: bool, body: Body): Router {
    if request in s.claimed then s
    else s.(claimed := s.claimed + {request}, responses := s.responses + [Response(request, success, body)])
  }

  function Rejection(s: Router, callId: string): Option<string> {
    if s.failedClosed then Some("home_assistant_tool_session_unavailable")
    else if |s.seenRequests| > MAX_TOOL_CALLS_PER_SESSION then Some("home_assistant_tool_session_limit")
    else if callId in s.seenCalls then Some("duplicate_home_assistant_tool_call")
    else if |s.active| >= MAX_PENDING then Some("too_many_home_assistant_tool_calls")
    else None
  }

  /** The request's task is created, with its rejection if it has one. */
  function Enlist(s: Router, request: RequestId, callId: string, rejection: Option<string>, name: Option<string>,
                  args: Option<Json>): Router {
    s.(seenCalls := if rejection.Some? then s.seenCalls else s.seenCalls + {callId},
       active := s.active[request := callId],
       tasks := s.tasks[request := if rejection.Some? then Rejecting(rejection.value) else Executing(name, args)],
       startedOpen := if s.failedClosed then s.startedOpen else s.startedOpen + {request},
       admitted := if rejection.Some? then s.admitted else s.admitted[request := callId])
  }

  /** The breaker and the limits are read before the call's task first runs. */
  function Start(s: Router, request: RequestId, callId: string, name: Option<string>, args: Option<Json>): Router {
    if request in s.seenRequests then s
    else
      var s1 := s.(seenRequests := s.seenRequests + {request});
      Enlist(s1, request, callId, Rejection(s1, callId), name, args)
  }

  function RejectUnowned(s: Router, request: RequestId): Router {
    Respond(s, request, false, Made("unowned_home_assistant_tool_call"))
  }

  /** The done-callback: a request leaves the active map once its response is claimed. */
  function Finish(s: Router, request: RequestId): Router {
    if request !in s.tasks || !s.tasks[request].Ending? then s
    else s.(tasks := s.tasks - {request}, active := if request in s.claimed then s.active - {request} else s.active)
  }

  /** The coroutine has nothing left to do but, perhaps, the write of its response. */
  function End(s: Router, request: RequestId): Router { s.(tasks := s.tasks[request := Ending]) }

  function RespondAndEnd(s: Router, request: RequestId, success: bool, body: Body): Router {
    End(Respond(s, request, success, body), request)
  }

  function Trip(s: Router): Router { s.(failedClosed := true) }

  /** What a task does when it first runs. */
  datatype Plan = Nothing | Answer(error: string, trip: bool) | CallBroker(snapshot: Snapshot, name: string, args: Json)

  function PlanOf(s: Router, request: RequestId): Plan {
    if request !in s.tasks then Nothing
    else
      match s.tasks[request]
      case Rejecting(error) => Answer(error, false)
      case Executing(name, args) =>
        if s.snapshot.Some? && name.Some? && args.Some? then CallBroker(s.snapshot.value, name.value, args.value)
        else Answer("home_assistant_tool_unavailable", true)
      case _ => Nothing
  }

  function RunWithoutBroker(s: Router, request: RequestId): Router {
    match PlanOf(s, request)
    case Answer(error, trip) => RespondAndEnd(if trip then Trip(s) else s, request, false, Made(error))
    case _ => s
  }

  /** The broker refused the call: an unknown outcome, or a protocol error. Both trip the breaker. */
  function Refused(s: Router, request: RequestId, why: Refusal): Router {
    RespondAndEnd(Trip(s), request, false,
      Made(if why.AuthorityChanged? || why.TooManyPending? then "home_assistant_tool_outcome_unknown"
           else "home_assistant_tool_unavailable"))
  }

  function Called(s: Router, request: RequestId, id: CallId): Router {
    s.(tasks := s.tasks[request := Calling(id)], callOf := s.callOf[request := id], calls := s.calls + multiset{request})
  }

  /** The broker's call ended. `doNotRetry` is the flag of a failed result. */
  function CallEnded(s: Router, request: RequestId, ending: Ending, future: Future, doNotRetry: bool): Router {
    if ending.Cancelled? then End(s, request)
    else if ending.Returned? && future.Resolved? then
      RespondAndEnd(if !future.success && doNotRetry then Trip(s) else s, request, future.success, FromHome(future.value))
    else RespondAndEnd(Trip(s), request, false, Made("home_assistant_tool_outcome_unknown"))
  }

  /** A task cancelled before it first ran; a call's own cancellation is an end of that call. */
  function CancelTask(s: Router, request: RequestId): Router {
    if request in s.tasks && Pending(s.tasks[request]) then End(s, request) else s
  }

  predicate Pending(task: Task) { task.Rejecting? || task.Executing? }

  /** Teardown answers every request that is still active and unclaimed once its task is over. */
  function Teardown(s: Router, request: RequestId): Router {
    if request in s.active && request !in s.tasks
    then Respond(s, request, false, Made("home_assistant_tool_outcome_unknown")) else s
  }

  // ----- the invariant -----

  ghost predicate Responses(s: Router) {
    && (forall i, j :: 0 <= i < j < |s.responses| ==> s.responses[i].request != s.responses[j].request)
    && (forall r | r in s.responses :: r.request in s.claimed)
  }

  ghost predicate Calls(s: Router) {
    && (forall q: RequestId :: s.calls[q] == if q in s.callOf then 1 else 0)
    && (forall q | q in s.tasks :: q in s.seenRequests)
    && (forall q | q in s.callOf :: q in s.startedOpen)
    && (forall q | q in s.seenRequests :: q in s.active || q in s.claimed)
    && (forall q | q in s.tasks && s.tasks[q].Calling? :: q in s.callOf && s.callOf[q] == s.tasks[q].id)
    && (forall q | q in s.tasks && Pending(s.tasks[q]) :: q !in s.callOf)
    && (forall q | q in s.tasks && s.tasks[q].Executing? :: q in s.startedOpen)
    && (forall q | q in s.startedOpen :: q in s.seenRequests)
    && (forall q | q in s.tasks :: q in s.active)
  }

  /** Requests whose broker call is under way or still to come. */
  ghost function Outstanding(s: Router): set<RequestId> {
    set q | q in s.tasks && (s.tasks[q].Executing? || s.tasks[q].Calling?)
  }

  /** Only admitted requests go to the broker, one for each provider call id, ... */
  ghost predicate OnePerCallId(s: Router) {
    && (forall q | q in s.admitted :: q in s.startedOpen && s.admitted[q] in s.seenCalls)
    && (forall q, p | q in s.admitted && p in s.admitted && s.admitted[q] == s.admitted[p] :: q == p)
    && (forall q | q in s.callOf :: q in s.admitted)
    && (forall q | q in s.startedOpen :: q in s.seenRequests)
  }

  /** ... and within both limits. */
  ghost predicate Bounded(s: Router) {
    && Outstanding(s) <= s.admitted.Keys
    && |s.admitted.Keys| <= MAX_TOOL_CALLS_PER_SESSION
    && |Outstanding(s)| <= MAX_PENDING
  }

  ghost predicate Admitted(s: Router) { OnePerCallId(s) && Bounded(s) }

  ghost predicate Inv(s: Router) { Responses(s) && Calls(s) && Admitted(s) }

  lemma InitInv(snapshot: Option<Snapshot>) ensures Inv(Init(snapshot)) {}

  lemma SubsetIsSmaller<T>(a: set<T>, b: set<T>)
    requires a <= b
    ensures |a| <= |b|
  {
    assert b == a + (b - a);
  }

  // ----- each piece of a step, predicate by predicate -----

  /** Fewer tasks on their way to the broker, and nothing else the admission speaks of. */
  lemma FewerOutstanding(s: Router, t: Router)
    requires Admitted(s) && Outstanding(t) <= Outstanding(s)
    requires t.admitted == s.admitted && t.startedOpen == s.startedOpen && t.callOf == s.callOf
    requires t.seenCalls == s.seenCalls && t.seenRequests == s.seenRequests
    ensures Admitted(t)
  {
    SubsetIsSmaller(Outstanding(t), Outstanding(s));
  }

  lemma RespondResponses(s: Router, request: RequestId, success: bool, body: Body)
    requires Responses(s)
    ensures Responses(Respond(s, request, success, body))
  {}

  lemma RespondCalls(s: Router, request: RequestId, success: bool, body: Body)
    requires Calls(s)
    ensures Calls(Respond(s, request, success, body))
  {}

  lemma RespondAdmits(s: Router, request: RequestId, success: bool, body: Body)
    requires Admitted(s)
    ensures Admitted(Respond(s, request, success, body))
  {
    hide Admitted;
    FewerOutstanding(s, Respond(s, request, success, body));
  }

  lemma RespondKeeps(s: Router, request: RequestId, success: bool, body: Body)
    requires Inv(s)
    ensures Inv(Respond(s, request, success, body))
  {
    hide Responses, Calls, Admitted, Respond;
    RespondResponses(s, request, success, body);
    RespondCalls(s, request, success, body);
    RespondAdmits(s, request, success, body);
  }

  lemma EndCalls(s: Router, request: RequestId)
    requires Calls(s) && request in s.tasks
    ensures Calls(End(s, request))
  {}

  lemma EndAdmits(s: Router, request: RequestId)
    requires Admitted(s)
    ensures Admitted(End(s, request))
  {
    hide Admitted;
    FewerOutstanding(s, End(s, request));
  }

  lemma EndKeeps(s: Router, request: RequestId)
    requires Inv(s) && request in s.tasks
    ensures Inv(End(s, request))
  {
    hide Calls, Admitted;
    EndCalls(s, request);
    EndAdmits(s, request);
  }

  lemma FinishCalls(s: Router, request: RequestId)
    requires Calls(s)
    ensures Calls(Finish(s, request))
  {}

  lemma FinishAdmits(s: Router, request: RequestId)
    requires Admitted(s)
    ensures Admitted(Finish(s, request))
  {
    hide Admitted;
    FewerOutstanding(s, Finish(s, request));
  }

  lemma FinishKeeps(s: Router, request: RequestId)
    requires Inv(s)
    ensures Inv(Finish(s, request))
  {
    hide Calls, Admitted;
    FinishCalls(s, request);
    FinishAdmits(s, request);
  }

  lemma TripKeeps(s: Router)
    requires Inv(s)
    ensures Inv(Trip(s))
  {
    hide Admitted;
    FewerOutstanding(s, Trip(s));
  }

  lemma StartCalls(s: Router, request: RequestId, callId: string, name: Option<string>, args: Option<Json>)
    requires Calls(s)
    ensures Calls(Start(s, request, callId, name, args))
  {}

  lemma OutstandingIsActive(s: Router)
    requires Calls(s)
    ensures Outstanding(s) <= s.active.Keys
    ensures forall q | q in s.tasks :: q in s.seenRequests
  {}

  lemma StartOnePerCallId(s: Router, request: RequestId, callId: string, name: Option<string>, args: Option<Json>)
    requires OnePerCallId(s)
    ensures OnePerCallId(Start(s, request, callId, name, args))
  {}

  /** A request that is not rejected adds one to what is outstanding, and to what was ever admitted. */
  lemma StartGrows(s: Router, request: RequestId, callId: string, name: Option<string>, args: Option<Json>)
    requires request !in s.seenRequests && request !in s.tasks
    ensures var t, why := Start(s, request, callId, name, args), Rejection(s.(seenRequests := s.seenRequests + {request}), callId);
      && t.seenRequests == s.seenRequests + {request}
      && Outstanding(t) == Outstanding(s) + (if why.None? then {request} else {})
      && t.admitted.Keys == s.admitted.Keys + (if why.None? then {request} else {})
  {
    hide Rejection;
  }

  lemma StartBounded(s: Router, request: RequestId, callId: string, name: Option<string>, args: Option<Json>)
    requires Bounded(s) && request !in s.seenRequests && request !in s.tasks
    requires Outstanding(s) <= s.active.Keys && s.admitted.Keys <= s.seenRequests
    ensures Bounded(Start(s, request, callId, name, args))
  {
    var t := Start(s, request, callId, name, args);
    StartGrows(s, request, callId, name, args);
    hide Start, Outstanding;
    SubsetIsSmaller(Outstanding(s), s.active.Keys);
    SubsetIsSmaller(s.admitted.Keys + {request}, s.seenRequests + {request});
    assert |s.active| == |s.active.Keys|;
  }

  lemma AdmittedWasSeen(s: Router)
    requires OnePerCallId(s)
    ensures s.admitted.Keys <= s.seenRequests
  {}

  lemma StartKeeps(s: Router, request: RequestId, callId: string, name: Option<string>, args: Option<Json>)
    requires Inv(s)
    ensures Inv(Start(s, request, callId, name, args))
  {
    StartKeepsResponses(s, request, callId, name, args);
    hide Calls, OnePerCallId, Bounded, Rejection, Outstanding, Responses, Start;
    StartCalls(s, request, callId, name, args);
    StartOnePerCallId(s, request, callId, name, args);
    AdmittedWasSeen(s);
    OutstandingIsActive(s);
    if request in s.seenRequests { KnownRequest(s, request, callId, name, args); return; }
    StartBounded(s, request, callId, name, args);
  }

  lemma KnownRequest(s: Router, request: RequestId, callId: string, name: Option<string>, args: Option<Json>)
    requires request in s.seenRequests
    ensures Start(s, request, callId, name, args) == s
  {}

  lemma StartKeepsResponses(s: Router, request: RequestId, callId: string, name: Option<string>, args: Option<Json>)
    requires Responses(s)
    ensures Responses(Start(s, request, callId, name, args))
  {}

  lemma RespondKeepsTasks(s: Router, request: RequestId, success: bool, body: Body)
    ensures Respond(s, request, success, body).tasks == s.tasks && Respond(Trip(s), request, success, body).tasks == s.tasks
  {}

  lemma RespondAndEndKeeps(s: Router, request: RequestId, success: bool, body: Body)
    requires Inv(s) && request in s.tasks
    ensures Inv(RespondAndEnd(s, request, success, body)) && Inv(RespondAndEnd(Trip(s), request, success, body))
  {
    RespondKeepsTasks(s, request, success, body);
    hide Inv, Respond, End, Trip;
    TripKeeps(s);
    RespondKeeps(s, request, success, body);
    RespondKeeps(Trip(s), request, success, body);
    EndKeeps(Respond(s, request, success, body), request);
    EndKeeps(Respond(Trip(s), request, success, body), request);
  }

  lemma CalledCalls(s: Router, request: RequestId, id: CallId)
    requires Calls(s) && request in s.tasks && s.tasks[request].Executing?
    ensures Calls(Called(s, request, id))
  {}

  lemma CalledAdmits(s: Router, request: RequestId, id: CallId)
    requires Admitted(s) && request in s.tasks && s.tasks[request].Executing?
    ensures Admitted(Called(s, request, id))
  {
    assert Outstanding(Called(s, request, id)) == Outstanding(s);
  }

  lemma CalledKeeps(s: Router, request: RequestId, id: CallId)
    requires Inv(s) && request in s.tasks && s.tasks[request].Executing?
    ensures Inv(Called(s, request, id))
  {
    hide Calls, Admitted;
    CalledCalls(s, request, id);
    CalledAdmits(s, request, id);
  }

  lemma BrokerEndsKeep(s: Router, request: RequestId, why: Refusal, ending: Ending, future: Future, doNotRetry: bool)
    requires Inv(s) && request in s.tasks
    ensures Inv(Refused(s, request, why)) && Inv(CallEnded(s, request, ending, future, doNotRetry))
  {
    hide Inv, RespondAndEnd, End, Trip;
    if ending.Cancelled? { EndKeeps(s, request); }
    RespondAndEndKeeps(s, request, false, Made("home_assistant_tool_outcome_unknown"));
    RespondAndEndKeeps(s, request, false, Made("home_assistant_tool_unavailable"));
    if future.Resolved? { RespondAndEndKeeps(s, request, future.success, FromHome(future.value)); }
  }

  lemma OtherEndsKeep(s: Router, request: RequestId)
    requires Inv(s)
    ensures Inv(RunWithoutBroker(s, request)) && Inv(CancelTask(s, request)) && Inv(Finish(s, request))
    ensures Inv(Teardown(s, request)) && Inv(RejectUnowned(s, request))
  {
    hide Inv, RespondAndEnd, End, Finish, Respond, Trip;
    FinishKeeps(s, request);
    if request in s.tasks { EndKeeps(s, request); }
    var plan := PlanOf(s, request);
    if plan.Answer? { RespondAndEndKeeps(s, request, false, Made(plan.error)); }
    RespondKeeps(s, request, false, Made("home_assistant_tool_outcome_unknown"));
    RespondKeeps(s, request, false, Made("unowned_home_assistant_tool_call"));
  }

  /** The teardown of one request after another. */
  function Teardowns(s: Router, order: seq<RequestId>): Router {
    if order == [] then s else Teardown(Teardowns(s, order[..|order| - 1]), order[|order| - 1])
  }

  lemma NoTeardowns(s: Router) ensures Teardowns(s, []) == s {}

  lemma OneMoreTeardown(s: Router, order: seq<RequestId>, q: RequestId)
    ensures Teardowns(s, order + [q]) == Teardown(Teardowns(s, order), q)
  {
    assert (order + [q])[..|order|] == order;
  }

  lemma TeardownResponds(s: Router, q: RequestId)
    requires q in s.active && q !in s.tasks
    ensures Teardown(s, q) == Respond(s, q, false, Made("home_assistant_tool_outcome_unknown"))
  {}

  predicate Unresolved(s: Router, q: RequestId) { q in s.active && q !in s.tasks && q !in s.claimed }

  /** One failure for each request, saying that the outcome is unknown. */
  function Unknowns(order: seq<RequestId>): seq<Response> {
    seq(|order|, i requires 0 <= i < |order| => Response(order[i], false, Made("home_assistant_tool_outcome_unknown")))
  }

  function Elements(order: seq<RequestId>): set<RequestId> { set q | q in order }

  lemma LastOne(order: seq<RequestId>)
    requires order != []
    ensures var front, q := order[..|order| - 1], order[|order| - 1];
      Elements(order) == Elements(front) + {q} && Unknowns(order) == Unknowns(front) + Unknowns([q])
  {}

  /**
   Tearing requests down keeps every response and claim there was, and adds for each unresolved request of
   the list, in that order, a claim and one failure.
   */
  lemma {:induction false} TeardownsAnswer(s: Router, order: seq<RequestId>)
    requires forall q | q in order :: Unresolved(s, q)
    requires forall i, j :: 0 <= i < j < |order| ==> order[i] != order[j]
    ensures Teardowns(s, order) == s.(claimed := s.claimed + Elements(order), responses := s.responses + Unknowns(order))
  {
    if order == [] {
      assert s.claimed + Elements(order) == s.claimed && s.responses + Unknowns(order) == s.responses;
      return;
    }
    hide Teardown, Elements, Unknowns;
    var front, q := order[..|order| - 1], order[|order| - 1];
    TeardownsAnswer(s, front);
    assert Unresolved(s, q);
    LastOne(order);
    NotAmong(front, q);
    OneAnswer(Teardowns(s, front), q);
    assert s.responses + Unknowns(front) + Unknowns([q]) == s.responses + Unknowns(order);
    assert s.claimed + Elements(front) + {q} == s.claimed + Elements(order);
  }

  lemma {:induction false} TeardownsKeep(s: Router, order: seq<RequestId>)
    requires Inv(s)
    ensures Inv(Teardowns(s, order))
  {
    hide Inv, Teardown;
    if order == [] { return; }
    TeardownsKeep(s, order[..|order| - 1]);
    OtherEndsKeep(Teardowns(s, order[..|order| - 1]), order[|order| - 1]);
  }

  lemma NotAmong(front: seq<RequestId>, q: RequestId)
    ensures q in front <==> q in Elements(front)
  {}

  lemma OneAnswer(s: Router, q: RequestId)
    requires Unresolved(s, q)
    ensures Teardown(s, q) == s.(claimed := s.claimed + {q},
                                 responses := s.responses + Unknowns([q]))
  {}

  /** The session's tool closures: the same steps over their shared variables. */
  class ToolSession {
    const snapshot: Option<Snapshot>
    var failedClosed: bool
    var seenRequestIds: set<RequestId>
    var seenCallIds: set<string>
    var activeCalls: map<RequestId, string>
    var callTasks: map<RequestId, Task>
    var claimedResponses: set<RequestId>
    ghost var responses: seq<Response>
    ghost var callOf: map<RequestId, CallId>
    ghost var calls: multiset<RequestId>
    ghost var startedOpen: set<RequestId>
    ghost var admitted: map<RequestId, string>

    ghost function View(): Router
      reads this
    {
      Router(snapshot, failedClosed, seenRequestIds, seenCallIds, activeCalls, callTasks, claimedResponses,
             responses, callOf, calls, startedOpen, admitted)
    }

    constructor (snapshot: Option<Snapshot>)
      ensures View() == Init(snapshot)
    {
      this.snapshot := snapshot;
      failedClosed, seenRequestIds, seenCallIds, activeCalls := false, {}, {}, map[];
      callTasks, claimedResponses := map[], {};
      responses, callOf, calls, startedOpen, admitted := [], map[], multiset{}, {}, map[];
    }

    /** `sent` says whether a response goes out for the request now. */
    method RespondOnce(request: RequestId, success: bool, body: Body) returns (sent: bool)
      modifies `claimedResponses, `responses
      ensures View() == Respond(old(View()), request, success, body)
      ensures sent <==> |View().responses| != |old(View()).responses|
    {
      if request in claimedResponses { return false; }
      claimedResponses := claimedResponses + {request};
      responses := responses + [Response(request, success, body)];
      return true;
    }

    method Reject(callId: string) returns (rejection: Option<string>)
      ensures rejection == Rejection(View(), callId)
      ensures rejection.None? <==>
        !failedClosed && |seenRequestIds| <= MAX_TOOL_CALLS_PER_SESSION && callId !in seenCallIds && |activeCalls| < MAX_PENDING
    {
      if failedClosed { return Some("home_assistant_tool_session_unavailable"); }
      if |seenRequestIds| > MAX_TOOL_CALLS_PER_SESSION { return Some("home_assistant_tool_session_limit"); }
      if callId in seenCallIds { return Some("duplicate_home_assistant_tool_call"); }
      if |activeCalls| >= MAX_PENDING { return Some("too_many_home_assistant_tool_calls"); }
      return None;
    }

    method StartCall(request: RequestId, callId: string, name: Option<string>, args: Option<Json>)
      modifies this
      ensures View() == Start(old(View()), request, callId, name, args)
    {
      hide Rejection, Enlist;
      if request in seenRequestIds { return; }
      seenRequestIds := seenRequestIds + {request};
      assert View() == old(View()).(seenRequests := old(seenRequestIds) + {request});
      var rejection := Reject(callId);
      CreateTask(request, callId, rejection, name, args);
    }

    method CreateTask(request: RequestId, callId: string, rejection: Option<string>, name: Option<string>, args: Option<Json>)
      modifies this
      ensures View() == Enlist(old(View()), request, callId, rejection, name, args)
    {
      if !failedClosed { startedOpen := startedOpen + {request}; }
      if rejection.None? {
        seenCallIds := seenCallIds + {callId};
        admitted := admitted[request := callId];
      }
      callTasks := callTasks[request := if rejection.Some? then Rejecting(rejection.value) else Executing(name, args)];
      activeCalls := activeCalls[request := callId];
    }

    /** The done-callback of a call's task. */
    method FinishTask(request: RequestId)
      requires request in callTasks && callTasks[request].Ending?
      modifies `callTasks, `activeCalls
      ensures View() == Finish(old(View()), request)
    {
      callTasks := callTasks - {request};
      if request in claimedResponses { activeCalls := activeCalls - {request}; }
    }

    method EndTask(request: RequestId)
      modifies `callTasks
      ensures View() == End(old(View()), request)
    {
      callTasks := callTasks[request := Ending];
    }

    /** The end of `execute_home_assistant_tool_call`, once the broker has answered or raised. */
    method OnCallEnded(request: RequestId, ending: Ending, future: Future, doNotRetry: bool)
      modifies this
      ensures View() == CallEnded(old(View()), request, ending, future, doNotRetry)
    {
      if !ending.Cancelled? {
        if ending.Returned? && future.Resolved? {
          if !future.success && doNotRetry { failedClosed := true; }
          var _ := RespondOnce(request, future.success, FromHome(future.value));
        } else {
          failedClosed := true;
          var _ := RespondOnce(request, false, Made("home_assistant_tool_outcome_unknown"));
        }
      }
      EndTask(request);
    }

    method RejectUnownedCall(request: RequestId) returns (sent: bool)
      modifies `claimedResponses, `responses
      ensures View() == RejectUnowned(old(View()), request)
    {
      sent := RespondOnce(request, false, Made("unowned_home_assistant_tool_call"));
    }

    /**
     The teardown answers every unclaimed active request whose task is over, each once, in some order, with
     a failure of unknown outcome. It is that many teardown steps and changes nothing else.
     */
    method TearDown() returns (ghost order: seq<RequestId>)
      modifies `claimedResponses, `responses
      ensures View() == Teardowns(old(View()), order)
      ensures claimedResponses == old(claimedResponses) + Elements(order) && responses == old(responses) + Unknowns(order)
      ensures old(Inv(View())) ==> Inv(View())
      ensures (forall i, j :: 0 <= i < j < |order| ==> order[i] != order[j])
      ensures forall q :: q in order <==> q in activeCalls && q !in callTasks && q !in old(claimedResponses)
    {
      hide Teardown, Teardowns, Elements, Unknowns, Inv;
      order := [];
      var unresolved := set q | q in activeCalls && q !in callTasks && q !in claimedResponses;
      NoTeardowns(View());
      while unresolved != {}
        invariant forall q | q in unresolved :: q in activeCalls && q !in callTasks && q !in order
        invariant forall q :: q in order || q in unresolved <==>
                            q in activeCalls && q !in callTasks && q !in old(claimedResponses)
        invariant forall i, j :: 0 <= i < j < |order| ==> order[i] != order[j]
        invariant View() == Teardowns(old(View()), order)
        modifies `claimedResponses, `responses
        decreases |unresolved|
      {
        var q :| q in unresolved;
        unresolved := unresolved - {q};
        TeardownResponds(View(), q);
        OneMoreTeardown(old(View()), order, q);
        var _ := RespondOnce(q, false, Made("home_assistant_tool_outcome_unknown"));
        order := order + [q];
      }
      ghost var s := old(View());
      assert forall q | q in order :: Unresolved(s, q);
      TeardownsAnswer(s, order);
      if old(Inv(View())) { TeardownsKeep(s, order); }
    }

    /** The first stretch of a call's task when it does not go to the broker. */
    method RunTask(request: RequestId)
      requires PlanOf(View(), request).Answer?
      modifies this
      ensures View() == RunWithoutBroker(old(View()), request)
    {
      var task := callTasks[request];
      var error := if task.Rejecting? then task.error else "home_assistant_tool_unavailable";
      if !task.Rejecting? { failedClosed := true; }
      var _ := RespondOnce(request, false, Made(error));
      EndTask(request);
    }

    /** The broker refused the call. */
    method OnRefused(request: RequestId, why: Refusal)
      modifies this
      ensures View() == Refused(old(View()), request, why)
    {
      failedClosed := true;
      var unknown := why.AuthorityChanged? || why.TooManyPending?;
      var _ := RespondOnce(request, false,
        Made(if unknown then "home_assistant_tool_outcome_unknown" else "home_assistant_tool_unavailable"));
      EndTask(request);
    }
  }
}
