/**
 The Home Assistant end of the tool protocol: the serve loop of one authority connection
 (`_async_serve_connection`) and its tool-call tasks (`_async_handle_tool_call`).
 */
module ToolEndpoint {
  import opened Wrappers
  import opened ToolWire

  const MAX_PENDING_CALLS := 16
  const MAX_CALLS_PER_GENERATION := 1_024

  datatype Arguments = NotAnObject | TooLarge | Object(json: Json)

  datatype Execution = Execution(name: string, args: Json)

  /** A tool-call task: inside `async_call_tool`, or about to send its result. */
  datatype Task = Executing(name: string, args: Json) | Answering(success: bool, value: Json)

  datatype Outcome = Succeeded(value: Json) | Failed | TimedOut

  datatype Endpoint = Endpoint(
    names: set<string>,             // the tools of the registration snapshot
    gen: Option<Generation>,
    seen: set<CallId>,
    tasks: map<CallId, Task>,
    serving: bool,                  // the receive loop is running
    runs: multiset<CallId>,         // history: one occurrence for every call of async_call_tool
    ran: map<CallId, Execution>,    // history: what those calls were made with
    produced: map<CallId, Json>)    // history: what Home Assistant returned for a call

  function Connect(names: set<string>): Endpoint { Endpoint(names, None, {}, map[], true, multiset{}, map[], map[]) }

  function Stop(e: Endpoint): Endpoint { e.(serving := false, tasks := map[]) }

  /** A `registered` event; the second one of a connection ends it. */
  function Registered(e: Endpoint, gen: Generation): Endpoint {
    if !e.serving then e
    else if e.gen.Some? then Stop(e)
    else e.(gen := Some(gen))
  }

  function Answer(e: Endpoint, id: CallId, success: bool, value: Json): Endpoint {
    e.(tasks := e.tasks[id := Answering(success, value)])
  }

  /** The call's task up to its first await. `name` is none for a malformed tool name. */
  function Handle(e: Endpoint, id: CallId, name: Option<string>, args: Arguments, closed: bool): Endpoint {
    var e1 := e.(seen := e.seen + {id});
    if name.None? then e1
    else if args.NotAnObject? || args.TooLarge? then Answer(e1, id, false, "invalid_arguments")
    else if name.value !in e.names || closed then Answer(e1, id, false, "tool_not_available")
    else e1.(tasks := e.tasks[id := Executing(name.value, args.json)],
             runs := e.runs + multiset{id}, ran := e.ran[id := Execution(name.value, args.json)])
  }

  function ToolCall(e: Endpoint, gen: Generation, id: CallId, name: Option<string>, args: Arguments, closed: bool): Endpoint {
    if !e.serving then e
    else if e.gen.None? || |e.tasks| >= MAX_PENDING_CALLS || |e.seen| >= MAX_CALLS_PER_GENERATION then Stop(e)
    else if e.gen.value != gen || id in e.seen then e
    else Handle(e, id, name, args, closed)
  }

  /** `async_call_tool` came back. With the socket closed the result is dropped. */
  function Returned(e: Endpoint, id: CallId, outcome: Outcome, closed: bool): Endpoint {
    if id !in e.tasks || !e.tasks[id].Executing? then e
    else
      var e1 := if outcome.Succeeded? then e.(produced := e.produced[id := outcome.value]) else e;
      if closed then e1.(tasks := e.tasks - {id})
      else
        match outcome
        case Succeeded(value) => Answer(e1, id, true, value)
        case Failed => Answer(e1, id, false, "tool_failed")
        case TimedOut => Answer(e1, id, false, "tool_timeout")
  }

  /** The result message is written, or its write fails; either way the task is over. */
  function Answered(e: Endpoint, id: CallId): Endpoint {
    if id in e.tasks && e.tasks[id].Answering? then e.(tasks := e.tasks - {id}) else e
  }

  datatype Event =
    | ERegistered(gen: Generation)
    | EToolCall(gen: Generation, id: CallId, name: Option<string>, args: Arguments, closed: bool)
    | EReturned(id: CallId, outcome: Outcome, closed: bool)
    | EAnswered(id: CallId)
    | EStop

  function Step(e: Endpoint, event: Event): Endpoint {
    match event
    case ERegistered(gen) => Registered(e, gen)
    case EToolCall(gen, id, name, args, closed) => ToolCall(e, gen, id, name, args, closed)
    case EReturned(id, outcome, closed) => Returned(e, id, outcome, closed)
    case EAnswered(id) => Answered(e, id)
    case EStop => Stop(e)
  }

  /** One execution per call id, of a declared tool, and a product only of an execution. */
  ghost predicate Executions(e: Endpoint) {
    && (forall id: CallId :: e.runs[id] == if id in e.ran then 1 else 0)
    && (forall id | id in e.ran :: id in e.seen && e.ran[id].name in e.names)
    && (forall id | id in e.produced :: id in e.ran && !(id in e.tasks && e.tasks[id].Executing?))
    && (forall id | id in e.tasks && e.tasks[id].Executing? ::
          id in e.ran && e.ran[id] == Execution(e.tasks[id].name, e.tasks[id].args))
    && (forall id | id in e.tasks && e.tasks[id].Answering? && e.tasks[id].success ::
          id in e.produced && e.produced[id] == e.tasks[id].value)
  }

  ghost predicate Bounded(e: Endpoint) {
    && |e.tasks| <= MAX_PENDING_CALLS && |e.seen| <= MAX_CALLS_PER_GENERATION
    && (forall id | id in e.tasks :: id in e.seen)
    && (e.gen.None? ==> e.seen == {})
  }

  ghost predicate Inv(e: Endpoint) { Executions(e) && Bounded(e) }

  lemma ConnectInv(names: set<string>)
    ensures Inv(Connect(names))
  {
    assert |Connect(names).tasks| == 0 && |Connect(names).seen| == 0;
  }

  lemma TaskMapGrows(tasks: map<CallId, Task>, id: CallId, t: Task)
    ensures |tasks[id := t]| <= |tasks| + 1 && (id in tasks ==> |tasks[id := t]| == |tasks|)
  {
    if id in tasks {
      assert tasks[id := t].Keys == tasks.Keys;
      assert |tasks[id := t].Keys| == |tasks[id := t]| && |tasks.Keys| == |tasks|;
    } else {
      assert tasks[id := t].Keys == tasks.Keys + {id};
      assert |tasks[id := t].Keys| == |tasks[id := t]| && |tasks.Keys| == |tasks|;
    }
  }

  lemma TaskMapShrinks(tasks: map<CallId, Task>, id: CallId)
    requires id in tasks
    ensures |tasks - {id}| < |tasks|
  {
    assert (tasks - {id}).Keys == tasks.Keys - {id};
    assert |(tasks - {id}).Keys| == |tasks - {id}| && |tasks.Keys| == |tasks|;
  }

  lemma StopKeeps(e: Endpoint)
    requires Inv(e)
    ensures Inv(Stop(e))
  {
    assert |Stop(e).tasks| == 0;
  }

  lemma SeeKeeps(e: Endpoint, id: CallId)
    requires Inv(e) && id !in e.seen && |e.seen| < MAX_CALLS_PER_GENERATION && e.gen.Some?
    ensures Inv(e.(seen := e.seen + {id})) && id !in e.tasks && id !in e.ran
  {}

  lemma RefuseKeeps(e: Endpoint, id: CallId, value: Json)
    requires Inv(e) && id in e.seen && id !in e.tasks && |e.tasks| < MAX_PENDING_CALLS
    ensures Inv(Answer(e, id, false, value))
  {
    TaskMapGrows(e.tasks, id, Answering(false, value));
  }

  lemma ExecuteKeeps(e: Endpoint, id: CallId, name: string, args: Json)
    requires Inv(e) && id in e.seen && id !in e.tasks && id !in e.ran && |e.tasks| < MAX_PENDING_CALLS && name in e.names
    ensures Inv(e.(tasks := e.tasks[id := Executing(name, args)],
                   runs := e.runs + multiset{id}, ran := e.ran[id := Execution(name, args)]))
  {
    TaskMapGrows(e.tasks, id, Executing(name, args));
  }

  lemma HandleKeeps(e: Endpoint, id: CallId, name: Option<string>, args: Arguments, closed: bool)
    requires Inv(e) && id !in e.seen && |e.tasks| < MAX_PENDING_CALLS && |e.seen| < MAX_CALLS_PER_GENERATION && e.gen.Some?
    ensures Inv(Handle(e, id, name, args, closed))
  {
    hide Executions, Bounded;
    SeeKeeps(e, id);
    var e1 := e.(seen := e.seen + {id});
    RefuseKeeps(e1, id, "invalid_arguments");
    RefuseKeeps(e1, id, "tool_not_available");
    if name.Some? && args.Object? && name.value in e.names { ExecuteKeeps(e1, id, name.value, args.json); }
  }

  lemma ReturnedKeeps(e: Endpoint, id: CallId, outcome: Outcome, closed: bool)
    requires Inv(e)
    ensures Inv(Returned(e, id, outcome, closed))
  {
    if id !in e.tasks || !e.tasks[id].Executing? { return; }
    var t := Returned(e, id, outcome, closed);
    if closed { TaskMapShrinks(e.tasks, id); return; }
    TaskMapGrows(e.tasks, id, t.tasks[id]);
  }

  lemma AnsweredKeeps(e: Endpoint, id: CallId)
    requires Inv(e)
    ensures Inv(Answered(e, id))
  {
    if id in e.tasks && e.tasks[id].Answering? { TaskMapShrinks(e.tasks, id); }
  }

  /** Whatever the bridge and the network send, the endpoint's invariant holds. */
  lemma StepKeeps(e: Endpoint, event: Event)
    requires Inv(e)
    ensures Inv(Step(e, event))
  {
    hide Executions, Bounded, Stop, Handle, Returned, Answered;
    StopKeeps(e);
    match event
    case ERegistered(gen) => RegisteredKeeps(e, gen);
    case EToolCall(gen, id, name, args, closed) =>
      if e.serving && e.gen.Some? && |e.tasks| < MAX_PENDING_CALLS && |e.seen| < MAX_CALLS_PER_GENERATION && id !in e.seen {
        HandleKeeps(e, id, name, args, closed);
      }
    case EReturned(id, outcome, closed) => ReturnedKeeps(e, id, outcome, closed);
    case EAnswered(id) => AnsweredKeeps(e, id);
    case EStop =>
  }

  lemma RegisteredKeeps(e: Endpoint, gen: Generation)
    requires Inv(e)
    ensures Inv(Registered(e, gen))
  {
    StopKeeps(e);
  }

  function After(names: set<string>, run: seq<Event>): Endpoint {
    if run == [] then Connect(names) else Step(After(names, run[..|run| - 1]), run[|run| - 1])
  }

  lemma {:induction false} AfterKeeps(names: set<string>, run: seq<Event>)
    ensures Inv(After(names, run))
  {
    hide Inv, Step;
    if run == [] { ConnectInv(names); } else {
      AfterKeeps(names, run[..|run| - 1]);
      StepKeeps(After(names, run[..|run| - 1]), run[|run| - 1]);
    }
  }

  /** Home Assistant runs each call id at most once per connection, and only tools it declared. */
  lemma ExecutesEachCallOnce(names: set<string>, run: seq<Event>)
    ensures var e := After(names, run);
      && (forall id: CallId :: e.runs[id] <= 1)
      && (forall id | id in e.ran :: e.ran[id].name in e.names)
      && |e.seen| <= MAX_CALLS_PER_GENERATION && |e.tasks| <= MAX_PENDING_CALLS
  {
    AfterKeeps(names, run);
  }

  /** A call is run exactly when it is fresh, of this generation, well formed, declared and deliverable. */
  lemma RunsExactlyTheAdmissible(e: Endpoint, gen: Generation, id: CallId, name: Option<string>, args: Arguments, closed: bool)
    ensures ToolCall(e, gen, id, name, args, closed).runs[id] != e.runs[id] <==>
      && e.serving && e.gen == Some(gen) && id !in e.seen
      && |e.tasks| < MAX_PENDING_CALLS && |e.seen| < MAX_CALLS_PER_GENERATION
      && name.Some? && args.Object? && name.value in e.names && !closed
  {
    if !e.serving || e.gen != Some(gen) { return; }
    if |e.tasks| >= MAX_PENDING_CALLS || |e.seen| >= MAX_CALLS_PER_GENERATION { return; }
  }

  /** A call the serve loop hands to a task: fresh, of this generation, with a usable name and room for it. */
  predicate Accepts(e: Endpoint, event: Event) {
    && event.EToolCall? && e.serving && e.gen == Some(event.gen) && event.id !in e.seen && event.name.Some?
    && |e.tasks| < MAX_PENDING_CALLS && |e.seen| < MAX_CALLS_PER_GENERATION
  }

  /** The serve loop ends: stopped, registered a second time, or called before its registration or past a limit. */
  predicate Ends(e: Endpoint, event: Event) {
    || event.EStop?
    || (event.ERegistered? && e.serving && e.gen.Some?)
    || (event.EToolCall? && e.serving
        && (e.gen.None? || |e.tasks| >= MAX_PENDING_CALLS || |e.seen| >= MAX_CALLS_PER_GENERATION))
  }

  /** What an accepted call becomes: the run of its tool, or the error it is answered with. */
  function Accepted(e: Endpoint, event: Event): Task
    requires Accepts(e, event)
  {
    if !event.args.Object? then Answering(false, "invalid_arguments")
    else if event.name.value !in e.names || event.closed then Answering(false, "tool_not_available")
    else Executing(event.name.value, event.args.json)
  }

  function Result(outcome: Outcome): Task {
    match outcome
    case Succeeded(value) => Answering(true, value)
    case Failed => Answering(false, "tool_failed")
    case TimedOut => Answering(false, "tool_timeout")
  }

  function TaskAfter(e: Endpoint, event: Event, id: CallId): Option<Task> {
    if Ends(e, event) then None
    else if Accepts(e, event) && event.id == id then Some(Accepted(e, event))
    else if id !in e.tasks then None
    else if event.EReturned? && event.id == id && e.tasks[id].Executing? then
      if event.closed then None else Some(Result(event.outcome))
    else if event == EAnswered(id) && e.tasks[id].Answering? then None
    else Some(e.tasks[id])
  }

  /**
   Every accepted call is answered: its task runs the tool or has an error to send, a tool that comes back leaves what
   it returned, or that it failed or timed out, and the task goes as its result is written, with its socket, or with
   its connection; nothing else moves it.
   */
  lemma TasksMove(e: Endpoint, event: Event, id: CallId)
    ensures (if id in Step(e, event).tasks then Some(Step(e, event).tasks[id]) else None) == TaskAfter(e, event, id)
    ensures Step(e, event).serving <==> e.serving && !Ends(e, event)
    ensures Step(e, event).gen == if event.ERegistered? && e.serving && e.gen.None? then Some(event.gen) else e.gen
  {
    if event.EToolCall? { CallTasks(e, event, id); }
  }

  lemma CallTasks(e: Endpoint, event: Event, id: CallId)
    requires event.EToolCall?
    ensures var t := Step(e, event);
      (if id in t.tasks then Some(t.tasks[id]) else None) == TaskAfter(e, event, id)
      && (t.serving <==> e.serving && !Ends(e, event)) && t.gen == e.gen
  {
    hide Handle;
    if !e.serving || e.gen.None? || |e.tasks| >= MAX_PENDING_CALLS || |e.seen| >= MAX_CALLS_PER_GENERATION { return; }
    if e.gen.value != event.gen || event.id in e.seen { return; }
    HandleShape(e, event.id, event.name, event.args, event.closed);
  }

  /** What handling a call changes besides the histories. */
  lemma HandleShape(e: Endpoint, id: CallId, name: Option<string>, args: Arguments, closed: bool)
    ensures var t := Handle(e, id, name, args, closed);
      && t.gen == e.gen && t.serving == e.serving && t.seen == e.seen + {id}
      && t.tasks == if name.None? then e.tasks
                    else e.tasks[id := if !args.Object? then Answering(false, "invalid_arguments")
                                       else if name.value !in e.names || closed then Answering(false, "tool_not_available")
                                       else Executing(name.value, args.json)]
  {}

  /** One connection's serve loop and call tasks: the same steps over its own variables. */
  class AuthorityConnection {
    const names: set<string>
    var generation: Option<Generation>
    var seenCallIds: set<CallId>
    var pendingCalls: map<CallId, Task>
    var serving: bool
    ghost var runs: multiset<CallId>
    ghost var ran: map<CallId, Execution>
    ghost var produced: map<CallId, Json>

    ghost function View(): Endpoint
      reads this
    {
      Endpoint(names, generation, seenCallIds, pendingCalls, serving, runs, ran, produced)
    }

    constructor (names: set<string>)
      ensures View() == Connect(names)
    {
      this.names := names;
      generation, seenCallIds, pendingCalls, serving := None, {}, map[], true;
      runs, ran, produced := multiset{}, map[], map[];
    }

    /** The loop raises or breaks: its tasks are cancelled. */
    method End()
      modifies `serving, `pendingCalls
      ensures View() == Stop(old(View()))
    {
      serving := false;
      pendingCalls := map[];
    }

    method OnRegistered(gen: Generation)
      requires serving
      modifies this
      ensures View() == Step(old(View()), ERegistered(gen))
    {
      if generation.Some? {
        End();
        return;
      }
      generation := Some(gen);
    }

    /** `calls` says whether `async_call_tool` is called now. */
    method OnToolCall(gen: Generation, id: CallId, name: Option<string>, args: Arguments, closed: bool) returns (calls: bool)
      requires serving
      modifies this
      ensures View() == Step(old(View()), EToolCall(gen, id, name, args, closed))
      ensures calls <==> View().runs[id] != old(View()).runs[id]
    {
      if generation.None? || |pendingCalls| >= MAX_PENDING_CALLS || |seenCallIds| >= MAX_CALLS_PER_GENERATION {
        End();
        return false;
      }
      if gen != generation.value { return false; }
      if id in seenCallIds { return false; }
      seenCallIds := seenCallIds + {id};
      if name.None? { return false; }
      if !args.Object? {
        pendingCalls := pendingCalls[id := Answering(false, "invalid_arguments")];
        return false;
      }
      if name.value !in names || closed {
        pendingCalls := pendingCalls[id := Answering(false, "tool_not_available")];
        return false;
      }
      pendingCalls := pendingCalls[id := Executing(name.value, args.json)];
      runs := runs + multiset{id};
      ran := ran[id := Execution(name.value, args.json)];
      return true;
    }

    method OnToolReturned(id: CallId, outcome: Outcome, closed: bool)
      requires id in pendingCalls && pendingCalls[id].Executing?
      modifies this
      ensures View() == Step(old(View()), EReturned(id, outcome, closed))
    {
      if outcome.Succeeded? { produced := produced[id := outcome.value]; }
      if closed {
        pendingCalls := pendingCalls - {id};
        return;
      }
      var success := outcome.Succeeded?;
      var value := if outcome.Succeeded? then outcome.value else if outcome.TimedOut? then "tool_timeout" else "tool_failed";
      pendingCalls := pendingCalls[id := Answering(success, value)];
    }

    /** A result has been written, or failed to be. */
    method OnAnswered(id: CallId)
      requires id in pendingCalls && pendingCalls[id].Answering?
      modifies this
      ensures View() == Step(old(View()), EAnswered(id))
    {
      pendingCalls := pendingCalls - {id};
    }
  }
}
