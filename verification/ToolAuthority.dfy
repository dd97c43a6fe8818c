/**
 The tool authority protocol end to end: a bridge session, the broker, any number of Home Assistant
 connections, and networks that may delay, drop, duplicate and reorder every message.

 A message once written stays in `down` or `up` and may be delivered any number of times, or never.
 */
module ToolAuthority {
  import opened Wrappers
  import opened ToolWire
  import opened ToolBroker
  import E = ToolEndpoint
  import R = ToolRouter

  datatype Down =
    | Registered(conn: Connection, gen: Generation)
    | ToolCall(conn: Connection, gen: Generation, id: CallId, name: string, args: Json)

  datatype Up = Result(conn: Connection, gen: Generation, id: CallId, success: bool, value: Json)

  /** History of one broker call. `request` is the App Server request of this session it serves, if any. */
  datatype Issued = Issued(conn: Connection, gen: Generation, name: string, args: Json, request: Option<R.RequestId>)

  datatype World = World(
    broker: State,
    router: R.Router,
    endpoints: map<Connection, E.Endpoint>,
    down: set<Down>,
    up: set<Up>,
    owners: map<Generation, Connection>,   // history: the connection each generation was given to
    issued: map<CallId, Issued>)

  function InitWorld(snapshot: Option<Snapshot>): World {
    World(Init(), R.Init(snapshot), map[], {}, {}, map[], map[])
  }

  datatype Happening =
    | Connect(conn: Connection, names: set<string>)
    | Register(conn: Connection, names: set<string>, currentClosed: bool)
    | Unregister(conn: Connection)
    | DeliverDown(down: Down, args: E.Arguments, closed: bool)
    | ToolReturned(conn: Connection, id: CallId, outcome: E.Outcome, closed: bool)
    | ToolAnswered(conn: Connection, id: CallId)
    | Stop(conn: Connection)
    | DeliverUp(up: Up)
    | CallSent(id: CallId)
    | Start(request: R.RequestId, callId: string, name: Option<string>, json: Option<Json>)
    | RejectUnowned(request: R.RequestId)
    | Run(request: R.RequestId, closed: bool, argsFit: bool)
    | CallEnds(request: R.RequestId, ending: Ending, doNotRetry: bool)
    | CancelTask(request: R.RequestId)
    | TaskDone(request: R.RequestId)
    | Teardown(request: R.RequestId)
    | OtherBegins(snapshot: Snapshot, tool: string, otherArgs: Json, closed: bool, argsFit: bool)
    | OtherEnds(id: CallId, ending: Ending)

  function DoRegister(w: World, conn: Connection, names: set<string>, currentClosed: bool): World {
    if Busy(w.broker, currentClosed) || conn !in w.endpoints then w
    else
      w.(broker := Step(w.broker, ERegister(conn, names, currentClosed)),
         down := w.down + {Registered(conn, w.broker.nextGen)},
         owners := w.owners[w.broker.nextGen := conn])
  }

  /** The arguments of a call message reach the endpoint as they were sent, or as too large. */
  function EndpointEvent(m: Down, args: E.Arguments, closed: bool): E.Event {
    match m
    case Registered(_, gen) => E.ERegistered(gen)
    case ToolCall(_, gen, id, name, sent) =>
      E.EToolCall(gen, id, Some(name), if args.Object? then E.Object(sent) else args, closed)
  }

  function AtEndpoint(w: World, conn: Connection, event: E.Event): World {
    if conn !in w.endpoints then w else w.(endpoints := w.endpoints[conn := E.Step(w.endpoints[conn], event)])
  }

  function DoAnswer(w: World, conn: Connection, id: CallId): World {
    if conn !in w.endpoints || id !in w.endpoints[conn].tasks || !w.endpoints[conn].tasks[id].Answering?
       || w.endpoints[conn].gen.None? then w
    else
      var e := w.endpoints[conn];
      AtEndpoint(w, conn, E.EAnswered(id)).(
        up := w.up + {Result(conn, e.gen.value, id, e.tasks[id].success, e.tasks[id].value)})
  }

  function DoSend(w: World, id: CallId): World {
    if id !in w.broker.inFlight then w
    else
      var c := w.broker.inFlight[id];
      w.(broker := Step(w.broker, ESent(id)), down := w.down + {ToolCall(c.conn, c.gen, id, c.name, c.args)})
  }

  function DoBegin(w: World, snapshot: Snapshot, name: string, args: Json, closed: bool, argsFit: bool,
                   request: Option<R.RequestId>): World
    requires Refuses(w.broker, snapshot, closed, name, argsFit).None?
  {
    w.(broker := Step(w.broker, EBegin(snapshot, closed, name, args, argsFit)),
       issued := w.issued[w.broker.nextCall := Issued(w.broker.websocket.value, snapshot.gen, name, args, request)])
  }

  function DoRun(w: World, request: R.RequestId, closed: bool, argsFit: bool): World {
    var plan := R.PlanOf(w.router, request);
    if !plan.CallBroker? then w.(router := R.RunWithoutBroker(w.router, request))
    else
      var why := Refuses(w.broker, plan.snapshot, closed, plan.name, argsFit);
      if why.Some? then w.(router := R.Refused(w.router, request, why.value))
      else DoBegin(w, plan.snapshot, plan.name, plan.args, closed, argsFit, Some(request)).(
             router := R.Called(w.router, request, w.broker.nextCall))
  }

  function DoCallEnds(w: World, request: R.RequestId, ending: Ending, doNotRetry: bool): World {
    if request !in w.router.tasks || !w.router.tasks[request].Calling?
       || !MayEnd(w.broker, w.router.tasks[request].id, ending) then w
    else
      var id := w.router.tasks[request].id;
      w.(broker := Step(w.broker, EEnd(id, ending)),
         router := R.CallEnded(w.router, request, ending, w.broker.futures[id], doNotRetry))
  }

  function Next(w: World, h: Happening): World {
    match h
    case Connect(conn, names) =>
      if conn in w.endpoints then w else w.(endpoints := w.endpoints[conn := E.Connect(names)])
    case Register(conn, names, currentClosed) => DoRegister(w, conn, names, currentClosed)
    case Unregister(conn) => w.(broker := Step(w.broker, EUnregister(conn)))
    case DeliverDown(m, args, closed) => if m !in w.down then w else AtEndpoint(w, m.conn, EndpointEvent(m, args, closed))
    case ToolReturned(conn, id, outcome, closed) => AtEndpoint(w, conn, E.EReturned(id, outcome, closed))
    case ToolAnswered(conn, id) => DoAnswer(w, conn, id)
    case Stop(conn) => AtEndpoint(w, conn, E.EStop)
    case DeliverUp(m) =>
      if m !in w.up then w else w.(broker := Step(w.broker, EReceive(m.conn, m.gen, m.id, m.success, m.value)))
    case CallSent(id) => DoSend(w, id)
    case Start(request, callId, name, json) => w.(router := R.Start(w.router, request, callId, name, json))
    case RejectUnowned(request) => w.(router := R.RejectUnowned(w.router, request))
    case Run(request, closed, argsFit) => DoRun(w, request, closed, argsFit)
    case CallEnds(request, ending, doNotRetry) => DoCallEnds(w, request, ending, doNotRetry)
    case CancelTask(request) => w.(router := R.CancelTask(w.router, request))
    case TaskDone(request) => w.(router := R.Finish(w.router, request))
    case Teardown(request) => w.(router := R.Teardown(w.router, request))
    case OtherBegins(snapshot, name, args, closed, argsFit) =>
      if Refuses(w.broker, snapshot, closed, name, argsFit).Some? then w
      else DoBegin(w, snapshot, name, args, closed, argsFit, None)
    case OtherEnds(id, ending) =>
      if id !in w.issued || w.issued[id].request.Some? then w else w.(broker := Step(w.broker, EEnd(id, ending)))
  }

  function WorldAfter(snapshot: Option<Snapshot>, run: seq<Happening>): World {
    if run == [] then InitWorld(snapshot) else Next(WorldAfter(snapshot, run[..|run| - 1]), run[|run| - 1])
  }

  // ----- the invariant -----

  /** Generations belong to one connection, and calls and call messages are what was issued. */
  ghost predicate Wired(b: State, owners: map<Generation, Connection>, issued: map<CallId, Issued>, down: set<Down>) {
    && (b.snapshot.Some? && b.websocket.Some? ==>
          b.snapshot.value.gen in owners && owners[b.snapshot.value.gen] == b.websocket.value)
    && (forall g | g in owners :: g < b.nextGen)
    && (forall id: CallId :: id in issued <==> id < b.nextCall)
    && (forall id | id in issued :: issued[id].gen in owners && owners[issued[id].gen] == issued[id].conn)
    && (forall id | id in b.inFlight :: id in issued && Matches(issued[id], b.inFlight[id].conn, b.inFlight[id].gen,
                                                               b.inFlight[id].name, b.inFlight[id].args))
    && (forall m | m in down && m.Registered? :: m.gen in owners && owners[m.gen] == m.conn)
    && (forall m | m in down && m.ToolCall? :: m.id in issued && Matches(issued[m.id], m.conn, m.gen, m.name, m.args))
  }

  predicate Matches(i: Issued, conn: Connection, gen: Generation, name: string, args: Json) {
    i.conn == conn && i.gen == gen && i.name == name && i.args == args
  }

  /** An endpoint runs what was issued to its own connection, and its results are what it produced. */
  ghost predicate Faithful(conn: Connection, e: E.Endpoint, owners: map<Generation, Connection>, issued: map<CallId, Issued>) {
    && E.Inv(e)
    && (e.gen.Some? ==> e.gen.value in owners && owners[e.gen.value] == conn)
    && (forall id | id in e.ran ::
          id in issued && e.gen.Some? && Matches(issued[id], conn, e.gen.value, e.ran[id].name, e.ran[id].args))
  }

  ghost predicate Ran(endpoints: map<Connection, E.Endpoint>, owners: map<Generation, Connection>,
                      issued: map<CallId, Issued>) {
    forall conn | conn in endpoints :: Faithful(conn, endpoints[conn], owners, issued)
  }

  predicate Produced(endpoints: map<Connection, E.Endpoint>, conn: Connection, id: CallId, value: Json) {
    conn in endpoints && id in endpoints[conn].produced && endpoints[conn].produced[id] == value
  }

  ghost predicate Reported(endpoints: map<Connection, E.Endpoint>, up: set<Up>) {
    forall m | m in up && m.success :: Produced(endpoints, m.conn, m.id, m.value)
  }

  /** A successful future holds what Home Assistant produced for that call. */
  ghost predicate Resolves(futures: map<CallId, Future>, issued: map<CallId, Issued>, endpoints: map<Connection, E.Endpoint>) {
    forall id | id in futures && futures[id].Resolved? && futures[id].success ::
      id in issued && Produced(endpoints, issued[id].conn, id, futures[id].value)
  }

  /** The session's requests and broker calls pair up, and its successes are resolved futures. */
  ghost predicate Routed(r: R.Router, issued: map<CallId, Issued>, futures: map<CallId, Future>) {
    && (forall q | q in r.callOf :: r.callOf[q] in issued && issued[r.callOf[q]].request == Some(q))
    && (forall id | id in issued && issued[id].request.Some? ::
          issued[id].request.value in r.callOf && r.callOf[issued[id].request.value] == id)
    && (forall x | x in r.responses && x.success ::
          && x.body.FromHome? && x.request in r.callOf && r.callOf[x.request] in futures
          && futures[r.callOf[x.request]] == Resolved(true, x.body.value))
  }

  ghost predicate Sound(w: World) {
    && Inv(w.broker) && R.Inv(w.router)
    && Wired(w.broker, w.owners, w.issued, w.down)
    && Ran(w.endpoints, w.owners, w.issued)
    && Reported(w.endpoints, w.up)
    && Resolves(w.broker.futures, w.issued, w.endpoints)
    && Routed(w.router, w.issued, w.broker.futures)
  }

  lemma InitSound(snapshot: Option<Snapshot>)
    ensures Sound(InitWorld(snapshot))
  {
    hide Inv, R.Inv;
    InitInv();
    R.InitInv(snapshot);
  }

  // ----- what a broker step leaves alone -----

  predicate Inner(e: Event) { !e.ERegister? && !e.EBegin? }

  lemma InnerKeepsWired(b: State, e: Event, owners: map<Generation, Connection>, issued: map<CallId, Issued>, down: set<Down>)
    requires Inner(e) && Inv(b) && Wired(b, owners, issued, down)
    ensures Wired(Step(b, e), owners, issued, down)
  {
    hide Inv;
    BrokerFrame(b, e);
  }

  lemma BrokerFrame(b: State, e: Event)
    requires Inner(e)
    ensures var t := Step(b, e);
      && t.nextGen == b.nextGen && t.nextCall == b.nextCall
      && (t.snapshot == b.snapshot || t.snapshot.None?) && (t.websocket == b.websocket || t.websocket.None?)
      && (forall id | id in t.inFlight :: id in b.inFlight && t.inFlight[id] == b.inFlight[id].(sent := t.inFlight[id].sent))
  {
    if e.EEnd? && MayEnd(b, e.id, e.ending) { return; }
  }

  /** A future that becomes a success is the pending call of the result just received. */
  lemma SuccessIsReceived(b: State, e: Event, id: CallId)
    requires Inv(b) && id in Step(b, e).futures && Step(b, e).futures[id].Resolved? && Step(b, e).futures[id].success
    ensures id in b.futures
    ensures Step(b, e).futures[id] == b.futures[id] ||
      (e.EReceive? && e.id == id && e.success && Step(b, e).futures[id].value == e.value
       && b.websocket == Some(e.conn) && b.snapshot.Some? && b.snapshot.value.gen == e.gen
       && id in b.pending && b.pending[id] == e.gen)
  {
    hide RetiredOk, Accounted;
    if e.EEnd? && MayEnd(b, e.id, e.ending) { return; }
  }

  lemma FuturesKeepRouted(r: R.Router, issued: map<CallId, Issued>, b: State, e: Event)
    requires Inv(b) && Routed(r, issued, b.futures)
    ensures Routed(r, issued, Step(b, e).futures)
  {
    hide Inv, Step;
    forall x | x in r.responses && x.success
      ensures r.callOf[x.request] in Step(b, e).futures
      ensures Step(b, e).futures[r.callOf[x.request]] == Resolved(true, x.body.value)
    {
      DoneIsFinal(b, e, r.callOf[x.request]);
    }
  }

  lemma FuturesKeepResolves(issued: map<CallId, Issued>, endpoints: map<Connection, E.Endpoint>, b: State, e: Event)
    requires Inv(b) && Resolves(b.futures, issued, endpoints) && !e.EReceive?
    ensures Resolves(Step(b, e).futures, issued, endpoints)
  {
    hide Inv, Step;
    forall id | id in Step(b, e).futures && Step(b, e).futures[id].Resolved? && Step(b, e).futures[id].success
      ensures id in issued && Produced(endpoints, issued[id].conn, id, Step(b, e).futures[id].value)
    {
      SuccessIsReceived(b, e, id);
    }
  }

  /** A broker step other than a registration, a new call or a delivery. */
  lemma QuietBrokerStep(w: World, e: Event)
    requires Sound(w) && Inner(e) && !e.EReceive?
    ensures Sound(w.(broker := Step(w.broker, e)))
  {
    hide Inv, Wired, Ran, Reported, Resolves, Routed, Step;
    StepKeeps(w.broker, e);
    InnerKeepsWired(w.broker, e, w.owners, w.issued, w.down);
    FuturesKeepResolves(w.issued, w.endpoints, w.broker, e);
    FuturesKeepRouted(w.router, w.issued, w.broker, e);
  }

  // ----- delivering a result -----

  /** A pending call was issued to the connection its generation belongs to. */
  lemma PendingWasIssued(w: World, id: CallId)
    requires Sound(w) && id in w.broker.pending && w.broker.snapshot.Some? && w.broker.websocket.Some?
    requires w.broker.pending[id] == w.broker.snapshot.value.gen
    ensures id in w.issued && w.issued[id].conn == w.broker.websocket.value
  {
    hide R.Inv, Ran, Reported, Resolves, Routed;
    assert id in w.broker.inFlight;
  }

  lemma DeliverResolves(w: World, m: Up)
    requires Sound(w) && m in w.up
    ensures Resolves(Step(w.broker, EReceive(m.conn, m.gen, m.id, m.success, m.value)).futures, w.issued, w.endpoints)
  {
    hide Inv, Step, Wired, Ran, Routed;
    var e := EReceive(m.conn, m.gen, m.id, m.success, m.value);
    forall id | id in Step(w.broker, e).futures && Step(w.broker, e).futures[id].Resolved? && Step(w.broker, e).futures[id].success
      ensures id in w.issued && Produced(w.endpoints, w.issued[id].conn, id, Step(w.broker, e).futures[id].value)
    {
      SuccessIsReceived(w.broker, e, id);
      if Step(w.broker, e).futures[id] != w.broker.futures[id] {
        PendingWasIssued(w, id);
      }
    }
  }

  lemma DeliverUpKeeps(w: World, m: Up)
    requires Sound(w) && m in w.up
    ensures Sound(Next(w, DeliverUp(m)))
  {
    hide Inv, Wired, Ran, Reported, Resolves, Routed, Step;
    var e := EReceive(m.conn, m.gen, m.id, m.success, m.value);
    StepKeeps(w.broker, e);
    InnerKeepsWired(w.broker, e, w.owners, w.issued, w.down);
    DeliverResolves(w, m);
    FuturesKeepRouted(w.router, w.issued, w.broker, e);
  }

  // ----- registering, beginning and sending -----

  lemma RegisterShape(b: State, conn: Connection, names: set<string>, closed: bool)
    requires !Busy(b, closed)
    ensures var t := Step(b, ERegister(conn, names, closed));
      && t.websocket == Some(conn) && t.snapshot == Some(Snapshot(b.nextGen, names)) && t.nextGen == b.nextGen + 1
      && t.nextCall == b.nextCall && t.inFlight == b.inFlight
  {}

  lemma RegisterWired(w: World, conn: Connection, names: set<string>, closed: bool)
    requires Wired(w.broker, w.owners, w.issued, w.down) && !Busy(w.broker, closed)
    ensures Wired(Step(w.broker, ERegister(conn, names, closed)), w.owners[w.broker.nextGen := conn], w.issued,
                  w.down + {Registered(conn, w.broker.nextGen)})
  {
    hide Step;
    RegisterShape(w.broker, conn, names, closed);
  }

  lemma OwnersGrowRan(w: World, gen: Generation, conn: Connection)
    requires Ran(w.endpoints, w.owners, w.issued) && gen !in w.owners
    ensures Ran(w.endpoints, w.owners[gen := conn], w.issued)
  {}

  lemma NextGenIsFresh(w: World)
    requires Wired(w.broker, w.owners, w.issued, w.down)
    ensures w.broker.nextGen !in w.owners && w.broker.nextCall !in w.issued
  {}

  lemma DoRegisterKeeps(w: World, conn: Connection, names: set<string>, closed: bool)
    requires Sound(w)
    ensures Sound(DoRegister(w, conn, names, closed))
  {
    hide Inv, Wired, Ran, Reported, Resolves, Routed, Step;
    if Busy(w.broker, closed) || conn !in w.endpoints { return; }
    var e := ERegister(conn, names, closed);
    StepKeeps(w.broker, e);
    RegisterWired(w, conn, names, closed);
    NextGenIsFresh(w);
    OwnersGrowRan(w, w.broker.nextGen, conn);
    FuturesKeepResolves(w.issued, w.endpoints, w.broker, e);
    FuturesKeepRouted(w.router, w.issued, w.broker, e);
  }

  lemma CallMessageWired(b: State, owners: map<Generation, Connection>, issued: map<CallId, Issued>, down: set<Down>, id: CallId, c: Call)
    requires Wired(b, owners, issued, down) && id in issued && Matches(issued[id], c.conn, c.gen, c.name, c.args)
    ensures Wired(b, owners, issued, down + {ToolCall(c.conn, c.gen, id, c.name, c.args)})
  {}

  lemma InFlightWasIssued(w: World, id: CallId)
    requires Wired(w.broker, w.owners, w.issued, w.down) && id in w.broker.inFlight
    ensures var c := w.broker.inFlight[id]; id in w.issued && Matches(w.issued[id], c.conn, c.gen, c.name, c.args)
  {}

  lemma DoSendKeeps(w: World, id: CallId)
    requires Sound(w)
    ensures Sound(DoSend(w, id))
  {
    hide Inv, Wired, Ran, Reported, Resolves, Routed, Step, R.Inv;
    if id !in w.broker.inFlight { return; }
    QuietBrokerStep(w, ESent(id));
    InFlightWasIssued(w, id);
    CallMessageWired(Step(w.broker, ESent(id)), w.owners, w.issued, w.down, id, w.broker.inFlight[id]);
  }

  lemma BeginShape(b: State, snapshot: Snapshot, closed: bool, name: string, args: Json, argsFit: bool)
    requires Refuses(b, snapshot, closed, name, argsFit).None?
    ensures var t := Step(b, EBegin(snapshot, closed, name, args, argsFit));
      && t.websocket == b.websocket && t.snapshot == b.snapshot && t.nextGen == b.nextGen
      && t.nextCall == b.nextCall + 1
      && t.inFlight == b.inFlight[b.nextCall := Call(snapshot.gen, b.websocket.value, name, args, false)]
      && b.snapshot.Some? && b.websocket.Some? && b.snapshot.value.gen == snapshot.gen
  {}

  lemma BeginWired(w: World, snapshot: Snapshot, name: string, args: Json, closed: bool, argsFit: bool, i: Issued)
    requires Wired(w.broker, w.owners, w.issued, w.down)
    requires Refuses(w.broker, snapshot, closed, name, argsFit).None?
    requires Matches(i, w.broker.websocket.value, snapshot.gen, name, args)
    ensures Wired(Step(w.broker, EBegin(snapshot, closed, name, args, argsFit)), w.owners,
                  w.issued[w.broker.nextCall := i], w.down)
  {
    hide Step;
    BeginShape(w.broker, snapshot, closed, name, args, argsFit);
  }

  /** Issuing a fresh call disturbs no endpoint and no resolved future. */
  lemma IssueKeeps(w: World, id: CallId, i: Issued)
    requires id !in w.issued && Ran(w.endpoints, w.owners, w.issued) && Resolves(w.broker.futures, w.issued, w.endpoints)
    ensures Ran(w.endpoints, w.owners, w.issued[id := i])
    ensures Resolves(w.broker.futures, w.issued[id := i], w.endpoints)
  {}

  lemma DoBeginKeeps(w: World, snapshot: Snapshot, name: string, args: Json, closed: bool, argsFit: bool,
                     request: Option<R.RequestId>)
    requires Sound(w) && Refuses(w.broker, snapshot, closed, name, argsFit).None?
    ensures var t := DoBegin(w, snapshot, name, args, closed, argsFit, request);
      && Inv(t.broker) && Wired(t.broker, t.owners, t.issued, t.down) && Ran(t.endpoints, t.owners, t.issued)
      && Reported(t.endpoints, t.up) && Resolves(t.broker.futures, t.issued, t.endpoints)
      && Routed(w.router, w.issued, t.broker.futures)
      && w.broker.nextCall !in w.issued
  {
    hide Inv, Wired, Ran, Reported, Resolves, Routed, Step;
    var e := EBegin(snapshot, closed, name, args, argsFit);
    var i := Issued(w.broker.websocket.value, snapshot.gen, name, args, request);
    StepKeeps(w.broker, e);
    NextGenIsFresh(w);
    BeginWired(w, snapshot, name, args, closed, argsFit, i);
    IssueKeeps(w, w.broker.nextCall, i);
    FuturesKeepResolves(w.issued[w.broker.nextCall := i], w.endpoints, w.broker, e);
    FuturesKeepRouted(w.router, w.issued, w.broker, e);
  }

  // ----- endpoint steps -----

  lemma EndpointGrows(e: E.Endpoint, event: E.Event)
    requires E.Inv(e)
    ensures var t := E.Step(e, event);
      && (forall id | id in e.produced :: id in t.produced && t.produced[id] == e.produced[id])
      && (t.gen == e.gen || (e.gen.None? && event.ERegistered? && t.gen == Some(event.gen)))
  {
    hide E.Bounded;
    if event.EToolCall? { CallKeepsProduced(e, event); }
  }

  lemma CallKeepsProduced(e: E.Endpoint, event: E.Event)
    requires event.EToolCall?
    ensures E.Step(e, event).produced == e.produced && E.Step(e, event).gen == e.gen
  {
    hide E.Handle;
    HandleKeepsProduced(e, event.id, event.name, event.args, event.closed);
  }

  lemma HandleKeepsProduced(e: E.Endpoint, id: CallId, name: Option<string>, args: E.Arguments, closed: bool)
    ensures E.Handle(e, id, name, args, closed).produced == e.produced && E.Handle(e, id, name, args, closed).gen == e.gen
  {}

  lemma EndpointRuns(e: E.Endpoint, event: E.Event, id: CallId)
    requires id in E.Step(e, event).ran
    ensures (id in e.ran && E.Step(e, event).ran[id] == e.ran[id]) ||
      (event.EToolCall? && event.id == id && event.name.Some? && event.args.Object? && e.gen == Some(event.gen)
       && E.Step(e, event).ran[id] == E.Execution(event.name.value, event.args.json) && E.Step(e, event).gen == e.gen)
  {
    if event.EToolCall? { CallRuns(e, event, id); }
  }

  lemma CallRuns(e: E.Endpoint, event: E.Event, id: CallId)
    requires event.EToolCall? && id in E.Step(e, event).ran
    ensures (id in e.ran && E.Step(e, event).ran[id] == e.ran[id]) ||
      (event.id == id && event.name.Some? && event.args.Object? && e.gen == Some(event.gen)
       && E.Step(e, event).ran[id] == E.Execution(event.name.value, event.args.json) && E.Step(e, event).gen == e.gen)
  {
    if !e.serving || e.gen != Some(event.gen) || event.id in e.seen { return; }
    if |e.tasks| >= E.MAX_PENDING_CALLS || |e.seen| >= E.MAX_CALLS_PER_GENERATION { return; }
    if event.name.None? || !event.args.Object? { return; }
  }

  /** The event is one the world may send to this connection. */
  ghost predicate Deliverable(conn: Connection, event: E.Event, owners: map<Generation, Connection>, issued: map<CallId, Issued>) {
    && (event.ERegistered? ==> event.gen in owners && owners[event.gen] == conn)
    && (event.EToolCall? && event.name.Some? && event.args.Object? ==>
          event.id in issued && Matches(issued[event.id], conn, event.gen, event.name.value, event.args.json))
  }

  lemma EndpointFaithful(conn: Connection, e: E.Endpoint, event: E.Event, owners: map<Generation, Connection>,
                         issued: map<CallId, Issued>)
    requires Faithful(conn, e, owners, issued) && Deliverable(conn, event, owners, issued)
    ensures Faithful(conn, E.Step(e, event), owners, issued)
  {
    hide E.Inv, E.Step;
    E.StepKeeps(e, event);
    EndpointGrows(e, event);
    var t := E.Step(e, event);
    forall id | id in t.ran
      ensures id in issued && t.gen.Some? && Matches(issued[id], conn, t.gen.value, t.ran[id].name, t.ran[id].args)
    {
      EndpointRuns(e, event, id);
    }
  }

  lemma EndpointKeepsProducts(w: World, conn: Connection, event: E.Event)
    requires conn in w.endpoints && E.Inv(w.endpoints[conn])
    requires Reported(w.endpoints, w.up) && Resolves(w.broker.futures, w.issued, w.endpoints)
    ensures var es := w.endpoints[conn := E.Step(w.endpoints[conn], event)];
      Reported(es, w.up) && Resolves(w.broker.futures, w.issued, es)
  {
    hide E.Inv, E.Step;
    EndpointGrows(w.endpoints[conn], event);
  }

  lemma AtEndpointKeeps(w: World, conn: Connection, event: E.Event)
    requires Sound(w) && Deliverable(conn, event, w.owners, w.issued)
    ensures Sound(AtEndpoint(w, conn, event))
  {
    hide Inv, R.Inv, Wired, Routed, E.Step, Reported, Resolves, Deliverable, E.Inv;
    if conn !in w.endpoints { return; }
    EndpointFaithful(conn, w.endpoints[conn], event, w.owners, w.issued);
    EndpointKeepsProducts(w, conn, event);
  }

  lemma DeliverableDown(w: World, m: Down, args: E.Arguments, closed: bool)
    requires Wired(w.broker, w.owners, w.issued, w.down) && m in w.down
    ensures Deliverable(m.conn, EndpointEvent(m, args, closed), w.owners, w.issued)
  {}

  lemma AnswerReported(w: World, conn: Connection, id: CallId)
    requires Reported(w.endpoints, w.up) && conn in w.endpoints && E.Inv(w.endpoints[conn])
    requires id in w.endpoints[conn].tasks && w.endpoints[conn].tasks[id].Answering? && w.endpoints[conn].gen.Some?
    ensures var e := w.endpoints[conn];
      Reported(AtEndpoint(w, conn, E.EAnswered(id)).endpoints,
               w.up + {Result(conn, e.gen.value, id, e.tasks[id].success, e.tasks[id].value)})
  {
    hide E.Bounded;
    var e := w.endpoints[conn];
    assert E.Step(e, E.EAnswered(id)).produced == e.produced;
  }

  lemma AtEndpointOnly(w: World, conn: Connection, event: E.Event)
    ensures AtEndpoint(w, conn, event) == w.(endpoints := AtEndpoint(w, conn, event).endpoints)
  {}

  lemma EndpointInv(w: World, conn: Connection)
    requires Sound(w) && conn in w.endpoints
    ensures E.Inv(w.endpoints[conn])
  {
    hide Inv, R.Inv, Wired, Reported, Resolves, Routed, E.Inv;
  }

  lemma DoAnswerKeeps(w: World, conn: Connection, id: CallId)
    requires Sound(w)
    ensures Sound(DoAnswer(w, conn, id))
  {
    hide Inv, R.Inv, Wired, Ran, Routed, Resolves, Reported, AtEndpoint, E.Inv, Deliverable;
    if conn !in w.endpoints || id !in w.endpoints[conn].tasks || !w.endpoints[conn].tasks[id].Answering?
       || w.endpoints[conn].gen.None? { return; }
    PlainEventKeeps(w, conn, E.EAnswered(id));
    EndpointInv(w, conn);
    AtEndpointOnly(w, conn, E.EAnswered(id));
    AnswerReported(w, conn, id);
  }

  // ----- session steps -----

  /** A session step that leaves the paired calls alone and adds only failures or the given success. */
  lemma RouterStepRouted(r: R.Router, t: R.Router, issued: map<CallId, Issued>, futures: map<CallId, Future>)
    requires Routed(r, issued, futures) && t.callOf == r.callOf
    requires forall x | x in t.responses && x !in r.responses :: !x.success
    ensures Routed(t, issued, futures)
  {}

  lemma RespondFails(r: R.Router, t: R.Router, q: R.RequestId, error: string)
    requires FailsOnly(r, t)
    ensures FailsOnly(r, R.Respond(t, q, false, R.Made(error)))
    ensures FailsOnly(r, R.RespondAndEnd(t, q, false, R.Made(error)))
    ensures FailsOnly(r, R.Finish(t, q)) && FailsOnly(r, R.End(t, q)) && FailsOnly(r, R.Trip(t))
  {}

  lemma StartFails(r: R.Router, q: R.RequestId, callId: string, name: Option<string>, json: Option<Json>)
    ensures FailsOnly(r, R.Start(r, q, callId, name, json))
  {}

  lemma RouterFailures(r: R.Router, q: R.RequestId, why: Refusal)
    ensures FailsOnly(r, R.RejectUnowned(r, q)) && FailsOnly(r, R.RunWithoutBroker(r, q))
    ensures FailsOnly(r, R.Refused(r, q, why)) && FailsOnly(r, R.CancelTask(r, q)) && FailsOnly(r, R.Teardown(r, q))
    ensures FailsOnly(r, R.Finish(r, q))
  {
    hide R.Respond, R.RespondAndEnd, R.Finish, R.End, R.Trip;
    assert FailsOnly(r, r);
    hide FailsOnly;
    RespondFails(r, r, q, "unowned_home_assistant_tool_call");
    RespondFails(r, r, q, "home_assistant_tool_outcome_unknown");
    RespondFails(r, R.Trip(r), q, "home_assistant_tool_outcome_unknown");
    RespondFails(r, R.Trip(r), q, "home_assistant_tool_unavailable");
    var plan := R.PlanOf(r, q);
    if plan.Answer? {
      RespondFails(r, r, q, plan.error);
      RespondFails(r, R.Trip(r), q, plan.error);
    }
  }

  ghost predicate FailsOnly(r: R.Router, t: R.Router) {
    t.callOf == r.callOf && forall x | x in t.responses && x !in r.responses :: !x.success
  }

  lemma RouterStepKeeps(w: World, t: R.Router)
    requires Sound(w) && R.Inv(t) && FailsOnly(w.router, t)
    ensures Sound(w.(router := t))
  {
    hide Inv, R.Inv, Wired, Ran, Reported, Resolves;
    RouterStepRouted(w.router, t, w.issued, w.broker.futures);
  }

  lemma RoutedCall(r: R.Router, q: R.RequestId, id: CallId, i: Issued, issued: map<CallId, Issued>, futures: map<CallId, Future>)
    requires Routed(r, issued, futures) && id !in issued && i.request == Some(q) && q !in r.callOf
    ensures Routed(R.Called(r, q, id), issued[id := i], futures)
  {}

  lemma ExecutingIsUncalled(r: R.Router, q: R.RequestId)
    requires R.Inv(r) && q in r.tasks && r.tasks[q].Executing?
    ensures q !in r.callOf
  {}

  lemma RoutedElsewhere(r: R.Router, id: CallId, i: Issued, issued: map<CallId, Issued>, futures: map<CallId, Future>)
    requires Routed(r, issued, futures) && id !in issued && i.request.None?
    ensures Routed(r, issued[id := i], futures)
  {}

  lemma PlanIsExecuting(r: R.Router, q: R.RequestId)
    requires R.PlanOf(r, q).CallBroker?
    ensures q in r.tasks && r.tasks[q].Executing?
  {}

  lemma DoRunKeeps(w: World, q: R.RequestId, closed: bool, argsFit: bool)
    requires Sound(w)
    ensures Sound(DoRun(w, q, closed, argsFit))
  {
    hide Inv, R.Inv, Wired, Ran, Reported, Resolves, Routed, Step, FailsOnly, R.Called, R.RunWithoutBroker, R.Refused;
    var plan := R.PlanOf(w.router, q);
    if !plan.CallBroker? {
      R.OtherEndsKeep(w.router, q);
      RouterFailures(w.router, q, AuthorityChanged);
      RouterStepKeeps(w, R.RunWithoutBroker(w.router, q));
      return;
    }
    var why := Refuses(w.broker, plan.snapshot, closed, plan.name, argsFit);
    if why.Some? {
      PlanIsExecuting(w.router, q);
      R.BrokerEndsKeep(w.router, q, why.value, Cancelled, Waiting, false);
      RouterFailures(w.router, q, why.value);
      RouterStepKeeps(w, R.Refused(w.router, q, why.value));
      return;
    }
    PlanIsExecuting(w.router, q);
    R.CalledKeeps(w.router, q, w.broker.nextCall);
    ExecutingIsUncalled(w.router, q);
    DoBeginKeeps(w, plan.snapshot, plan.name, plan.args, closed, argsFit, Some(q));
    RoutedCall(w.router, q, w.broker.nextCall,
               Issued(w.broker.websocket.value, plan.snapshot.gen, plan.name, plan.args, Some(q)), w.issued,
               Step(w.broker, EBegin(plan.snapshot, closed, plan.name, plan.args, argsFit)).futures);
  }

  lemma OtherBeginsKeeps(w: World, snapshot: Snapshot, name: string, args: Json, closed: bool, argsFit: bool)
    requires Sound(w) && Refuses(w.broker, snapshot, closed, name, argsFit).None?
    ensures Sound(DoBegin(w, snapshot, name, args, closed, argsFit, None))
  {
    hide Inv, R.Inv, Wired, Ran, Reported, Resolves, Routed, Step;
    DoBeginKeeps(w, snapshot, name, args, closed, argsFit, None);
    RoutedElsewhere(w.router, w.broker.nextCall, Issued(w.broker.websocket.value, snapshot.gen, name, args, None), w.issued,
                    Step(w.broker, EBegin(snapshot, closed, name, args, argsFit)).futures);
  }

  lemma CallingWasCalled(r: R.Router, q: R.RequestId)
    requires R.Inv(r) && q in r.tasks && r.tasks[q].Calling?
    ensures q in r.callOf && r.callOf[q] == r.tasks[q].id
  {}

  /** A response made from the resolved future of the request's own call. */
  lemma ResolvedRouted(r: R.Router, t: R.Router, q: R.RequestId, issued: map<CallId, Issued>, futures: map<CallId, Future>)
    requires Routed(r, issued, futures) && t.callOf == r.callOf && t.responses == r.responses
    requires q in r.callOf && r.callOf[q] in futures && futures[r.callOf[q]].Resolved?
    ensures var f := futures[r.callOf[q]];
      Routed(R.RespondAndEnd(t, q, f.success, R.FromHome(f.value)), issued, futures)
  {}

  lemma CallEndedRouted(r: R.Router, q: R.RequestId, ending: Ending, doNotRetry: bool, issued: map<CallId, Issued>,
                        futures: map<CallId, Future>)
    requires Routed(r, issued, futures) && q in r.tasks && r.tasks[q].Calling? && r.tasks[q].id in futures
    requires q in r.callOf && r.callOf[q] == r.tasks[q].id
    ensures Routed(R.CallEnded(r, q, ending, futures[r.tasks[q].id], doNotRetry), issued, futures)
  {
    var f := futures[r.tasks[q].id];
    assert FailsOnly(r, r);
    assert R.Trip(r).responses == r.responses && R.Trip(r).callOf == r.callOf;
    hide Routed, FailsOnly, R.RespondAndEnd, R.Trip, R.End;
    RespondFails(r, r, q, "home_assistant_tool_outcome_unknown");
    RespondFails(r, R.Trip(r), q, "home_assistant_tool_outcome_unknown");
    if ending.Returned? && f.Resolved? {
      ResolvedRouted(r, r, q, issued, futures);
      ResolvedRouted(r, R.Trip(r), q, issued, futures);
    } else {
      FailingRouted(r, R.CallEnded(r, q, ending, f, doNotRetry), issued, futures);
    }
  }

  lemma FailingRouted(r: R.Router, t: R.Router, issued: map<CallId, Issued>, futures: map<CallId, Future>)
    requires Routed(r, issued, futures) && FailsOnly(r, t)
    ensures Routed(t, issued, futures)
  {
    RouterStepRouted(r, t, issued, futures);
  }

  lemma DoCallEndsKeeps(w: World, q: R.RequestId, ending: Ending, doNotRetry: bool)
    requires Sound(w)
    ensures Sound(DoCallEnds(w, q, ending, doNotRetry))
  {
    hide Inv, R.Inv, Wired, Ran, Reported, Resolves, Routed, Step, R.CallEnded;
    if q !in w.router.tasks || !w.router.tasks[q].Calling? || !MayEnd(w.broker, w.router.tasks[q].id, ending) { return; }
    var id := w.router.tasks[q].id;
    CallingWasCalled(w.router, q);
    CallEndedRouted(w.router, q, ending, doNotRetry, w.issued, w.broker.futures);
    R.BrokerEndsKeep(w.router, q, AuthorityChanged, ending, w.broker.futures[id], doNotRetry);
    QuietBrokerStep(w, EEnd(id, ending));
    FuturesKeepRouted(R.CallEnded(w.router, q, ending, w.broker.futures[id], doNotRetry), w.issued, w.broker, EEnd(id, ending));
  }

  lemma ConnectRan(w: World, conn: Connection, e: E.Endpoint)
    requires conn !in w.endpoints && E.Inv(e) && e.gen.None? && e.ran == map[]
    requires Ran(w.endpoints, w.owners, w.issued) && Reported(w.endpoints, w.up)
    requires Resolves(w.broker.futures, w.issued, w.endpoints)
    ensures Ran(w.endpoints[conn := e], w.owners, w.issued) && Reported(w.endpoints[conn := e], w.up)
    ensures Resolves(w.broker.futures, w.issued, w.endpoints[conn := e])
  {
    hide E.Inv;
  }

  lemma ConnectKeeps(w: World, conn: Connection, names: set<string>)
    requires Sound(w) && conn !in w.endpoints
    ensures Sound(w.(endpoints := w.endpoints[conn := E.Connect(names)]))
  {
    hide Inv, R.Inv, Wired, Routed, Ran, Reported, Resolves, E.Inv;
    E.ConnectInv(names);
    ConnectRan(w, conn, E.Connect(names));
  }

  lemma NextKeeps(w: World, h: Happening)
    requires Sound(w)
    ensures Sound(Next(w, h))
  {
    hide Sound, Wired, Step, AtEndpoint, DoRegister, DoAnswer, DoSend, DoBegin, DoRun, DoCallEnds, Inv, R.Inv, Refuses,
      R.Start, R.RejectUnowned, R.CancelTask, R.Finish, R.Teardown, FailsOnly, EndpointEvent, Deliverable;
    match h
    case Connect(conn, names) => if conn !in w.endpoints { ConnectKeeps(w, conn, names); }
    case Register(conn, names, currentClosed) => DoRegisterKeeps(w, conn, names, currentClosed);
    case Unregister(conn) => QuietBrokerStep(w, EUnregister(conn));
    case DeliverDown(m, args, closed) => if m in w.down { DeliverDownKeeps(w, m, args, closed); }
    case ToolReturned(conn, id, outcome, closed) => PlainEventKeeps(w, conn, E.EReturned(id, outcome, closed));
    case ToolAnswered(conn, id) => DoAnswerKeeps(w, conn, id);
    case Stop(conn) => PlainEventKeeps(w, conn, E.EStop);
    case DeliverUp(m) => if m in w.up { DeliverUpKeeps(w, m); }
    case CallSent(id) => DoSendKeeps(w, id);
    case Start(q, callId, name, json) => StartKeeps(w, q, callId, name, json);
    case RejectUnowned(q) => OtherRouterKeeps(w, q);
    case Run(q, closed, argsFit) => DoRunKeeps(w, q, closed, argsFit);
    case CallEnds(q, ending, doNotRetry) => DoCallEndsKeeps(w, q, ending, doNotRetry);
    case CancelTask(q) => OtherRouterKeeps(w, q);
    case TaskDone(q) => OtherRouterKeeps(w, q);
    case Teardown(q) => OtherRouterKeeps(w, q);
    case OtherBegins(snapshot, name, args, closed, argsFit) =>
      if Refuses(w.broker, snapshot, closed, name, argsFit).None? {
        OtherBeginsKeeps(w, snapshot, name, args, closed, argsFit);
      }
    case OtherEnds(id, ending) => QuietBrokerStep(w, EEnd(id, ending));
  }

  lemma DeliverDownKeeps(w: World, m: Down, args: E.Arguments, closed: bool)
    requires Sound(w) && m in w.down
    ensures Sound(AtEndpoint(w, m.conn, EndpointEvent(m, args, closed)))
  {
    hide Inv, R.Inv, Wired, Ran, Reported, Resolves, Routed, AtEndpoint, EndpointEvent, Deliverable;
    DeliverableDown(w, m, args, closed);
    AtEndpointKeeps(w, m.conn, EndpointEvent(m, args, closed));
  }

  lemma PlainEventKeeps(w: World, conn: Connection, event: E.Event)
    requires Sound(w) && !event.ERegistered? && !event.EToolCall?
    ensures Sound(AtEndpoint(w, conn, event))
  {
    hide Sound, AtEndpoint;
    AtEndpointKeeps(w, conn, event);
  }

  lemma StartKeeps(w: World, q: R.RequestId, callId: string, name: Option<string>, json: Option<Json>)
    requires Sound(w)
    ensures Sound(w.(router := R.Start(w.router, q, callId, name, json)))
  {
    hide Inv, R.Inv, Wired, Ran, Reported, Resolves, Routed, FailsOnly, R.Start;
    R.StartKeeps(w.router, q, callId, name, json);
    StartFails(w.router, q, callId, name, json);
    RouterStepKeeps(w, R.Start(w.router, q, callId, name, json));
  }

  lemma OtherRouterKeeps(w: World, q: R.RequestId)
    requires Sound(w)
    ensures Sound(w.(router := R.RejectUnowned(w.router, q))) && Sound(w.(router := R.CancelTask(w.router, q)))
    ensures Sound(w.(router := R.Teardown(w.router, q))) && Sound(w.(router := R.Finish(w.router, q)))
  {
    hide Inv, R.Inv, Wired, Ran, Reported, Resolves, Routed, FailsOnly, R.RejectUnowned, R.CancelTask, R.Finish, R.Teardown;
    R.OtherEndsKeep(w.router, q);
    RouterFailures(w.router, q, AuthorityChanged);
    RouterStepKeeps(w, R.RejectUnowned(w.router, q));
    RouterStepKeeps(w, R.CancelTask(w.router, q));
    RouterStepKeeps(w, R.Teardown(w.router, q));
    RouterStepKeeps(w, R.Finish(w.router, q));
  }

  lemma {:induction false} WorldIsSound(snapshot: Option<Snapshot>, run: seq<Happening>)
    ensures Sound(WorldAfter(snapshot, run))
  {
    hide Sound, Next;
    if run == [] { InitSound(snapshot); } else {
      WorldIsSound(snapshot, run[..|run| - 1]);
      NextKeeps(WorldAfter(snapshot, run[..|run| - 1]), run[|run| - 1]);
    }
  }

  // ----- end to end -----

  /**
   At most once, end to end: a request makes at most one broker call, a broker call runs at most one
   tool, on one connection, and a request gets at most one response.
   */
  lemma AtMostOnce(snapshot: Option<Snapshot>, run: seq<Happening>)
    ensures var w := WorldAfter(snapshot, run);
      && (forall q: R.RequestId :: w.router.calls[q] <= 1)
      && (forall i, j :: 0 <= i < j < |w.router.responses| ==> w.router.responses[i].request != w.router.responses[j].request)
      && (forall c, id: CallId | c in w.endpoints :: w.endpoints[c].runs[id] <= 1)
      && (forall c, d, id: CallId | c in w.endpoints && d in w.endpoints && w.endpoints[c].runs[id] + w.endpoints[d].runs[id] >= 2 ::
            c == d)
  {
    hide Inv, Wired, Reported, Resolves, Routed, WorldAfter, R.OnePerCallId, R.Bounded;
    WorldIsSound(snapshot, run);
    var w := WorldAfter(snapshot, run);
    forall c, id: CallId | c in w.endpoints
      ensures w.endpoints[c].runs[id] <= 1
      ensures w.endpoints[c].runs[id] == 1 ==> id in w.issued && w.issued[id].conn == c
    {
      assert Faithful(c, w.endpoints[c], w.owners, w.issued);
    }
  }

  /**
   A success is what Home Assistant returned: the value belongs to the request's own broker call,
   which ran once, with the arguments it was issued with, on its connection and in its generation.
   */
  lemma SuccessIsHomeAssistants(snapshot: Option<Snapshot>, run: seq<Happening>, x: R.Response)
    requires x in WorldAfter(snapshot, run).router.responses && x.success
    ensures var w := WorldAfter(snapshot, run);
      && x.body.FromHome? && x.request in w.router.callOf
      && var id := w.router.callOf[x.request];
         && id in w.issued && w.issued[id].request == Some(x.request)
         && var i := w.issued[id];
            && i.conn in w.endpoints && w.endpoints[i.conn].gen == Some(i.gen)
            && w.endpoints[i.conn].runs[id] == 1
            && id in w.endpoints[i.conn].ran && w.endpoints[i.conn].ran[id] == E.Execution(i.name, i.args)
            && id in w.endpoints[i.conn].produced && w.endpoints[i.conn].produced[id] == x.body.value
  {
    hide Inv, R.Inv, Wired, Reported, WorldAfter, E.Bounded;
    WorldIsSound(snapshot, run);
    var w := WorldAfter(snapshot, run);
    var id := w.router.callOf[x.request];
    var c := w.issued[id].conn;
    assert Produced(w.endpoints, c, id, x.body.value);
    assert Faithful(c, w.endpoints[c], w.owners, w.issued);
  }

  // ----- the circuit breaker -----

  /** The breaker tripped before the request started, or the request was rejected as it started. */
  predicate Barred(r: R.Router, q: R.RequestId) {
    (r.failedClosed && q !in r.startedOpen) || (q in r.seenRequests && q !in r.admitted)
  }

  lemma SessionKeepsBarred(r: R.Router, q: R.RequestId, p: R.RequestId, callId: string, name: Option<string>, json: Option<Json>)
    requires Barred(r, q)
    ensures Barred(R.Start(r, p, callId, name, json), q) && Barred(R.RejectUnowned(r, p), q)
    ensures Barred(R.CancelTask(r, p), q) && Barred(R.Teardown(r, p), q) && Barred(R.Finish(r, p), q)
  {}

  lemma RunKeepsBarred(r: R.Router, q: R.RequestId, p: R.RequestId, why: Refusal, id: CallId)
    requires Barred(r, q)
    ensures Barred(R.RunWithoutBroker(r, p), q) && Barred(R.Refused(r, p, why), q) && Barred(R.Called(r, p, id), q)
  {}

  lemma CallEndKeepsBarred(r: R.Router, q: R.RequestId, p: R.RequestId, ending: Ending, future: Future, doNotRetry: bool)
    requires Barred(r, q)
    ensures Barred(R.CallEnded(r, p, ending, future, doNotRetry), q)
  {}

  lemma BarredStays(w: World, h: Happening, q: R.RequestId)
    requires Barred(w.router, q)
    ensures Barred(Next(w, h).router, q)
  {
    hide Step, Refuses, AtEndpoint, R.Start, R.RejectUnowned, R.CancelTask, R.Finish, R.Teardown, R.RunWithoutBroker, R.Refused,
      R.CallEnded, R.Called, Barred;
    if h.Start? { SessionKeepsBarred(w.router, q, h.request, h.callId, h.name, h.json); return; }
    if h.RejectUnowned? || h.CancelTask? || h.TaskDone? || h.Teardown? {
      SessionKeepsBarred(w.router, q, h.request, "", None, None);
      return;
    }
    if h.Run? {
      var plan := R.PlanOf(w.router, h.request);
      var why := if plan.CallBroker? then Refuses(w.broker, plan.snapshot, h.closed, plan.name, h.argsFit) else None;
      RunKeepsBarred(w.router, q, h.request, if why.Some? then why.value else AuthorityChanged, w.broker.nextCall);
      return;
    }
    if h.CallEnds? { CallEndsKeepsBarred(w, h.request, h.ending, h.doNotRetry, q); return; }
    OthersLeaveSession(w, h);
  }

  lemma CallEndsKeepsBarred(w: World, p: R.RequestId, ending: Ending, doNotRetry: bool, q: R.RequestId)
    requires Barred(w.router, q)
    ensures Barred(DoCallEnds(w, p, ending, doNotRetry).router, q)
  {
    hide Step, R.CallEnded;
    if p in w.router.tasks && w.router.tasks[p].Calling? && MayEnd(w.broker, w.router.tasks[p].id, ending) {
      CallEndKeepsBarred(w.router, q, p, ending, w.broker.futures[w.router.tasks[p].id], doNotRetry);
    }
  }

  lemma OthersLeaveSession(w: World, h: Happening)
    requires !h.Start? && !h.RejectUnowned? && !h.CancelTask? && !h.TaskDone? && !h.Teardown? && !h.Run? && !h.CallEnds?
    ensures Next(w, h).router == w.router
  {
    hide Step, E.Step, Refuses, EndpointEvent;
  }

  lemma {:induction false} BarredHolds(snapshot: Option<Snapshot>, run: seq<Happening>, more: seq<Happening>, q: R.RequestId)
    requires Barred(WorldAfter(snapshot, run).router, q)
    ensures Barred(WorldAfter(snapshot, run + more).router, q)
  {
    hide Next;
    if more == [] {
      assert run + more == run;
    } else {
      var last := |more| - 1;
      assert (run + more)[..|run + more| - 1] == run + more[..last];
      BarredHolds(snapshot, run, more[..last], q);
      BarredStays(WorldAfter(snapshot, run + more[..last]), more[last], q);
    }
  }

  lemma NotStarted(r: R.Router, q: R.RequestId)
    requires R.Inv(r) && q !in r.seenRequests
    ensures q !in r.startedOpen
  {}

  lemma NeverCalled(r: R.Router, q: R.RequestId)
    requires R.Inv(r) && Barred(r, q)
    ensures q !in r.callOf && r.calls[q] == 0
  {}

  /** Once the breaker has tripped, a request that had not started by then never reaches the broker. */
  lemma TrippedMeansNoCalls(snapshot: Option<Snapshot>, run: seq<Happening>, more: seq<Happening>, q: R.RequestId)
    requires WorldAfter(snapshot, run).router.failedClosed && q !in WorldAfter(snapshot, run).router.seenRequests
    ensures q !in WorldAfter(snapshot, run + more).router.callOf
    ensures WorldAfter(snapshot, run + more).router.calls[q] == 0
  {
    hide Inv, R.Inv, Wired, Ran, Reported, Resolves, Routed, WorldAfter;
    WorldIsSound(snapshot, run);
    NotStarted(WorldAfter(snapshot, run).router, q);
    BarredHolds(snapshot, run, more, q);
    WorldIsSound(snapshot, run + more);
    NeverCalled(WorldAfter(snapshot, run + more).router, q);
  }
  /** A rejected request never reaches the broker, however long the session goes on. */
  lemma RejectedMeansNoCalls(snapshot: Option<Snapshot>, run: seq<Happening>, more: seq<Happening>, q: R.RequestId)
    requires var r := WorldAfter(snapshot, run).router; q in r.seenRequests && q !in r.admitted
    ensures q !in WorldAfter(snapshot, run + more).router.callOf
    ensures WorldAfter(snapshot, run + more).router.calls[q] == 0
  {
    hide Inv, R.Inv, Wired, Ran, Reported, Resolves, Routed, WorldAfter;
    BarredHolds(snapshot, run, more, q);
    WorldIsSound(snapshot, run + more);
    NeverCalled(WorldAfter(snapshot, run + more).router, q);
  }

  /**
   What the rejections are for: no two requests with the same provider call id reach the broker, no more
   than 1,024 do in a session, and no more than 16 are on their way there or inside it at any time.
   */
  lemma CallsAreBounded(snapshot: Option<Snapshot>, run: seq<Happening>)
    ensures var r := WorldAfter(snapshot, run).router;
      && (forall q, p | q in r.callOf && p in r.callOf ::
            q in r.admitted && p in r.admitted && (r.admitted[q] == r.admitted[p] ==> q == p))
      && |r.callOf.Keys| <= R.MAX_TOOL_CALLS_PER_SESSION
      && |R.Outstanding(r)| <= R.MAX_PENDING
  {
    hide Inv, R.Responses, R.Calls, Wired, Ran, Reported, Resolves, Routed, WorldAfter, R.Outstanding;
    WorldIsSound(snapshot, run);
    var r := WorldAfter(snapshot, run).router;
    R.SubsetIsSmaller(r.callOf.Keys, r.admitted.Keys);
  }
}
