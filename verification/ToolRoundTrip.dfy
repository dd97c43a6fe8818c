/**
 A tool call comes all the way round. From every reachable state of the session, the broker and the connections, a
 request that runs complete and is not refused is answered, seven events later, with what Home Assistant's tool
 returned, whatever else is pending.
 */
module ToolRoundTrip {
  import opened Wrappers
  import opened ToolWire
  import opened ToolBroker
  import opened ToolAuthority
  import opened ToolBreaker
  import E = ToolEndpoint
  import R = ToolRouter

  // ----- ids an endpoint has seen were issued -----

  ghost predicate SeenAreIssued(w: World) {
    forall conn, id | conn in w.endpoints && id in w.endpoints[conn].seen :: id in w.issued
  }

  lemma EndpointSees(e: E.Endpoint, event: E.Event, id: CallId)
    requires id in E.Step(e, event).seen
    ensures id in e.seen || (event.EToolCall? && event.id == id)
  {
    if event.EToolCall? { CallSees(e, event, id); }
  }

  lemma CallSees(e: E.Endpoint, event: E.Event, id: CallId)
    requires event.EToolCall? && id in E.Step(e, event).seen
    ensures id in e.seen || event.id == id
  {
    hide E.Handle;
    E.HandleShape(e, event.id, event.name, event.args, event.closed);
    if !e.serving || e.gen != Some(event.gen) || event.id in e.seen { return; }
    if |e.tasks| >= E.MAX_PENDING_CALLS || |e.seen| >= E.MAX_CALLS_PER_GENERATION { return; }
  }

  lemma IssuedGrows(w: World, h: Happening)
    ensures forall id | id in w.issued :: id in Next(w, h).issued
  {
    hide Step, E.Step, Refuses, EndpointEvent, R.RunWithoutBroker, R.Refused, R.Called, R.CallEnded, R.Start;
  }

  /** A call message on its way down arrives. */
  predicate Delivers(w: World, h: Happening, id: CallId) {
    h.DeliverDown? && h.down in w.down && h.down.ToolCall? && h.down.id == id
  }

  /** An endpoint moves only by its own event, and a call reaches it only from a message on its way down. */
  lemma EndpointMoves(w: World, h: Happening, conn: Connection)
    requires conn in Next(w, h).endpoints
    ensures var e := Next(w, h).endpoints[conn];
      || (conn in w.endpoints && e == w.endpoints[conn])
      || (conn !in w.endpoints && e.seen == {})
      || (conn in w.endpoints && exists event :: e == E.Step(w.endpoints[conn], event)
                                             && (event.EToolCall? ==> Delivers(w, h, event.id)))
  {
    hide Step, E.Step, Refuses, R.RunWithoutBroker, R.Refused, R.Called, R.CallEnded, R.Start;
    if h.DeliverDown? && h.down in w.down && h.down.conn == conn && conn in w.endpoints {
      assert Next(w, h).endpoints[conn] == E.Step(w.endpoints[conn], EndpointEvent(h.down, h.args, h.closed));
    }
    if h.ToolAnswered? && h.conn == conn && conn in w.endpoints && Next(w, h).endpoints[conn] != w.endpoints[conn] {
      assert Next(w, h).endpoints[conn] == E.Step(w.endpoints[conn], E.EAnswered(h.id));
    }
    if h.ToolReturned? && h.conn == conn && conn in w.endpoints {
      assert Next(w, h).endpoints[conn] == E.Step(w.endpoints[conn], E.EReturned(h.id, h.outcome, h.closed));
    }
    if h.Stop? && h.conn == conn && conn in w.endpoints {
      assert Next(w, h).endpoints[conn] == E.Step(w.endpoints[conn], E.EStop);
    }
  }

  lemma SeenStep(w: World, h: Happening)
    requires Sound(w) && SeenAreIssued(w)
    ensures SeenAreIssued(Next(w, h))
  {
    hide Next, E.Step, Inv, R.Inv, Ran, Reported, ToolAuthority.Resolves, Routed;
    IssuedGrows(w, h);
    forall conn, id | conn in Next(w, h).endpoints && id in Next(w, h).endpoints[conn].seen ensures id in Next(w, h).issued {
      EndpointMoves(w, h, conn);
      var e := Next(w, h).endpoints[conn];
      if conn in w.endpoints && e != w.endpoints[conn] {
        var event :| e == E.Step(w.endpoints[conn], event)
                     && (event.EToolCall? ==> Delivers(w, h, event.id));
        EndpointSees(w.endpoints[conn], event, id);
      }
    }
  }

  lemma {:induction false} SeenWereIssued(snapshot: Option<Snapshot>, run: seq<Happening>)
    ensures SeenAreIssued(WorldAfter(snapshot, run))
  {
    hide Next, Sound;
    if run == [] { return; }
    WorldIsSound(snapshot, run[..|run| - 1]);
    SeenWereIssued(snapshot, run[..|run| - 1]);
    SeenStep(WorldAfter(snapshot, run[..|run| - 1]), run[|run| - 1]);
  }

  // ----- the trip -----

  datatype Trip = Trip(q: R.RequestId, id: CallId, conn: Connection, gen: Generation, name: string, args: Json, value: Json)

  /** The broker's side of the call. */
  predicate AtBroker(b: State, x: Trip, sent: bool, future: Future) {
    && b.websocket == Some(x.conn) && b.snapshot.Some? && b.snapshot.value.gen == x.gen
    && x.id in b.inFlight && b.inFlight[x.id] == Call(x.gen, x.conn, x.name, x.args, sent)
    && x.id in b.futures && b.futures[x.id] == future
    && (future.Waiting? ==> x.id in b.pending && b.pending[x.id] == x.gen)
  }

  predicate AtSession(r: R.Router, x: Trip, responses: seq<R.Response>) {
    x.q in r.tasks && r.tasks[x.q] == R.Calling(x.id) && x.q !in r.claimed && r.responses == responses
  }

  predicate CanServe(e: E.Endpoint, x: Trip) {
    && e.serving && e.gen == Some(x.gen) && x.id !in e.seen && x.name in e.names
    && |e.tasks| < E.MAX_PENDING_CALLS && |e.seen| < E.MAX_CALLS_PER_GENERATION
  }

  predicate Serves(e: E.Endpoint, x: Trip, task: E.Task) { e.gen == Some(x.gen) && x.id in e.tasks && e.tasks[x.id] == task }

  function CallMessage(x: Trip): Down { ToolCall(x.conn, x.gen, x.id, x.name, x.args) }

  function ResultMessage(x: Trip): Up { Result(x.conn, x.gen, x.id, true, x.value) }

  lemma Runs(w: World, x: Trip)
    requires Reaches(w, Run(x.q, false, true)) && x.q !in w.router.claimed
    requires x.id == w.broker.nextCall && w.broker.websocket == Some(x.conn) && w.router.snapshot.value.gen == x.gen
    requires w.router.tasks[x.q] == R.Executing(Some(x.name), Some(x.args))
    ensures var t := Next(w, Run(x.q, false, true));
      AtBroker(t.broker, x, false, Waiting) && AtSession(t.router, x, w.router.responses) && t.endpoints == w.endpoints
  {}

  lemma Sends(w: World, x: Trip)
    requires AtBroker(w.broker, x, false, Waiting)
    ensures var t := Next(w, CallSent(x.id));
      AtBroker(t.broker, x, true, Waiting) && t.router == w.router && t.endpoints == w.endpoints && CallMessage(x) in t.down
  {}

  lemma Handles(e: E.Endpoint, x: Trip)
    requires CanServe(e, x)
    ensures Serves(E.Step(e, E.EToolCall(x.gen, x.id, Some(x.name), E.Object(x.args), false)), x, E.Executing(x.name, x.args))
  {}

  lemma Arrives(w: World, x: Trip)
    requires CallMessage(x) in w.down && x.conn in w.endpoints && CanServe(w.endpoints[x.conn], x)
    ensures var t := Next(w, DeliverDown(CallMessage(x), E.Object(x.args), false));
      && t.broker == w.broker && t.router == w.router
      && x.conn in t.endpoints && Serves(t.endpoints[x.conn], x, E.Executing(x.name, x.args))
  {
    hide E.Step;
    Handles(w.endpoints[x.conn], x);
  }

  lemma Returns(w: World, x: Trip)
    requires x.conn in w.endpoints && Serves(w.endpoints[x.conn], x, E.Executing(x.name, x.args))
    ensures var t := Next(w, ToolReturned(x.conn, x.id, E.Succeeded(x.value), false));
      && t.broker == w.broker && t.router == w.router
      && x.conn in t.endpoints && Serves(t.endpoints[x.conn], x, E.Answering(true, x.value))
  {}

  lemma Answers(w: World, x: Trip)
    requires x.conn in w.endpoints && Serves(w.endpoints[x.conn], x, E.Answering(true, x.value))
    ensures var t := Next(w, ToolAnswered(x.conn, x.id)); t.broker == w.broker && t.router == w.router && ResultMessage(x) in t.up
  {}

  lemma Resolved(w: World, x: Trip)
    requires AtBroker(w.broker, x, true, Waiting) && ResultMessage(x) in w.up
    ensures var t := Next(w, DeliverUp(ResultMessage(x)));
      AtBroker(t.broker, x, true, Future.Resolved(true, x.value)) && t.router == w.router
  {
    hide Without, RetiredGeneration;
  }

  lemma Responds(w: World, x: Trip)
    requires AtBroker(w.broker, x, true, Future.Resolved(true, x.value)) && AtSession(w.router, x, w.router.responses)
    ensures Next(w, CallEnds(x.q, Returned, false)).router.responses
      == w.router.responses + [R.Response(x.q, true, R.FromHome(x.value))]
  {
    hide End;
  }

  function Round(x: Trip): seq<Happening> {
    [Run(x.q, false, true)] + [CallSent(x.id)] + [DeliverDown(CallMessage(x), E.Object(x.args), false)]
    + [ToolReturned(x.conn, x.id, E.Succeeded(x.value), false)] + [ToolAnswered(x.conn, x.id)]
    + [DeliverUp(ResultMessage(x))] + [CallEnds(x.q, Returned, false)]
  }

  predicate Ready(w: World, x: Trip) {
    && Reaches(w, Run(x.q, false, true)) && x.q !in w.router.claimed
    && x.id == w.broker.nextCall && w.broker.websocket == Some(x.conn) && w.router.snapshot.value.gen == x.gen
    && w.router.tasks[x.q] == R.Executing(Some(x.name), Some(x.args))
    && x.conn in w.endpoints && CanServe(w.endpoints[x.conn], x)
  }

  lemma GoesRound(snapshot: Option<Snapshot>, run: seq<Happening>, x: Trip)
    requires Ready(WorldAfter(snapshot, run), x)
    ensures WorldAfter(snapshot, run + Round(x)).router.responses
      == WorldAfter(snapshot, run).router.responses + [R.Response(x.q, true, R.FromHome(x.value))]
  {
    hide Next, AtBroker, AtSession, CanServe, Serves, CallMessage, ResultMessage, Reaches;
    var a := [Run(x.q, false, true)];
    var b := a + [CallSent(x.id)];
    var c := b + [DeliverDown(CallMessage(x), E.Object(x.args), false)];
    var d := c + [ToolReturned(x.conn, x.id, E.Succeeded(x.value), false)];
    var e := d + [ToolAnswered(x.conn, x.id)];
    var f := e + [DeliverUp(ResultMessage(x))];
    var g := f + [CallEnds(x.q, Returned, false)];
    var w0 := WorldAfter(snapshot, run);
    var w1 := Next(w0, Run(x.q, false, true));
    var w2 := Next(w1, CallSent(x.id));
    var w3 := Next(w2, DeliverDown(CallMessage(x), E.Object(x.args), false));
    var w4 := Next(w3, ToolReturned(x.conn, x.id, E.Succeeded(x.value), false));
    var w5 := Next(w4, ToolAnswered(x.conn, x.id));
    var w6 := Next(w5, DeliverUp(ResultMessage(x)));
    Longer(snapshot, run, [], Run(x.q, false, true));
    Longer(snapshot, run, a, CallSent(x.id));
    Longer(snapshot, run, b, DeliverDown(CallMessage(x), E.Object(x.args), false));
    Longer(snapshot, run, c, ToolReturned(x.conn, x.id, E.Succeeded(x.value), false));
    Longer(snapshot, run, d, ToolAnswered(x.conn, x.id));
    Longer(snapshot, run, e, DeliverUp(ResultMessage(x)));
    Longer(snapshot, run, f, CallEnds(x.q, Returned, false));
    assert run + [] == run && [] + a == a;
    hide WorldAfter;
    Runs(w0, x);
    Sends(w1, x);
    Arrives(w2, x);
    Returns(w3, x);
    Answers(w4, x);
    Resolved(w5, x);
    Responds(w6, x);
    assert g == Round(x);
  }

  lemma Longer(snapshot: Option<Snapshot>, run: seq<Happening>, some: seq<Happening>, h: Happening)
    ensures WorldAfter(snapshot, run + (some + [h])) == Next(WorldAfter(snapshot, run + some), h)
  {
    hide Next;
    assert run + (some + [h]) == (run + some) + [h];
    MoreWorld(snapshot, run + some, h);
  }

  /** The endpoint behind the broker's connection serves the session's generation, with room for one more call. */
  predicate Serving(w: World, name: string) {
    && w.broker.websocket.Some? && w.broker.websocket.value in w.endpoints && w.router.snapshot.Some?
    && var e := w.endpoints[w.broker.websocket.value];
       && e.serving && e.gen == Some(w.router.snapshot.value.gen) && name in e.names
       && |e.tasks| < E.MAX_PENDING_CALLS && |e.seen| < E.MAX_CALLS_PER_GENERATION
  }

  /**
   In every reachable state, an unanswered request that runs complete and is not refused, with its endpoint serving,
   is answered with success and the very value the tool returned: seven events bring it round, and nothing else that
   happened before can keep it.
   */
  lemma CallComesRound(snapshot: Option<Snapshot>, run: seq<Happening>, q: R.RequestId, name: string, args: Json, value: Json)
    requires var w := WorldAfter(snapshot, run);
      && Reaches(w, Run(q, false, true)) && q !in w.router.claimed
      && w.router.tasks[q] == R.Executing(Some(name), Some(args)) && Serving(w, name)
    ensures exists round :: (|round| == 7 && WorldAfter(snapshot, run + round).router.responses
      == WorldAfter(snapshot, run).router.responses + [R.Response(q, true, R.FromHome(value))])
  {
    WorldIsSound(snapshot, run);
    SeenWereIssued(snapshot, run);
    hide WorldAfter, Sound, SeenAreIssued, Round, Ready;
    var x := IsReady(WorldAfter(snapshot, run), q, name, args, value);
    GoesRound(snapshot, run, x);
    SevenEvents(x);
  }

  lemma IsReady(w: World, q: R.RequestId, name: string, args: Json, value: Json) returns (x: Trip)
    requires Sound(w) && SeenAreIssued(w)
    requires Reaches(w, Run(q, false, true)) && q !in w.router.claimed
    requires w.router.tasks[q] == R.Executing(Some(name), Some(args)) && Serving(w, name)
    ensures Ready(w, x) && x.q == q && x.value == value
  {
    hide Sound, SeenAreIssued, Refuses;
    x := Trip(q, w.broker.nextCall, w.broker.websocket.value, w.router.snapshot.value.gen, name, args, value);
    FreshId(w, x.conn);
  }

  lemma SevenEvents(x: Trip) ensures |Round(x)| == 7 {}

  lemma FreshId(w: World, conn: Connection)
    requires Sound(w) && SeenAreIssued(w) && conn in w.endpoints
    ensures w.broker.nextCall !in w.endpoints[conn].seen
  {
    hide Inv, R.Inv, Ran, Reported, ToolAuthority.Resolves, Routed;
    NextGenIsFresh(w);
  }
}
