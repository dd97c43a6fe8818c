/**
 What moves the tool broker, variable by variable: who holds the authority, what becomes of every future and every
 call, and which counter an ending moves.
 */
module BrokerEffects {
  import opened Wrappers
  import opened ToolWire
  import opened ToolBroker

  // ----- the causes -----

  predicate TakesOver(s: State, e: Event) { e.ERegister? && !Busy(s, e.currentClosed) }

  predicate GivesUp(s: State, e: Event) { e.EUnregister? && s.websocket == Some(e.conn) }

  predicate Begins(s: State, e: Event) { e.EBegin? && Refuses(s, e.snapshot, e.closed, e.name, e.argsFit).None? }

  /** A result of the current generation on the current connection for a call that still waits. */
  predicate Resolves(s: State, e: Event, id: CallId) {
    && e.EReceive? && e.id == id && s.websocket == Some(e.conn) && s.snapshot.Some? && s.snapshot.value.gen == e.gen
    && id in s.futures && s.futures[id].Waiting?
  }

  predicate Ends(s: State, e: Event, id: CallId) { e.EEnd? && e.id == id && MayEnd(s, id, e.ending) }

  // ----- the variables after a step -----

  /** The future of a call: it waits until a result, the loss of the connection or its own call's end. */
  function FutureAfter(s: State, e: Event, id: CallId): Option<Future> {
    if Begins(s, e) && id == s.nextCall then Some(Waiting)
    else if id !in s.futures then None
    else if !s.futures[id].Waiting? then Some(s.futures[id])
    else if Resolves(s, e, id) then Some(Resolved(e.success, e.value))
    else if TakesOver(s, e) || GivesUp(s, e) then Some(Disconnected)
    else if Ends(s, e, id) then Some(Abandoned)
    else Some(Waiting)
  }

  function CallAfter(s: State, e: Event, id: CallId): Option<Call> {
    if Begins(s, e) && id == s.nextCall then Some(Call(e.snapshot.gen, s.websocket.value, e.name, e.args, false))
    else if id !in s.inFlight || Ends(s, e, id) then None
    else if e == ESent(id) then Some(s.inFlight[id].(sent := true))
    else Some(s.inFlight[id])
  }

  function Found<T>(m: map<CallId, T>, id: CallId): Option<T> { if id in m then Some(m[id]) else None }

  ghost predicate FuturesMove(s: State, e: Event, t: State) { forall id: CallId :: Found(t.futures, id) == FutureAfter(s, e, id) }

  ghost predicate CallsMove(s: State, e: Event, t: State) { forall id: CallId :: Found(t.inFlight, id) == CallAfter(s, e, id) }

  predicate AuthorityMoves(s: State, e: Event, t: State) {
    && t.websocket == (if TakesOver(s, e) then Some(e.conn) else if GivesUp(s, e) then None else s.websocket)
    && t.snapshot == (if TakesOver(s, e) then Some(Snapshot(s.nextGen, e.names)) else if GivesUp(s, e) then None else s.snapshot)
    && t.nextGen == (if TakesOver(s, e) then s.nextGen + 1 else s.nextGen)
    && t.nextCall == (if Begins(s, e) then s.nextCall + 1 else s.nextCall)
  }

  predicate IsSuccess(f: Future) { f.Resolved? && f.success }

  predicate IsFailure(f: Future) { f.Resolved? && !f.success }

  /** Every ending moves one counter, told by how the call ended and what its future held. */
  predicate CountersMove(s: State, e: Event, t: State) {
    var c, d := s.counters, t.counters;
    var ended := e.EEnd? && MayEnd(s, e.id, e.ending);
    var returned := ended && e.ending.Returned?;
    && d.started == c.started + (if Begins(s, e) then 1 else 0)
    && d.succeeded == c.succeeded + (if returned && IsSuccess(s.futures[e.id]) then 1 else 0)
    && d.failed == c.failed + (if returned && IsFailure(s.futures[e.id]) then 1 else 0)
    && d.timedOut == c.timedOut + (if ended && e.ending.TimedOut? then 1 else 0)
    && d.cancelled == c.cancelled + (if ended && e.ending.Cancelled? then 1 else 0)
    && d.transport == c.transport
       + (if ended && (e.ending.SendFailed? || (e.ending.Returned? && s.futures[e.id].Disconnected?)) then 1 else 0)
  }

  // ----- event by event -----

  lemma RegisterMoves(s: State, e: Event)
    requires Correlated(s) && (e.ERegister? || e.EUnregister?)
    ensures FuturesMove(s, e, Step(s, e)) && CallsMove(s, e, Step(s, e))
    ensures AuthorityMoves(s, e, Step(s, e)) && CountersMove(s, e, Step(s, e))
  {}

  lemma ReceiveMoves(s: State, e: Event)
    requires Correlated(s) && e.EReceive?
    ensures FuturesMove(s, e, Step(s, e)) && CallsMove(s, e, Step(s, e))
    ensures AuthorityMoves(s, e, Step(s, e)) && CountersMove(s, e, Step(s, e))
  {
    hide Without, RetiredGeneration;
  }

  lemma BeginMoves(s: State, e: Event)
    requires Correlated(s) && (e.EBegin? || e.ESent?)
    ensures FuturesMove(s, e, Step(s, e)) && CallsMove(s, e, Step(s, e))
    ensures AuthorityMoves(s, e, Step(s, e)) && CountersMove(s, e, Step(s, e))
  {}

  lemma EndMoves(s: State, e: Event)
    requires Correlated(s) && e.EEnd?
    ensures FuturesMove(s, e, Step(s, e)) && CallsMove(s, e, Step(s, e))
    ensures AuthorityMoves(s, e, Step(s, e)) && CountersMove(s, e, Step(s, e))
  {
    hide Newest, Without;
    if !MayEnd(s, e.id, e.ending) { return; }
  }

  /**
   One step of the broker. A future waits from the beginning of its call until the result of that call comes under
   the current generation and connection, the connection is lost, or the call ends, and holds exactly what that
   brought; a registration over a dead connection and a disconnection lose every waiting one. Calls stay in flight
   until they end, and each ending moves its own counter.
   */
  lemma BrokerMoves(s: State, e: Event)
    requires Inv(s)
    ensures FuturesMove(s, e, Step(s, e)) && CallsMove(s, e, Step(s, e))
    ensures AuthorityMoves(s, e, Step(s, e)) && CountersMove(s, e, Step(s, e))
  {
    hide FuturesMove, CallsMove, AuthorityMoves, CountersMove, Step, Correlated, RetiredOk, Tokens, Accounted;
    match e
    case ERegister(_, _, _) => RegisterMoves(s, e);
    case EUnregister(_) => RegisterMoves(s, e);
    case EReceive(_, _, _, _, _) => ReceiveMoves(s, e);
    case EBegin(_, _, _, _, _) => BeginMoves(s, e);
    case ESent(_) => BeginMoves(s, e);
    case EEnd(_, _) => EndMoves(s, e);
  }
}
