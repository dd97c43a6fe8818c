/**
 The managed socket and its tool session together: a tool request of the executor is admitted by the control
 plane and handed to the session in one stretch, so what each guarantees holds from end to end.
 */
module ManagedTools {
  import opened Wrappers
  import Control = ManagedControl
  import ControlInvariant = ManagedInvariant
  import Safety = ManagedSafety
  import R = ToolRouter
  import T = ToolAuthority
  import W = ToolWire
  import B = ToolBroker

  /** `turnOf` is history: the executor turn for which each request of the session was started. */
  datatype State = State(control: Control.State, world: T.World, turnOf: map<R.RequestId, nat>)

  datatype Event =
    | ControlEvent(control: Control.Event)
    | WorldEvent(world: T.Happening)
    | ToolRequest(turn: Option<Control.TurnId>, request: R.RequestId, callId: string, name: Option<string>,
                  json: Option<W.Json>)

  function Init(snapshot: Option<W.Snapshot>): State { State(Control.Init(), T.InitWorld(snapshot), map[]) }

  /** The `item/tool/call` stretch of `handle_executor_event`; a buffered event comes again. */
  function Request(s: State, turn: Option<Control.TurnId>, request: R.RequestId, callId: string, name: Option<string>,
                   json: Option<W.Json>): State {
    if Control.Buffered(s.control, turn) then s
    else if !Control.ToolAdmitted(s.control, turn) then s.(world := T.Next(s.world, T.RejectUnowned(request)))
    else
      State(Control.Step(s.control, Control.EToolCall(turn)), T.Next(s.world, T.Start(request, callId, name, json)),
            if request in s.world.router.seenRequests then s.turnOf else s.turnOf[request := s.control.turn.value.inc])
  }

  /** Tool calls and started requests come only through `Request`. */
  function Step(s: State, e: Event): State {
    match e
    case ControlEvent(c) => if c.EToolCall? then s else s.(control := Control.Step(s.control, c))
    case WorldEvent(h) => if h.Start? then s else s.(world := T.Next(s.world, h))
    case ToolRequest(turn, request, callId, name, json) => Request(s, turn, request, callId, name, json)
  }

  function Reached(snapshot: Option<W.Snapshot>, run: seq<Event>): State {
    if run == [] then Init(snapshot) else Step(Reached(snapshot, run[..|run| - 1]), run[|run| - 1])
  }

  // ----- the joint invariant -----

  /** Every request the session has seen was started for a turn that dispatched a tool. */
  ghost predicate Owned(turnOf: map<R.RequestId, nat>, seen: set<R.RequestId>, toolTurns: set<nat>) {
    turnOf.Keys == seen && forall q | q in turnOf :: turnOf[q] in toolTurns
  }

  ghost predicate Inv(s: State) {
    && ControlInvariant.Inv(s.control) && T.Sound(s.world)
    && Owned(s.turnOf, s.world.router.seenRequests, s.control.hist.toolTurns)
  }

  lemma RouterKeepsSeen(r: R.Router, q: R.RequestId, why: W.Refusal, id: W.CallId)
    ensures R.RejectUnowned(r, q).seenRequests == r.seenRequests && R.CancelTask(r, q).seenRequests == r.seenRequests
    ensures R.Finish(r, q).seenRequests == r.seenRequests && R.Teardown(r, q).seenRequests == r.seenRequests
    ensures R.RunWithoutBroker(r, q).seenRequests == r.seenRequests && R.Refused(r, q, why).seenRequests == r.seenRequests
    ensures R.Called(r, q, id).seenRequests == r.seenRequests
  {
    TaskKeepsSeen(r, q);
    AnswerKeepsSeen(r, q, why);
    hide R.RejectUnowned, R.CancelTask, R.Finish, R.Teardown, R.RunWithoutBroker, R.Refused;
  }

  lemma TaskKeepsSeen(r: R.Router, q: R.RequestId)
    ensures R.RejectUnowned(r, q).seenRequests == r.seenRequests && R.CancelTask(r, q).seenRequests == r.seenRequests
    ensures R.Finish(r, q).seenRequests == r.seenRequests && R.Teardown(r, q).seenRequests == r.seenRequests
  {}

  lemma AnswerKeepsSeen(r: R.Router, q: R.RequestId, why: W.Refusal)
    ensures R.RunWithoutBroker(r, q).seenRequests == r.seenRequests && R.Refused(r, q, why).seenRequests == r.seenRequests
  {}

  lemma CallEndKeepsSeen(r: R.Router, q: R.RequestId, ending: W.Ending, future: W.Future, doNotRetry: bool)
    ensures R.CallEnded(r, q, ending, future, doNotRetry).seenRequests == r.seenRequests
  {}

  lemma SeenStays(w: T.World, h: T.Happening)
    requires !h.Start?
    ensures T.Next(w, h).router.seenRequests == w.router.seenRequests
  {
    hide R.RejectUnowned, R.CancelTask, R.Finish, R.Teardown, R.RunWithoutBroker, R.Refused, R.Called, R.CallEnded;
    if h.RejectUnowned? || h.CancelTask? || h.TaskDone? || h.Teardown? {
      RouterKeepsSeen(w.router, h.request, W.AuthorityChanged, 0);
    } else if h.Run? {
      RunKeepsSeen(w, h.request, h.closed, h.argsFit);
    } else if h.CallEnds? {
      EndsKeepSeen(w, h.request, h.ending, h.doNotRetry);
    } else {
      T.OthersLeaveSession(w, h);
    }
  }

  lemma RunKeepsSeen(w: T.World, q: R.RequestId, closed: bool, argsFit: bool)
    ensures T.DoRun(w, q, closed, argsFit).router.seenRequests == w.router.seenRequests
  {
    hide R.RunWithoutBroker, R.Refused, R.Called;
    var plan := R.PlanOf(w.router, q);
    RouterKeepsSeen(w.router, q, W.AuthorityChanged, w.broker.nextCall);
    if plan.CallBroker? {
      var why := B.Refuses(w.broker, plan.snapshot, closed, plan.name, argsFit);
      if why.Some? { RouterKeepsSeen(w.router, q, why.value, 0); }
    }
  }

  lemma EndsKeepSeen(w: T.World, q: R.RequestId, ending: W.Ending, doNotRetry: bool)
    ensures T.DoCallEnds(w, q, ending, doNotRetry).router.seenRequests == w.router.seenRequests
  {
    hide R.CallEnded;
    if q in w.router.tasks && w.router.tasks[q].Calling? && w.router.tasks[q].id in w.broker.futures {
      CallEndKeepsSeen(w.router, q, ending, w.broker.futures[w.router.tasks[q].id], doNotRetry);
    }
  }

  lemma ControlKeeps(s: State, c: Control.Event)
    requires Inv(s)
    ensures ControlInvariant.Inv(Control.Step(s.control, c))
    ensures s.control.hist.toolTurns <= Control.Step(s.control, c).hist.toolTurns
  {
    hide ControlInvariant.Inv, T.Sound, Control.Step;
    ControlInvariant.StepKeeps(s.control, c);
    Safety.HistoryIsComplete(s.control, c, 0);
  }

  lemma StartSeen(w: T.World, q: R.RequestId, callId: string, name: Option<string>, json: Option<W.Json>)
    ensures T.Next(w, T.Start(q, callId, name, json)).router.seenRequests == w.router.seenRequests + {q}
  {
    hide R.Rejection;
  }

  /** An admitted tool call belongs to the active turn of the current generation, and marks it. */
  lemma AdmittedTurn(c: Control.State, turn: Option<Control.TurnId>)
    requires Control.ToolAdmitted(c, turn) && !Control.Buffered(c, turn)
    ensures c.turn.Some? && !c.turn.value.interrupting && c.turn.value.gen == c.gen && turn == Some(c.turn.value.id)
    ensures c.turn.value.inc in Control.Step(c, Control.EToolCall(turn)).hist.toolTurns
  {}

  lemma RequestKeeps(s: State, e: Event)
    requires Inv(s) && e.ToolRequest?
    ensures Inv(Step(s, e))
  {
    hide ControlInvariant.Inv, T.Sound, Control.Step, T.Next, Control.ToolAdmitted, Control.Buffered;
    if Control.Buffered(s.control, e.turn) { return; }
    if !Control.ToolAdmitted(s.control, e.turn) {
      T.NextKeeps(s.world, T.RejectUnowned(e.request));
      SeenStays(s.world, T.RejectUnowned(e.request));
      return;
    }
    ControlKeeps(s, Control.EToolCall(e.turn));
    T.NextKeeps(s.world, T.Start(e.request, e.callId, e.name, e.json));
    StartSeen(s.world, e.request, e.callId, e.name, e.json);
    AdmittedTurn(s.control, e.turn);
  }

  lemma StepKeeps(s: State, e: Event)
    requires Inv(s)
    ensures Inv(Step(s, e))
  {
    if e.ToolRequest? { RequestKeeps(s, e); return; }
    hide ControlInvariant.Inv, T.Sound, Control.Step, T.Next;
    match e
    case ControlEvent(c) => ControlKeeps(s, c);
    case WorldEvent(h) =>
      if !h.Start? {
        T.NextKeeps(s.world, h);
        SeenStays(s.world, h);
      }
  }

  lemma InitInv(snapshot: Option<W.Snapshot>)
    ensures Inv(Init(snapshot))
  {
    ControlInvariant.InitInv();
    T.InitSound(snapshot);
    hide ControlInvariant.Inv, T.Sound;
  }

  lemma {:induction false} ReachedKeeps(snapshot: Option<W.Snapshot>, run: seq<Event>)
    ensures Inv(Reached(snapshot, run))
  {
    hide Inv, Step;
    if run == [] { InitInv(snapshot); } else {
      ReachedKeeps(snapshot, run[..|run| - 1]);
      StepKeeps(Reached(snapshot, run[..|run| - 1]), run[|run| - 1]);
    }
  }

  // ----- end to end -----

  /** A request is started only for the active, untombstoned executor turn of the current generation that made it. */
  lemma StartedByItsActiveTurn(s: State, e: Event, q: R.RequestId)
    requires q in Step(s, e).turnOf && q !in s.turnOf
    ensures e.ToolRequest? && e.request == q
    ensures var c := s.control;
      && c.turn.Some? && e.turn == Some(c.turn.value.id) && Step(s, e).turnOf[q] == c.turn.value.inc
      && !c.turn.value.interrupting && c.turn.value.gen == c.gen
  {
    hide Control.Step, T.Next;
    if e.ToolRequest? && !Control.Buffered(s.control, e.turn) && Control.ToolAdmitted(s.control, e.turn) {
      AdmittedTurn(s.control, e.turn);
    }
  }

  /**
   No turn that was interrupted by a newer utterance, text or device interrupt ever reaches Home Assistant:
   neither a broker call nor a tool run of this session is for such a turn, in any run.
   */
  lemma InterruptedTurnReachesNothing(snapshot: Option<W.Snapshot>, run: seq<Event>)
    ensures var s := Reached(snapshot, run);
      && (forall q | q in s.world.router.callOf :: q in s.turnOf && s.turnOf[q] !in s.control.hist.barged)
      && (forall conn, id: W.CallId, q |
            && conn in s.world.endpoints && id in s.world.endpoints[conn].ran
            && id in s.world.issued && s.world.issued[id].request == Some(q) ::
            q in s.turnOf && s.turnOf[q] !in s.control.hist.barged)
  {
    ReachedKeeps(snapshot, run);
    BargedMeansNoCall(Reached(snapshot, run));
  }

  lemma BargedMeansNoCall(s: State)
    requires Inv(s)
    ensures forall q | q in s.world.router.callOf :: q in s.turnOf && s.turnOf[q] !in s.control.hist.barged
    ensures forall id: W.CallId, q | id in s.world.issued && s.world.issued[id].request == Some(q) ::
      q in s.turnOf && s.turnOf[q] !in s.control.hist.barged
  {
    CalledWasSeen(s.world);
    ToolTurnsAreNotBarged(s.control);
    hide ControlInvariant.Inv, T.Sound;
  }

  lemma CalledWasSeen(w: T.World)
    requires T.Sound(w)
    ensures forall q | q in w.router.callOf :: q in w.router.seenRequests
    ensures forall id: W.CallId, q | id in w.issued && w.issued[id].request == Some(q) :: q in w.router.callOf
  {
    hide B.Inv, T.Wired, T.Ran, T.Reported, T.Resolves, R.Responses;
  }

  lemma ToolTurnsAreNotBarged(c: Control.State)
    requires ControlInvariant.Inv(c)
    ensures forall i | i in c.hist.toolTurns :: i !in c.hist.barged
  {
    hide ControlInvariant.Frames, ControlInvariant.Lock, ControlInvariant.Requests, ControlInvariant.Slot,
      ControlInvariant.Gate, ControlInvariant.Claims;
  }

  /** The turn has begun, and it is over or tombstoned, by whatever tombstoned it. */
  predicate Dead(c: Control.State, inc: nat) {
    inc < c.turnCount && (Safety.Active(c, inc) ==> Safety.Interrupting(c, inc))
  }

  lemma DeadStays(c: Control.State, e: Control.Event, inc: nat)
    requires ControlInvariant.Inv(c) && Dead(c, inc)
    ensures Dead(Control.Step(c, e), inc)
  {
    hide Control.Step, ControlInvariant.Inv, Safety.GenerationDelta, Safety.HistoryDelta, Safety.SlotDelta,
      Safety.TerminalDelta;
    Safety.StepDelta(c, e);
  }

  lemma DeadStep(s: State, e: Event, inc: nat)
    requires Inv(s) && Dead(s.control, inc)
    ensures Dead(Step(s, e).control, inc)
    ensures forall q | q in Step(s, e).turnOf && Step(s, e).turnOf[q] == inc :: q in s.turnOf && s.turnOf[q] == inc
  {
    hide Control.Step, ControlInvariant.Inv, T.Sound, T.Next, Dead;
    if e.ControlEvent? { DeadStays(s.control, e.control, inc); }
    if e.ToolRequest? { DeadRequest(s, e, inc); }
  }

  lemma DeadRequest(s: State, e: Event, inc: nat)
    requires Inv(s) && Dead(s.control, inc) && e.ToolRequest?
    ensures Dead(Step(s, e).control, inc)
    ensures forall q | q in Step(s, e).turnOf && Step(s, e).turnOf[q] == inc :: q in s.turnOf && s.turnOf[q] == inc
  {
    hide Control.Step, ControlInvariant.Inv, T.Sound, T.Next, Owned;
    if Control.Buffered(s.control, e.turn) || !Control.ToolAdmitted(s.control, e.turn) { return; }
    DeadStays(s.control, Control.EToolCall(e.turn), inc);
    AdmittedTurn(s.control, e.turn);
  }

  /**
   Once a turn is over or tombstoned, by barge-in, the watchdog or shutdown, no further request is started
   for it, however the run goes on.
   */
  lemma {:induction false} TombstonedTurnStartsNothing(snapshot: Option<W.Snapshot>, run: seq<Event>, more: seq<Event>,
                                                       inc: nat, q: R.RequestId)
    requires Dead(Reached(snapshot, run).control, inc)
    ensures Dead(Reached(snapshot, run + more).control, inc)
    ensures var s, t := Reached(snapshot, run), Reached(snapshot, run + more);
      q in t.turnOf && t.turnOf[q] == inc ==> q in s.turnOf && s.turnOf[q] == inc
    decreases |more|
  {
    hide Step, Inv, Dead;
    if more == [] { assert run + more == run; return; }
    var front := more[..|more| - 1];
    TombstonedTurnStartsNothing(snapshot, run, front, inc, q);
    ReachedKeeps(snapshot, run + front);
    DeadStep(Reached(snapshot, run + front), more[|more| - 1], inc);
    assert (run + more)[..|run + more| - 1] == run + front;
  }

  /**
   A tool request of the executor that is not buffered is dispatched or answered, at once: the active, untombstoned
   turn of the current generation has it started and is marked as having run a tool; any other has it claimed by a
   failure without the broker.
   */
  lemma RequestIsDispatchedOrAnswered(s: State, turn: Option<Control.TurnId>, request: R.RequestId, callId: string,
                                      name: Option<string>, json: Option<W.Json>)
    requires !Control.Buffered(s.control, turn)
    ensures var t := Step(s, ToolRequest(turn, request, callId, name, json));
      if Control.ToolAdmitted(s.control, turn) then
        && s.control.turn.Some? && s.control.turn.value.inc in t.control.hist.toolTurns
        && request in t.world.router.seenRequests
        && (request !in s.world.router.seenRequests ==>
              request in t.turnOf && t.turnOf[request] == s.control.turn.value.inc && request in t.world.router.tasks)
      else
        t.control == s.control && t.turnOf == s.turnOf && request in t.world.router.claimed
        && t.world.router.seenRequests == s.world.router.seenRequests
  {
    hide R.Rejection;
    if !Control.ToolAdmitted(s.control, turn) { return; }
  }
}
