/**
 What moves each variable of the managed socket, and what leaves it alone: for every variable the one list of
 the events that change it, whichever closure handles them.
 */
module ManagedEffects {
  import opened Wrappers
  import opened ManagedControl
  import opened ManagedInvariant
  import opened ManagedSafety
  import opened ManagedRequests

  // ----- the causes -----

  predicate Claimable(s: State, id: TurnId) { id !in s.claimed && |s.claimed| < MAX_MANAGED_TURNS_PER_SESSION }

  /** Speech, a user turn of its own, a device text or interrupt, the watchdog, and shutdown. */
  predicate Begins(s: State, e: Event) {
    || (e.EUserTurnCreated? && Claimable(s, e.id) && s.pendingSpeech != Some(s.gen))
    || (e.ESpeechStarted? && s.pendingSpeech.None?)
    || e.EDeviceText? || e.EDeviceInterrupt?
    || (e.EWatchdogExpired? && s.turn.Some? && s.turnLock.None?)
    || e.ETombstone?
  }

  predicate Resumes(s: State, e: Event) { e.EResume? && e.frame in s.frames }

  /** The handler of a terminal that found the gate open. */
  predicate Closes(s: State, e: Event) {
    Resumes(s, e) && s.frames[e.frame].EndThenTerminal? && s.frames[e.frame].owned
  }

  /** turn/start returned for a generation that is still current. */
  predicate Launches(s: State, e: Event) {
    && e.ETurnStarted? && e.frame in s.frames && s.frames[e.frame].StartRpc? && s.frames[e.frame].request.gen == s.gen
  }

  predicate Completes(s: State, e: Event) {
    e.ETurnCompleted? && s.turn.Some? && e.completedId == Some(s.turn.value.id)
  }

  predicate CallsTool(s: State, e: Event) {
    && e.EToolCall? && s.turn.Some? && e.toolTurn == Some(s.turn.value.id)
    && !s.turn.value.interrupting && s.turn.value.gen == s.gen
  }

  /** A coroutine that got the lock interrupts the turn it was aimed at, or the one in its way. */
  predicate Barges(s: State, e: Event) {
    && Resumes(s, e) && s.turnLock.None? && s.turn.Some? && !s.turn.value.hadTool
    && var f := s.frames[e.frame];
       (f.InterruptWait? && f.owner == CurrentOwner(s)) || (f.StartWait? && f.request.gen == s.gen)
  }

  predicate Forces(s: State, e: Event) { Begins(s, e) && Forced(e) }

  /** A newer generation, request or answer wants the occupant of the slot gone. */
  predicate Supersedes(s: State, e: Event) {
    || (Begins(s, e) && !Forced(e))
    || (e.EUserTurnDone? && e.transcript.Spoken? && Asks(s, e, Request(s.gen, e.transcript.text)))
    || (e.ETurnCompleted? && e.answer.Speak? && Replies(s, e, Request(s.gen, e.answer.text)))
  }

  /** A fresh assistant turn is bound to the acknowledged occupant, which had none. */
  predicate BindsRender(s: State, e: Event) {
    && e.EAssistantTurnCreated? && Claimable(s, e.id)
    && s.render.Some? && s.render.value.ack && s.render.value.turnId.None?
  }

  /** The occupant was waited for by a coroutine that failed, the claims are full, or the current turn failed. */
  predicate Fails(s: State, e: Event) {
    || (e.EAbort? && e.frame in s.frames)
    || (ClaimedBy(s, e).Some? && ClaimedBy(s, e).value !in s.claimed && |s.claimed| >= MAX_MANAGED_TURNS_PER_SESSION)
    || (Completes(s, e) && s.turn.value.gen == s.gen && !e.completed)
  }

  /** The provider turn id an event claims if it is new. */
  function ClaimedBy(s: State, e: Event): Option<TurnId> {
    if e.EUserTurnCreated? || e.EAssistantTurnCreated? then Some(e.id)
    else if e.EUserTurnDone? && e.doneId.Some? && (forall u | u in s.userTurns :: u.id != e.doneId.value) then e.doneId
    else if e.EAssistantTurnDone? && !TerminalMatches(s, None, Some(e.id)) then Some(e.id)
    else None
  }

  // ----- the variables -----

  datatype Vars = Vars(
    gen: nat, outGen: Option<nat>, turn: Option<Turn>, turnCount: nat, render: Option<Render>, renderCount: nat,
    failed: bool, barged: set<nat>, toolTurns: set<nat>)

  function VarsOf(s: State): Vars {
    Vars(s.gen, s.outGen, s.turn, s.turnCount, s.render, s.renderCount, s.failed, s.hist.barged, s.hist.toolTurns)
  }

  function OutGenAfter(s: State, e: Event): Option<nat> {
    if Begins(s, e) || Closes(s, e) then None
    else if BindsRender(s, e) && s.render.value.gen == s.gen then Some(s.gen)
    else s.outGen
  }

  function TurnAfter(s: State, e: Event): Option<Turn> {
    if Launches(s, e) then Some(Turn(e.id, s.gen, s.turnCount, false, false))
    else if s.turn.None? || Completes(s, e) then None
    else Some(s.turn.value.(hadTool := s.turn.value.hadTool || CallsTool(s, e),
                            interrupting := s.turn.value.interrupting || Barges(s, e) || Forces(s, e)))
  }

  function RenderAfter(s: State, e: Event): Option<Render> {
    if TakesSlot(s, e) then Some(Render(s.gen, s.renderCount, false, false, None, None, false, false))
    else if s.render.None? || RetiresOccupant(s, e) || FailsOccupant(s, e) then None
    else
      var r := s.render.value;
      Some(r.(ack := r.ack || e.EContextAppended?,
              started := r.started || BindsRender(s, e),
              turnId := if BindsRender(s, e) then Some(e.id) else r.turnId,
              cancelRequested := r.cancelRequested || (r.started && Supersedes(s, e)) || (BindsRender(s, e) && r.gen != s.gen)))
  }

  /** The variables after a step, each told by its causes. */
  function VarsAfter(s: State, e: Event): Vars {
    Vars(if Begins(s, e) then s.gen + 1 else s.gen,
         OutGenAfter(s, e),
         TurnAfter(s, e),
         if Launches(s, e) then s.turnCount + 1 else s.turnCount,
         RenderAfter(s, e),
         if TakesSlot(s, e) then s.renderCount + 1 else s.renderCount,
         s.failed || Fails(s, e),
         if Barges(s, e) then s.hist.barged + {s.turn.value.inc} else s.hist.barged,
         if CallsTool(s, e) then s.hist.toolTurns + {s.turn.value.inc} else s.hist.toolTurns)
  }

  // ----- what the causes come to, event by event -----

  function Cancelled(r: Option<Render>): Option<Render> {
    if r.Some? && r.value.started then Some(r.value.(cancelRequested := true)) else r
  }

  predicate Idle(s: State, e: Event) {
    && !Begins(s, e) && !Resumes(s, e) && !Launches(s, e) && !Completes(s, e) && !CallsTool(s, e) && !Forces(s, e)
    && !Supersedes(s, e) && !BindsRender(s, e) && !FailsOccupant(s, e) && !e.EContextAppended?
  }

  /** An event with none of the causes can only fail the socket. */
  lemma IdleAfter(s: State, e: Event)
    requires Idle(s, e)
    ensures VarsAfter(s, e) == VarsOf(s).(failed := s.failed || Fails(s, e))
  {
    hide Fails, Supersedes, Begins, BindsRender, Completes, CallsTool, Launches, FailsOccupant;
  }

  lemma BeginAfter(s: State, e: Event)
    requires Begins(s, e) && !Forced(e)
    ensures VarsAfter(s, e) == VarsOf(s).(gen := s.gen + 1, outGen := None, render := Cancelled(s.render),
                                          failed := s.failed || Fails(s, e))
  {
    hide Fails;
  }

  lemma DispatchAfter(s: State, e: Event)
    requires e.EUserTurnDone? && Supersedes(s, e)
    ensures VarsAfter(s, e) == VarsOf(s).(render := Cancelled(s.render), failed := s.failed || Fails(s, e))
  {
    hide Fails, Asks;
  }

  lemma CompletedAfter(s: State, e: Event)
    requires Completes(s, e)
    ensures VarsAfter(s, e) == VarsOf(s).(turn := None, failed := s.failed || Fails(s, e),
                                          render := if Supersedes(s, e) then Cancelled(s.render) else s.render)
  {
    hide Fails, Supersedes;
  }

  lemma BindsAfter(s: State, e: Event)
    requires BindsRender(s, e) && !s.render.value.started
    ensures VarsAfter(s, e) == VarsOf(s).(
      outGen := if s.render.value.gen == s.gen then Some(s.gen) else s.outGen,
      render := Some(s.render.value.(started := true, turnId := Some(e.id),
                                     cancelRequested := s.render.value.cancelRequested || s.render.value.gen != s.gen)))
  {}

  lemma ForcedAfter(s: State, e: Event)
    requires Begins(s, e) && Forced(e)
    ensures VarsAfter(s, e) == VarsOf(s).(
      gen := s.gen + 1, outGen := None, turn := if s.turn.None? then None else Some(s.turn.value.(interrupting := true)))
  {}

  lemma LaunchAfter(s: State, e: Event)
    requires Launches(s, e)
    ensures VarsAfter(s, e) == VarsOf(s).(turn := Some(Turn(e.id, s.gen, s.turnCount, false, false)), turnCount := s.turnCount + 1)
  {}

  lemma ToolAfter(s: State, e: Event)
    requires CallsTool(s, e)
    ensures VarsAfter(s, e)
      == VarsOf(s).(turn := Some(s.turn.value.(hadTool := true)), toolTurns := s.hist.toolTurns + {s.turn.value.inc})
  {}

  lemma AckAfter(s: State)
    ensures VarsAfter(s, EContextAppended)
      == VarsOf(s).(render := if s.render.Some? then Some(s.render.value.(ack := true)) else None)
  {}

  lemma ResumedAfter(s: State, id: nat)
    requires id in s.frames
    ensures var e := EResume(id);
      VarsAfter(s, e) ==
      if TakesSlot(s, e) then
        VarsOf(s).(render := Some(Render(s.gen, s.renderCount, false, false, None, None, false, false)),
                   renderCount := s.renderCount + 1)
      else if s.frames[id].EndThenTerminal? then
        VarsOf(s).(outGen := if s.frames[id].owned then None else s.outGen, render := if RetiresOccupant(s, e) then None else s.render)
      else if Barges(s, e) then
        VarsOf(s).(turn := Some(s.turn.value.(interrupting := true)), barged := s.hist.barged + {s.turn.value.inc})
      else VarsOf(s)
  {
    hide TerminalMatches;
  }

  lemma AbortedAfter(s: State, id: nat)
    requires id in s.frames
    ensures VarsAfter(s, EAbort(id))
      == VarsOf(s).(failed := true, render := if FailsOccupant(s, EAbort(id)) then None else s.render)
  {}

  // ----- the building blocks -----

  lemma AtVars(s: State, g: nat, st: Stage) ensures VarsOf(At(s, g, st)) == VarsOf(s) {}

  lemma SpawnVars(s: State, f: Frame) ensures VarsOf(Spawn(s, f)) == VarsOf(s) {}

  lemma PutVars(s: State, id: nat, f: Frame)
    ensures VarsOf(Put(s, id, f)) == VarsOf(Drop(s, id)) == VarsOf(Leave(s, id)) == VarsOf(s)
  {}

  lemma ClaimVars(s: State, id: TurnId, c: Claim)
    ensures VarsOf(ClaimFor(s, id, c)) == VarsOf(s)
    ensures VarsOf(ClaimTombstone(s, id))
      == VarsOf(s).(failed := s.failed || (id !in s.claimed && |s.claimed| >= MAX_MANAGED_TURNS_PER_SESSION))
  {}

  lemma CancelVars(s: State) ensures VarsOf(CancelRender(s)) == VarsOf(s).(render := Cancelled(s.render)) {}

  lemma BeginVars(s: State, st: Stage)
    ensures VarsOf(BeginGeneration(s, st)) == VarsOf(s).(gen := s.gen + 1, outGen := None)
  {}

  lemma BindVars(s: State, id: TurnId, g: nat) ensures VarsOf(BindUserTurn(s, id, g)) == VarsOf(s) {}

  lemma CompleteVars(s: State, g: nat) ensures VarsOf(Complete(s, g)) == VarsOf(s) {}

  /** The tombstone shared by the events that begin a generation. */
  lemma TombstoneVars(s: State, st: Stage, pending: Option<nat>, handled: bool, f: Frame)
    ensures VarsOf(Spawn(CancelRender(BeginGeneration(s, st).(pendingSpeech := pending, transcriptHandled := handled)), f))
      == VarsOf(s).(gen := s.gen + 1, outGen := None, render := Cancelled(s.render))
  {
    var b := BeginGeneration(s, st);
    var u := b.(pendingSpeech := pending, transcriptHandled := handled);
    BeginVars(s, st);
    assert VarsOf(u) == VarsOf(b);
    hide BeginGeneration, CancelRender, Spawn;
    CancelVars(u);
    SpawnVars(CancelRender(u), f);
  }

  // ----- the events -----

  lemma UserCreatedVars(s: State, id: TurnId)
    ensures VarsOf(UserTurnCreated(s, id)) == VarsAfter(s, EUserTurnCreated(id))
  {
    hide BeginGeneration, CancelRender, Spawn, ClaimFor, BindUserTurn, VarsAfter;
    var e := EUserTurnCreated(id);
    if Begins(s, e) { BeginAfter(s, e); } else { IdleAfter(s, e); }
    if id in s.claimed || |s.claimed| >= MAX_MANAGED_TURNS_PER_SESSION { return; }
    if s.pendingSpeech == Some(s.gen) {
      ClaimVars(s, id, User(s.gen));
      BindVars(ClaimFor(s, id, User(s.gen)).(pendingSpeech := None), id, s.gen);
      return;
    }
    ClaimVars(s, id, User(s.gen + 1));
    var s1 := ClaimFor(s, id, User(s.gen + 1));
    var b := BeginGeneration(s1, Carried(s.nextFrame));
    TombstoneVars(s1, Carried(s.nextFrame), b.pendingSpeech, false, EndThenInterrupt(CurrentOwner(s), Some(UserTurn(id, b.gen))));
  }

  lemma DispatchVars(s: State, id: TurnId, g: nat, text: string)
    ensures VarsOf(Dispatch(s, id, g, text)) == VarsOf(s).(render := Cancelled(s.render))
  {
    hide CancelRender, Spawn, At;
    CancelVars(s);
    var s1 := At(CancelRender(s), g, Carried(s.nextFrame));
    AtVars(CancelRender(s), g, Carried(s.nextFrame));
    SpawnVars(s1.(hist := s1.hist.(claims := s1.hist.claims[id := Dispatched], dispatches := s1.hist.dispatches + [id])),
              EndThenStart(Request(g, text)));
  }

  lemma UserDoneVars(s: State, id: Option<TurnId>, transcript: Transcript)
    requires forall i, j :: 0 <= i < j < |s.userTurns| ==> s.userTurns[i].id != s.userTurns[j].id
    ensures VarsOf(UserTurnDone(s, id, transcript)) == VarsAfter(s, EUserTurnDone(id, transcript))
  {
    hide ClaimTombstone, Dispatch, VarsAfter;
    var e := EUserTurnDone(id, transcript);
    if Supersedes(s, e) { DispatchAfter(s, e); } else { IdleAfter(s, e); }
    if id.None? { return; }
    var i := FindUserTurn(s.userTurns, id.value);
    if i == |s.userTurns| { ClaimVars(s, id.value, Tombstone); return; }
    var u := s.userTurns[i];
    assert u.id == id.value;
    var s2 := s.(userTurns := s.userTurns[..i] + s.userTurns[i + 1..], transcriptHandled := true);
    if transcript.Spoken? { DispatchVars(s2, id.value, u.gen, transcript.text); }
    assert UserTurn(id.value, s.gen) in s.userTurns <==> u.gen == s.gen by { OneEntry(s.userTurns, i, s.gen); }
  }

  lemma OneEntry(turns: seq<UserTurn>, i: nat, g: nat)
    requires i < |turns| && forall j, k :: 0 <= j < k < |turns| ==> turns[j].id != turns[k].id
    ensures UserTurn(turns[i].id, g) in turns <==> turns[i].gen == g
  {
    if UserTurn(turns[i].id, g) in turns {
      var k :| 0 <= k < |turns| && turns[k] == UserTurn(turns[i].id, g);
    }
  }

  lemma SpeechVars(s: State)
    ensures VarsOf(SpeechStarted(s)) == VarsAfter(s, ESpeechStarted)
  {
    hide BeginGeneration, CancelRender, Spawn;
    if s.pendingSpeech.Some? { return; }
    TombstoneVars(s, Awaited, Some(BeginGeneration(s, Awaited).gen), false, EndThenInterrupt(CurrentOwner(s), None));
  }

  lemma DeviceVars(s: State, text: string)
    ensures VarsOf(DeviceText(s, text)) == VarsAfter(s, EDeviceText(text))
    ensures VarsOf(DeviceInterrupt(s)) == VarsAfter(s, EDeviceInterrupt)
  {
    hide BeginGeneration, CancelRender, Spawn;
    TombstoneVars(s, Carried(s.nextFrame), None, true, EndThenStart(Request(BeginGeneration(s, Carried(s.nextFrame)).gen, text)));
    TombstoneVars(s, Unused, None, true, EndThenInterrupt(CurrentOwner(s), None));
  }

  lemma BindingVars(s: State, id: TurnId)
    requires BindsRender(s, EAssistantTurnCreated(id)) && !s.render.value.started
    ensures VarsOf(AssistantTurnCreated(s, id)) == VarsAfter(s, EAssistantTurnCreated(id))
  {
    hide ClaimFor, VarsAfter;
    BindsAfter(s, EAssistantTurnCreated(id));
    ClaimVars(s, id, Claim.Bound(s.render.value.inc));
  }

  lemma UnboundVars(s: State, id: TurnId)
    requires !Claimable(s, id) || !StartMatches(s, None, Some(id))
    ensures var t := VarsOf(AssistantTurnCreated(s, id));
      t == VarsOf(s).(failed := s.failed || (id !in s.claimed && |s.claimed| >= MAX_MANAGED_TURNS_PER_SESSION))
  {
    hide ClaimFor, StartMatches;
    ClaimVars(s, id, Tombstone);
  }

  lemma AssistantCreatedVars(s: State, id: TurnId)
    requires Inv(s)
    ensures VarsOf(AssistantTurnCreated(s, id)) == VarsAfter(s, EAssistantTurnCreated(id))
  {
    assert s.render.Some? && s.render.value.turnId.Some? ==> s.render.value.turnId.value in s.claimed;
    assert s.render.Some? ==> (s.render.value.started <==> s.render.value.turnId.Some?) && s.render.value.responseId.None?;
    hide Inv, AssistantTurnCreated, VarsAfter;
    var e := EAssistantTurnCreated(id);
    if BindsRender(s, e) { BindingVars(s, id); return; }
    IdleAfter(s, e);
    UnboundVars(s, id);
  }

  lemma AssistantDoneVars(s: State, id: TurnId, responseId: Option<ResponseId>)
    ensures VarsOf(AssistantTurnDone(s, id, responseId)) == VarsAfter(s, EAssistantTurnDone(id, responseId))
  {
    hide ClaimTombstone, Spawn, VarsAfter;
    IdleAfter(s, EAssistantTurnDone(id, responseId));
    ClaimVars(s, id, Tombstone);
    SpawnVars(s, EndThenTerminal(id, responseId, s.outGen == Some(s.gen)));
  }

  lemma AcknowledgedVars(s: State)
    requires LiveSlot(s)
    ensures VarsOf(ContextAppended(s)) == VarsAfter(s, EContextAppended)
  {
    hide VarsAfter;
    AckAfter(s);
  }

  lemma ToolVars(s: State, id: Option<TurnId>)
    ensures VarsOf(ToolCall(s, id)) == VarsAfter(s, EToolCall(id))
  {
    hide VarsAfter;
    var e := EToolCall(id);
    if CallsTool(s, e) { ToolAfter(s, e); } else { IdleAfter(s, e); }
  }

  lemma AppendVars(s: State, g: nat, answer: Answer)
    ensures VarsOf(BeginAppend(s, g, answer)) ==
      if g == s.gen && answer.Speak? then VarsOf(s).(render := Cancelled(s.render)) else VarsOf(s)
  {
    hide CancelRender, Spawn, At;
    CancelVars(s);
    AtVars(CancelRender(s), g, Answering(s.nextFrame));
    if g == s.gen && answer.Speak? {
      SpawnVars(At(CancelRender(s), g, Answering(s.nextFrame)),
                if s.render.Some? then RenderWait(Request(g, answer.text), s.render.value.inc)
                else RenderQuiet(Request(g, answer.text)));
    }
  }

  lemma CompletedVars(s: State, id: Option<TurnId>, completed: bool, answer: Answer)
    ensures VarsOf(TurnCompleted(s, id, completed, answer)) == VarsAfter(s, ETurnCompleted(id, completed, answer))
  {
    hide VarsAfter;
    var e := ETurnCompleted(id, completed, answer);
    if Completes(s, e) { CompletedAfter(s, e); } else { IdleAfter(s, e); }
    if Buffered(s, id) || id != ActiveId(s) { return; }
    if s.turn.None? {
      hide Spawn, At;
      if s.queued.Some? { QueuedVars(s.(turn := None, queued := None), s.queued.value); }
      return;
    }
    var g, s1 := s.turn.value.gen, s.(turn := None, queued := None);
    var s2 := Complete(s1, g);
    CompleteVars(s1, g);
    AppendVars(s2, g, answer);
    hide Spawn, At, Complete, BeginAppend;
    if s.queued.Some? { QueuedVars(BeginAppend(s2, g, answer), s.queued.value); }
  }

  lemma QueuedVars(s: State, r: Request)
    ensures VarsOf(Spawn(At(s, r.gen, Carried(s.nextFrame)), StartWait(r))) == VarsOf(s)
  {}

  lemma WatchdogVars(s: State)
    ensures VarsOf(WatchdogExpired(s)) == VarsAfter(s, EWatchdogExpired)
  {
    hide Spawn, BeginGeneration, VarsAfter;
    if s.turn.None? || s.turnLock.Some? { IdleAfter(s, EWatchdogExpired); return; }
    ForcedAfter(s, EWatchdogExpired);
    BeginVars(s, Unused);
    var b := BeginGeneration(s, Unused);
    SpawnVars(b.(turn := Some(s.turn.value.(interrupting := true)), turnLock := Some(s.nextFrame)), ForcedHold);
  }

  lemma ShutdownVars(s: State)
    ensures VarsOf(ShutdownTombstone(s)) == VarsAfter(s, ETombstone)
    ensures VarsOf(ShutdownInterrupt(s)) == VarsAfter(s, EShutdownInterrupt)
  {
    hide Spawn, BeginGeneration, VarsAfter;
    ForcedAfter(s, ETombstone);
    IdleAfter(s, EShutdownInterrupt);
    BeginVars(s, Unused);
    SpawnVars(s.(turnLock := Some(s.nextFrame)), ForcedHold);
  }

  lemma StartHasNoTurn(s: State, id: nat)
    requires Inv(s) && id in s.frames && s.frames[id].StartRpc?
    ensures s.turn.None?
  {
    assert FrameOk(s, id, s.frames[id]);
  }

  lemma StartedVars(s: State, id: nat, turnId: TurnId)
    requires Inv(s)
    ensures VarsOf(TurnStarted(s, id, turnId)) == VarsAfter(s, ETurnStarted(id, turnId))
  {
    var e := ETurnStarted(id, turnId);
    if Launches(s, e) { LaunchAfter(s, e); } else { IdleAfter(s, e); }
    if id !in s.frames || !s.frames[id].StartRpc? { return; }
    StartHasNoTurn(s, id);
    hide Inv, Put, At, VarsAfter;
    var r, s0 := s.frames[id].request, s.(starting := false);
    PutVars(s0, id, StartDone);
    AtVars(Put(s0, id, StartDone), r.gen, Over);
    AtVars(Put(s0, id, StartDone), r.gen, Running(s.turnCount));
  }

  lemma AbortVars(s: State, id: nat)
    ensures VarsOf(Abort(s, id)) == VarsAfter(s, EAbort(id))
  {
    hide Leave, VarsAfter;
    if id !in s.frames { IdleAfter(s, EAbort(id)); return; }
    AbortedAfter(s, id);
    PutVars(s, id, StartDone);
  }

  // ----- resuming -----

  lemma BargeVars(s: State, id: nat, f: Frame)
    requires s.turn.Some?
    ensures VarsOf(Barge(s, id, f))
      == VarsOf(s).(turn := Some(s.turn.value.(interrupting := true)), barged := s.hist.barged + {s.turn.value.inc})
  {}

  lemma FinishVars(s: State, id: nat, bind: Option<UserTurn>)
    ensures VarsOf(FinishInterrupt(s, id, bind)) == VarsOf(s)
  {
    hide Leave, BindUserTurn;
    PutVars(s, id, StartDone);
    if bind.Some? { BindVars(Leave(s, id), bind.value.id, bind.value.gen); }
  }

  lemma SendVars(s: State, id: nat, r: Request)
    ensures VarsOf(SendTurnStart(s, id, r)) == VarsOf(s)
    ensures VarsOf(Drop(At(s, r.gen, Stage.Queued), id).(queued := Some(r))) == VarsOf(s)
  {}

  lemma OccupyVars(s: State, id: nat, r: Request)
    ensures VarsOf(OccupySlot(s, id, r))
      == VarsOf(s).(render := Some(Render(r.gen, s.renderCount, false, false, None, None, false, false)),
                    renderCount := s.renderCount + 1)
  {}

  lemma TerminalVars(s: State, id: nat)
    requires LiveSlot(s) && id in s.frames && s.frames[id].EndThenTerminal?
    ensures VarsOf(Resume(s, id)) == VarsAfter(s, EResume(id))
  {
    hide Drop, VarsAfter;
    ResumedAfter(s, id);
    var f := s.frames[id];
    var s1 := if f.owned then s.(outGen := None) else s;
    PutVars(s1, id, StartDone);
    if TerminalMatches(s1, f.responseId, Some(f.id)) { PutVars(s1.(render := None), id, StartDone); }
  }

  lemma InterruptVars(s: State, id: nat)
    requires id in s.frames && HasBind(s.frames[id])
    ensures VarsOf(Resume(s, id)) == VarsAfter(s, EResume(id))
  {
    hide FinishInterrupt, Barge, Put, VarsAfter;
    ResumedAfter(s, id);
    var f := s.frames[id];
    FinishVars(s, id, f.bind);
    if f.EndThenInterrupt? { PutVars(s, id, InterruptWait(f.owner, f.bind)); }
    if s.turn.Some? { BargeVars(s, id, InterruptHold(s.turn.value.inc, f.bind)); }
  }

  lemma StartVars(s: State, id: nat)
    requires id in s.frames && IsStart(s.frames[id])
    ensures VarsOf(Resume(s, id)) == VarsAfter(s, EResume(id))
  {
    hide SendTurnStart, Barge, Put, Drop, Leave, At, VarsAfter;
    ResumedAfter(s, id);
    var f := s.frames[id];
    PutVars(s, id, StartDone);
    if f.EndThenStart? { PutVars(s, id, StartWait(f.request)); }
    if f.StartWait? || f.StartInterrupt? { SendVars(s, id, f.request); }
    if f.StartWait? && s.turn.Some? { BargeVars(s, id, StartInterrupt(f.request, s.turn.value.inc)); }
  }

  lemma AnswerVars(s: State, id: nat)
    requires id in s.frames && (IsAnswer(s.frames[id]) || s.frames[id].RenderRpc?)
    ensures VarsOf(Resume(s, id)) == VarsAfter(s, EResume(id))
  {
    hide OccupySlot, Put, Drop, VarsAfter;
    ResumedAfter(s, id);
    var f := s.frames[id];
    PutVars(s, id, StartDone);
    if IsAnswer(f) {
      PutVars(s, id, RenderQuiet(f.request));
      PutVars(s, id, EndThenTake(f.request));
      OccupyVars(s, id, f.request);
    }
  }

  lemma ResumeVars(s: State, id: nat)
    requires LiveSlot(s)
    ensures VarsOf(Resume(s, id)) == VarsAfter(s, EResume(id))
  {
    if id !in s.frames { IdleAfter(s, EResume(id)); return; }
    hide Resume, VarsAfter, VarsOf;
    if HasBind(s.frames[id]) { InterruptVars(s, id); }
    else if IsStart(s.frames[id]) { StartVars(s, id); }
    else if s.frames[id].EndThenTerminal? { TerminalVars(s, id); }
    else { AnswerVars(s, id); }
  }

  /**
   For each variable the complete list of what changes it. The generation moves with speech, a user turn of its
   own, a device text or interrupt, the watchdog and shutdown. The gate opens as the current generation's
   acknowledged render is bound, and closes with a new generation or the terminal that found it open. A turn
   becomes active as turn/start returns for the current generation and ends with its completion; it runs a tool
   only as such, and is interrupted by a coroutine aimed at it or in need of its place, or by force. The slot is
   taken by a current append, acknowledged, bound and cancelled, and given up at its terminal or its failure.
   */
  lemma StepMoves(s: State, e: Event)
    requires Inv(s)
    ensures VarsOf(Step(s, e)) == VarsAfter(s, e)
  {
    hide VarsOf, VarsAfter, Frames, Lock, Turns, Gate, Claims, ContextAppended, UserTurnCreated, UserTurnDone, SpeechStarted,
      AssistantTurnCreated, AssistantTurnDone,
      DeviceText, DeviceInterrupt, ToolCall, TurnCompleted, WatchdogExpired, ShutdownTombstone, ShutdownInterrupt, Resume,
      TurnStarted, Abort;
    match e
    case EContextAppended => AcknowledgedVars(s);
    case EUserTurnCreated(id) => UserCreatedVars(s, id);
    case EUserTurnDone(id, transcript) => UserDoneVars(s, id, transcript);
    case ESpeechStarted => SpeechVars(s);
    case EAssistantTurnCreated(id) => AssistantCreatedVars(s, id);
    case EAssistantTurnDone(id, responseId) => AssistantDoneVars(s, id, responseId);
    case EDeviceText(text) => DeviceVars(s, text);
    case EDeviceInterrupt => DeviceVars(s, "");
    case EToolCall(id) => ToolVars(s, id);
    case ETurnCompleted(id, completed, answer) => CompletedVars(s, id, completed, answer);
    case EWatchdogExpired => WatchdogVars(s);
    case ETombstone => ShutdownVars(s);
    case EShutdownInterrupt => ShutdownVars(s);
    case EResume(frame) => ResumeVars(s, frame);
    case ETurnStarted(frame, id) => StartedVars(s, frame, id);
    case EAbort(frame) => AbortVars(s, frame);
  }

  // ----- the claimed ids and the speech flags -----

  datatype Flags = Flags(claimed: set<TurnId>, pendingSpeech: Option<nat>, transcriptHandled: bool)

  function FlagsOf(s: State): Flags { Flags(s.claimed, s.pendingSpeech, s.transcriptHandled) }

  /** A new provider turn id is claimed while there is room. */
  function ClaimedAfter(s: State, e: Event): set<TurnId> {
    if ClaimedBy(s, e).Some? && Claimable(s, ClaimedBy(s, e).value) then s.claimed + {ClaimedBy(s, e).value} else s.claimed
  }

  /** Speech is pending until its user turn comes, or a device message puts it aside. */
  function PendingAfter(s: State, e: Event): Option<nat> {
    if e.ESpeechStarted? && s.pendingSpeech.None? then Some(s.gen + 1)
    else if e.EDeviceText? || e.EDeviceInterrupt? then None
    else if e.EUserTurnCreated? && Claimable(s, e.id) && s.pendingSpeech == Some(s.gen) then None
    else s.pendingSpeech
  }

  /** The current generation has its transcript, or wants none. */
  function HandledAfter(s: State, e: Event): bool {
    if e.EDeviceText? || e.EDeviceInterrupt? then true
    else if (e.ESpeechStarted? || e.EUserTurnCreated?) && Begins(s, e) then false
    else s.transcriptHandled || (e.EUserTurnDone? && e.doneId.Some? && UserTurn(e.doneId.value, s.gen) in s.userTurns)
  }

  function FlagsAfter(s: State, e: Event): Flags { Flags(ClaimedAfter(s, e), PendingAfter(s, e), HandledAfter(s, e)) }

  lemma BlockFlags(s: State, id: nat, f: Frame, g: nat, st: Stage)
    ensures FlagsOf(At(s, g, st)) == FlagsOf(Spawn(s, f)) == FlagsOf(Put(s, id, f)) == FlagsOf(s)
    ensures FlagsOf(Drop(s, id)) == FlagsOf(Leave(s, id)) == FlagsOf(BeginGeneration(s, st)) == FlagsOf(s)
    ensures FlagsOf(Complete(s, g)) == FlagsOf(s)
  {}

  lemma CancelFlags(s: State) ensures FlagsOf(CancelRender(s)) == FlagsOf(s) {}

  lemma BindFlags(s: State, id: TurnId, g: nat) ensures FlagsOf(BindUserTurn(s, id, g)) == FlagsOf(s) {}

  lemma ClaimFlags(s: State, id: TurnId, c: Claim)
    ensures FlagsOf(ClaimFor(s, id, c)) == FlagsOf(s).(claimed := s.claimed + {id})
    ensures FlagsOf(ClaimTombstone(s, id)) == FlagsOf(s).(claimed := if Claimable(s, id) then s.claimed + {id} else s.claimed)
  {}

  lemma CreatedFlags(s: State, id: TurnId)
    ensures FlagsOf(UserTurnCreated(s, id)) == FlagsAfter(s, EUserTurnCreated(id))
  {
    hide BeginGeneration, CancelRender, Spawn, ClaimFor, BindUserTurn;
    if id in s.claimed || |s.claimed| >= MAX_MANAGED_TURNS_PER_SESSION { return; }
    if s.pendingSpeech == Some(s.gen) {
      ClaimFlags(s, id, User(s.gen));
      BindFlags(ClaimFor(s, id, User(s.gen)).(pendingSpeech := None), id, s.gen);
      return;
    }
    ClaimFlags(s, id, User(s.gen + 1));
    var s1 := ClaimFor(s, id, User(s.gen + 1));
    var b := BeginGeneration(s1, Carried(s.nextFrame));
    BlockFlags(s1, 0, StartDone, 0, Carried(s.nextFrame));
    TombstoneFlags(b.(transcriptHandled := false), EndThenInterrupt(CurrentOwner(s), Some(UserTurn(id, b.gen))));
  }

  lemma TombstoneFlags(s: State, f: Frame)
    ensures FlagsOf(Spawn(CancelRender(s), f)) == FlagsOf(s)
  {
    hide CancelRender, Spawn;
    CancelFlags(s);
    BlockFlags(CancelRender(s), 0, f, 0, Unused);
  }

  lemma DispatchFlags(s: State, id: TurnId, g: nat, text: string)
    ensures FlagsOf(Dispatch(s, id, g, text)) == FlagsOf(s)
  {
    hide CancelRender, Spawn, At;
    CancelFlags(s);
    var s1 := At(CancelRender(s), g, Carried(s.nextFrame));
    BlockFlags(CancelRender(s), 0, StartDone, g, Carried(s.nextFrame));
    BlockFlags(s1.(hist := s1.hist.(claims := s1.hist.claims[id := Dispatched], dispatches := s1.hist.dispatches + [id])),
               0, EndThenStart(Request(g, text)), g, Unused);
  }

  lemma DoneFlags(s: State, id: Option<TurnId>, transcript: Transcript)
    requires forall i, j :: 0 <= i < j < |s.userTurns| ==> s.userTurns[i].id != s.userTurns[j].id
    ensures FlagsOf(UserTurnDone(s, id, transcript)) == FlagsAfter(s, EUserTurnDone(id, transcript))
  {
    hide ClaimTombstone, Dispatch, FlagsAfter;
    if id.None? { DoneAfter(s, id, transcript, 0); return; }
    var i := FindUserTurn(s.userTurns, id.value);
    DoneAfter(s, id, transcript, i);
    if i == |s.userTurns| { ClaimFlags(s, id.value, Tombstone); return; }
    var u := s.userTurns[i];
    if transcript.Spoken? {
      DispatchFlags(s.(userTurns := s.userTurns[..i] + s.userTurns[i + 1..], transcriptHandled := true), id.value, u.gen,
                    transcript.text);
    }
  }

  lemma DoneAfter(s: State, id: Option<TurnId>, transcript: Transcript, i: nat)
    requires forall j, k :: 0 <= j < k < |s.userTurns| ==> s.userTurns[j].id != s.userTurns[k].id
    requires id.Some? ==> i == FindUserTurn(s.userTurns, id.value)
    ensures FlagsAfter(s, EUserTurnDone(id, transcript)) ==
      if id.None? then FlagsOf(s)
      else if i == |s.userTurns| then FlagsOf(s).(claimed := if Claimable(s, id.value) then s.claimed + {id.value} else s.claimed)
      else FlagsOf(s).(transcriptHandled := s.transcriptHandled || s.userTurns[i].gen == s.gen)
  {
    var e := EUserTurnDone(id, transcript);
    hide FindUserTurn, ClaimedAfter, HandledAfter, Claimable;
    assert PendingAfter(s, e) == s.pendingSpeech;
    DoneClaims(s, id, transcript, i);
    DoneHandles(s, id, transcript, i);
  }

  lemma DoneClaims(s: State, id: Option<TurnId>, transcript: Transcript, i: nat)
    requires id.Some? ==> i == FindUserTurn(s.userTurns, id.value)
    ensures ClaimedAfter(s, EUserTurnDone(id, transcript)) ==
      if id.Some? && i == |s.userTurns| && Claimable(s, id.value) then s.claimed + {id.value} else s.claimed
  {
    hide FindUserTurn;
    if id.Some? && i < |s.userTurns| { assert s.userTurns[i] in s.userTurns; }
  }

  lemma DoneHandles(s: State, id: Option<TurnId>, transcript: Transcript, i: nat)
    requires forall j, k :: 0 <= j < k < |s.userTurns| ==> s.userTurns[j].id != s.userTurns[k].id
    requires id.Some? ==> i == FindUserTurn(s.userTurns, id.value)
    ensures HandledAfter(s, EUserTurnDone(id, transcript)) <==>
      s.transcriptHandled || (id.Some? && i < |s.userTurns| && s.userTurns[i].gen == s.gen)
  {
    hide FindUserTurn;
    if id.Some? && i < |s.userTurns| { OneEntry(s.userTurns, i, s.gen); }
  }

  lemma DeviceFlags(s: State, e: Event)
    requires e.ESpeechStarted? || e.EDeviceText? || e.EDeviceInterrupt?
    ensures FlagsOf(Step(s, e)) == FlagsAfter(s, e)
  {
    if e.ESpeechStarted? && s.pendingSpeech.Some? { return; }
    hide CancelRender, Spawn;
    var st := if e.ESpeechStarted? then Awaited else if e.EDeviceText? then Carried(s.nextFrame) else Unused;
    var b := BeginGeneration(s, st);
    if e.ESpeechStarted? {
      TombstoneFlags(b.(pendingSpeech := Some(b.gen), transcriptHandled := false), EndThenInterrupt(CurrentOwner(s), None));
    } else {
      TombstoneFlags(b.(pendingSpeech := None, transcriptHandled := true),
                     if e.EDeviceText? then EndThenStart(Request(b.gen, e.text)) else EndThenInterrupt(CurrentOwner(s), None));
    }
  }

  lemma AssistantFlags(s: State, e: Event)
    requires e.EAssistantTurnCreated? || e.EAssistantTurnDone?
    ensures FlagsOf(Step(s, e)) == FlagsAfter(s, e)
  {
    hide ClaimFor, ClaimTombstone, CancelRender, Spawn, TerminalMatches;
    ClaimFlags(s, e.id, Tombstone);
    if e.EAssistantTurnDone? {
      BlockFlags(s, 0, EndThenTerminal(e.id, e.responseId, s.outGen == Some(s.gen)), 0, Unused);
      return;
    }
    if e.id in s.claimed || |s.claimed| >= MAX_MANAGED_TURNS_PER_SESSION { return; }
    if !StartMatches(s, None, Some(e.id)) { return; }
    BoundFlags(s, e.id);
  }

  lemma BoundFlags(s: State, id: TurnId)
    requires Claimable(s, id) && StartMatches(s, None, Some(id))
    ensures FlagsOf(AssistantTurnCreated(s, id)) == FlagsOf(s).(claimed := s.claimed + {id})
  {
    var s1 := MarkStarted(ClaimFor(s, id, Claim.Bound(s.render.value.inc)), None, Some(id));
    var s2 := s1.(hist := s1.hist.(bindings := s1.hist.bindings + [id]));
    assert FlagsOf(s2) == FlagsOf(s).(claimed := s.claimed + {id});
    hide MarkStarted, ClaimFor, CancelRender;
    CancelFlags(s2);
  }

  lemma CompletedFlags(s: State, id: Option<TurnId>, completed: bool, answer: Answer)
    ensures FlagsOf(TurnCompleted(s, id, completed, answer)) == FlagsOf(s)
  {
    if Buffered(s, id) || id != ActiveId(s) { return; }
    if s.turn.None? {
      hide Spawn, At;
      if s.queued.Some? { QueuedFlags(s.(turn := None, queued := None), s.queued.value); }
      return;
    }
    var g, s1 := s.turn.value.gen, s.(turn := None, queued := None);
    var s2 := Complete(s1, g);
    BlockFlags(s1, 0, StartDone, g, Unused);
    AppendFlags(s2, g, answer);
    hide Spawn, At, Complete, BeginAppend;
    if s.queued.Some? { QueuedFlags(BeginAppend(s2, g, answer), s.queued.value); }
  }

  lemma QueuedFlags(s: State, r: Request)
    ensures FlagsOf(Spawn(At(s, r.gen, Carried(s.nextFrame)), StartWait(r))) == FlagsOf(s)
  {}

  lemma AppendFlags(s: State, g: nat, answer: Answer)
    ensures FlagsOf(BeginAppend(s, g, answer)) == FlagsOf(s)
  {
    if g != s.gen || !answer.Speak? { return; }
    hide Spawn, At, CancelRender;
    CancelFlags(s);
    var s1 := At(CancelRender(s), g, Answering(s.nextFrame));
    BlockFlags(CancelRender(s), 0, StartDone, g, Answering(s.nextFrame));
    BlockFlags(s1, 0, if s.render.Some? then RenderWait(Request(g, answer.text), s.render.value.inc)
                      else RenderQuiet(Request(g, answer.text)), 0, Unused);
  }

  lemma ResumedFlags(s: State, id: nat)
    ensures FlagsOf(Resume(s, id)) == FlagsOf(s)
  {
    hide FinishInterrupt, Barge, SendTurnStart, ResumeTerminal, OccupySlot, Put, Drop, Leave, At;
    if id !in s.frames { return; }
    var f := s.frames[id];
    BlockFlags(s, id, StartDone, 0, Unused);
    if HasBind(f) {
      FinishFlags(s, id, f.bind);
      if f.EndThenInterrupt? { BlockFlags(s, id, InterruptWait(f.owner, f.bind), 0, Unused); }
      if s.turn.Some? { BargeFlags(s, id, InterruptHold(s.turn.value.inc, f.bind)); }
    } else if IsStart(f) {
      if f.EndThenStart? { BlockFlags(s, id, StartWait(f.request), 0, Unused); }
      if f.StartWait? || f.StartInterrupt? { SendFlags(s, id, f.request); }
      if f.StartWait? && s.turn.Some? { BargeFlags(s, id, StartInterrupt(f.request, s.turn.value.inc)); }
    } else if f.EndThenTerminal? {
      TerminalFlags(s, id, f.id, f.responseId, f.owned);
    } else if IsAnswer(f) {
      BlockFlags(s, id, RenderQuiet(f.request), 0, Unused);
      BlockFlags(s, id, EndThenTake(f.request), 0, Unused);
      SendFlags(s, id, f.request);
    }
  }

  lemma FinishFlags(s: State, id: nat, bind: Option<UserTurn>)
    ensures FlagsOf(FinishInterrupt(s, id, bind)) == FlagsOf(s)
  {
    hide Leave, BindUserTurn;
    BlockFlags(s, id, StartDone, 0, Unused);
    if bind.Some? { BindFlags(Leave(s, id), bind.value.id, bind.value.gen); }
  }

  lemma BargeFlags(s: State, id: nat, f: Frame)
    requires s.turn.Some?
    ensures FlagsOf(Barge(s, id, f)) == FlagsOf(s)
  {}

  lemma SendFlags(s: State, id: nat, r: Request)
    ensures FlagsOf(SendTurnStart(s, id, r)) == FlagsOf(OccupySlot(s, id, r)) == FlagsOf(s)
    ensures FlagsOf(Drop(At(s, r.gen, Stage.Queued), id).(queued := Some(r))) == FlagsOf(s)
  {}

  lemma TerminalFlags(s: State, id: nat, turnId: TurnId, responseId: Option<ResponseId>, owned: bool)
    ensures FlagsOf(ResumeTerminal(s, id, turnId, responseId, owned)) == FlagsOf(s)
  {
    hide TerminalMatches;
    if TerminalMatches(if owned then s.(outGen := None) else s, responseId, Some(turnId)) {
      MatchedIsThere(s, responseId, turnId, owned);
    }
  }

  lemma MatchedIsThere(s: State, responseId: Option<ResponseId>, turnId: TurnId, owned: bool)
    requires TerminalMatches(if owned then s.(outGen := None) else s, responseId, Some(turnId))
    ensures s.render.Some?
  {}

  lemma OtherFlags(s: State, e: Event)
    requires e.EContextAppended? || e.EToolCall? || e.EWatchdogExpired? || e.ETombstone? || e.EShutdownInterrupt?
    ensures FlagsOf(Step(s, e)) == FlagsOf(s)
  {
    if e.EWatchdogExpired? { return; }
  }

  lemma CallFlags(s: State, e: Event)
    requires e.ETurnStarted? || e.EAbort?
    ensures FlagsOf(Step(s, e)) == FlagsOf(s)
  {}

  /**
   The ids a session has claimed, the speech it is waiting on and the transcript it has had. A new id named by a turn's
   start, or by an end that owns nothing, is claimed while there is room; speech stays pending until its user turn or a
   device message; and a generation is done with transcripts after its first, or from the start if it needs none.
   */
  lemma StepFlags(s: State, e: Event)
    requires Inv(s)
    ensures FlagsOf(Step(s, e)) == FlagsAfter(s, e)
  {
    hide FlagsOf, Frames, Lock, Turns, Slot, Gate, Claims, Resume;
    match e
    case EUserTurnCreated(id) => CreatedFlags(s, id);
    case EUserTurnDone(id, transcript) => DoneFlags(s, id, transcript);
    case EAssistantTurnCreated(_) => AssistantFlags(s, e);
    case EAssistantTurnDone(_, _) => AssistantFlags(s, e);
    case EResume(frame) => ResumedFlags(s, frame); SameFlags(s, e);
    case ETurnStarted(_, _) => CallFlags(s, e); SameFlags(s, e);
    case EAbort(_) => CallFlags(s, e); SameFlags(s, e);
    case ETurnCompleted(id, completed, answer) => CompletedFlags(s, id, completed, answer); SameFlags(s, e);
    case ESpeechStarted => DeviceFlags(s, e);
    case EDeviceText(_) => DeviceFlags(s, e);
    case EDeviceInterrupt => DeviceFlags(s, e);
    case _ => OtherFlags(s, e); SameFlags(s, e);
  }

  lemma SameFlags(s: State, e: Event)
    requires !e.EUserTurnCreated? && !e.EUserTurnDone? && !e.EAssistantTurnCreated? && !e.EAssistantTurnDone?
    requires !e.ESpeechStarted? && !e.EDeviceText? && !e.EDeviceInterrupt?
    ensures FlagsAfter(s, e) == FlagsOf(s)
  {}
}
