/**
 The managed socket's closures over their shared variables. Each method is one await-free stretch and
 is proved to make exactly the step of `ManagedControl` it stands for; with `ManagedInvariant` and
 `ManagedSafety` that carries every guarantee over to these variables.

 The suspended coroutines and the history are ghost: they are the event loop's, not the socket's.
 */
module ManagedClosures {
  import opened Wrappers
  import opened ManagedControl
  import opened ManagedInvariant

  class RealtimeSocket {
    var generation: nat
    var outputGeneration: Option<nat>

    var turn: Option<Turn>
    var turnLock: Option<nat>
    var turnStarting: bool
    var queuedRequest: Option<Request>

    var transcriptHandled: bool
    var pendingSpeech: Option<nat>
    var userTurns: seq<UserTurn>
    var claimedTurnIds: set<TurnId>

    var render: Option<Render>
    var failed: bool

    var turnCount: nat
    var renderCount: nat
    ghost var frames: map<nat, Frame>
    var nextFrame: nat
    ghost var hist: History

    ghost function View(): State
      reads this
    {
      State(generation, outputGeneration, turn, turnCount, turnLock, turnStarting, queuedRequest, transcriptHandled,
            pendingSpeech, userTurns, claimedTurnIds, render, renderCount, failed, frames, nextFrame, hist)
    }

    constructor ()
      ensures View() == Init()
    {
      generation, outputGeneration := 0, None;
      turn, turnLock, turnStarting, queuedRequest := None, None, false, None;
      transcriptHandled, pendingSpeech, userTurns, claimedTurnIds := false, None, [], {};
      render, failed, turnCount, renderCount := None, false, 0, 0;
      frames, nextFrame, hist := map[], 0, History(map[], map[], [], [], [], [], [], {}, {}, {}, [], []);
    }

    // ----- closures that never suspend -----

    method BeginBackgroundGeneration(ghost stage: Stage)
      modifies `generation, `outputGeneration, `hist
      ensures View() == BeginGeneration(old(View()), stage)
    {
      generation := generation + 1;
      outputGeneration := None;
      hist := hist.(stage := hist.stage[generation := stage]);
    }

    method RequestRenderCancel()
      modifies `render
      ensures View() == CancelRender(old(View()))
    {
      if render.None? || !render.value.started { return; }
      if render.value.cancelRequested { return; }
      render := Some(render.value.(cancelRequested := true));
    }

    method ClaimManagedTurnId(id: TurnId, ghost use: Claim) returns (claimed: bool)
      modifies `claimedTurnIds, `failed, `hist
      ensures claimed == (id !in old(claimedTurnIds) && |old(claimedTurnIds)| < MAX_MANAGED_TURNS_PER_SESSION)
      ensures claimed ==> View() == ClaimFor(old(View()), id, use)
      ensures !claimed ==> View() == if id in old(claimedTurnIds) then old(View()) else old(View()).(failed := true)
    {
      if id in claimedTurnIds { return false; }
      if |claimedTurnIds| >= MAX_MANAGED_TURNS_PER_SESSION {
        failed := true;
        return false;
      }
      claimedTurnIds := claimedTurnIds + {id};
      hist := hist.(claims := hist.claims[id := use]);
      return true;
    }

    method MaybeRetireRender()
      modifies `render
      ensures View() == MaybeRetire(old(View()))
    {
      if render.None? || !render.value.ack || !render.value.terminalSeen { return; }
      render := None;
    }

    method MarkRenderStarted(responseId: Option<ResponseId>, turnId: Option<TurnId>) returns (marked: bool)
      modifies `render
      ensures marked == StartMatches(old(View()), responseId, turnId)
      ensures View() == if marked then MarkStarted(old(View()), responseId, turnId) else old(View())
    {
      if render.None? || !render.value.ack || (responseId.None? && turnId.None?) { return false; }
      if responseId.Some? && render.value.responseId.Some? && render.value.responseId != responseId { return false; }
      if turnId.Some? && render.value.turnId.Some? && render.value.turnId != turnId { return false; }
      var r := render.value;
      if responseId.Some? { r := r.(responseId := responseId); }
      if turnId.Some? { r := r.(turnId := turnId); }
      render := Some(r.(started := true));
      return true;
    }

    method RenderTerminalMatches(responseId: Option<ResponseId>, turnId: Option<TurnId>) returns (matches: bool)
      ensures matches == TerminalMatches(View(), responseId, turnId)
      ensures matches ==> render.Some? && render.value.ack && render.value.started
    {
      if render.None? || !render.value.ack || !render.value.started || (responseId.None? && turnId.None?) { return false; }
      if responseId.Some? && (render.value.responseId.None? || render.value.responseId != responseId) { return false; }
      if turnId.Some? && (render.value.turnId.None? || render.value.turnId != turnId) { return false; }
      return true;
    }

    method TurnOwner() returns (owner: Owner)
      ensures owner == CurrentOwner(View())
    {
      if turn.None? { return Owner(None, None); }
      return Owner(Some(turn.value.id), Some(turn.value.gen));
    }

    method Suspend(ghost f: Frame)
      modifies `frames, `nextFrame
      ensures View() == Spawn(old(View()), f)
    {
      frames := frames[nextFrame := f];
      nextFrame := nextFrame + 1;
    }

    ghost method Become(id: nat, f: Frame)
      modifies `frames
      ensures View() == Put(old(View()), id, f)
    {
      frames := frames[id := f];
    }

    method Finish(id: nat)
      modifies `frames, `turnLock
      ensures View() == Leave(old(View()), id)
    {
      if turnLock == Some(id) { turnLock := None; }
      frames := frames - {id};
    }

    method BindUser(id: TurnId, gen: nat)
      modifies `userTurns, `hist
      ensures View() == BindUserTurn(old(View()), id, gen)
    {
      hist := hist.(stage := hist.stage[gen := Stage.Bound(id)]);
      userTurns := userTurns + [UserTurn(id, gen)];
      if |userTurns| > MAX_USER_TURN_CORRELATIONS {
        userTurns := userTurns[|userTurns| - MAX_USER_TURN_CORRELATIONS..];
      }
    }

    // ----- provider data-channel events -----

    method OnContextAppended()
      modifies this
      ensures View() == ContextAppended(old(View()))
    {
      if render.Some? {
        render := Some(render.value.(ack := true));
        MaybeRetireRender();
      }
    }

    method RememberManagedUserTurn(id: TurnId)
      modifies this
      ensures View() == UserTurnCreated(old(View()), id)
    {
      hide BeginGeneration, CancelRender, BindUserTurn, Spawn, ClaimFor;
      ghost var s := View();
      var claimed := ClaimManagedTurnId(id, User(if pendingSpeech == Some(generation) then generation else generation + 1));
      if !claimed { return; }
      ClaimKeepsRest(s, id, User(s.gen));
      ClaimKeepsRest(s, id, User(s.gen + 1));
      ghost var s1 := View();
      if pendingSpeech == Some(generation) {
        pendingSpeech := None;
        assert View() == s1.(pendingSpeech := None);
        BindUser(id, generation);
      } else {
        var interrupted := TurnOwner();
        BeginBackgroundGeneration(Carried(nextFrame));
        ghost var s2 := View();
        transcriptHandled := false;
        assert View() == s2.(transcriptHandled := false);
        RequestRenderCancel();
        Suspend(EndThenInterrupt(interrupted, Some(UserTurn(id, generation))));
      }
    }

    method CompleteManagedUserTurn(id: Option<TurnId>, transcript: Transcript)
      modifies this
      ensures View() == UserTurnDone(old(View()), id, transcript)
    {
      hide Dispatch, ClaimTombstone;
      if id.None? { return; }
      var i := FindUserTurn(userTurns, id.value);
      if i == |userTurns| {
        TombstoneTurnId(id.value);
        return;
      }
      var g := userTurns[i].gen;
      ghost var s := View();
      userTurns := userTurns[..i] + userTurns[i + 1..];
      assert View() == s.(userTurns := s.userTurns[..i] + s.userTurns[i + 1..]);
      if g != generation || transcriptHandled { return; }
      ghost var s1 := View();
      transcriptHandled := true;
      assert View() == s1.(transcriptHandled := true);
      if !transcript.Spoken? { return; }
      DispatchTranscript(id.value, g, transcript.text);
    }

    method DispatchTranscript(id: TurnId, g: nat, text: string)
      modifies `render, `hist, `frames, `nextFrame
      ensures View() == Dispatch(old(View()), id, g, text)
    {
      hide CancelRender, Spawn, At;
      RequestRenderCancel();
      NoteStage(g, Carried(nextFrame));
      ghost var s1 := View();
      hist := hist.(claims := hist.claims[id := Dispatched], dispatches := hist.dispatches + [id]);
      assert View() == s1.(hist := s1.hist.(claims := s1.hist.claims[id := Dispatched],
                                            dispatches := s1.hist.dispatches + [id]));
      Suspend(EndThenStart(Request(g, text)));
    }

    /** `claim_managed_turn_id` for an id that owns nothing. */
    method TombstoneTurnId(id: TurnId)
      modifies `claimedTurnIds, `failed, `hist
      ensures View() == ClaimTombstone(old(View()), id)
    {
      var _ := ClaimManagedTurnId(id, Tombstone);
    }

    ghost method NoteStage(g: nat, stage: Stage)
      modifies `hist
      ensures View() == At(old(View()), g, stage)
    {
      hist := hist.(stage := hist.stage[g := stage]);
    }

    ghost method NoteCompletion(g: nat)
      modifies `hist
      ensures View() == Complete(old(View()), g)
    {
      hist := hist.(stage := hist.stage[g := Over], completions := hist.completions + [g]);
    }

    method OnSpeechStarted()
      modifies this
      ensures View() == SpeechStarted(old(View()))
    {
      hide BeginGeneration, CancelRender, Spawn;
      if pendingSpeech.Some? { return; }
      var interrupted := TurnOwner();
      BeginBackgroundGeneration(Awaited);
      pendingSpeech := Some(generation);
      transcriptHandled := false;
      RequestRenderCancel();
      Suspend(EndThenInterrupt(interrupted, None));
    }

    method OnAssistantTurnCreated(id: TurnId)
      modifies this
      ensures View() == AssistantTurnCreated(old(View()), id)
    {
      hide CancelRender;
      ghost var use := if StartMatches(View(), None, Some(id)) then Claim.Bound(render.value.inc) else Tombstone;
      var claimed := ClaimManagedTurnId(id, use);
      if !claimed { return; }
      var marked := MarkRenderStarted(None, Some(id));
      if !marked { return; }
      hist := hist.(bindings := hist.bindings + [id]);
      if render.value.gen != generation {
        RequestRenderCancel();
      } else {
        outputGeneration := Some(render.value.gen);
      }
    }

    method OnAssistantTurnDone(id: TurnId, responseId: Option<ResponseId>)
      modifies this
      ensures View() == AssistantTurnDone(old(View()), id, responseId)
    {
      hide Spawn;
      var matches := RenderTerminalMatches(None, Some(id));
      if !matches {
        var _ := ClaimManagedTurnId(id, Tombstone);
        return;
      }
      matches := RenderTerminalMatches(responseId, Some(id));
      if !matches { return; }
      var owned := outputGeneration == Some(generation);
      Suspend(EndThenTerminal(id, responseId, owned));
    }

    // ----- device messages -----

    method OnText(text: string)
      modifies this
      ensures View() == DeviceText(old(View()), text)
    {
      hide BeginGeneration, CancelRender, Spawn;
      BeginBackgroundGeneration(Carried(nextFrame));
      pendingSpeech := None;
      transcriptHandled := true;
      RequestRenderCancel();
      Suspend(EndThenStart(Request(generation, text)));
    }

    method OnInterrupt()
      modifies this
      ensures View() == DeviceInterrupt(old(View()))
    {
      hide BeginGeneration, CancelRender, Spawn;
      var interrupted := TurnOwner();
      BeginBackgroundGeneration(Unused);
      pendingSpeech := None;
      transcriptHandled := true;
      RequestRenderCancel();
      Suspend(EndThenInterrupt(interrupted, None));
    }

    // ----- executor events -----

    /** `dispatched` says whether the request goes on to Home Assistant; otherwise it is rejected. */
    method OnToolCall(id: Option<TurnId>) returns (dispatched: bool)
      modifies this
      ensures View() == ToolCall(old(View()), id)
      ensures dispatched <==> !Buffered(old(View()), id) && ToolAdmitted(old(View()), id)
    {
      if turnStarting && turn.None? && id.Some? { return false; }
      var owner := TurnOwner();
      if id != owner.id || (turn.Some? && turn.value.interrupting) || owner.gen != Some(generation) { return false; }
      turn := Some(turn.value.(hadTool := true));
      hist := hist.(toolTurns := hist.toolTurns + {turn.value.inc});
      return true;
    }

    method AppendBackgroundSpeech(gen: nat, answer: Answer)
      modifies this
      ensures View() == BeginAppend(old(View()), gen, answer)
    {
      hide CancelRender, Spawn;
      if gen != generation || !answer.Speak? { return; }
      if render.Some? {
        ghost var previous := render.value.inc;
        RequestRenderCancel();
        hist := hist.(stage := hist.stage[gen := Answering(nextFrame)]);
        Suspend(RenderWait(Request(gen, answer.text), previous));
      } else {
        CancelKeepsSlot(View());
        hist := hist.(stage := hist.stage[gen := Answering(nextFrame)]);
        Suspend(RenderQuiet(Request(gen, answer.text)));
      }
    }

    /** The turn's variables are cleared; returns the request queued behind it. */
    method ClearTurn() returns (queued: Option<Request>)
      modifies `turn, `queuedRequest
      ensures View() == old(View()).(turn := None, queued := None) && queued == old(queuedRequest)
    {
      turn := None;
      queued := queuedRequest;
      queuedRequest := None;
    }

    method FailSocket()
      modifies `failed
      ensures View() == old(View()).(failed := true)
    {
      failed := true;
    }

    method CompleteBackgroundTurn(id: Option<TurnId>, completed: bool, answer: Answer)
      modifies this
      ensures View() == TurnCompleted(old(View()), id, completed, answer)
    {
      hide Spawn, BeginAppend, Complete, At;
      if turnStarting && turn.None? && id.Some? { return; }
      var owner := TurnOwner();
      if id != owner.id { return; }
      var gen := owner.gen;
      var queued := ClearTurn();
      CompleteKeepsRest(View(), if gen.Some? then gen.value else 0);
      if gen.Some? { NoteCompletion(gen.value); }
      if gen == Some(generation) && !completed {
        FailSocket();
        return;
      }
      if gen.Some? { AppendBackgroundSpeech(gen.value, answer); }
      if queued.Some? && queued.value.gen == generation {
        NoteStage(queued.value.gen, Carried(nextFrame));
        Suspend(StartWait(queued.value));
      }
    }

    // ----- watchdog and shutdown -----

    method ExpireWatchdog()
      modifies this
      ensures View() == WatchdogExpired(old(View()))
    {
      if turnLock.Some? || turn.None? { return; }
      turn := Some(turn.value.(interrupting := true));
      BeginBackgroundGeneration(Unused);
      turnLock := Some(nextFrame);
      Suspend(ForcedHold);
    }

    method TombstoneForShutdown()
      modifies this
      ensures View() == ShutdownTombstone(old(View()))
    {
      queuedRequest := None;
      if turn.Some? { turn := Some(turn.value.(interrupting := true)); }
      BeginBackgroundGeneration(Unused);
    }

    // ----- resuming a suspended coroutine; `id` names its frame -----

    /** After its end_output: closes an authorization it owned, and retires the render it matched. */
    method FinishTerminal(id: nat, terminal: TurnId, responseId: Option<ResponseId>, owned: bool)
      requires id in frames && frames[id] == EndThenTerminal(terminal, responseId, owned)
      modifies this
      ensures View() == Resume(old(View()), id)
    {
      hide MaybeRetire, Drop;
      ghost var s := View();
      if owned { outputGeneration := None; }
      ghost var s1 := View();
      assert s1 == if owned then s.(outGen := None) else s;
      var matches := RenderTerminalMatches(responseId, Some(terminal));
      if matches {
        render := Some(render.value.(terminalSeen := true));
        assert View() == s1.(render := Some(s1.render.value.(terminalSeen := true)));
        MaybeRetireRender();
      }
      Forget(id);
    }

    ghost method Forget(id: nat)
      modifies `frames
      ensures View() == Drop(old(View()), id)
    {
      frames := frames - {id};
    }

    /** The last stretch of append_background_speech before append_speech is called. */
    method TakeRenderSlot(id: nat, request: Request)
      requires id in frames && frames[id] == EndThenTake(request)
      modifies this
      ensures View() == Resume(old(View()), id)
    {
      if request.gen != generation {
        Forget(id);
        return;
      }
      TakeSlot(id, request);
    }

    method TakeSlot(id: nat, request: Request)
      modifies this
      ensures View() == OccupySlot(old(View()), id, request)
    {
      hide At, Put;
      NoteStage(request.gen, Rendered(renderCount));
      render := Some(Render(request.gen, renderCount, false, false, None, None, false, false));
      hist := hist.(takes := hist.takes + [request.gen], spoken := hist.spoken + [request]);
      renderCount := renderCount + 1;
      Become(id, RenderRpc(request.gen, renderCount - 1));
    }

    method BargeIn(id: nat, ghost f: Frame)
      requires turn.Some?
      modifies `turn, `turnLock, `hist, `frames
      ensures View() == Barge(old(View()), id, f)
    {
      hist := hist.(barged := hist.barged + {turn.value.inc});
      turn := Some(turn.value.(interrupting := true));
      turnLock := Some(id);
      Become(id, f);
    }

    method EndInterrupt(id: nat, bind: Option<UserTurn>)
      modifies this
      ensures View() == FinishInterrupt(old(View()), id, bind)
    {
      hide Leave, BindUserTurn;
      Finish(id);
      if bind.Some? { BindUser(bind.value.id, bind.value.gen); }
    }

    method InterruptActiveTurn(id: nat, owner: Owner, bind: Option<UserTurn>)
      requires id in frames && frames[id] == InterruptWait(owner, bind)
      modifies this
      ensures View() == Resume(old(View()), id)
    {
      hide FinishInterrupt, Barge;
      if turnLock.Some? { return; }
      var now := TurnOwner();
      if now != owner || turn.None? || turn.value.hadTool {
        EndInterrupt(id, bind);
      } else {
        BargeIn(id, InterruptHold(turn.value.inc, bind));
      }
    }

    method StartBackgroundTurn(id: nat, request: Request)
      requires id in frames && frames[id] == StartWait(request)
      modifies this
      ensures View() == Resume(old(View()), id)
    {
      hide SendTurnStart, Barge, Drop, At;
      if turnLock.Some? { return; }
      if request.gen != generation {
        Forget(id);
      } else if turn.None? {
        CallTurnStart(id, request);
      } else if turn.value.hadTool {
        NoteStage(request.gen, Stage.Queued);
        Forget(id);
        ghost var s1 := View();
        queuedRequest := Some(request);
        assert View() == s1.(queued := Some(request));
      } else {
        BargeIn(id, StartInterrupt(request, turn.value.inc));
      }
    }

    method CallTurnStart(id: nat, request: Request)
      modifies this
      ensures View() == SendTurnStart(old(View()), id, request)
    {
      hide At, Put;
      ghost var s := View();
      queuedRequest := None;
      turnStarting := true;
      turnLock := Some(id);
      assert View() == s.(queued := None, starting := true, turnLock := Some(id));
      NoteStage(request.gen, Starting(id));
      ghost var s1 := View();
      hist := hist.(starts := hist.starts + [request.gen], sent := hist.sent + [request]);
      assert View() == s1.(hist := s1.hist.(starts := s1.hist.starts + [request.gen], sent := s1.hist.sent + [request]));
      Become(id, StartRpc(request));
    }

    /** The interrupted turn is over: the interrupting start goes ahead unless it went stale. */
    method ContinueStart(id: nat, request: Request, inc: nat)
      requires id in frames && frames[id] == StartInterrupt(request, inc) && TurnOver(View(), inc)
      modifies this
      ensures View() == Resume(old(View()), id)
    {
      hide SendTurnStart, Leave;
      if request.gen != generation { Finish(id); } else { CallTurnStart(id, request); }
    }

    method OnTurnStarted(id: nat, request: Request, started: TurnId)
      requires id in frames && frames[id] == StartRpc(request)
      modifies this
      ensures View() == TurnStarted(old(View()), id, started)
    {
      hide Put, At;
      ghost var s := View();
      turnStarting := false;
      assert View() == s.(starting := false);
      Become(id, StartDone);
      if request.gen != generation {
        NoteStage(request.gen, Over);
        return;
      }
      PutKeepsCount(s.(starting := false), id, StartDone);
      NoteStage(request.gen, Running(turnCount));
      ghost var s1 := View();
      turn := Some(Turn(started, request.gen, turnCount, false, false));
      turnCount := turnCount + 1;
      assert View() == s1.(turn := Some(Turn(started, request.gen, s.turnCount, false, false)), turnCount := s.turnCount + 1);
    }

    /** append_speech failed: the slot is given up if it is still this generation's. */
    method FailAppend(id: nat, gen: nat, ghost inc: nat)
      requires id in frames && frames[id] == RenderRpc(gen, inc)
      modifies this
      ensures View() == Abort(old(View()), id)
    {
      hide Leave;
      Finish(id);
      ghost var s1 := View();
      failed := true;
      assert View() == s1.(failed := true);
      if render.Some? && render.value.gen == gen {
        ghost var s2 := View();
        render := None;
        hist := hist.(failedRenders := hist.failedRenders + {gen});
        assert View() == s2.(render := None, hist := s2.hist.(failedRenders := s2.hist.failedRenders + {gen}));
      }
    }

    /** The interrupted turn is over: the interrupting coroutine binds its user turn and ends. */
    method ContinueInterrupt(id: nat, inc: nat, bind: Option<UserTurn>)
      requires id in frames && frames[id] == InterruptHold(inc, bind) && TurnOver(View(), inc)
      modifies this
      ensures View() == Resume(old(View()), id)
    {
      hide FinishInterrupt;
      EndInterrupt(id, bind);
    }

    /** After the previous render retired, and after the quiet tail; `waited` says which. */
    method ContinueAppend(id: nat, request: Request, ghost previous: nat, waited: bool)
      requires id in frames
      requires waited ==> frames[id] == RenderWait(request, previous) && (render.None? || render.value.inc != previous)
      requires !waited ==> frames[id] == RenderQuiet(request)
      modifies this
      ensures View() == Resume(old(View()), id)
    {
      hide Put, Drop;
      if waited {
        Become(id, RenderQuiet(request));
      } else if request.gen != generation {
        Forget(id);
      } else {
        Become(id, EndThenTake(request));
      }
    }

    /** turn/start failed: the lock is released and the socket fails. */
    method FailStart(id: nat, request: Request)
      requires id in frames && frames[id] == StartRpc(request)
      modifies this
      ensures View() == Abort(old(View()), id)
    {
      hide Leave;
      Finish(id);
      FailSocket();
      ghost var s1 := View();
      turnStarting := false;
      assert View() == s1.(starting := false);
    }

    /** Shutdown waits for the turn lock. */
    method InterruptForShutdown()
      modifies this
      ensures View() == ShutdownInterrupt(old(View()))
    {
      hide Spawn;
      if turnLock.Some? { return; }
      ghost var s := View();
      turnLock := Some(nextFrame);
      assert View() == s.(turnLock := Some(nextFrame));
      Suspend(ForcedHold);
    }
  }

  lemma PutKeepsCount(s: State, id: nat, f: Frame)
    ensures Put(s, id, f).turnCount == s.turnCount && Put(s, id, f).gen == s.gen
  {}

  lemma CancelKeepsSlot(s: State)
    ensures CancelRender(s).render.Some? == s.render.Some?
    ensures s.render.None? ==> CancelRender(s) == s
  {}

  lemma ClaimKeepsRest(s: State, id: TurnId, use: Claim)
    ensures var t := ClaimFor(s, id, use);
      t.gen == s.gen && t.turn == s.turn && t.pendingSpeech == s.pendingSpeech && t.nextFrame == s.nextFrame
  {}

  lemma CompleteKeepsRest(s: State, g: nat)
    ensures Complete(s, g).gen == s.gen
  {}
}
