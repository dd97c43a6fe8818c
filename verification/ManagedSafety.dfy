/** What the managed socket guarantees, in every run and under every interleaving. */
module ManagedSafety {
  import opened Wrappers
  import opened ManagedControl
  import opened ManagedInvariant

  // ----- what one step changes -----

  predicate Forced(e: Event) { e.EWatchdogExpired? || e.ETombstone? }

  predicate Active(s: State, inc: nat) { s.turn.Some? && s.turn.value.inc == inc }

  predicate Interrupting(s: State, inc: nat) { Active(s, inc) && s.turn.value.interrupting }

  predicate TakesSlot(s: State, e: Event) {
    e.EResume? && e.frame in s.frames && s.frames[e.frame].EndThenTake? && s.frames[e.frame].request.gen == s.gen
  }

  predicate SameRender(s: State, t: State) {
    s.render.Some? && t.render.Some? && s.render.value.inc == t.render.value.inc
  }

  /** The event resumes a handler of the terminal of the occupant's own turn. */
  predicate RetiresOccupant(s: State, e: Event) {
    && e.EResume? && e.frame in s.frames && s.frames[e.frame].EndThenTerminal?
    && TerminalMatches(s, s.frames[e.frame].responseId, Some(s.frames[e.frame].id))
  }

  /** The event is the terminal of the occupant's own turn. */
  predicate HandlesTerminal(s: State, e: Event) { e.EAssistantTurnDone? && TerminalMatches(s, e.responseId, Some(e.id)) }

  /** The event fails the occupant's own append_speech call. */
  predicate FailsOccupant(s: State, e: Event) {
    && e.EAbort? && e.frame in s.frames && s.frames[e.frame].RenderRpc?
    && s.render.Some? && s.render.value.gen == s.frames[e.frame].gen
  }

  /** The event starts the current generation's acknowledged render with a fresh assistant turn. */
  predicate StartsRender(s: State, e: Event) {
    && e.EAssistantTurnCreated? && e.id !in s.claimed
    && s.render.Some? && s.render.value.ack && s.render.value.turnId.None? && s.render.value.gen == s.gen
  }

  ghost predicate GenerationDelta(s: State, e: Event, t: State) {
    && s.gen <= t.gen <= s.gen + 1
    && (t.gen != s.gen ==> t.outGen.None?)
    && (s.outGen.None? && t.outGen.Some? ==> StartsRender(s, e))
  }

  ghost predicate HistoryDelta(s: State, t: State) {
    && s.hist.starts <= t.hist.starts && s.hist.completions <= t.hist.completions
    && s.hist.dispatches <= t.hist.dispatches && s.hist.bindings <= t.hist.bindings
  }

  ghost predicate TurnDelta(s: State, e: Event, t: State) {
    && (t.hist.barged == s.hist.barged ||
        (s.turn.Some? && !s.turn.value.hadTool && t.hist.barged == s.hist.barged + {s.turn.value.inc}
         && Interrupting(t, s.turn.value.inc)))
    && (t.hist.toolTurns == s.hist.toolTurns ||
        (s.turn.Some? && !s.turn.value.interrupting && s.turn.value.gen == s.gen
         && t.hist.toolTurns == s.hist.toolTurns + {s.turn.value.inc}))
    && (s.turn.Some? && Interrupting(t, s.turn.value.inc) && !s.turn.value.interrupting && !Forced(e) ==>
          s.turn.value.inc in t.hist.barged && !s.turn.value.hadTool)
    && (t.turn.Some? && !Active(s, t.turn.value.inc) ==> !t.turn.value.interrupting && t.turn.value.inc >= s.turnCount)
    && (s.turn.Some? && s.turn.value.interrupting && Active(t, s.turn.value.inc) ==> t.turn.value.interrupting)
    && s.turnCount <= t.turnCount
  }

  ghost predicate SlotDelta(s: State, e: Event, t: State) {
    && (if TakesSlot(s, e) then
          t.hist.takes == s.hist.takes + [s.gen] && t.render.Some? && t.render.value.gen == s.gen
        else if RetiresOccupant(s, e) || FailsOccupant(s, e) then
          t.hist.takes == s.hist.takes && t.render.None?
        else
          t.hist.takes == s.hist.takes && (s.render.None? ==> t.render.None?)
          && (s.render.Some? ==> SameRender(s, t) && t.render.value.gen == s.render.value.gen))
    && (FailsOccupant(s, e) ==> t.failed)
  }

  /** No handler of a terminal is in `t` that was not in `s`. */
  ghost predicate NoNewTerminal(s: State, t: State) {
    forall f | f in t.frames && t.frames[f].EndThenTerminal? :: f in s.frames && s.frames[f] == t.frames[f]
  }

  /** A handler comes only from a matching terminal, and a bound render keeps its correlation. */
  ghost predicate TerminalDelta(s: State, e: Event, t: State) {
    && (if HandlesTerminal(s, e) then
          t == Spawn(s, EndThenTerminal(e.id, e.responseId, s.outGen == Some(s.gen)))
        else NoNewTerminal(s, t))
    && (SameRender(s, t) && s.render.value.turnId.Some? ==>
          && t.render.value.turnId == s.render.value.turnId && t.render.value.responseId == s.render.value.responseId
          && (s.render.value.ack ==> t.render.value.ack) && (s.render.value.started ==> t.render.value.started))
  }

  /** The part of the invariant the step analysis needs. */
  ghost predicate LiveSlot(s: State) {
    s.render.Some? ==> !s.render.value.terminalSeen && s.render.value.inc < s.renderCount
  }

  ghost predicate Delta(s: State, e: Event, t: State) {
    GenerationDelta(s, e, t) && HistoryDelta(s, t) && TurnDelta(s, e, t) && SlotDelta(s, e, t) && TerminalDelta(s, e, t)
  }

  // ----- steps that move nothing the deltas speak of -----

  ghost predicate Quiet(s: State, t: State) {
    && t.gen == s.gen && t.outGen == s.outGen && t.turn == s.turn && t.turnCount == s.turnCount && NoNewTerminal(s, t)
    && HistoryDelta(s, t) && t.hist.takes == s.hist.takes
    && t.hist.barged == s.hist.barged && t.hist.toolTurns == s.hist.toolTurns
    && (s.render.None? ==> t.render.None?)
    && (s.render.Some? ==>
          t.render.Some? && t.render.value == s.render.value.(cancelRequested := t.render.value.cancelRequested))
  }

  predicate Plain(e: Event) { !e.EResume? && !e.EAbort? && !e.EAssistantTurnCreated? && !e.EAssistantTurnDone? }

  lemma QuietTrans(s: State, t: State, u: State)
    requires Quiet(s, t) && Quiet(t, u)
    ensures Quiet(s, u)
  {}

  lemma QuietDelta(s: State, e: Event, t: State)
    requires Quiet(s, t) && !TakesSlot(s, e) && !RetiresOccupant(s, e) && !FailsOccupant(s, e) && !HandlesTerminal(s, e)
    ensures Delta(s, e, t)
  {}

  lemma DeltaThenQuiet(s: State, e: Event, t: State, u: State)
    requires Delta(s, e, t) && Quiet(t, u) && (FailsOccupant(s, e) ==> u.failed) && !HandlesTerminal(s, e)
    ensures Delta(s, e, u)
  {}

  lemma NewGenerationDelta(s: State, e: Event, s1: State, st: Stage, t: State)
    requires Plain(e) && Quiet(s, s1) && Quiet(BeginGeneration(s1, st), t)
    ensures Delta(s, e, t)
  {}

  lemma SpawnQuiet(s: State, f: Frame) requires !f.EndThenTerminal? ensures Quiet(s, Spawn(s, f)) {}

  lemma PutQuiet(s: State, id: nat, f: Frame) requires !f.EndThenTerminal? ensures Quiet(s, Put(s, id, f)) {}

  lemma LeaveQuiet(s: State, id: nat)
    ensures Quiet(s, Drop(s, id)) && Quiet(s, Leave(s, id))
  {}

  lemma AtQuiet(s: State, g: nat, st: Stage) ensures Quiet(s, At(s, g, st)) {}

  lemma ClaimQuiet(s: State, id: TurnId, c: Claim)
    ensures Quiet(s, ClaimFor(s, id, c)) && Quiet(s, ClaimTombstone(s, id))
  {}

  lemma CancelQuiet(s: State) ensures Quiet(s, CancelRender(s)) {}

  lemma BindQuiet(s: State, id: TurnId, g: nat)
    ensures Quiet(s, BindUserTurn(s, id, g))
  {}

  lemma CompleteQuiet(s: State, g: nat) ensures Quiet(s, Complete(s, g)) {}

  lemma FlagsQuiet(s: State, pending: Option<nat>, handled: bool)
    ensures Quiet(s, s.(pendingSpeech := pending, transcriptHandled := handled))
  {}

  lemma CancelSpawnQuiet(s: State, f: Frame)
    requires !f.EndThenTerminal?
    ensures Quiet(s, Spawn(CancelRender(s), f))
  {
    hide Quiet, Spawn, CancelRender;
    CancelQuiet(s);
    SpawnQuiet(CancelRender(s), f);
    QuietTrans(s, CancelRender(s), Spawn(CancelRender(s), f));
  }

  /** The tombstone shared by the four events that begin a generation. */
  lemma TombstoneDelta(s: State, e: Event, s1: State, st: Stage, pending: Option<nat>, handled: bool, f: Frame)
    requires Plain(e) && Quiet(s, s1) && !f.EndThenTerminal?
    ensures Delta(s, e, Spawn(CancelRender(BeginGeneration(s1, st).(pendingSpeech := pending, transcriptHandled := handled)), f))
  {
    hide Quiet, Delta, BeginGeneration, Spawn, CancelRender;
    var b := BeginGeneration(s1, st);
    var u := b.(pendingSpeech := pending, transcriptHandled := handled);
    FlagsQuiet(b, pending, handled);
    CancelSpawnQuiet(u, f);
    QuietTrans(b, u, Spawn(CancelRender(u), f));
    NewGenerationDelta(s, e, s1, st, Spawn(CancelRender(u), f));
  }

  // ----- the delta of each event -----

  lemma ContextAppendedDelta(s: State)
    requires LiveSlot(s)
    ensures Delta(s, EContextAppended, ContextAppended(s))
  {}

  lemma UserTurnCreatedDelta(s: State, id: TurnId)
    ensures Delta(s, EUserTurnCreated(id), UserTurnCreated(s, id))
  {
    hide Quiet, Delta, BeginGeneration, Spawn, CancelRender, BindUserTurn;
    var e := EUserTurnCreated(id);
    if id in s.claimed { FailQuiet(s); QuietDelta(s, e, s); return; }
    if |s.claimed| >= MAX_MANAGED_TURNS_PER_SESSION { FailQuiet(s); QuietDelta(s, e, s.(failed := true)); return; }
    if s.pendingSpeech == Some(s.gen) {
      ClaimQuiet(s, id, User(s.gen));
      var s1 := ClaimFor(s, id, User(s.gen));
      FlagsQuiet(s1, None, s1.transcriptHandled);
      QuietTrans(s, s1, s1.(pendingSpeech := None));
      BindQuiet(s1.(pendingSpeech := None), id, s.gen);
      QuietTrans(s, s1.(pendingSpeech := None), UserTurnCreated(s, id));
      QuietDelta(s, e, UserTurnCreated(s, id));
      return;
    }
    ClaimQuiet(s, id, User(s.gen + 1));
    var s1 := ClaimFor(s, id, User(s.gen + 1));
    var b := BeginGeneration(s1, Carried(s.nextFrame));
    TombstoneDelta(s, e, s1, Carried(s.nextFrame), b.pendingSpeech, false,
                   EndThenInterrupt(CurrentOwner(s), Some(UserTurn(id, b.gen))));
  }

  lemma FailQuiet(s: State)
    ensures Quiet(s, s) && Quiet(s, s.(failed := true))
  {}

  lemma RemoveQuiet(s: State, turns: seq<UserTurn>, handled: bool)
    ensures Quiet(s, s.(userTurns := turns)) && Quiet(s, s.(userTurns := turns, transcriptHandled := handled))
  {}

  lemma DispatchQuiet(s: State, id: TurnId)
    ensures Quiet(s, s.(hist := s.hist.(claims := s.hist.claims[id := Dispatched], dispatches := s.hist.dispatches + [id])))
  {}

  lemma UserTurnDoneDelta(s: State, id: Option<TurnId>, transcript: Transcript)
    ensures Delta(s, EUserTurnDone(id, transcript), UserTurnDone(s, id, transcript))
  {
    hide Quiet, Delta, Spawn, CancelRender, At, ClaimTombstone;
    var e := EUserTurnDone(id, transcript);
    if id.None? { FailQuiet(s); QuietDelta(s, e, s); return; }
    var i := FindUserTurn(s.userTurns, id.value);
    if i == |s.userTurns| { ClaimQuiet(s, id.value, Tombstone); QuietDelta(s, e, ClaimTombstone(s, id.value)); return; }
    var g := s.userTurns[i].gen;
    var s1 := s.(userTurns := s.userTurns[..i] + s.userTurns[i + 1..]);
    RemoveQuiet(s, s1.userTurns, true);
    if g != s.gen || s.transcriptHandled { QuietDelta(s, e, s1); return; }
    var s2 := s1.(transcriptHandled := true);
    if !transcript.Spoken? { QuietDelta(s, e, s2); return; }
    CancelQuiet(s2);
    AtQuiet(CancelRender(s2), g, Carried(s.nextFrame));
    var s3 := At(CancelRender(s2), g, Carried(s.nextFrame));
    DispatchQuiet(s3, id.value);
    var s4 := s3.(hist := s3.hist.(claims := s3.hist.claims[id.value := Dispatched],
                                   dispatches := s3.hist.dispatches + [id.value]));
    var f := EndThenStart(Request(g, transcript.text));
    SpawnQuiet(s4, f);
    QuietTrans(s, s2, CancelRender(s2));
    QuietTrans(s, CancelRender(s2), s3);
    QuietTrans(s, s3, s4);
    QuietTrans(s, s4, Spawn(s4, f));
    QuietDelta(s, e, Spawn(s4, f));
  }

  lemma SpeechStartedDelta(s: State)
    ensures Delta(s, ESpeechStarted, SpeechStarted(s))
  {
    hide Quiet, Delta, BeginGeneration, Spawn, CancelRender;
    FailQuiet(s);
    if s.pendingSpeech.Some? { QuietDelta(s, ESpeechStarted, s); return; }
    TombstoneDelta(s, ESpeechStarted, s, Awaited, Some(BeginGeneration(s, Awaited).gen), false,
                   EndThenInterrupt(CurrentOwner(s), None));
  }

  lemma CurrentRenderDelta(s: State, id: TurnId)
    requires id !in s.claimed && |s.claimed| < MAX_MANAGED_TURNS_PER_SESSION
    requires s.render.Some? && s.render.value.ack && s.render.value.turnId.None? && s.render.value.gen == s.gen
    ensures Delta(s, EAssistantTurnCreated(id), AssistantTurnCreated(s, id))
  {}

  lemma StaleRenderDelta(s: State, id: TurnId)
    requires id !in s.claimed && |s.claimed| < MAX_MANAGED_TURNS_PER_SESSION
    requires s.render.Some? && s.render.value.ack && s.render.value.turnId.None? && s.render.value.gen != s.gen
    ensures Delta(s, EAssistantTurnCreated(id), AssistantTurnCreated(s, id))
  {}

  lemma AssistantTurnCreatedDelta(s: State, id: TurnId)
    requires s.render.Some? && s.render.value.turnId.Some? ==> s.render.value.turnId.value in s.claimed
    ensures Delta(s, EAssistantTurnCreated(id), AssistantTurnCreated(s, id))
  {
    hide Quiet, Delta, ClaimFor;
    var e := EAssistantTurnCreated(id);
    FailQuiet(s);
    ClaimQuiet(s, id, Tombstone);
    if id in s.claimed { QuietDelta(s, e, s); return; }
    if |s.claimed| >= MAX_MANAGED_TURNS_PER_SESSION { QuietDelta(s, e, s.(failed := true)); return; }
    if !StartMatches(s, None, Some(id)) { QuietDelta(s, e, ClaimFor(s, id, Tombstone)); return; }
    if s.render.value.gen == s.gen { CurrentRenderDelta(s, id); } else { StaleRenderDelta(s, id); }
  }

  lemma TerminalHandledDelta(s: State, id: TurnId, responseId: Option<ResponseId>)
    requires TerminalMatches(s, responseId, Some(id))
    ensures Delta(s, EAssistantTurnDone(id, responseId), AssistantTurnDone(s, id, responseId))
  {}

  lemma AssistantTurnDoneDelta(s: State, id: TurnId, responseId: Option<ResponseId>)
    ensures Delta(s, EAssistantTurnDone(id, responseId), AssistantTurnDone(s, id, responseId))
  {
    hide Quiet, Delta, ClaimTombstone, Spawn;
    if TerminalMatches(s, responseId, Some(id)) { TerminalHandledDelta(s, id, responseId); return; }
    ClaimQuiet(s, id, Tombstone);
    FailQuiet(s);
    QuietDelta(s, EAssistantTurnDone(id, responseId), AssistantTurnDone(s, id, responseId));
  }

  lemma DeviceTextDelta(s: State, text: string)
    ensures Delta(s, EDeviceText(text), DeviceText(s, text))
  {
    hide Quiet, Delta, BeginGeneration, Spawn, CancelRender;
    FailQuiet(s);
    var b := BeginGeneration(s, Carried(s.nextFrame));
    TombstoneDelta(s, EDeviceText(text), s, Carried(s.nextFrame), None, true, EndThenStart(Request(b.gen, text)));
  }

  lemma DeviceInterruptDelta(s: State)
    ensures Delta(s, EDeviceInterrupt, DeviceInterrupt(s))
  {
    hide Quiet, Delta, BeginGeneration, Spawn, CancelRender;
    FailQuiet(s);
    TombstoneDelta(s, EDeviceInterrupt, s, Unused, None, true, EndThenInterrupt(CurrentOwner(s), None));
  }

  lemma ToolCallDelta(s: State, id: Option<TurnId>)
    ensures Delta(s, EToolCall(id), ToolCall(s, id))
  {
    if Buffered(s, id) || !ToolAdmitted(s, id) { FailQuiet(s); QuietDelta(s, EToolCall(id), s); return; }
  }

  lemma BeginAppendQuiet(s: State, g: nat, answer: Answer)
    ensures Quiet(s, BeginAppend(s, g, answer))
  {
    hide Quiet, Spawn, CancelRender, At;
    if g != s.gen || !answer.Speak? { FailQuiet(s); return; }
    CancelQuiet(s);
    AtQuiet(CancelRender(s), g, Answering(s.nextFrame));
    var s1 := At(CancelRender(s), g, Answering(s.nextFrame));
    QuietTrans(s, CancelRender(s), s1);
    SpawnQuiet(s1, if s.render.Some? then RenderWait(Request(g, answer.text), s.render.value.inc)
                   else RenderQuiet(Request(g, answer.text)));
    QuietTrans(s, s1, BeginAppend(s, g, answer));
  }

  lemma EndTurnDelta(s: State, e: Event)
    requires Plain(e)
    ensures Delta(s, e, s.(turn := None, queued := None))
  {}

  lemma ResumeQueuedQuiet(s: State, t: State, r: Request)
    requires Quiet(s, t)
    ensures Quiet(s, Spawn(At(t, r.gen, Carried(t.nextFrame)), StartWait(r)))
  {
    hide Quiet, Spawn, At;
    var u := At(t, r.gen, Carried(t.nextFrame));
    AtQuiet(t, r.gen, Carried(t.nextFrame));
    SpawnQuiet(u, StartWait(r));
    QuietTrans(s, t, u);
    QuietTrans(s, u, Spawn(u, StartWait(r)));
  }

  lemma TurnCompletedDelta(s: State, id: Option<TurnId>, completed: bool, answer: Answer)
    ensures Delta(s, ETurnCompleted(id, completed, answer), TurnCompleted(s, id, completed, answer))
  {
    hide Quiet, Delta, Spawn, At, Complete, BeginAppend;
    var e := ETurnCompleted(id, completed, answer);
    FailQuiet(s);
    if Buffered(s, id) || id != ActiveId(s) { QuietDelta(s, e, s); return; }
    var g, s1 := CurrentOwner(s).gen, s.(turn := None, queued := None);
    EndTurnDelta(s, e);
    FailQuiet(s1);
    var s2 := if g.Some? then Complete(s1, g.value) else s1;
    if g.Some? { CompleteQuiet(s1, g.value); }
    if g == Some(s.gen) && !completed { FailQuiet(s2); QuietTrans(s1, s2, s2.(failed := true)); }
    else {
      var s3 := if g.Some? then BeginAppend(s2, g.value, answer) else s2;
      FailQuiet(s2);
      if g.Some? { BeginAppendQuiet(s2, g.value, answer); }
      QuietTrans(s1, s2, s3);
      if s.queued.Some? && s.queued.value.gen == s3.gen { ResumeQueuedQuiet(s1, s3, s.queued.value); }
    }
    DeltaThenQuiet(s, e, s1, TurnCompleted(s, id, completed, answer));
  }

  lemma WatchdogExpiredDelta(s: State)
    ensures Delta(s, EWatchdogExpired, WatchdogExpired(s))
  {}

  lemma ShutdownTombstoneDelta(s: State)
    ensures Delta(s, ETombstone, ShutdownTombstone(s))
  {}

  lemma ShutdownInterruptDelta(s: State)
    ensures Delta(s, EShutdownInterrupt, ShutdownInterrupt(s))
  {
    hide Delta, Spawn, Quiet;
    FailQuiet(s);
    LockQuiet(s);
    SpawnQuiet(s.(turnLock := Some(s.nextFrame)), ForcedHold);
    QuietTrans(s, s.(turnLock := Some(s.nextFrame)), Spawn(s.(turnLock := Some(s.nextFrame)), ForcedHold));
    QuietDelta(s, EShutdownInterrupt, ShutdownInterrupt(s));
  }

  lemma LockQuiet(s: State)
    ensures Quiet(s, s.(turnLock := Some(s.nextFrame)))
  {}

  lemma FinishInterruptQuiet(s: State, id: nat, bind: Option<UserTurn>)
    ensures Quiet(s, FinishInterrupt(s, id, bind))
  {
    hide Quiet, Leave, BindUserTurn;
    LeaveQuiet(s, id);
    if bind.Some? {
      BindQuiet(Leave(s, id), bind.value.id, bind.value.gen);
      QuietTrans(s, Leave(s, id), FinishInterrupt(s, id, bind));
    }
  }

  lemma BargeDelta(s: State, id: nat, f: Frame)
    requires s.turn.Some? && !s.turn.value.hadTool && !f.EndThenTerminal?
    requires id in s.frames && (s.frames[id].InterruptWait? || s.frames[id].StartWait?)
    ensures Delta(s, EResume(id), Barge(s, id, f))
  {}

  lemma ResumeInterruptDelta(s: State, id: nat)
    requires id in s.frames && HasBind(s.frames[id])
    ensures Delta(s, EResume(id), Resume(s, id))
  {
    hide Quiet, Delta, FinishInterrupt, Barge, Put;
    var f := s.frames[id];
    FailQuiet(s);
    FinishInterruptQuiet(s, id, f.bind);
    if f.EndThenInterrupt? { PutQuiet(s, id, InterruptWait(f.owner, f.bind)); }
    if f.InterruptWait? && s.turnLock.None? && CurrentOwner(s) == f.owner && s.turn.Some? && !s.turn.value.hadTool {
      BargeDelta(s, id, InterruptHold(s.turn.value.inc, f.bind));
      return;
    }
    QuietDelta(s, EResume(id), Resume(s, id));
  }

  lemma SendTurnStartQuiet(s: State, id: nat, r: Request)
    ensures Quiet(s, SendTurnStart(s, id, r))
  {}

  lemma QueueQuiet(s: State, id: nat, r: Request)
    ensures Quiet(s, Drop(At(s, r.gen, Stage.Queued), id).(queued := Some(r)))
  {}

  predicate IsStart(f: Frame) { f.EndThenStart? || f.StartWait? || f.StartInterrupt? || f.StartRpc? || f.StartDone? || f.ForcedHold? }

  lemma ResumeStartDelta(s: State, id: nat)
    requires id in s.frames && IsStart(s.frames[id])
    ensures Delta(s, EResume(id), Resume(s, id))
  {
    hide Quiet, Delta, SendTurnStart, Barge, Put, Leave, Drop, At;
    var f := s.frames[id];
    FailQuiet(s);
    LeaveQuiet(s, id);
    if f.EndThenStart? { PutQuiet(s, id, StartWait(f.request)); }
    if f.StartWait? || f.StartInterrupt? {
      SendTurnStartQuiet(s, id, f.request);
      QueueQuiet(s, id, f.request);
    }
    if f.StartWait? && s.turnLock.None? && f.request.gen == s.gen && s.turn.Some? && !s.turn.value.hadTool {
      BargeDelta(s, id, StartInterrupt(f.request, s.turn.value.inc));
      return;
    }
    QuietDelta(s, EResume(id), Resume(s, id));
  }

  lemma RetireDelta(s: State, id: nat)
    requires LiveSlot(s) && id in s.frames && s.frames[id].EndThenTerminal?
    requires TerminalMatches(s, s.frames[id].responseId, Some(s.frames[id].id))
    ensures Delta(s, EResume(id), Drop(s.(outGen := None, render := None), id))
    ensures Delta(s, EResume(id), Drop(s.(render := None), id))
  {}

  lemma StaleTerminalDelta(s: State, id: nat)
    requires id in s.frames && s.frames[id].EndThenTerminal?
    requires !TerminalMatches(s, s.frames[id].responseId, Some(s.frames[id].id))
    ensures Delta(s, EResume(id), Drop(s.(outGen := None), id))
    ensures Delta(s, EResume(id), Drop(s, id))
  {}

  lemma ResumeTerminalDelta(s: State, id: nat)
    requires LiveSlot(s) && id in s.frames && s.frames[id].EndThenTerminal?
    ensures Delta(s, EResume(id), Resume(s, id))
  {
    hide Delta, Drop;
    var f := s.frames[id];
    if TerminalMatches(s, f.responseId, Some(f.id)) { RetireDelta(s, id); } else { StaleTerminalDelta(s, id); }
  }

  lemma TakeDelta(s: State, id: nat)
    requires LiveSlot(s) && id in s.frames && s.frames[id].EndThenTake? && s.frames[id].request.gen == s.gen
    ensures Delta(s, EResume(id), ResumeTake(s, id, s.frames[id].request))
  {}

  lemma ResumeRenderDelta(s: State, id: nat)
    requires LiveSlot(s) && id in s.frames && (IsAnswer(s.frames[id]) || s.frames[id].RenderRpc?)
    ensures Delta(s, EResume(id), Resume(s, id))
  {
    hide Quiet, Delta, Put, Drop;
    var f := s.frames[id];
    if f.EndThenTake? && f.request.gen == s.gen { TakeDelta(s, id); return; }
    FailQuiet(s);
    LeaveQuiet(s, id);
    if IsAnswer(f) {
      PutQuiet(s, id, RenderQuiet(f.request));
      PutQuiet(s, id, EndThenTake(f.request));
    }
    QuietDelta(s, EResume(id), Resume(s, id));
  }

  lemma ResumeDelta(s: State, id: nat)
    requires LiveSlot(s)
    ensures Delta(s, EResume(id), Resume(s, id))
  {
    hide Resume, Delta, Quiet;
    if id in s.frames {
      if HasBind(s.frames[id]) { ResumeInterruptDelta(s, id); }
      else if IsStart(s.frames[id]) { ResumeStartDelta(s, id); }
      else if s.frames[id].EndThenTerminal? { ResumeTerminalDelta(s, id); }
      else { ResumeRenderDelta(s, id); }
    } else {
      UnknownFrameDelta(s, id);
    }
  }

  lemma UnknownFrameDelta(s: State, id: nat)
    requires id !in s.frames
    ensures Delta(s, EResume(id), Resume(s, id)) && Delta(s, EAbort(id), Abort(s, id))
  {
    hide Delta, Quiet;
    FailQuiet(s);
    QuietDelta(s, EResume(id), s);
    QuietDelta(s, EAbort(id), s);
  }

  lemma ActivateDelta(s: State, e: Event, s1: State, turnId: TurnId, g: nat)
    requires Plain(e) && Quiet(s, s1) && (s.turn.Some? ==> s.turn.value.inc < s.turnCount)
    ensures Delta(s, e, s1.(turn := Some(Turn(turnId, g, s.turnCount, false, false)), turnCount := s.turnCount + 1))
  {}

  lemma TurnStartedDelta(s: State, id: nat, turnId: TurnId)
    requires s.turn.Some? ==> s.turn.value.inc < s.turnCount
    ensures Delta(s, ETurnStarted(id, turnId), TurnStarted(s, id, turnId))
  {
    hide Quiet, Delta, Put, At;
    var e := ETurnStarted(id, turnId);
    FailQuiet(s);
    if id !in s.frames || !s.frames[id].StartRpc? { QuietDelta(s, e, s); return; }
    var r, s0 := s.frames[id].request, s.(starting := false);
    NotStartingQuiet(s);
    PutQuiet(s0, id, StartDone);
    QuietTrans(s, s0, Put(s0, id, StartDone));
    var st := if r.gen != s.gen then Over else Running(s.turnCount);
    AtQuiet(Put(s0, id, StartDone), r.gen, st);
    var s1 := At(Put(s0, id, StartDone), r.gen, st);
    QuietTrans(s, Put(s0, id, StartDone), s1);
    if r.gen != s.gen { QuietDelta(s, e, s1); } else { ActivateDelta(s, e, s1, turnId, r.gen); }
  }

  lemma NotStartingQuiet(s: State)
    ensures Quiet(s, s.(starting := false))
  {}

  lemma FailedRenderDelta(s: State, id: nat, s1: State)
    requires id in s.frames && s.frames[id].RenderRpc? && s.render.Some? && s.render.value.gen == s.frames[id].gen
    requires Quiet(s, s1) && s1.failed
    ensures Delta(s, EAbort(id), s1.(render := None, hist := s1.hist.(failedRenders := s1.hist.failedRenders + {s.frames[id].gen})))
  {}

  lemma AbortDelta(s: State, id: nat)
    ensures Delta(s, EAbort(id), Abort(s, id))
  {
    hide Quiet, Delta, Leave;
    if id !in s.frames { UnknownFrameDelta(s, id); return; }
    var s1 := Leave(s, id).(failed := true);
    LeaveQuiet(s, id);
    FailQuiet(Leave(s, id));
    QuietTrans(s, Leave(s, id), s1);
    NotStartingQuiet(s1);
    QuietTrans(s, s1, s1.(starting := false));
    LeaveKeepsSlot(s, id);
    if s.frames[id].RenderRpc? && s.render.Some? && s.render.value.gen == s.frames[id].gen {
      FailedRenderDelta(s, id, s1);
    } else {
      QuietDelta(s, EAbort(id), Abort(s, id));
    }
  }

  lemma LeaveKeepsSlot(s: State, id: nat)
    ensures Leave(s, id).render == s.render
  {}

  /** Every step stays within the four deltas. */
  lemma StepDelta(s: State, e: Event)
    requires Inv(s)
    ensures Delta(s, e, Step(s, e))
  {
    hide Delta, Frames, Lock, Requests, Gate, Claims, UserTurnCreated, UserTurnDone, AssistantTurnCreated,
      AssistantTurnDone, TurnCompleted, Resume, TurnStarted, Abort, SpeechStarted, DeviceText, DeviceInterrupt;
    match e
    case EContextAppended => ContextAppendedDelta(s);
    case EUserTurnCreated(id) => UserTurnCreatedDelta(s, id);
    case EUserTurnDone(id, transcript) => UserTurnDoneDelta(s, id, transcript);
    case ESpeechStarted => SpeechStartedDelta(s);
    case EAssistantTurnCreated(id) => AssistantTurnCreatedDelta(s, id);
    case EAssistantTurnDone(id, responseId) => AssistantTurnDoneDelta(s, id, responseId);
    case EDeviceText(text) => DeviceTextDelta(s, text);
    case EDeviceInterrupt => DeviceInterruptDelta(s);
    case EToolCall(id) => ToolCallDelta(s, id);
    case ETurnCompleted(id, completed, answer) => TurnCompletedDelta(s, id, completed, answer);
    case EWatchdogExpired => WatchdogExpiredDelta(s);
    case ETombstone => ShutdownTombstoneDelta(s);
    case EShutdownInterrupt => ShutdownInterruptDelta(s);
    case EResume(frame) => ResumeDelta(s, frame);
    case ETurnStarted(frame, id) => TurnStartedDelta(s, frame, id);
    case EAbort(frame) => AbortDelta(s, frame);
  }

  // ----- interruption against tool dispatch -----

  /** An executor turn that was interrupted by barge-in never dispatched a tool, and conversely. */
  lemma BargeExcludesTools(events: seq<Event>)
    ensures Reached(events).hist.barged !! Reached(events).hist.toolTurns
  {
    ReachedKeeps(events);
  }

  /**
   The two history sets miss nothing. A step records a barge exactly when it sets the tombstone on a
   turn that has run no tool, and records a tool only when the turn is active, not tombstoned and of
   the current generation. Only the watchdog and shutdown tombstone a turn without recording it.
   */
  lemma HistoryIsComplete(s: State, e: Event, inc: nat)
    requires Inv(s)
    ensures s.hist.barged <= Step(s, e).hist.barged && s.hist.toolTurns <= Step(s, e).hist.toolTurns
    ensures inc in Step(s, e).hist.barged - s.hist.barged ==>
      Active(s, inc) && !s.turn.value.hadTool && Interrupting(Step(s, e), inc)
    ensures inc in Step(s, e).hist.toolTurns - s.hist.toolTurns ==>
      Active(s, inc) && !Interrupting(s, inc) && s.turn.value.gen == s.gen
    ensures Interrupting(Step(s, e), inc) && !Interrupting(s, inc) && !Forced(e) ==>
      inc in Step(s, e).hist.barged && inc !in s.hist.toolTurns
  {
    hide Step, Frames, Lock, Requests, Slot, Gate, Claims, GenerationDelta, SlotDelta, HistoryDelta;
    StepDelta(s, e);
  }

  /** A newer utterance, text or device interrupt leaves a turn that has run a tool alone. */
  lemma ToolTurnIsNotInterrupted(s: State, e: Event, inc: nat)
    requires Inv(s) && inc in s.hist.toolTurns && !Forced(e) && !Interrupting(s, inc)
    ensures !Interrupting(Step(s, e), inc)
  {
    hide Step, Frames, Lock, Requests, Turns, Slot, Gate, Claims;
    HistoryIsComplete(s, e, inc);
  }

  // ----- one of each per generation and per provider turn id -----

  /** Each generation causes at most one turn/start, completes at most one turn, renders at most once. */
  lemma OnePerGeneration(events: seq<Event>)
    ensures var h := Reached(events).hist;
      Distinct(h.starts) && Distinct(h.completions) && Distinct(h.takes)
  {
    ReachedKeeps(events);
  }

  /** A provider turn id dispatched one request, or was bound to one render, or neither. */
  lemma OneUsePerTurnId(events: seq<Event>)
    ensures var h := Reached(events).hist;
      && Distinct(h.dispatches) && Distinct(h.bindings)
      && forall id :: !(id in h.dispatches && id in h.bindings)
  {
    ReachedKeeps(events);
  }

  /** Those histories are append-only; generations only grow, and a new one closes the gate at once. */
  lemma HistoryGrows(s: State, e: Event)
    requires Inv(s)
    ensures var h, k := s.hist, Step(s, e).hist;
      && h.starts <= k.starts && h.completions <= k.completions && h.takes <= k.takes
      && h.dispatches <= k.dispatches && h.bindings <= k.bindings
    ensures s.gen <= Step(s, e).gen <= s.gen + 1
    ensures Step(s, e).gen != s.gen ==> Step(s, e).outGen.None?
  {
    hide Step, Inv;
    StepDelta(s, e);
  }

  // ----- the queue behind a tool-bearing turn -----

  predicate Answers(s: State, g: nat) {
    exists id :: id in s.frames && IsAnswer(s.frames[id]) && s.frames[id].request.gen == g
  }

  /**
   A queued request waits behind an older turn that has run a tool. That turn's completion renders
   nothing, and resumes the queued request exactly when its generation is still current.
   */
  lemma QueuedRunsIffCurrent(s: State, completed: bool, answer: Answer)
    requires Inv(s) && s.queued.Some?
    ensures s.turn.Some? && s.turn.value.hadTool && s.turn.value.gen < s.queued.value.gen <= s.gen
    ensures var t := TurnCompleted(s, Some(s.turn.value.id), completed, answer);
      && t.queued.None? && t.turn.None? && t.failed == s.failed
      && !Answers(t, s.turn.value.gen)
      && t.frames == if s.queued.value.gen == s.gen then s.frames[s.nextFrame := StartWait(s.queued.value)] else s.frames
  {
    var g := s.turn.value.gen;
    forall id | id in s.frames && IsAnswer(s.frames[id]) ensures s.frames[id].request.gen != g {
      assert FrameOk(s, id, s.frames[id]);
    }
  }

  // ----- the render slot -----

  /** The slot is taken only when it is empty, by the current generation, however many appends wait. */
  lemma SlotTakenWhenEmpty(s: State, e: Event)
    requires Inv(s)
    ensures Step(s, e).hist.takes != s.hist.takes <==> TakesSlot(s, e)
    ensures TakesSlot(s, e) ==>
      && s.render.None? && s.gen !in s.hist.takes
      && Step(s, e).hist.takes == s.hist.takes + [s.gen]
      && Step(s, e).render.Some? && Step(s, e).render.value.gen == s.gen
  {
    hide Step, Frames, Lock, Requests, Turns, Slot, Gate, Claims, Unheld;
    StepDelta(s, e);
    if TakesSlot(s, e) { LeaveForRenderRpc(s, e.frame, 0); }
  }

  /**
   The slot is released exactly by the matching terminal of an acknowledged, started render, or by
   its own append_speech failing, which ends the socket.
   */
  lemma SlotReleasedOnlyByItsTerminal(s: State, e: Event)
    requires Inv(s) && s.render.Some?
    ensures !SameRender(s, Step(s, e)) <==> RetiresOccupant(s, e) || FailsOccupant(s, e)
    ensures SameRender(s, Step(s, e)) ==> Step(s, e).render.value.gen == s.render.value.gen
    ensures RetiresOccupant(s, e) ==>
      s.render.value.ack && s.render.value.started && s.render.value.turnId == Some(s.frames[e.frame].id)
    ensures FailsOccupant(s, e) ==> Step(s, e).failed
  {
    hide Step, Frames, Lock, Requests, Turns, Slot, Gate, Claims, Unheld;
    StepDelta(s, e);
    if TakesSlot(s, e) { LeaveForRenderRpc(s, e.frame, 0); }
  }

  // ----- the output gate -----

  /** The occupant of the slot took it, after its generation's executor turn completed. */
  lemma {:induction false} RenderedWasTaken(events: seq<Event>)
    ensures var s := Reached(events);
      s.render.Some? ==> s.render.value.gen in s.hist.takes
  {
    hide Step, Inv;
    if events != [] {
      var s, e := Reached(events[..|events| - 1]), events[|events| - 1];
      RenderedWasTaken(events[..|events| - 1]);
      ReachedKeeps(events[..|events| - 1]);
      StepDelta(s, e);
    }
  }

  /**
   Output is authorized only while the slot holds an acknowledged, started render of the current
   generation; the one exception is a generation whose append_speech call failed.
   */
  lemma AuthorizedMeansCurrentRender(events: seq<Event>)
    ensures var s := Reached(events);
      && (s.outGen.Some? ==> s.outGen.value == s.gen)
      && (s.outGen.Some? && s.gen !in s.hist.failedRenders ==>
            && s.render.Some? && s.render.value.gen == s.gen && s.gen in s.hist.takes
            && s.render.value.ack && s.render.value.started && s.render.value.turnId.Some?)
  {
    ReachedKeeps(events);
    RenderedWasTaken(events);
  }

  /** The gate opens only when a fresh assistant turn starts the current generation's acknowledged render. */
  lemma GateOpensOnlyAtRenderStart(s: State, e: Event)
    requires Inv(s) && s.outGen.None? && Step(s, e).outGen.Some?
    ensures StartsRender(s, e)
  {
    hide Step, Inv;
    StepDelta(s, e);
  }
}
